/**
 * The quotation form's validation (`useFormValidation`): a check per field
 * that yields an error message or the empty string, and the pass over every
 * field that gathers the messages into an error map and reports whether the
 * form is valid.
 */
module FormValidation {
  import JsText
  import Appraisal
  import RossHeidecke

  /** The keys of the quotation form, in the order the form object lists them. */
  datatype Field =
    | Propiedad | Terreno | ValorResidual | ValorReposicion | AnosPropiedad
    | EstadoPropiedad | CantidadM2 | ValorM2 | DolarHoy

  /** Every key once, in `Object.entries` order. */
  const Fields: seq<Field> :=
    [Propiedad, Terreno, ValorResidual, ValorReposicion, AnosPropiedad,
     EstadoPropiedad, CantidadM2, ValorM2, DolarHoy]

  /** The key as the form object spells it. */
  function Name(f: Field): string {
    match f
    case Propiedad => "propiedad"
    case Terreno => "terreno"
    case ValorResidual => "valorResidual"
    case ValorReposicion => "valorReposicion"
    case AnosPropiedad => "anosPropiedad"
    case EstadoPropiedad => "estadoPropiedad"
    case CantidadM2 => "cantidadM2"
    case ValorM2 => "valorM2"
    case DolarHoy => "dolarHoy"
  }

  /** A field value as JavaScript sees it: a string or a number. */
  datatype FieldValue = Text(s: string) | Number(n: real)

  predicate IsTextField(f: Field) {
    f == Propiedad || f == Terreno
  }

  /** The money and area fields, which must not be negative. */
  predicate IsAmountField(f: Field) {
    f == ValorResidual || f == ValorReposicion || f == CantidadM2 || f == ValorM2
  }

  /** The value stored under `f` in the form. */
  function ValueOf(data: Appraisal.FormData, f: Field): (v: FieldValue)
    ensures v.Text? <==> IsTextField(f)
  {
    match f
    case Propiedad => Text(data.propiedad)
    case Terreno => Text(data.terreno)
    case ValorResidual => Number(data.valorResidual)
    case ValorReposicion => Number(data.valorReposicion)
    case AnosPropiedad => Number(data.anosPropiedad)
    case EstadoPropiedad => Number(data.estadoPropiedad as real)
    case CantidadM2 => Number(data.cantidadM2)
    case ValorM2 => Number(data.valorM2)
    case DolarHoy => Number(data.dolarHoy)
  }

  const DolarInvalido: string := "El valor del dólar debe ser mayor a 0"
  const AnosFueraDeRango: string := "Los años de la propiedad deben estar entre 0 y 99"
  const EstadoFueraDeRango: string := "El estado de la propiedad debe estar entre 1 y 9"

  /** The one message a failing field can produce; never empty, so it cannot be mistaken for a pass. */
  function Message(f: Field): (m: string)
    ensures m != ""
  {
    if IsTextField(f) then "El campo " + Name(f) + " es requerido"
    else if f == DolarHoy then DolarInvalido
    else if IsAmountField(f) then "El " + Name(f) + " no puede ser negativo"
    else if f == AnosPropiedad then AnosFueraDeRango
    else EstadoFueraDeRango
  }

  /**
   * What each rule accepts: a non-blank name for the two text fields, a
   * positive exchange rate, non-negative amounts, an age in [0, 99] and a
   * condition in [1, 9]. A value of the other kind is not checked.
   */
  predicate Acceptable(f: Field, v: FieldValue) {
    match v
    case Text(s) => !IsTextField(f) || !JsText.IsBlank(s)
    case Number(n) =>
      && (f == DolarHoy ==> n > 0.0)
      && (IsAmountField(f) ==> n >= 0.0)
      && (f == AnosPropiedad ==> 0.0 <= n <= 99.0)
      && (f == EstadoPropiedad ==> 1.0 <= n <= 9.0)
  }

  /** `validateField`: the empty string when the value is acceptable, the field's message otherwise. */
  function ValidateField(name: Field, value: FieldValue): (msg: string)
    ensures msg == "" <==> Acceptable(name, value)
    ensures msg != "" ==> msg == Message(name)
  {
    if name == Propiedad || name == Terreno then
      if value.Text? && JsText.Trim(value.s) == "" then Message(name)
      else ""
    else if value.Number? then
      if name == DolarHoy && value.n <= 0.0 then Message(name)
      else if IsAmountField(name) && value.n < 0.0 then Message(name)
      else if name == AnosPropiedad && (value.n < 0.0 || value.n > 99.0) then Message(name)
      else if name == EstadoPropiedad && (value.n < 1.0 || value.n > 9.0) then Message(name)
      else ""
    else ""
  }

  /**
   * The error map one pass of `validate` over the keys `fs` builds: the keys
   * whose check fails, each with its message.
   */
  function ErrorsOver(validate: (Field, FieldValue) -> string, data: Appraisal.FormData, fs: seq<Field>): map<Field, string> {
    map f | f in fs && validate(f, ValueOf(data, f)) != "" :: validate(f, ValueOf(data, f))
  }

  /** `Fields` lists every key. */
  lemma AllFieldsListed()
    ensures forall f: Field :: f in Fields
  {
    forall f: Field ensures f in Fields {
      match f
      case Propiedad => assert Fields[0] == f;
      case Terreno => assert Fields[1] == f;
      case ValorResidual => assert Fields[2] == f;
      case ValorReposicion => assert Fields[3] == f;
      case AnosPropiedad => assert Fields[4] == f;
      case EstadoPropiedad => assert Fields[5] == f;
      case CantidadM2 => assert Fields[6] == f;
      case ValorM2 => assert Fields[7] == f;
      case DolarHoy => assert Fields[8] == f;
    }
  }

  /** The error map a pass over the whole form builds. */
  function ErrorMap(validate: (Field, FieldValue) -> string, data: Appraisal.FormData): (errors: map<Field, string>)
    ensures forall f :: f in errors <==> validate(f, ValueOf(data, f)) != ""
    ensures forall f :: f in errors ==> errors[f] == validate(f, ValueOf(data, f))
  {
    AllFieldsListed();
    ErrorsOver(validate, data, Fields)
  }

  /**
   * The `forEach` over the form's entries: every failing key goes into the
   * new map with its message, and the flag records whether any key failed.
   */
  method CollectErrors(validate: (Field, FieldValue) -> string, data: Appraisal.FormData)
    returns (newErrors: map<Field, string>, hasErrors: bool)
    ensures newErrors == ErrorMap(validate, data)
    ensures hasErrors <==> newErrors != map[]
  {
    newErrors := map[];
    hasErrors := false;
    for i := 0 to |Fields|
      invariant newErrors == ErrorsOver(validate, data, Fields[..i])
      invariant hasErrors <==> newErrors != map[]
    {
      var key := Fields[i];
      var error := validate(key, ValueOf(data, key));
      if error != "" {
        newErrors := newErrors[key := error];
        assert key in newErrors;
        hasErrors := true;
      }
      assert Fields[..i + 1] == Fields[..i] + [key];
    }
    assert Fields[..|Fields|] == Fields;
  }

  /** The form passes every rule of `validateField`. */
  predicate AllAcceptable(data: Appraisal.FormData) {
    && !JsText.IsBlank(data.propiedad) && !JsText.IsBlank(data.terreno)
    && data.valorResidual >= 0.0 && data.valorReposicion >= 0.0
    && 0.0 <= data.anosPropiedad <= 99.0
    && 1 <= data.estadoPropiedad <= 9
    && data.cantidadM2 >= 0.0 && data.valorM2 >= 0.0
    && data.dolarHoy > 0.0
  }

  /** A key is in the hook's error map exactly when its value breaks the key's rule. */
  lemma FailingFieldIsReported(data: Appraisal.FormData, f: Field)
    ensures f in ErrorMap(ValidateField, data) <==> !Acceptable(f, ValueOf(data, f))
  {}

  /** `AllAcceptable` is every key's rule applied to its value. */
  lemma AcceptableFieldByField(data: Appraisal.FormData)
    ensures AllAcceptable(data) <==> forall f: Field :: Acceptable(f, ValueOf(data, f))
  {
    if forall f: Field :: Acceptable(f, ValueOf(data, f)) {
      assert Acceptable(Propiedad, ValueOf(data, Propiedad));
      assert Acceptable(Terreno, ValueOf(data, Terreno));
      assert Acceptable(ValorResidual, ValueOf(data, ValorResidual));
      assert Acceptable(ValorReposicion, ValueOf(data, ValorReposicion));
      assert Acceptable(AnosPropiedad, ValueOf(data, AnosPropiedad));
      assert Acceptable(EstadoPropiedad, ValueOf(data, EstadoPropiedad));
      assert Acceptable(CantidadM2, ValueOf(data, CantidadM2));
      assert Acceptable(ValorM2, ValueOf(data, ValorM2));
      assert Acceptable(DolarHoy, ValueOf(data, DolarHoy));
    }
  }

  /** The hook's error map is empty exactly when the form meets every range. */
  lemma NoErrorsIffAcceptable(data: Appraisal.FormData)
    ensures ErrorMap(ValidateField, data) == map[] <==> AllAcceptable(data)
  {
    var errors := ErrorMap(ValidateField, data);
    AcceptableFieldByField(data);
    forall f: Field
      ensures f in errors <==> !Acceptable(f, ValueOf(data, f))
    {
      FailingFieldIsReported(data, f);
    }
    if errors != map[] {
      var f :| f in errors;
    }
  }

  /** A validated form can be appraised: its coefficient is the table entry for its exact age and condition. */
  lemma AcceptableFormsIndexTheTable(data: Appraisal.FormData)
    requires ErrorMap(ValidateField, data) == map[]
    ensures RossHeidecke.RowIndex(data.anosPropiedad) == data.anosPropiedad.Floor
    ensures RossHeidecke.ColIndex(data.estadoPropiedad) == data.estadoPropiedad - 1
  {
    NoErrorsIffAcceptable(data);
  }

  /** The `useFormValidation` hook and the error map it keeps. */
  class FormValidator {
    var errors: map<Field, string>

    constructor ()
      ensures errors == map[]
    {
      errors := map[];
    }

    /** `validateAllFields`: the map becomes the failing fields, and the result says whether there were none. */
    method ValidateAllFields(data: Appraisal.FormData) returns (ok: bool)
      modifies this
      ensures errors == ErrorMap(ValidateField, data)
      ensures ok <==> AllAcceptable(data)
    {
      var newErrors, hasErrors := CollectErrors(ValidateField, data);
      errors := newErrors;
      NoErrorsIffAcceptable(data);
      ok := !hasErrors;
    }
  }
}
