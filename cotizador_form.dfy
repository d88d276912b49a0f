/**
 * The quotation form component (`CotizadorForm`): the form state, its own
 * older copy of `validateField` (which has no age or condition rules), the
 * input handler that validates and stores one field, and the submit handler
 * that validates every field before recomputing the appraisal.
 */
module CotizadorForm {
  import JsText
  import Appraisal
  import FormValidation

  type Field = FormValidation.Field
  type FieldValue = FormValidation.FieldValue

  /** The form the component starts with: empty names and every number 0. */
  const Initial := Appraisal.FormData("", "", 0.0, 0.0, 0.0, 0, 0.0, 0.0, 0.0)

  /**
   * The component's `validateField`: the hook's rules without the age and
   * condition ranges, so those two fields never fail here.
   */
  function LegacyValidateField(name: Field, value: FieldValue): (msg: string)
    ensures name.AnosPropiedad? || name.EstadoPropiedad? ==> msg == ""
    ensures !name.AnosPropiedad? && !name.EstadoPropiedad? ==> msg == FormValidation.ValidateField(name, value)
  {
    if name.Propiedad? || name.Terreno? then
      if value.Text? && JsText.Trim(value.s) == "" then FormValidation.Message(name)
      else ""
    else if value.Number? then
      if name.DolarHoy? && value.n <= 0.0 then FormValidation.Message(name)
      else if FormValidation.IsAmountField(name) && value.n < 0.0 then FormValidation.Message(name)
      else ""
    else ""
  }

  /** The component's check reports a subset of the hook's errors, with the same messages; the rest are age or condition errors. */
  lemma LegacyErrorsAreHookErrors(data: Appraisal.FormData)
    ensures
      var legacy := FormValidation.ErrorMap(LegacyValidateField, data);
      var hook := FormValidation.ErrorMap(FormValidation.ValidateField, data);
      && (forall f :: f in legacy ==> f in hook && hook[f] == legacy[f])
      && (forall f :: f in hook && f !in legacy <==> f in hook && (f.AnosPropiedad? || f.EstadoPropiedad?))
  {}

  /** A form whose age and condition are out of range passes the component's check but not the hook's. */
  lemma LegacyAcceptsOutOfRangeAge()
    ensures
      var data := Appraisal.FormData("Casa", "Lote", 0.0, 0.0, 150.0, 0, 0.0, 0.0, 1.0);
      && FormValidation.ErrorMap(LegacyValidateField, data) == map[]
      && forall f :: f in FormValidation.ErrorMap(FormValidation.ValidateField, data) <==> f.AnosPropiedad? || f.EstadoPropiedad?
  {
    var data := Appraisal.FormData("Casa", "Lote", 0.0, 0.0, 150.0, 0, 0.0, 0.0, 1.0);
    assert !JsText.IsBlank(data.propiedad) by { assert !JsText.IsWhitespace(data.propiedad[0]); }
    assert !JsText.IsBlank(data.terreno) by { assert !JsText.IsWhitespace(data.terreno[0]); }
    forall f: Field
      ensures f in FormValidation.ErrorMap(FormValidation.ValidateField, data) <==> f.AnosPropiedad? || f.EstadoPropiedad?
    {
      FormValidation.FailingFieldIsReported(data, f);
    }
    LegacyErrorsAreHookErrors(data);
  }

  /** The untouched form fails on both names and on the exchange rate. */
  lemma InitialFormErrors()
    ensures forall f :: f in FormValidation.ErrorMap(LegacyValidateField, Initial) <==> f.Propiedad? || f.Terreno? || f.DolarHoy?
  {}

  /** The kind of value the input handler passes for a key: text for the names, a number otherwise, a whole number for the condition select. */
  predicate FitsField(name: Field, value: FieldValue) {
    && (value.Text? <==> FormValidation.IsTextField(name))
    && (name.EstadoPropiedad? ==> value.n == value.n.Floor as real)
  }

  /** `{...prev, [name]: value}`: the form with one key replaced. */
  function SetField(data: Appraisal.FormData, name: Field, value: FieldValue): (r: Appraisal.FormData)
    requires FitsField(name, value)
    ensures FormValidation.ValueOf(r, name) == value
    ensures forall g :: g != name ==> FormValidation.ValueOf(r, g) == FormValidation.ValueOf(data, g)
  {
    match name
    case Propiedad => data.(propiedad := value.s)
    case Terreno => data.(terreno := value.s)
    case ValorResidual => data.(valorResidual := value.n)
    case ValorReposicion => data.(valorReposicion := value.n)
    case AnosPropiedad => data.(anosPropiedad := value.n)
    case EstadoPropiedad => data.(estadoPropiedad := value.n.Floor)
    case CantidadM2 => data.(cantidadM2 := value.n)
    case ValorM2 => data.(valorM2 := value.n)
    case DolarHoy => data.(dolarHoy := value.n)
  }

  /** The component's state: the form, the per-field error messages and the five results. */
  class Cotizador {
    var formData: Appraisal.FormData
    var errors: map<Field, string>
    var valorActual: real
    var valorTerreno: real
    var valorTotal: real
    var valorTotalDolares: real
    var coeficienteK: real

    function Results(): Appraisal.CalculationResults
      reads this
    {
      Appraisal.CalculationResults(valorActual, valorTerreno, valorTotal, valorTotalDolares, coeficienteK)
    }

    /** The results always describe the current form, since every change of the form recomputes them. */
    predicate InSync()
      reads this
    {
      Results() == Appraisal.Appraise(formData)
    }

    /** The component after its first render: the initial form, no errors, and the results of the initial form, which are all 0. */
    constructor ()
      ensures formData == Initial && errors == map[]
      ensures InSync()
      ensures Results() == Appraisal.CalculationResults(0.0, 0.0, 0.0, 0.0, 0.0)
    {
      formData := Initial;
      errors := map[];
      valorActual, valorTerreno, valorTotal, valorTotalDolares, coeficienteK := 0.0, 0.0, 0.0, 0.0, 0.0;
      new;
      CalcularValores();
    }

    /** `calcularValores`: the five results of the current form. */
    method CalcularValores()
      modifies this
      ensures InSync()
      ensures formData == old(formData) && errors == old(errors)
    {
      var r := Appraisal.Appraise(formData);
      valorTerreno := r.valorTerreno;
      coeficienteK := r.coeficienteK;
      valorActual := r.valorActual;
      valorTotal := r.valorTotal;
      valorTotalDolares := r.valorTotalDolares;
    }

    /**
     * `handleInputChange` followed by the effect on `formData`: the key's
     * message is stored even when it is empty, the key takes the new value,
     * and the results follow the new form.
     */
    method HandleInputChange(name: Field, value: FieldValue)
      requires FitsField(name, value)
      modifies this
      ensures errors == old(errors)[name := LegacyValidateField(name, value)]
      ensures formData == SetField(old(formData), name, value)
      ensures InSync()
    {
      var error := LegacyValidateField(name, value);
      errors := errors[name := error];
      formData := SetField(formData, name, value);
      CalcularValores();
    }

    /**
     * `handleSubmit`: the error map becomes exactly the failing fields; only
     * when there are none are the results recomputed.
     */
    method HandleSubmit()
      requires InSync()
      modifies this
      ensures formData == old(formData)
      ensures errors == FormValidation.ErrorMap(LegacyValidateField, formData)
      ensures errors != map[] ==> Results() == old(Results())
      ensures InSync()
    {
      var newErrors, hasErrors := FormValidation.CollectErrors(LegacyValidateField, formData);
      errors := newErrors;
      if !hasErrors {
        CalcularValores();
      }
    }
  }
}
