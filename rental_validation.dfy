/**
 * The rental-property form's validation (`usePropiedadAlquilerValidation`):
 * every time the form changes, a fresh error map is built rule by rule and
 * the form is valid exactly when that map is empty.
 */
module RentalValidation {
  import JsText

  /**
   * The fields of a rental property the rules read. Money and durations are
   * reals; a field the form leaves unset is 0 or the empty string.
   */
  datatype PropiedadAlquiler = PropiedadAlquiler(
    propietario: string,
    contactoPropietario: string,
    inquilino: string,
    contactoInquilino: string,
    fechaInicioContrato: string,
    duracionContrato: real,
    precioAlquiler: real,
    intervaloAumento: real,
    direccion: string)

  /** The keys an error can be reported under. */
  datatype RentalField =
    | Propietario | ContactoPropietario | ContactoInquilino | FechaInicioContrato
    | DuracionContrato | PrecioAlquiler | IntervaloAumento | Direccion

  /** A JavaScript string is truthy after `trim()` exactly when it is not blank. */
  predicate Filled(s: string) {
    !JsText.IsBlank(s)
  }

  /** The property has a tenant: its `inquilino` is not blank. */
  predicate HasTenant(p: PropiedadAlquiler) {
    Filled(p.inquilino)
  }

  /** What the phone and e-mail patterns accept, stated with the e-mail pattern's meaning. */
  ghost predicate ContactShape(s: string) {
    JsText.IsPhone(s) || JsText.MatchesEmail(s)
  }

  /** The rule each key stands for, stated on the property as a whole. */
  ghost predicate Holds(k: RentalField, p: PropiedadAlquiler) {
    match k
    case Propietario => Filled(p.propietario)
    case ContactoPropietario =>
      Filled(p.contactoPropietario) && ContactShape(JsText.Trim(p.contactoPropietario))
    case ContactoInquilino =>
      && (HasTenant(p) ==> Filled(p.contactoInquilino))
      && (Filled(p.contactoInquilino) ==> ContactShape(JsText.Trim(p.contactoInquilino)))
    case FechaInicioContrato => HasTenant(p) ==> p.fechaInicioContrato != ""
    case DuracionContrato => HasTenant(p) ==> p.duracionContrato > 0.0
    case PrecioAlquiler => p.precioAlquiler > 0.0
    case IntervaloAumento => HasTenant(p) ==> p.intervaloAumento > 0.0
    case Direccion => Filled(p.direccion)
  }

  /** The messages the rules report. */
  const PropietarioRequerido: string := "El nombre del propietario es obligatorio"
  const ContactoPropietarioRequerido: string := "El contacto del propietario es obligatorio"
  const ContactoInvalido: string := "Ingrese un número de teléfono o email válido"
  const ContactoInquilinoRequerido: string := "Si hay inquilino, el contacto es obligatorio"
  const FechaRequerida: string := "Si hay inquilino, la fecha de inicio del contrato es obligatoria"
  const DuracionInvalida: string := "Si hay inquilino, la duración del contrato debe ser mayor a 0"
  const PrecioInvalido: string := "El precio de alquiler debe ser mayor a 0"
  const IntervaloInvalido: string := "Si hay inquilino, el intervalo de aumento debe ser mayor a 0"
  const DireccionRequerida: string := "La dirección de la propiedad es obligatoria"

  /** Whether a trimmed contact passes the phone or the e-mail pattern. */
  function IsContact(s: string): bool {
    JsText.IsPhone(s) || JsText.IsEmail(s)
  }

  /** The contact check accepts exactly the phone numbers and the e-mail addresses the patterns describe. */
  lemma IsContactMeaning(s: string)
    ensures IsContact(s) <==> ContactShape(s)
  {}

  /** The contact check shared by owner and tenant: a trimmed, non-empty value must be a phone number or an e-mail address. */
  function ContactVerdict(contacto: string): Option<string> {
    if !IsContact(contacto) then Some(ContactoInvalido) else None
  }

  datatype Option<T> = None | Some(value: T)

  /**
   * What the effect body reports under `k`: a message when the key's rule
   * fails, nothing when it holds. The conditions are the source's own, with
   * `trim()` and the two patterns.
   */
  function Verdict(k: RentalField, p: PropiedadAlquiler): (r: Option<string>)
    ensures r.Some? ==> r.value != ""
  {
    match k
    case Propietario =>
      if JsText.Trim(p.propietario) == "" then Some(PropietarioRequerido) else None
    case ContactoPropietario =>
      var contacto := JsText.Trim(p.contactoPropietario);
      if contacto == "" then Some(ContactoPropietarioRequerido) else ContactVerdict(contacto)
    case ContactoInquilino =>
      var contacto := JsText.Trim(p.contactoInquilino);
      if JsText.Trim(p.inquilino) != "" && contacto == "" then Some(ContactoInquilinoRequerido)
      else if contacto != "" then ContactVerdict(contacto)
      else None
    case FechaInicioContrato =>
      if JsText.Trim(p.inquilino) != "" && p.fechaInicioContrato == "" then Some(FechaRequerida) else None
    case DuracionContrato =>
      if JsText.Trim(p.inquilino) != "" && p.duracionContrato <= 0.0 then Some(DuracionInvalida) else None
    case PrecioAlquiler =>
      if p.precioAlquiler <= 0.0 then Some(PrecioInvalido) else None
    case IntervaloAumento =>
      if JsText.Trim(p.inquilino) != "" && p.intervaloAumento <= 0.0 then Some(IntervaloInvalido) else None
    case Direccion =>
      if JsText.Trim(p.direccion) == "" then Some(DireccionRequerida) else None
  }

  /** A key is reported exactly when the rule it stands for fails. */
  lemma VerdictMeaning(k: RentalField, p: PropiedadAlquiler)
    ensures Verdict(k, p).None? <==> Holds(k, p)
  {
    IsContactMeaning(JsText.Trim(p.contactoPropietario));
    IsContactMeaning(JsText.Trim(p.contactoInquilino));
  }

  /** The position of each rule in the effect body. */
  function Order(k: RentalField): nat {
    match k
    case Propietario => 0
    case ContactoPropietario => 1
    case ContactoInquilino => 2
    case FechaInicioContrato => 3
    case DuracionContrato => 4
    case PrecioAlquiler => 5
    case IntervaloAumento => 6
    case Direccion => 7
  }

  /** `errors` after the first `checked` rules have run: each of them reported exactly when it fails, no other key present. */
  ghost predicate Reports(errors: map<RentalField, string>, p: PropiedadAlquiler, checked: nat) {
    forall k ::
      && (k in errors <==> Order(k) < checked && Verdict(k, p).Some?)
      && (k in errors ==> Verdict(k, p) == Some(errors[k]))
  }

  /** One rule's step: its key is added with its message exactly when the rule fails. */
  lemma ReportStep(errors: map<RentalField, string>, next: map<RentalField, string>, p: PropiedadAlquiler, k: RentalField)
    requires Reports(errors, p, Order(k))
    requires next == if Verdict(k, p).Some? then errors[k := Verdict(k, p).value] else errors
    ensures Reports(next, p, Order(k) + 1)
  {
    assert forall g :: g == k <==> Order(g) == Order(k);
  }

  /** Once all eight rules have run, the map holds exactly the keys whose rule fails. */
  lemma AllReported(errors: map<RentalField, string>, p: PropiedadAlquiler)
    requires Reports(errors, p, 8)
    ensures forall k :: k in errors <==> !Holds(k, p)
  {
    forall k ensures k in errors <==> !Holds(k, p) {
      VerdictMeaning(k, p);
    }
  }

  /** One block of the effect body: the owner's name must not be blank. */
  method ValidarPropietario(p: PropiedadAlquiler, errors: map<RentalField, string>) returns (next: map<RentalField, string>)
    requires Reports(errors, p, Order(Propietario))
    ensures Reports(next, p, Order(Propietario) + 1)
  {
    next := errors;
    if JsText.Trim(p.propietario) == "" {
      next := next[Propietario := PropietarioRequerido];
    }
    ReportStep(errors, next, p, Propietario);
  }

  /** One block of the effect body: the owner's contact is required and must be a phone number or an e-mail address. */
  method ValidarContactoPropietario(p: PropiedadAlquiler, errors: map<RentalField, string>) returns (next: map<RentalField, string>)
    requires Reports(errors, p, Order(ContactoPropietario))
    ensures Reports(next, p, Order(ContactoPropietario) + 1)
  {
    next := errors;
    var contacto := JsText.Trim(p.contactoPropietario);
    if contacto == "" {
      next := next[ContactoPropietario := ContactoPropietarioRequerido];
      assert Verdict(ContactoPropietario, p) == Some(ContactoPropietarioRequerido);
    } else if !IsContact(contacto) {
      next := next[ContactoPropietario := ContactoInvalido];
      assert Verdict(ContactoPropietario, p) == Some(ContactoInvalido);
    } else {
      assert Verdict(ContactoPropietario, p) == None;
    }
    ReportStep(errors, next, p, ContactoPropietario);
  }

  /** One block of the effect body: a tenant needs a contact, and a contact given must be a phone number or an e-mail address. */
  method ValidarContactoInquilino(p: PropiedadAlquiler, errors: map<RentalField, string>) returns (next: map<RentalField, string>)
    requires Reports(errors, p, Order(ContactoInquilino))
    ensures Reports(next, p, Order(ContactoInquilino) + 1)
  {
    next := errors;
    var contacto := JsText.Trim(p.contactoInquilino);
    if JsText.Trim(p.inquilino) != "" && contacto == "" {
      next := next[ContactoInquilino := ContactoInquilinoRequerido];
      assert Verdict(ContactoInquilino, p) == Some(ContactoInquilinoRequerido);
    } else if contacto != "" && !IsContact(contacto) {
      next := next[ContactoInquilino := ContactoInvalido];
      assert Verdict(ContactoInquilino, p) == Some(ContactoInvalido);
    } else {
      assert Verdict(ContactoInquilino, p) == None;
    }
    ReportStep(errors, next, p, ContactoInquilino);
  }

  /** One block of the effect body: a tenant needs a contract start date. */
  method ValidarFechaInicio(p: PropiedadAlquiler, errors: map<RentalField, string>) returns (next: map<RentalField, string>)
    requires Reports(errors, p, Order(FechaInicioContrato))
    ensures Reports(next, p, Order(FechaInicioContrato) + 1)
  {
    next := errors;
    if JsText.Trim(p.inquilino) != "" && p.fechaInicioContrato == "" {
      next := next[FechaInicioContrato := FechaRequerida];
    }
    ReportStep(errors, next, p, FechaInicioContrato);
  }

  /** One block of the effect body: a tenant needs a positive contract length. */
  method ValidarDuracion(p: PropiedadAlquiler, errors: map<RentalField, string>) returns (next: map<RentalField, string>)
    requires Reports(errors, p, Order(DuracionContrato))
    ensures Reports(next, p, Order(DuracionContrato) + 1)
  {
    next := errors;
    if JsText.Trim(p.inquilino) != "" && p.duracionContrato <= 0.0 {
      next := next[DuracionContrato := DuracionInvalida];
    }
    ReportStep(errors, next, p, DuracionContrato);
  }

  /** One block of the effect body: the rent must be positive. */
  method ValidarPrecio(p: PropiedadAlquiler, errors: map<RentalField, string>) returns (next: map<RentalField, string>)
    requires Reports(errors, p, Order(PrecioAlquiler))
    ensures Reports(next, p, Order(PrecioAlquiler) + 1)
  {
    next := errors;
    if p.precioAlquiler <= 0.0 {
      next := next[PrecioAlquiler := PrecioInvalido];
    }
    ReportStep(errors, next, p, PrecioAlquiler);
  }

  /** One block of the effect body: a tenant needs a positive increase interval. */
  method ValidarIntervalo(p: PropiedadAlquiler, errors: map<RentalField, string>) returns (next: map<RentalField, string>)
    requires Reports(errors, p, Order(IntervaloAumento))
    ensures Reports(next, p, Order(IntervaloAumento) + 1)
  {
    next := errors;
    if JsText.Trim(p.inquilino) != "" && p.intervaloAumento <= 0.0 {
      next := next[IntervaloAumento := IntervaloInvalido];
    }
    ReportStep(errors, next, p, IntervaloAumento);
  }

  /** One block of the effect body: the address must not be blank. */
  method ValidarDireccion(p: PropiedadAlquiler, errors: map<RentalField, string>) returns (next: map<RentalField, string>)
    requires Reports(errors, p, Order(Direccion))
    ensures Reports(next, p, Order(Direccion) + 1)
  {
    next := errors;
    if JsText.Trim(p.direccion) == "" {
      next := next[Direccion := DireccionRequerida];
    }
    ReportStep(errors, next, p, Direccion);
  }

  /**
   * The effect body: each rule in turn adds its key and message when it
   * fails, so the map holds exactly the keys whose rule fails, each with its
   * rule's message.
   */
  method CheckAll(p: PropiedadAlquiler) returns (newErrors: map<RentalField, string>)
    ensures forall k :: k in newErrors <==> !Holds(k, p)
    ensures forall k :: k in newErrors ==> Verdict(k, p) == Some(newErrors[k])
  {
    newErrors := map[];
    newErrors := ValidarPropietario(p, newErrors);
    newErrors := ValidarContactoPropietario(p, newErrors);
    newErrors := ValidarContactoInquilino(p, newErrors);
    newErrors := ValidarFechaInicio(p, newErrors);
    newErrors := ValidarDuracion(p, newErrors);
    newErrors := ValidarPrecio(p, newErrors);
    newErrors := ValidarIntervalo(p, newErrors);
    newErrors := ValidarDireccion(p, newErrors);
    AllReported(newErrors, p);
  }

  /** Every rule at once, written out field by field. */
  ghost predicate AllRulesHold(p: PropiedadAlquiler) {
    && Filled(p.propietario)
    && Filled(p.contactoPropietario) && ContactShape(JsText.Trim(p.contactoPropietario))
    && (Filled(p.contactoInquilino) ==> ContactShape(JsText.Trim(p.contactoInquilino)))
    && Filled(p.direccion)
    && p.precioAlquiler > 0.0
    && (HasTenant(p) ==>
          && Filled(p.contactoInquilino)
          && p.fechaInicioContrato != ""
          && p.duracionContrato > 0.0
          && p.intervaloAumento > 0.0)
  }

  /** A map that holds exactly the failing keys is empty exactly when every rule holds. */
  lemma EmptyIffAllRulesHold(p: PropiedadAlquiler, errors: map<RentalField, string>)
    requires forall k :: k in errors <==> !Holds(k, p)
    ensures errors == map[] <==> AllRulesHold(p)
  {
    if errors == map[] {
      assert Holds(Propietario, p) && Holds(ContactoPropietario, p) && Holds(ContactoInquilino, p);
      assert Holds(FechaInicioContrato, p) && Holds(DuracionContrato, p);
      assert Holds(PrecioAlquiler, p) && Holds(IntervaloAumento, p) && Holds(Direccion, p);
    } else {
      var k :| k in errors;
      assert !Holds(k, p);
    }
  }

  /** Without a tenant, the contract fields are never reported. */
  lemma NoTenantNoContractErrors(p: PropiedadAlquiler, errors: map<RentalField, string>)
    requires forall k :: k in errors <==> !Holds(k, p)
    requires !HasTenant(p)
    ensures FechaInicioContrato !in errors && DuracionContrato !in errors && IntervaloAumento !in errors
    ensures ContactoInquilino in errors <==> Filled(p.contactoInquilino) && !ContactShape(JsText.Trim(p.contactoInquilino))
  {}

  /** The hook's state: the last error map and whether it was empty. */
  class RentalValidator {
    var errors: map<RentalField, string>
    var isValid: bool

    /** Before the first check the map is empty and the form is not yet valid. */
    constructor ()
      ensures errors == map[] && !isValid
    {
      errors := map[];
      isValid := false;
    }

    /** The effect on a new form: the map is rebuilt, and the form is valid exactly when every rule holds. */
    method Validate(formData: PropiedadAlquiler)
      modifies this
      ensures forall k :: k in errors <==> !Holds(k, formData)
      ensures forall k :: k in errors ==> Verdict(k, formData) == Some(errors[k])
      ensures isValid <==> errors == map[]
      ensures isValid <==> AllRulesHold(formData)
    {
      var newErrors := CheckAll(formData);
      errors := newErrors;
      isValid := |newErrors.Keys| == 0;
      EmptyIffAllRulesHold(formData, newErrors);
    }
  }
}
