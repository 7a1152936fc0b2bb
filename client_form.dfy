/**
 * The client form: its eight text fields, the validation run on submit,
 * and the change handler that clears a field's error as the user types.
 */
module ClientFormModel {
  import opened Types
  import opened Text

  /** The fields of the form, one per property of the `ClientForm` interface. */
  datatype FormField = Name | Email | Phone | Address | City | State | ZipCode | TaxId {
    /** The property name. */
    function Key(): string
    {
      match this
      case Name => "name"
      case Email => "email"
      case Phone => "phone"
      case Address => "address"
      case City => "city"
      case State => "state"
      case ZipCode => "zipCode"
      case TaxId => "taxId"
    }
  }

  /** The form data; a tax id the user left empty is "". */
  datatype ClientFormData = ClientFormData(
    name: string, email: string, phone: string, address: string,
    city: string, state: string, zipCode: string, taxId: string)
  {
    function Value(f: FormField): string
    {
      match f
      case Name => name
      case Email => email
      case Phone => phone
      case Address => address
      case City => city
      case State => state
      case ZipCode => zipCode
      case TaxId => taxId
    }

    /** `{ ...prev, [field]: value }`. */
    function With(f: FormField, v: string): (d: ClientFormData)
      ensures d.Value(f) == v
      ensures forall g: FormField | g != f :: d.Value(g) == Value(g)
    {
      match f
      case Name => this.(name := v)
      case Email => this.(email := v)
      case Phone => this.(phone := v)
      case Address => this.(address := v)
      case City => this.(city := v)
      case State => this.(state := v)
      case ZipCode => this.(zipCode := v)
      case TaxId => this.(taxId := v)
    }

    /** The object handed to `onSubmit`, as a record. */
    function AsRecord(): (r: Record)
      ensures forall f: FormField :: f.Key() in r && r[f.Key()] == Str(Value(f))
    {
      map["name" := Str(name), "email" := Str(email), "phone" := Str(phone), "address" := Str(address),
          "city" := Str(city), "state" := Str(state), "zipCode" := Str(zipCode), "taxId" := Str(taxId)]
    }
  }

  /** The form's starting data: each field of `initialData`, or "" where it is absent or empty. */
  function InitialFormData(initialData: Option<Record>): (d: ClientFormData)
    ensures initialData.None? ==> forall f: FormField :: d.Value(f) == ""
    ensures initialData.Some? ==> forall f: FormField :: d.Value(f) == TextOf(initialData.value, f.Key())
  {
    var r := if initialData.Some? then initialData.value else map[];
    ClientFormData(TextOf(r, "name"), TextOf(r, "email"), TextOf(r, "phone"), TextOf(r, "address"),
                   TextOf(r, "city"), TextOf(r, "state"), TextOf(r, "zipCode"), TextOf(r, "taxId"))
  }

  /** A run of the pattern class `[^\s@]`: one or more characters, none white space or "@". */
  predicate IsEmailRun(s: string)
  {
    |s| > 0 && forall k | 0 <= k < |s| :: !IsSpace(s[k]) && s[k] != '@'
  }

  /** `s` splits as run "@" run "." run with the "@" at `i` and the "." at `j`. */
  predicate EmailSplit(s: string, i: int, j: int)
  {
    && 0 <= i < j < |s|
    && s[i] == '@' && s[j] == '.'
    && IsEmailRun(s[..i]) && IsEmailRun(s[i + 1..j]) && IsEmailRun(s[j + 1..])
  }

  /** `/^[^\s@]+@[^\s@]+\.[^\s@]+$/.test(s)`. */
  predicate MatchesEmailPattern(s: string)
  {
    exists i, j | 0 <= i < j < |s| :: EmailSplit(s, i, j)
  }

  const NameRequired := "Name is required"
  const EmailRequired := "Email is required"
  const EmailInvalid := "Please enter a valid email address"
  const PhoneRequired := "Phone number is required"
  const AddressRequired := "Address is required"
  const CityRequired := "City is required"
  const StateRequired := "State is required"
  const ZipCodeRequired := "ZIP code is required"

  /** The message shown for a required field left empty. */
  function RequiredMessage(f: FormField): string
  {
    match f
    case Name => NameRequired
    case Email => EmailRequired
    case Phone => PhoneRequired
    case Address => AddressRequired
    case City => CityRequired
    case State => StateRequired
    case ZipCode => ZipCodeRequired
    case TaxId => ""
  }

  /** The error of a required field: its message when the value trims to "". */
  function RequiredError(value: string, message: string): Option<string>
  {
    if Trim(value) == "" then Some(message) else None
  }

  /**
   * The error of the email field: "required" first, then the pattern, tested
   * on the value as typed. The field is clear exactly when the value fits the
   * pattern, and "required" is shown exactly when the value is blank.
   */
  function EmailError(email: string): (r: Option<string>)
    ensures r.None? <==> MatchesEmailPattern(email)
    ensures r == Some(EmailRequired) <==> IsBlank(email)
    ensures r.Some? ==> r.value == EmailRequired || r.value == EmailInvalid
  {
    TrimEmptyIffBlank(email);
    PatternImpliesNotBlank(email);
    if Trim(email) == "" then Some(EmailRequired)
    else if !MatchesEmailPattern(email) then Some(EmailInvalid)
    else None
  }

  /**
   * The `errors` object, `Partial<ClientForm>`: an optional message per
   * field. A cleared field holds `undefined`, which is `None` here.
   */
  datatype FormErrors = FormErrors(
    name: Option<string>, email: Option<string>, phone: Option<string>, address: Option<string>,
    city: Option<string>, state: Option<string>, zipCode: Option<string>, taxId: Option<string>)
  {
    function Get(f: FormField): Option<string>
    {
      match f
      case Name => name
      case Email => email
      case Phone => phone
      case Address => address
      case City => city
      case State => state
      case ZipCode => zipCode
      case TaxId => taxId
    }

    /** `{ ...prev, [field]: undefined }`. */
    function Cleared(f: FormField): (e: FormErrors)
      ensures e.Get(f) == None
      ensures forall g: FormField | g != f :: e.Get(g) == Get(g)
    {
      match f
      case Name => this.(name := None)
      case Email => this.(email := None)
      case Phone => this.(phone := None)
      case Address => this.(address := None)
      case City => this.(city := None)
      case State => this.(state := None)
      case ZipCode => this.(zipCode := None)
      case TaxId => this.(taxId := None)
    }
  }

  /** `{}`: no field has an error. */
  const NoErrors := FormErrors(None, None, None, None, None, None, None, None)

  lemma NoErrorsSpec(e: FormErrors)
    ensures e == NoErrors <==> forall f: FormField :: e.Get(f) == None
  {
    if forall f: FormField :: e.Get(f) == None {
      assert e.Get(Name) == None && e.Get(Email) == None && e.Get(Phone) == None && e.Get(Address) == None;
      assert e.Get(City) == None && e.Get(State) == None && e.Get(ZipCode) == None && e.Get(TaxId) == None;
    }
  }

  /**
   * The errors `validateForm` sets, field by field: every message set is
   * non-empty, the tax id is never flagged, and the email is clear exactly
   * when it fits the pattern.
   */
  function Validation(d: ClientFormData): (e: FormErrors)
    ensures forall f: FormField :: e.Get(f).Some? ==> e.Get(f).value != ""
    ensures e.taxId == None
    ensures e.email.None? <==> MatchesEmailPattern(d.email)
  {
    FormErrors(
      RequiredError(d.name, NameRequired), EmailError(d.email), RequiredError(d.phone, PhoneRequired),
      RequiredError(d.address, AddressRequired), RequiredError(d.city, CityRequired),
      RequiredError(d.state, StateRequired), RequiredError(d.zipCode, ZipCodeRequired), None)
  }

  /**
   * What the validation demands, field by field: each required field other
   * than email has an error exactly when it is blank, with that field's
   * message; email has exactly one error, "required" when blank and
   * "invalid" when not blank but failing the pattern; the tax id never has one.
   */
  lemma ValidationSpec(d: ClientFormData)
    ensures forall f: FormField | f != Email && f != TaxId ::
      Validation(d).Get(f) == if IsBlank(d.Value(f)) then Some(RequiredMessage(f)) else None
    ensures Validation(d).email ==
      if IsBlank(d.email) then Some(EmailRequired)
      else if !MatchesEmailPattern(d.email) then Some(EmailInvalid)
      else None
    ensures Validation(d).taxId == None
  {
    forall f: FormField {
      TrimEmptyIffBlank(d.Value(f));
    }
    TrimEmptyIffBlank(d.email);
  }

  /** The form is accepted exactly when every required field is filled in and the email fits the pattern. */
  lemma ValidationPasses(d: ClientFormData)
    ensures Validation(d) == NoErrors <==>
      (forall f: FormField | f != TaxId :: !IsBlank(d.Value(f))) && MatchesEmailPattern(d.email)
  {
    ValidationSpec(d);
    NoErrorsSpec(Validation(d));
  }

  /** A string that fits the pattern is never blank, so "required" and "invalid" never compete. */
  lemma PatternImpliesNotBlank(s: string)
    ensures MatchesEmailPattern(s) ==> !IsBlank(s)
  {
    if MatchesEmailPattern(s) {
      var i, j :| 0 <= i < j < |s| && EmailSplit(s, i, j);
      assert s[..i][0] == s[0];
    }
  }

  /** Editing one field changes at most that field's error. */
  lemma ValidationIsPerField(d: ClientFormData, f: FormField, v: string)
    ensures forall g: FormField | g != f :: Validation(d.With(f, v)).Get(g) == Validation(d).Get(g)
  {
  }

  /** A well-formed address: the "@" at 4 and the "." at 9. */
  lemma PatternAcceptsPlainAddress()
    ensures MatchesEmailPattern("jane@acme.com")
  {
    var s := "jane@acme.com";
    assert s[..4] == "jane" && s[5..9] == "acme" && s[10..] == "com";
    assert EmailSplit(s, 4, 9);
  }

  /** An address without a "." after the "@" fails the pattern. */
  lemma PatternRejectsMissingDot()
    ensures !MatchesEmailPattern("jane@acme")
  {
    var s := "jane@acme";
    forall i, j | 0 <= i < j < |s| ensures !EmailSplit(s, i, j) {
      assert s[j] != '.';
    }
  }

  /**
   * The pattern is tested on the value as typed, not trimmed: a leading
   * space passes the "required" test and then fails the pattern.
   */
  lemma LeadingSpaceIsInvalidEmail(d: ClientFormData)
    requires d.email == " jane@acme.com"
    ensures Validation(d).email == Some(EmailInvalid)
  {
    var s := d.email;
    assert !IsBlank(s) by {
      assert !IsSpace(s[1]);
    }
    forall i, j | 0 <= i < j < |s| ensures !EmailSplit(s, i, j) {
      if 0 < i {
        assert s[..i][0] == ' ';
      }
    }
    ValidationSpec(d);
  }

  /** The form component's state. */
  class ClientFormState {
    var formData: ClientFormData
    var errors: FormErrors

    /** The form opens on `initialData` (editing) or empty (adding), without errors. */
    constructor (initialData: Option<Record>)
      ensures formData == InitialFormData(initialData) && errors == NoErrors
    {
      formData := InitialFormData(initialData);
      errors := NoErrors;
    }

    /** `validateForm`: collect the errors field by field, store them, and report whether there are none. */
    method ValidateForm() returns (ok: bool)
      modifies this
      ensures formData == old(formData)
      ensures errors == Validation(formData)
      ensures ok <==> errors == NoErrors
    {
      var newErrors := NoErrors;
      if Trim(formData.name) == "" {
        newErrors := newErrors.(name := Some(NameRequired));
      }
      if Trim(formData.email) == "" {
        newErrors := newErrors.(email := Some(EmailRequired));
      } else if !MatchesEmailPattern(formData.email) {
        newErrors := newErrors.(email := Some(EmailInvalid));
      }
      if Trim(formData.phone) == "" {
        newErrors := newErrors.(phone := Some(PhoneRequired));
      }
      if Trim(formData.address) == "" {
        newErrors := newErrors.(address := Some(AddressRequired));
      }
      if Trim(formData.city) == "" {
        newErrors := newErrors.(city := Some(CityRequired));
      }
      if Trim(formData.state) == "" {
        newErrors := newErrors.(state := Some(StateRequired));
      }
      if Trim(formData.zipCode) == "" {
        newErrors := newErrors.(zipCode := Some(ZipCodeRequired));
      }
      errors := newErrors;
      ok := newErrors == NoErrors;
    }

    /** `handleSubmit`: validate; the data goes to `onSubmit` only when there is no error. */
    method HandleSubmit() returns (submitted: Option<ClientFormData>)
      modifies this
      ensures formData == old(formData)
      ensures errors == Validation(formData)
      ensures submitted == if errors == NoErrors then Some(formData) else None
    {
      var valid := ValidateForm();
      submitted := if valid then Some(formData) else None;
    }

    /** `handleChange`: set the one field, and clear its error if it had one. */
    method HandleChange(f: FormField, v: string)
      modifies this
      ensures formData == old(formData).With(f, v)
      ensures errors == if old(errors).Get(f).Some? && old(errors).Get(f).value != "" then old(errors).Cleared(f) else old(errors)
    {
      formData := formData.With(f, v);
      if errors.Get(f).Some? && errors.Get(f).value != "" {
        errors := errors.Cleared(f);
      }
    }
  }
}
