/** The client-side validator of the onboarding form: `validateForm` takes the
    form's record (field name to string value) and returns an error map (field
    name to message) holding one message for each of 17 fields that fails its
    check.

    A field's value is "falsy" in JavaScript when it is absent (`undefined`) or
    the empty string; no trimming takes place, so a value made only of spaces
    is present. */
module Validation {
  import opened Formats

  datatype Option<T> = None | Some(value: T)

  /** The form record: every key the form holds, validated or not. */
  type Record = map<string, string>

  /** The validator's result, one message per failing field; `ErrorObject`
      renders it as the object `validateForm` returns. */
  type Errors = map<Field, Message>

  /** `data.field`: the value, or `undefined` when the key is absent. */
  function Lookup(data: Record, key: string): Option<string> {
    if key in data then Some(data[key]) else None
  }

  /** JavaScript truthiness of a string-or-undefined value. */
  predicate Truthy(v: Option<string>) {
    v.Some? && v.value != ""
  }

  /** The 17 fields the validator checks, in the order it checks them. */
  datatype Field =
    | ApplName | City | Firm | BusinessType | ContactPerson | Mobile | InstAddr1
    | InstLocality | InstPincode | Mcc | Pan | PanDob | MeAcType | MeName
    | Melfsc | MeAcNo | QrBoombox

  /** The field's key in the record and in the returned object. */
  function Key(f: Field): string {
    match f
    case ApplName => "applName"
    case City => "city"
    case Firm => "firm"
    case BusinessType => "business_type"
    case ContactPerson => "contactPerson"
    case Mobile => "mobile"
    case InstAddr1 => "instAddr1"
    case InstLocality => "instLocality"
    case InstPincode => "instPincode"
    case Mcc => "mcc"
    case Pan => "pan"
    case PanDob => "panDob"
    case MeAcType => "meAcType"
    case MeName => "meName"
    case Melfsc => "melfsc"
    case MeAcNo => "meAcNo"
    case QrBoombox => "qrBoombox"
  }

  /** The field a key names, if the validator checks one of that name. */
  function FieldNamed(key: string): (r: Option<Field>)
    ensures r.Some? ==> Key(r.value) == key
  {
    if key == "applName" then Some(ApplName)
    else if key == "city" then Some(City)
    else if key == "firm" then Some(Firm)
    else if key == "business_type" then Some(BusinessType)
    else if key == "contactPerson" then Some(ContactPerson)
    else if key == "mobile" then Some(Mobile)
    else if key == "instAddr1" then Some(InstAddr1)
    else if key == "instLocality" then Some(InstLocality)
    else if key == "instPincode" then Some(InstPincode)
    else if key == "mcc" then Some(Mcc)
    else if key == "pan" then Some(Pan)
    else if key == "panDob" then Some(PanDob)
    else if key == "meAcType" then Some(MeAcType)
    else if key == "meName" then Some(MeName)
    else if key == "melfsc" then Some(Melfsc)
    else if key == "meAcNo" then Some(MeAcNo)
    else if key == "qrBoombox" then Some(QrBoombox)
    else None
  }

  /** `FieldNamed` recovers a field from its key. */
  lemma KeyNamesField(f: Field)
    ensures FieldNamed(Key(f)) == Some(f)
  {
  }

  /** No two checked fields share a key. */
  lemma KeyInjective(f: Field, g: Field)
    ensures Key(f) == Key(g) ==> f == g
  {
    KeyNamesField(f);
    KeyNamesField(g);
  }

  /** What the validator demands of one field. */
  datatype Rule =
    | Required(message: Message)
    | RequiredMinLength(min: nat, message: Message)
    | RequiredFormat(requiredMessage: Message, format: Format, formatMessage: Message)

  /** The message recorded for a falsy value. */
  function MissingMessage(rule: Rule): Message {
    match rule
    case Required(m) => m
    case RequiredMinLength(_, m) => m
    case RequiredFormat(m, _, _) => m
  }

  /** The messages the validator reports; `Text` gives each one's wording. */
  datatype Message =
    | ApplNameRequired | CityRequired | FirmRequired | BusinessTypeRequired
    | ContactPersonRequired | ContactPersonLettersOnly | MobileRequired | MobileTenDigits
    | InstAddr1Required | InstLocalityRequired | PincodeRequired | PincodeSixDigits
    | MccRequired | PanRequired | PanInvalid | PanDobRequired | AccountTypeRequired
    | AccountHolderRequired | IfscRequired | IfscInvalid | AccountNumberRequired
    | AccountNumberDigits | QrBoomboxRequired

  function Text(m: Message): string {
    match m
    case ApplNameRequired => "Application Name is required (min 3 characters)"
    case CityRequired => "City is required"
    case FirmRequired => "Firm is required"
    case BusinessTypeRequired => "Business Type is required"
    case ContactPersonRequired => "Contact Person is required"
    case ContactPersonLettersOnly => "Contact Person must contain only letters and spaces"
    case MobileRequired => "Mobile is required"
    case MobileTenDigits => "Mobile number must be exactly 10 digits"
    case InstAddr1Required => "Install Address 1 is required"
    case InstLocalityRequired => "Install Locality is required"
    case PincodeRequired => "Pincode is required"
    case PincodeSixDigits => "Pincode must be 6 digits"
    case MccRequired => "MCC is required"
    case PanRequired => "PAN is required"
    case PanInvalid => "Invalid PAN format (e.g., RTGHP2345G)"
    case PanDobRequired => "PAN DOB is required"
    case AccountTypeRequired => "Account Type is required"
    case AccountHolderRequired => "Account Holder Name is required"
    case IfscRequired => "IFSC code is required"
    case IfscInvalid => "Invalid IFSC format (e.g., SBIB001458)"
    case AccountNumberRequired => "Account Number is required"
    case AccountNumberDigits => "Account Number must be 10-18 digits"
    case QrBoomboxRequired => "qrBoombox selection is required"
  }

  /** The rule table. */
  function RuleOf(f: Field): Rule {
    match f
    case ApplName => RequiredMinLength(3, ApplNameRequired)
    case City => Required(CityRequired)
    case Firm => Required(FirmRequired)
    case BusinessType => Required(BusinessTypeRequired)
    case ContactPerson => RequiredFormat(ContactPersonRequired, NameFormat, ContactPersonLettersOnly)
    case Mobile => RequiredFormat(MobileRequired, MobileFormat, MobileTenDigits)
    case InstAddr1 => Required(InstAddr1Required)
    case InstLocality => Required(InstLocalityRequired)
    case InstPincode => RequiredFormat(PincodeRequired, PincodeFormat, PincodeSixDigits)
    case Mcc => Required(MccRequired)
    case Pan => RequiredFormat(PanRequired, PanFormat, PanInvalid)
    case PanDob => Required(PanDobRequired)
    case MeAcType => Required(AccountTypeRequired)
    case MeName => Required(AccountHolderRequired)
    case Melfsc => RequiredFormat(IfscRequired, IfscFormat, IfscInvalid)
    case MeAcNo => RequiredFormat(AccountNumberRequired, AccountNumberFormat, AccountNumberDigits)
    case QrBoombox => Required(QrBoomboxRequired)
  }


  /** The position of a field's check in `validateForm`. */
  function Rank(f: Field): (r: nat)
    ensures r < FieldCount
  {
    match f
    case ApplName => 0
    case City => 1
    case Firm => 2
    case BusinessType => 3
    case ContactPerson => 4
    case Mobile => 5
    case InstAddr1 => 6
    case InstLocality => 7
    case InstPincode => 8
    case Mcc => 9
    case Pan => 10
    case PanDob => 11
    case MeAcType => 12
    case MeName => 13
    case Melfsc => 14
    case MeAcNo => 15
    case QrBoombox => 16
  }

  const FieldCount: nat := 17

  /** The fields whose checks come before position `n`. */
  function ChecksBefore(n: nat): set<Field> {
    set f: Field | Rank(f) < n
  }

  /** The field checked at position `i`. */
  function FieldAt(i: nat): (f: Field)
    requires i < FieldCount
    ensures Rank(f) == i
  {
    if i == 0 then ApplName else if i == 1 then City else if i == 2 then Firm
    else if i == 3 then BusinessType else if i == 4 then ContactPerson else if i == 5 then Mobile
    else if i == 6 then InstAddr1 else if i == 7 then InstLocality else if i == 8 then InstPincode
    else if i == 9 then Mcc else if i == 10 then Pan else if i == 11 then PanDob
    else if i == 12 then MeAcType else if i == 13 then MeName else if i == 14 then Melfsc
    else if i == 15 then MeAcNo else QrBoombox
  }

  /** The error, if any, that one rule reports for one value. */
  function Check(rule: Rule, v: Option<string>): Option<Message> {
    if !Truthy(v) then Some(MissingMessage(rule))
    else match rule
      case Required(_) => None
      case RequiredMinLength(min, m) => if Utf16Length(v.value) < min then Some(m) else None
      case RequiredFormat(_, format, m) => if Accepts(format, v.value) then None else Some(m)
  }

  /** The error, if any, for one field of a record: it reads that field's
      value and nothing else. */
  function FieldError(data: Record, f: Field): Option<Message> {
    Check(RuleOf(f), Lookup(data, Key(f)))
  }

  /** `errors` after the validator has handled field `f`. */
  function Add(data: Record, f: Field, errors: Errors): Errors {
    match FieldError(data, f)
    case Some(m) => errors[f := m]
    case None => errors
  }

  /** The errors of the fields in `fields`: each one whose check fails,
      mapped to its message. */
  function ErrorsOf(data: Record, fields: set<Field>): Errors {
    map f | f in fields && FieldError(data, f).Some? :: FieldError(data, f).value
  }

  /** The error map: each checked field whose own value fails its rule,
      mapped to that rule's message. */
  function Validate(data: Record): Errors {
    ErrorsOf(data, ChecksBefore(FieldCount))
  }

  /** Handling one more field adds that field's error, if any, and changes
      nothing else. */
  lemma ErrorsOfAdd(data: Record, done: set<Field>, f: Field)
    ensures ErrorsOf(data, done + {f}) == Add(data, f, ErrorsOf(data, done))
  {
  }

  /** The check at position `n` extends the errors of the checks before it
      by the error, if any, of the field it checks. */
  lemma PrefixStep(data: Record, n: nat, next: nat)
    requires next == n + 1 <= FieldCount
    ensures ErrorsOf(data, ChecksBefore(next)) == Add(data, FieldAt(n), ErrorsOf(data, ChecksBefore(n)))
  {
    assert ChecksBefore(next) == ChecksBefore(n) + {FieldAt(n)};
    ErrorsOfAdd(data, ChecksBefore(n), FieldAt(n));
  }

  /** Handling the checked fields one after another, in the source's order,
      yields the error map. */
  lemma InSourceOrder(data: Record)
    ensures Validate(data) ==
      Add(data, QrBoombox, Add(data, MeAcNo, Add(data, Melfsc, Add(data, MeName,
      Add(data, MeAcType, Add(data, PanDob, Add(data, Pan, Add(data, Mcc,
      Add(data, InstPincode, Add(data, InstLocality, Add(data, InstAddr1, Add(data, Mobile,
      Add(data, ContactPerson, Add(data, BusinessType, Add(data, Firm, Add(data, City,
      Add(data, ApplName, map[])))))))))))))))))
  {
    assert ChecksBefore(0) == {};
    PrefixStep(data, 0, 1);
    PrefixStep(data, 1, 2);
    PrefixStep(data, 2, 3);
    PrefixStep(data, 3, 4);
    PrefixStep(data, 4, 5);
    PrefixStep(data, 5, 6);
    PrefixStep(data, 6, 7);
    PrefixStep(data, 7, 8);
    PrefixStep(data, 8, 9);
    PrefixStep(data, 9, 10);
    PrefixStep(data, 10, 11);
    PrefixStep(data, 11, 12);
    PrefixStep(data, 12, 13);
    PrefixStep(data, 13, 14);
    PrefixStep(data, 14, 15);
    PrefixStep(data, 15, 16);
    PrefixStep(data, 16, 17);
  }

  /** One of the validator's 17 conditional assignments, in the shape its
      rule calls for:
      `if (!data.x) errors.x = "…";`,
      `if (!data.x || data.x.length < min) errors.x = "…";`, or
      `if (!data.x) errors.x = "…"; else if (!pattern.test(data.x)) errors.x = "…";`. */
  method CheckField(data: Record, f: Field, errors: Errors) returns (result: Errors)
    ensures result == Add(data, f, errors)
  {
    result := errors;
    var v := Lookup(data, Key(f));
    match RuleOf(f)
    case Required(message) =>
      if !Truthy(v) {
        result := errors[f := message];
      }
    case RequiredMinLength(min, message) =>
      if !Truthy(v) || Utf16Length(v.value) < min {
        result := errors[f := message];
      }
    case RequiredFormat(requiredMessage, format, formatMessage) =>
      if !Truthy(v) {
        result := errors[f := requiredMessage];
      } else if !Accepts(format, v.value) {
        result := errors[f := formatMessage];
      }
  }

  /** The object `validateForm` returns: the name of each reported field
      mapped to the text of its message. */
  function ErrorObject(errors: Errors): (obj: map<string, string>)
    ensures forall f :: Key(f) in obj <==> f in errors
    ensures forall f :: f in errors ==> obj[Key(f)] == Text(errors[f])
    ensures forall k :: k in obj ==> FieldNamed(k).Some?
  {
    assert forall f, g :: Key(f) == Key(g) ==> f == g by {
      forall f, g { KeyInjective(f, g); }
    }
    assert forall f :: FieldNamed(Key(f)) == Some(f) by {
      forall f { KeyNamesField(f); }
    }
    map f | f in errors :: Key(f) := Text(errors[f])
  }

  /** `validateForm`: a fresh empty map, then one conditional assignment per
      field, in the source's order. */
  method ValidateForm(data: Record) returns (result: map<string, string>)
    ensures result == ErrorObject(Validate(data))
  {
    var errors: Errors := map[];
    errors := CheckField(data, ApplName, errors);
    errors := CheckField(data, City, errors);
    errors := CheckField(data, Firm, errors);
    errors := CheckField(data, BusinessType, errors);
    errors := CheckField(data, ContactPerson, errors);
    errors := CheckField(data, Mobile, errors);
    errors := CheckField(data, InstAddr1, errors);
    errors := CheckField(data, InstLocality, errors);
    errors := CheckField(data, InstPincode, errors);
    errors := CheckField(data, Mcc, errors);
    errors := CheckField(data, Pan, errors);
    errors := CheckField(data, PanDob, errors);
    errors := CheckField(data, MeAcType, errors);
    errors := CheckField(data, MeName, errors);
    errors := CheckField(data, Melfsc, errors);
    errors := CheckField(data, MeAcNo, errors);
    errors := CheckField(data, QrBoombox, errors);
    InSourceOrder(data);
    assert errors == Validate(data);
    result := ErrorObject(errors);
  }
}
