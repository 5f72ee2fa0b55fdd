/**
 * The registration form (`Signup.js`): the validation that fills the error map
 * field by field, and the multipart body `handleSubmit` builds from the form by
 * appending every field whose value is not null.
 */
module SignupPage {
  import opened Optional
  import opened Strings
  import opened FormRules

  datatype Field = Username | Email | Password | ConfirmPassword | Phone | City

  /**
   * What the picture entry holds: null until the input first changes, the chosen
   * file, or the input's empty text value once a selection was cancelled.
   */
  datatype Picture = NotPicked | Picked(name: string) | Emptied

  /** The form state. */
  datatype SignupForm = SignupForm(
    username: string, email: string, password: string, confirmPassword: string,
    phone: string, city: string, profilePicture: Picture)

  const UsernameRequired := "Username is required"
  const UsernameShort := "Username must be at least 3 characters long"
  const EmailRequired := "Email is required"
  const EmailInvalid := "Invalid email format"
  const PasswordRequired := "Password is required"
  const PasswordShort := "Password must be at least 8 characters long"
  const PasswordsDiffer := "Passwords do not match"
  const PhoneInvalid := "Invalid phone number format"
  const CityShort := "City name is too short"

  /**
   * The message `validateForm` records for one field: that of its first failing
   * check, none when the field passes. A blank value is what `!value.trim()` tests.
   */
  function FieldError(f: SignupForm, field: Field): Option<string> {
    match field
    case Username =>
      if Blank(f.username) then Some(UsernameRequired)
      else if |f.username| < 3 then Some(UsernameShort)
      else None
    case Email =>
      if Blank(f.email) then Some(EmailRequired)
      else if !EmailCheck(f.email) then Some(EmailInvalid)
      else None
    case Password =>
      if f.password == "" then Some(PasswordRequired)
      else if |f.password| < 8 then Some(PasswordShort)
      else None
    case ConfirmPassword =>
      if f.password != f.confirmPassword then Some(PasswordsDiffer) else None
    case Phone =>
      if f.phone != "" && !PhoneMatches(f.phone) then Some(PhoneInvalid) else None
    case City =>
      if f.city != "" && |f.city| < 2 then Some(CityShort) else None
  }

  /** The form passes `validateForm`: no field has a message. */
  predicate FormValid(f: SignupForm) {
    forall field :: FieldError(f, field) == None
  }

  /**
   * Spelled out, a valid form has a username that is not blank and has 3 or more
   * characters, an email the expression accepts, a password of 8 or more
   * characters repeated exactly, and a phone and city that are empty or well formed.
   */
  lemma FormValidMeaning(f: SignupForm)
    ensures FormValid(f) <==>
      Trim(f.username) != "" && |f.username| >= 3 &&
      EmailMatches(f.email) &&
      |f.password| >= 8 && f.password == f.confirmPassword &&
      (f.phone == "" || PhoneMatches(f.phone)) &&
      (f.city == "" || |f.city| >= 2)
  {
    UsernameRule(f);
    EmailRule(f);
    assert FieldError(f, Password) == None <==> |f.password| >= 8;
    assert FormValid(f) <==>
      (FieldError(f, Username) == None && FieldError(f, Email) == None &&
       FieldError(f, Password) == None && FieldError(f, ConfirmPassword) == None &&
       FieldError(f, Phone) == None && FieldError(f, City) == None);
  }

  lemma UsernameRule(f: SignupForm)
    ensures FieldError(f, Username) == None <==> Trim(f.username) != "" && |f.username| >= 3
  {
    TrimEmptyIff(f.username);
  }

  lemma EmailRule(f: SignupForm)
    ensures FieldError(f, Email) == None <==> EmailMatches(f.email)
  {
    EmailCheckMatches(f.email);
    if EmailMatches(f.email) {
      EmailMatchesNotBlank(f.email);
    }
  }

  /** `errors` holds the field's message under the field, and nothing when it passes. */
  predicate Reported(errors: map<Field, string>, f: SignupForm, field: Field) {
    (field in errors <==> FieldError(f, field).Some?) &&
    (field in errors ==> errors[field] == FieldError(f, field).value)
  }

  /** The `newErrors` object of `validateForm`: one `if` per field, each recording that field's message. */
  method FormErrors(f: SignupForm) returns (errors: map<Field, string>)
    ensures forall field :: Reported(errors, f, field)
    ensures errors == map[] <==> FormValid(f)
  {
    errors := map[];
    var m := FieldError(f, Username);
    if m.Some? { errors := errors[Username := m.value]; }
    m := FieldError(f, Email);
    if m.Some? { errors := errors[Email := m.value]; }
    m := FieldError(f, Password);
    if m.Some? { errors := errors[Password := m.value]; }
    m := FieldError(f, ConfirmPassword);
    if m.Some? { errors := errors[ConfirmPassword := m.value]; }
    m := FieldError(f, Phone);
    if m.Some? { errors := errors[Phone := m.value]; }
    m := FieldError(f, City);
    if m.Some? { errors := errors[City := m.value]; }
    assert Reported(errors, f, Username);
    assert Reported(errors, f, Email);
    assert Reported(errors, f, Password);
    assert Reported(errors, f, ConfirmPassword);
    assert Reported(errors, f, Phone);
    assert Reported(errors, f, City);
    if errors != map[] {
      var field :| field in errors;
    }
  }

  // ---- the multipart body ----

  /** A form value as `FormData.append` receives it. */
  datatype Value = Text(s: string) | File(name: string) | Null

  /** `Object.keys(formData)` with their values, in declaration order. */
  function Entries(f: SignupForm): seq<(string, Value)> {
    [("username", Text(f.username)), ("email", Text(f.email)), ("password", Text(f.password)),
     ("confirmPassword", Text(f.confirmPassword)), ("phone", Text(f.phone)), ("city", Text(f.city)),
     ("profilePicture", match f.profilePicture
                         case NotPicked => Null
                         case Picked(name) => File(name)
                         case Emptied => Text(""))]
  }

  /** The entries whose value is not null, in their order. */
  function NonNull(kv: seq<(string, Value)>): seq<(string, Value)>
    decreases |kv|
  {
    if kv == [] then []
    else NonNull(kv[..|kv| - 1]) + (if kv[|kv| - 1].1 != Null then [kv[|kv| - 1]] else [])
  }

  /** An entry is sent exactly when the form holds it and its value is not null. */
  lemma {:induction false} NonNullMembers(kv: seq<(string, Value)>, e: (string, Value))
    ensures e in NonNull(kv) <==> e in kv && e.1 != Null
    decreases |kv|
  {
    if kv != [] {
      NonNullMembers(kv[..|kv| - 1], e);
      assert kv == kv[..|kv| - 1] + [kv[|kv| - 1]];
    }
  }

  /** The `forEach` of `handleSubmit`: each non-null entry appended to the body in turn. */
  method FormDataToSend(kv: seq<(string, Value)>) returns (body: seq<(string, Value)>)
    ensures body == NonNull(kv)
  {
    body := [];
    var i := 0;
    while i < |kv|
      invariant 0 <= i <= |kv|
      invariant body == NonNull(kv[..i])
    {
      assert kv[..i + 1][..i] == kv[..i];
      if kv[i].1 != Null {
        body := body + [kv[i]];
      }
      i := i + 1;
    }
    assert kv[..i] == kv;
  }

  /** Entries none of which is null are all sent, in their order. */
  lemma {:induction false} NonNullKeepsAll(kv: seq<(string, Value)>)
    requires forall k | 0 <= k < |kv| :: kv[k].1 != Null
    ensures NonNull(kv) == kv
    decreases |kv|
  {
    if kv != [] {
      NonNullKeepsAll(kv[..|kv| - 1]);
    }
  }

  /**
   * Every text field is sent, empty or not. The picture is sent as the file once
   * one was chosen, as an empty text value once the input was cleared, and not at
   * all while the input was never touched.
   */
  lemma SignupBody(f: SignupForm)
    ensures f.profilePicture != NotPicked ==> NonNull(Entries(f)) == Entries(f)
    ensures f.profilePicture == NotPicked ==> NonNull(Entries(f)) == Entries(f)[..6]
    ensures f.profilePicture.Picked? ==> Entries(f)[6] == ("profilePicture", File(f.profilePicture.name))
    ensures f.profilePicture == Emptied ==> Entries(f)[6] == ("profilePicture", Text(""))
  {
    var kv := Entries(f);
    NonNullKeepsAll(kv[..6]);
    assert kv[..|kv| - 1] == kv[..6];
    if f.profilePicture != NotPicked {
      assert kv == kv[..6] + [kv[6]];
    }
  }

  class Page {
    var form: SignupForm
    var errors: map<Field, string>

    constructor ()
      ensures form == SignupForm("", "", "", "", "", "", NotPicked) && errors == map[]
    {
      form := SignupForm("", "", "", "", "", "", NotPicked);
      errors := map[];
    }

    /** `handleChange` for a text input: the field takes the value as typed. */
    method HandleChange(field: Field, value: string)
      modifies this`form
      ensures form == match field
        case Username => old(form).(username := value)
        case Email => old(form).(email := value)
        case Password => old(form).(password := value)
        case ConfirmPassword => old(form).(confirmPassword := value)
        case Phone => old(form).(phone := value)
        case City => old(form).(city := value)
    {
      match field
      case Username => form := form.(username := value);
      case Email => form := form.(email := value);
      case Password => form := form.(password := value);
      case ConfirmPassword => form := form.(confirmPassword := value);
      case Phone => form := form.(phone := value);
      case City => form := form.(city := value);
    }

    /**
     * `handleChange` for the picture input: a chosen file replaces the previous one;
     * a change without a file stores the input's value, the empty text.
     */
    method PictureChosen(file: Option<string>)
      modifies this`form
      ensures file.Some? ==> form == old(form).(profilePicture := Picked(file.value))
      ensures file.None? ==> form == old(form).(profilePicture := Emptied)
    {
      if file.Some? {
        form := form.(profilePicture := Picked(file.value));
      } else {
        form := form.(profilePicture := Emptied);
      }
    }

    /** `handleSubmit`: nothing is sent for an invalid form; a valid one sends its non-null entries. */
    method HandleSubmit() returns (body: Option<seq<(string, Value)>>)
      modifies this`errors
      ensures forall field :: Reported(errors, form, field)
      ensures body.Some? <==> FormValid(form)
      ensures body.Some? ==> body.value == NonNull(Entries(form))
    {
      var newErrors := FormErrors(form);
      errors := newErrors;
      if |newErrors| != 0 {
        return None;
      }
      var sent := FormDataToSend(Entries(form));
      body := Some(sent);
    }
  }
}
