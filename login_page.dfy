/**
 * The sign-in form (`Login.js`): the validation that fills the error map, and
 * what `handleSubmit` does with the server's answer: an inactive account is
 * refused with a toast and nothing stored; an active one has its token and role
 * stored and is routed by role.
 *
 * The network is a parameter: `HandleSubmit` returns the body it would post and
 * `ReceiveAnswer` is given what came back. `localStorage` is the `token` and
 * `userRole` fields of the page.
 */
module LoginPage {
  import opened Optional
  import opened Strings
  import opened FormRules

  datatype Field = Email | Password

  datatype LoginForm = LoginForm(email: string, password: string)

  const EmailRequired := "Email is required"
  const EmailInvalid := "Invalid email format"
  const PasswordRequired := "Password is required"

  /** The message `validateForm` records for one field, none when it passes. */
  function FieldError(f: LoginForm, field: Field): Option<string> {
    match field
    case Email =>
      if Blank(f.email) then Some(EmailRequired)
      else if !EmailCheck(f.email) then Some(EmailInvalid)
      else None
    case Password =>
      if f.password == "" then Some(PasswordRequired) else None
  }

  /** The form passes `validateForm`: no field has a message. */
  predicate FormValid(f: LoginForm) {
    forall field :: FieldError(f, field) == None
  }

  /**
   * A valid sign-in form has an email the expression accepts and any password
   * that is not empty: unlike signup, there is no length rule.
   */
  lemma FormValidMeaning(f: LoginForm)
    ensures FormValid(f) <==> EmailMatches(f.email) && f.password != ""
  {
    EmailCheckMatches(f.email);
    if EmailMatches(f.email) {
      EmailMatchesNotBlank(f.email);
    }
    assert FormValid(f) <==> FieldError(f, Email) == None && FieldError(f, Password) == None;
  }

  /** `errors` holds the field's message under the field, and nothing when it passes. */
  predicate Reported(errors: map<Field, string>, f: LoginForm, field: Field) {
    (field in errors <==> FieldError(f, field).Some?) &&
    (field in errors ==> errors[field] == FieldError(f, field).value)
  }

  /** The `newErrors` object of `validateForm`. */
  method FormErrors(f: LoginForm) returns (errors: map<Field, string>)
    ensures forall field :: Reported(errors, f, field)
    ensures errors == map[] <==> FormValid(f)
  {
    errors := map[];
    if Blank(f.email) {
      errors := errors[Email := EmailRequired];
    } else if !EmailCheck(f.email) {
      errors := errors[Email := EmailInvalid];
    }
    if f.password == "" {
      errors := errors[Password := PasswordRequired];
    }
    assert Reported(errors, f, Email);
    assert Reported(errors, f, Password);
    if errors != map[] {
      var field :| field in errors;
    }
  }

  /** The `user` object of a successful answer; the role and status are the database's strings. */
  datatype User = User(role: string, status: string)

  /**
   * What `POST /login` answered: a refusal with the body's message (empty when the
   * body had none), an accepted login, or no answer at all (the fetch threw).
   */
  datatype Answer = Refused(message: string) | Accepted(token: string, user: User) | Unreachable(reason: string)

  datatype ToastKind = SuccessToast | ErrorToast

  datatype Toast = Toast(message: string, kind: ToastKind)

  /** The decision `handleSubmit` takes on an answer. */
  datatype Outcome = Failed(message: string) | Blocked | SignedIn(token: string, user: User, route: string)

  const InactiveMessage := "Your account is inactive. Please contact support."
  const WelcomeMessage := "Login successful!"
  const RefusedFallback := "Login failed"
  const UnreachableFallback := "An error occurred. Please try again."
  const AdminRoute := "/admin-dashboard"
  const ProductsRoute := "/products"

  /** `message || fallback`. */
  function OrElse(message: string, fallback: string): string {
    if message != "" then message else fallback
  }

  /**
   * The outcome of an answer: only an accepted login of an account that is not
   * `Inactive` signs in, and it goes to the admin dashboard exactly when the role
   * is `Admin`.
   */
  function Decide(a: Answer): (o: Outcome)
    ensures o.SignedIn? <==> a.Accepted? && a.user.status != "Inactive"
    ensures o.Blocked? <==> a.Accepted? && a.user.status == "Inactive"
    ensures o.SignedIn? ==> o.token == a.token && o.user == a.user
    ensures o.SignedIn? ==> (o.route == AdminRoute <==> a.user.role == "Admin")
    ensures o.SignedIn? ==> (o.route == ProductsRoute <==> a.user.role != "Admin")
    ensures o.Failed? ==> o.message != ""
  {
    match a
    case Refused(message) => Failed(OrElse(message, RefusedFallback))
    case Unreachable(reason) => Failed(OrElse(reason, UnreachableFallback))
    case Accepted(token, user) =>
      if user.status == "Inactive" then Blocked
      else SignedIn(token, user, if user.role == "Admin" then AdminRoute else ProductsRoute)
  }

  class Page {
    var form: LoginForm
    var errors: map<Field, string>
    var loading: bool
    var toast: Option<Toast>
    /** `localStorage` `token` and `userRole`. */
    var token: Option<string>
    var userRole: Option<string>
    /** The user handed to the authentication context. */
    var user: Option<User>
    /** Where `navigate` sent the browser, if anywhere. */
    var route: Option<string>

    constructor ()
      ensures form == LoginForm("", "") && errors == map[] && !loading && toast == None
      ensures token == None && userRole == None && user == None && route == None
    {
      form := LoginForm("", "");
      errors := map[];
      loading := false;
      toast := None;
      token := None;
      userRole := None;
      user := None;
      route := None;
    }

    /** `handleChange`: the input takes the value and loses a pending error message. */
    method HandleChange(field: Field, value: string)
      modifies this`form, this`errors
      ensures field == Email ==> form == old(form).(email := value)
      ensures field == Password ==> form == old(form).(password := value)
      ensures field in old(errors) && old(errors)[field] != "" ==> errors == old(errors)[field := ""]
      ensures !(field in old(errors) && old(errors)[field] != "") ==> errors == old(errors)
    {
      if field == Email {
        form := form.(email := value);
      } else {
        form := form.(password := value);
      }
      if field in errors && errors[field] != "" {
        errors := errors[field := ""];
      }
    }

    /** The first half of `handleSubmit`: validate, and post the form as it stands when it is valid. */
    method HandleSubmit() returns (body: Option<LoginForm>)
      modifies this`errors, this`loading
      ensures forall field :: Reported(errors, form, field)
      ensures body.Some? <==> FormValid(form)
      ensures body.Some? ==> body.value == form
      ensures loading == (old(loading) || body.Some?)
    {
      var newErrors := FormErrors(form);
      errors := newErrors;
      if |newErrors| != 0 {
        return None;
      }
      loading := true;
      body := Some(form);
    }

    /**
     * The second half of `handleSubmit`: the answer decides the toast; only a
     * sign-in stores the token and role, hands the user over and navigates.
     */
    method ReceiveAnswer(a: Answer)
      modifies this`loading, this`toast, this`token, this`userRole, this`user, this`route
      ensures !loading
      ensures Decide(a).Failed? ==>
        toast == Some(Toast(Decide(a).message, ErrorToast)) &&
        token == old(token) && userRole == old(userRole) && user == old(user) && route == old(route)
      ensures Decide(a).Blocked? ==>
        toast == Some(Toast(InactiveMessage, ErrorToast)) &&
        token == old(token) && userRole == old(userRole) && user == old(user) && route == old(route)
      ensures Decide(a).SignedIn? ==>
        toast == Some(Toast(WelcomeMessage, SuccessToast)) &&
        token == Some(a.token) && userRole == Some(a.user.role) && user == Some(a.user) &&
        route == Some(Decide(a).route)
    {
      var o := Decide(a);
      match o {
        case Failed(message) =>
          toast := Some(Toast(message, ErrorToast));
        case Blocked =>
          toast := Some(Toast(InactiveMessage, ErrorToast));
        case SignedIn(t, u, r) =>
          toast := Some(Toast(WelcomeMessage, SuccessToast));
          token := Some(t);
          userRole := Some(u.role);
          user := Some(u);
          route := Some(r);
      }
      loading := false;
    }
  }
}
