/** The sign-in / sign-up dialog (src/components/LoginModal.tsx): a form with
    a mode flag, an error line and a busy flag. `login` and `signup` are
    foreign calls; the model takes their results as parameters. */
module LoginModal {
  import opened Js
  import opened Effects

  /** The `name` attributes of the four inputs. */
  datatype Field = Email | Password | FirstName | LastName

  datatype FormData = FormData(email: string, password: string, firstName: string, lastName: string)
  {
    function Get(f: Field): string {
      match f
      case Email => email
      case Password => password
      case FirstName => firstName
      case LastName => lastName
    }

    /** `{ ...prev, [name]: value }`: the named field takes the value, the
        other three keep theirs. */
    function With(f: Field, value: string): (r: FormData)
      ensures r.Get(f) == value
      ensures forall g :: g != f ==> r.Get(g) == Get(g)
    {
      match f
      case Email => this.(email := value)
      case Password => this.(password := value)
      case FirstName => this.(firstName := value)
      case LastName => this.(lastName := value)
    }
  }

  const EmptyForm: FormData := FormData("", "", "", "")

  const FillAllFields: string := "Please fill in all fields"
  const PasswordTooShort: string := "Password must be at least 6 characters long"
  const Unexpected: string := "An unexpected error occurred"

  /** The two checks made before `signup`, in their order: blank names first,
      then a password under six UTF-16 code units. */
  function SignupValidation(form: FormData): (error: Option<string>)
    ensures error == Some(FillAllFields) <==> Trim(form.firstName) == "" || Trim(form.lastName) == ""
    ensures error == Some(PasswordTooShort) <==>
      Trim(form.firstName) != "" && Trim(form.lastName) != "" && Utf16Length(form.password) < 6
    ensures error.None? <==>
      Trim(form.firstName) != "" && Trim(form.lastName) != "" && Utf16Length(form.password) >= 6
  {
    if Trim(form.firstName) == "" || Trim(form.lastName) == "" then Some(FillAllFields)
    else if Utf16Length(form.password) < 6 then Some(PasswordTooShort)
    else None
  }

  /** The foreign call `handleSubmit` awaits, with the arguments it passes. */
  datatype AuthCall = Login(email: string, password: string)
                    | Signup(email: string, password: string, firstName: string, lastName: string)

  /** What `handleSubmit` does before its `await`: call `login` with the
      credentials in login mode without any check, otherwise either reject the
      form with a validation error or call `signup` with all four fields. */
  datatype Plan = Call(call: AuthCall) | Invalid(error: string)

  function PlanSubmit(isLogin: bool, form: FormData): (p: Plan)
    ensures isLogin ==> p == Call(Login(form.email, form.password))
    ensures !isLogin && SignupValidation(form).Some? ==> p == Invalid(SignupValidation(form).value)
    ensures !isLogin && SignupValidation(form).None? ==>
      p == Call(Signup(form.email, form.password, form.firstName, form.lastName))
  {
    if isLogin then Call(Login(form.email, form.password))
    else match SignupValidation(form)
      case Some(error) => Invalid(error)
      case None => Call(Signup(form.email, form.password, form.firstName, form.lastName))
  }

  /** Only a signup is ever refused before the call, and then with exactly one
      of the two validation messages, the name check winning. */
  lemma InvalidOnlyInSignupMode(isLogin: bool, form: FormData)
    requires PlanSubmit(isLogin, form).Invalid?
    ensures !isLogin
    ensures PlanSubmit(isLogin, form).error in {FillAllFields, PasswordTooShort}
    ensures (Trim(form.firstName) == "" || Trim(form.lastName) == "") ==>
      PlanSubmit(isLogin, form).error == FillAllFields
  {
  }

  /** The error line after the call came back: `result.error || 'Login failed'`
      (or `'Signup failed'`) on failure, the fixed text when the call threw,
      and `None` on success (the error line is left as it was). */
  function FailureText(call: AuthCall, result: CallResult): (error: Option<string>)
    ensures result.Returned? && result.success <==> error.None?
    ensures result.Threw? ==> error == Some(Unexpected)
    ensures result.Returned? && !result.success && Truthy(result.error) ==> error == result.error
    ensures result.Returned? && !result.success && !Truthy(result.error) ==>
      error == Some(if call.Login? then "Login failed" else "Signup failed")
    ensures error.Some? ==> error.value != ""
  {
    match result
    case Threw => Some(Unexpected)
    case Returned(success, err) =>
      if success then None
      else Some(OrElse(err, if call.Login? then "Login failed" else "Signup failed"))
  }

  /** The state of the dialog. `showPassword` (the eye toggle) is not
      modelled. */
  class Component {
    var isLogin: bool
    var formData: FormData
    var error: string
    var isLoading: bool
    /** The foreign call `handleSubmit` is awaiting, if any. */
    ghost var pending: Option<AuthCall>

    /** A call is pending exactly while the busy flag is set, and no error is
        shown meanwhile. */
    ghost predicate Valid()
      reads this
    {
      (isLoading <==> pending.Some?) && (isLoading ==> error == "")
    }

    constructor ()
      ensures Valid()
      ensures isLogin && formData == EmptyForm && error == "" && !isLoading
      ensures pending == None
    {
      pending := None;
      isLogin := true;
      formData := EmptyForm;
      error := "";
      isLoading := false;
    }

    /** `handleInputChange`: only the named field changes, and the error line
        is cleared. */
    method HandleInputChange(name: Field, value: string)
      requires Valid()
      modifies this
      ensures Valid()
      ensures formData == old(formData).With(name, value)
      ensures formData.Get(name) == value
      ensures forall g :: g != name ==> formData.Get(g) == old(formData).Get(g)
      ensures error == ""
      ensures isLogin == old(isLogin) && isLoading == old(isLoading) && pending == old(pending)
    {
      formData := formData.With(name, value);
      error := "";
    }

    /** `toggleMode`: the other mode, no error, four empty fields. */
    method ToggleMode()
      requires Valid()
      modifies this
      ensures Valid()
      ensures isLogin == !old(isLogin)
      ensures error == "" && formData == EmptyForm
      ensures isLoading == old(isLoading) && pending == old(pending)
    {
      isLogin := !isLogin;
      error := "";
      formData := EmptyForm;
    }

    /** `handleSubmit` up to its `await`. The error line is cleared and, when
        a call is due, the busy flag is set and the call returned; a signup
        that fails validation instead shows the validation error and, through
        `finally`, ends with the busy flag false. The form is not touched. */
    method BeginSubmit() returns (call: Option<AuthCall>)
      requires Valid()
      modifies this
      ensures Valid()
      ensures var plan := PlanSubmit(old(isLogin), old(formData));
        && (plan.Call? ==> call == Some(plan.call) && isLoading && error == "")
        && (plan.Invalid? ==> call == None && !isLoading && error == plan.error)
      ensures old(isLogin) ==> call.Some? && call.value.Login?
      ensures pending == call
      ensures isLogin == old(isLogin) && formData == old(formData)
    {
      // The plan reads only the mode and the form, so deciding it before the
      // two state updates that open `handleSubmit` changes nothing.
      var plan := PlanSubmit(isLogin, formData);
      isLoading := true;
      error := "";
      if plan.Invalid? {
        error := plan.error;
        isLoading := false;
        call := None;
      } else {
        call := Some(plan.call);
      }
      pending := call;
    }

    /** `handleSubmit` after its `await`, given the call `BeginSubmit` made and
        its result.
        On success `onClose` is called (`closed`) and the form is emptied; on
        failure or a throw the error line shows `FailureText`; the busy flag
        ends false on every path. */
    method CompleteSubmit(call: AuthCall, result: CallResult) returns (closed: bool)
      requires Valid() && pending == Some(call)
      modifies this
      ensures Valid() && pending == None
      ensures closed <==> result.Returned? && result.success
      ensures closed ==> formData == EmptyForm && error == old(error)
      ensures !closed ==> formData == old(formData) && error == FailureText(call, result).value
      ensures !isLoading && isLogin == old(isLogin)
    {
      match FailureText(call, result) {
        case None =>
          closed := true;
          formData := EmptyForm;
        case Some(e) =>
          closed := false;
          error := e;
      }
      isLoading := false;
      pending := None;
    }
  }
}
