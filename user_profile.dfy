/** The profile dialog (src/components/UserProfile.tsx): view and edit the
    signed-in user's names. The user comes from the authentication hook and
    `updateProfile` is a foreign call; the model takes both as parameters. */
module UserProfile {
  import opened Js
  import opened Effects

  /** The two name fields of the signed-in user that the dialog shows. */
  datatype AuthUser = AuthUser(firstName: string, lastName: string)

  datatype Field = FirstName | LastName

  datatype FormData = FormData(firstName: string, lastName: string)
  {
    function Get(f: Field): string {
      match f
      case FirstName => firstName
      case LastName => lastName
    }

    /** `{ ...prev, [name]: value }`: the named field takes the value, the
        other keeps its own. */
    function With(f: Field, value: string): (r: FormData)
      ensures r.Get(f) == value
      ensures forall g :: g != f ==> r.Get(g) == Get(g)
    {
      match f
      case FirstName => this.(firstName := value)
      case LastName => this.(lastName := value)
    }
  }

  /** `{ firstName: user?.first_name || '', lastName: user?.last_name || '' }`:
      the user's names, or two empty fields when nobody is signed in. */
  function FormFor(user: Option<AuthUser>): (form: FormData)
    ensures user.Some? ==> form == FormData(user.value.firstName, user.value.lastName)
    ensures user.None? ==> form == FormData("", "")
  {
    FormData(OrElse(if user.Some? then Some(user.value.firstName) else None, ""),
             OrElse(if user.Some? then Some(user.value.lastName) else None, ""))
  }

  const FillAllFields: string := "Please fill in all fields"
  const Unexpected: string := "An unexpected error occurred"

  /** The check `handleSave` makes before anything else: both names non-blank
      after trimming. */
  predicate NamesFilled(form: FormData) {
    Trim(form.firstName) != "" && Trim(form.lastName) != ""
  }

  /** The error line after `updateProfile` came back: none on success,
      `result.error || 'Failed to update profile'` on failure, the fixed text
      when the call threw. */
  function FailureText(result: CallResult): (error: Option<string>)
    ensures result.Returned? && result.success <==> error.None?
    ensures result.Threw? ==> error == Some(Unexpected)
    ensures result.Returned? && !result.success ==>
      error == Some(if Truthy(result.error) then result.error.value else "Failed to update profile")
    ensures error.Some? ==> error.value != ""
  {
    match result
    case Threw => Some(Unexpected)
    case Returned(success, err) =>
      if success then None else Some(OrElse(err, "Failed to update profile"))
  }

  /** The state of the dialog, with the user the hook currently reports. */
  class Component {
    var user: Option<AuthUser>
    var isEditing: bool
    var formData: FormData
    var error: string
    var isLoading: bool

    /** Mounting with the hook's current user. */
    constructor (current: Option<AuthUser>)
      ensures user == current && formData == FormFor(current)
      ensures !isEditing && error == "" && !isLoading
    {
      user := current;
      isEditing := false;
      formData := FormFor(current);
      error := "";
      isLoading := false;
    }

    /** The hook reports a new user and the effect on `[user]` runs: a signed-in
        user's names replace the form; signing out leaves the form as it was. */
    method UserChanged(current: Option<AuthUser>)
      modifies this
      ensures user == current
      ensures current.Some? ==> formData == FormData(current.value.firstName, current.value.lastName)
      ensures current.None? ==> formData == old(formData)
      ensures isEditing == old(isEditing) && error == old(error) && isLoading == old(isLoading)
    {
      user := current;
      if current.Some? {
        formData := FormData(current.value.firstName, current.value.lastName);
      }
    }

    /** `handleInputChange`: only the named field changes, and the error line
        is cleared. */
    method HandleInputChange(name: Field, value: string)
      modifies this
      ensures formData == old(formData).With(name, value)
      ensures error == ""
      ensures user == old(user) && isEditing == old(isEditing) && isLoading == old(isLoading)
    {
      formData := formData.With(name, value);
      error := "";
    }

    /** The Edit button. */
    method StartEditing()
      modifies this
      ensures isEditing
      ensures user == old(user) && formData == old(formData) && error == old(error) && isLoading == old(isLoading)
    {
      isEditing := true;
    }

    /** `handleSave` up to its `await`. With a blank name it shows the
        fill-in error and returns `None`, the busy flag untouched. Otherwise it
        clears the error, sets the busy flag and returns the names handed to
        `updateProfile`. */
    method BeginSave() returns (call: Option<FormData>)
      modifies this
      ensures call.Some? <==> NamesFilled(old(formData))
      ensures call.None? ==> error == FillAllFields && isLoading == old(isLoading)
      ensures call.Some? ==> call.value == old(formData) && error == "" && isLoading
      ensures user == old(user) && isEditing == old(isEditing) && formData == old(formData)
    {
      var form := formData;
      var filled := NamesFilled(form);
      if filled {
        isLoading := true;
        error := "";
        call := Some(form);
      } else {
        error := FillAllFields;
        call := None;
      }
    }

    /** `handleSave` after its `await`: success leaves edit mode; failure or a
        throw stays in it and shows `FailureText`; the busy flag ends false. */
    method CompleteSave(result: CallResult)
      modifies this
      ensures result.Returned? && result.success ==> !isEditing && error == old(error)
      ensures !(result.Returned? && result.success) ==>
        isEditing == old(isEditing) && error == FailureText(result).value
      ensures !isLoading
      ensures user == old(user) && formData == old(formData)
    {
      match FailureText(result) {
        case None =>
          isEditing := false;
        case Some(e) =>
          error := e;
      }
      isLoading := false;
    }

    /** `handleCancel`: the form goes back to the user's names (two empty
        fields when nobody is signed in), edit mode ends, the error clears. */
    method HandleCancel()
      modifies this
      ensures formData == FormFor(user)
      ensures !isEditing && error == ""
      ensures user == old(user) && isLoading == old(isLoading)
    {
      formData := FormFor(user);
      isEditing := false;
      error := "";
    }
  }
}
