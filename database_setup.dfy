/** The table-provisioning panel (src/components/DatabaseSetup.tsx): an
    idle / success / error status machine around the foreign call
    `createUserProfilesTable`, whose result the model takes as a parameter. */
module DatabaseSetup {
  import opened Js
  import opened Effects

  datatype Status = Idle | Success | Error

  const Created: string := "user_profiles table created successfully!"

  /** The status and message a finished call leaves: success with the fixed
      message, a failure with `result.error || 'Failed to create table'`, a
      throw with the fixed unexpected-error text. */
  function Settle(result: CallResult): (r: (Status, string))
    ensures r.0 == Success <==> result.Returned? && result.success
    ensures r.0 != Idle && r.1 != ""
    ensures r.0 == Success ==> r.1 == Created
    ensures result.Returned? && !result.success ==>
      r == (Error, if Truthy(result.error) then result.error.value else "Failed to create table")
    ensures result.Threw? ==> r == (Error, "An unexpected error occurred")
  {
    match result
    case Threw => (Error, "An unexpected error occurred")
    case Returned(success, err) =>
      if success then (Success, Created) else (Error, OrElse(err, "Failed to create table"))
  }

  class Component {
    var isCreating: bool
    var status: Status
    var message: string

    /** A message is shown exactly when the status is not idle, and the status
        is idle while a call is pending. */
    ghost predicate Valid()
      reads this
    {
      (status == Idle <==> message == "") && (isCreating ==> status == Idle)
    }

    constructor ()
      ensures Valid()
      ensures !isCreating && status == Idle && message == ""
    {
      isCreating := false;
      status := Idle;
      message := "";
    }

    /** The create button is enabled: not creating and not yet created
        (line 60). */
    predicate CanCreate()
      reads this
    {
      !isCreating && status != Success
    }

    /** `handleCreateTable` up to its `await`: busy, status back to idle, no
        message; the button is disabled meanwhile. */
    method BeginCreate()
      requires Valid()
      modifies this
      ensures Valid()
      ensures isCreating && status == Idle && message == ""
      ensures !CanCreate()
    {
      isCreating := true;
      status := Idle;
      message := "";
    }

    /** `handleCreateTable` after its `await`: status and message as `Settle`
        gives them, the busy flag false (`finally`). After a success the button
        stays disabled; after an error it is enabled again. */
    method CompleteCreate(result: CallResult)
      requires Valid()
      modifies this
      ensures Valid()
      ensures (status, message) == Settle(result)
      ensures !isCreating
      ensures CanCreate() <==> !(result.Returned? && result.success)
    {
      var (s, m) := Settle(result);
      status := s;
      message := m;
      isCreating := false;
    }
  }
}
