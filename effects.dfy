/** What calls into code outside the model hand back. The components await
    them; the model receives their results as parameters. */
module Effects {
  import opened Js

  /** The `{ success, error? }` object returned by `login`, `signup`,
      `updateProfile` and `createUserProfilesTable`, or a call that threw
      (its promise rejected). */
  datatype CallResult = Returned(success: bool, error: Option<string>) | Threw

  /** How an awaited promise settled: with a value, or by rejecting. */
  datatype Settled<+T> = Resolved(value: T) | Rejected
}
