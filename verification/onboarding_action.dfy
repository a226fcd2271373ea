/** The `saveOnboardingData` server action: it checks for a signed-in user,
    then validates the record against the onboarding schema, then merges the
    validated record into the customer's document. It never throws. */
module OnboardingAction {
  import opened JsValues
  import opened DocumentStore
  import OnboardingSchema

  /** `{ success, message, errors? }` */
  datatype FormState = FormState(success: bool, message: string, errors: Option<map<string, seq<string>>>)

  const LoginMessage: string := "You must be logged in to save your profile."
  const InvalidMessage: string := "Invalid form data."
  const SavedMessage: string := "Your profile has been set up successfully!"
  const FailedMessage: string := "An unexpected error occurred. Please try again."

  /** `{ ...validatedFields.data, onboardingCompleted: true }` */
  function SavePayload(validated: Doc): (p: Doc)
    ensures p.Keys == validated.Keys + {"onboardingCompleted"}
    ensures p["onboardingCompleted"] == Bool(true)
    ensures forall k :: k in validated && k != "onboardingCompleted" ==> p[k] == validated[k]
  {
    validated["onboardingCompleted" := Bool(true)]
  }

  /** `saveOnboardingData(data)` for the signed-in user `user` (`None`: nobody).
      Login is checked before validation; only a signed-in user with a valid
      record causes a write, always to `customers/uid` whatever the role. */
  method SaveOnboardingData(db: Database, user: Option<string>, data: Doc, writeFails: bool) returns (r: FormState)
    modifies db
    ensures user.None? ==> r == FormState(false, LoginMessage, None) && db.docs == old(db.docs)
    ensures user.Some? && OnboardingSchema.SafeParse(data).Invalid? ==>
      r == FormState(false, InvalidMessage, Some(OnboardingSchema.FieldErrors(data))) && db.docs == old(db.docs)
    ensures user.Some? && OnboardingSchema.SafeParse(data).Valid? && writeFails ==>
      r == FormState(false, FailedMessage, None) && db.docs == old(db.docs)
    ensures user.Some? && OnboardingSchema.SafeParse(data).Valid? && !writeFails ==>
      r == FormState(true, SavedMessage, None) &&
      db.docs == MergeWrite(old(db.docs), Customers, user.value, SavePayload(OnboardingSchema.SafeParse(data).data))
  {
    if user.None? {
      return FormState(false, LoginMessage, None);
    }
    var validatedFields := OnboardingSchema.SafeParse(data);
    if validatedFields.Invalid? {
      return FormState(false, InvalidMessage, Some(validatedFields.errors));
    }
    if writeFails {
      return FormState(false, FailedMessage, None);
    }
    db.SetMerge(Customers, user.value, SavePayload(validatedFields.data));
    r := FormState(true, SavedMessage, None);
  }
}
