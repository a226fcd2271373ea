/** The three-step onboarding wizard: each Next validates only the current
    step's fields, Back steps back, and Finish validates the last step and
    hands the whole form to the `saveOnboardingData` action. The step index is
    0-based and only the buttons move it. */
module OnboardingFlow {
  import opened JsValues
  import opened DocumentStore
  import OnboardingSchema
  import OnboardingAction
  import opened Ui

  const SlideCount: nat := 3

  /** The fields each step validates. */
  function SlideFields(i: nat): (fields: seq<string>)
    requires i < SlideCount
    ensures forall k :: k in fields ==> k in OnboardingSchema.Fields
  {
    if i == 0 then ["fullName", "address"]
    else if i == 1 then ["gender", "age", "height", "weight"]
    else ["measurementUnit", "chest", "waist", "hips", "inseam"]
  }

  /** `trigger(fields)`: true iff none of the listed fields has an error. */
  predicate Trigger(d: Doc, fields: seq<string>)
    requires forall k :: k in fields ==> k in OnboardingSchema.Fields
  {
    forall k :: k in fields ==> OnboardingSchema.CheckField(d, k).Pass?
  }

  /** `defaultValues` */
  const DefaultValues: Doc := map[
    "fullName" := Str(""), "address" := Str(""), "gender" := Str("Other"),
    "age" := Num(0.0), "height" := Num(0.0), "weight" := Num(0.0),
    "measurementUnit" := Str("cm"),
    "chest" := Num(0.0), "waist" := Num(0.0), "hips" := Num(0.0), "inseam" := Num(0.0)]

  /** `((current + 1) / slides.length) * 100` */
  function ProgressValue(current: nat): real
  {
    ((current + 1) as real / SlideCount as real) * 100.0
  }

  /** The progress bar grows with every step and is full on the last one. */
  lemma ProgressGrows(i: nat, j: nat)
    requires i < j < SlideCount
    ensures ProgressValue(i) < ProgressValue(j)
    ensures ProgressValue(SlideCount - 1) == 100.0
    ensures 0.0 < ProgressValue(0)
  {
  }

  /** The steps split the schema: every schema field is validated by exactly
      one step. */
  lemma SlidesPartitionSchema(k: string)
    ensures k in OnboardingSchema.Fields <==> k in SlideFields(0) || k in SlideFields(1) || k in SlideFields(2)
    ensures k in SlideFields(0) ==> k !in SlideFields(1) && k !in SlideFields(2)
    ensures k in SlideFields(1) ==> k !in SlideFields(2)
  {
  }

  /** Passing all three step validations is exactly what the server-side
      validation of the whole form demands. */
  lemma StepsAgreeWithSchema(d: Doc)
    ensures (Trigger(d, SlideFields(0)) && Trigger(d, SlideFields(1)) && Trigger(d, SlideFields(2)))
      <==> OnboardingSchema.SafeParse(d).Valid?
  {
    forall k | k in OnboardingSchema.Fields
      ensures k in SlideFields(0) || k in SlideFields(1) || k in SlideFields(2)
    {
      SlidesPartitionSchema(k);
    }
  }

  class Flow {
    var current: nat
    var isSubmitting: bool
    var form: Doc

    ghost predicate Valid()
      reads this
    {
      current < SlideCount && !isSubmitting
    }

    constructor ()
      ensures Valid() && current == 0 && form == DefaultValues
    {
      current, isSubmitting, form := 0, false, DefaultValues;
    }

    /** A form control's `onChange`. */
    method SetField(k: string, v: Value)
      requires Valid()
      modifies this`form
      ensures Valid() && form == old(form)[k := v]
    {
      form := form[k := v];
    }

    /** Next, shown before the last step: advances iff the step's fields pass. */
    method HandleNext()
      requires Valid() && current < SlideCount - 1
      modifies this`current
      ensures Valid()
      ensures Trigger(form, SlideFields(old(current))) <==> current == old(current) + 1
      ensures !Trigger(form, SlideFields(old(current))) ==> current == old(current)
    {
      var isValid := Trigger(form, SlideFields(current));
      if isValid {
        current := current + 1;
      }
    }

    /** Back, disabled on the first step. */
    method HandlePrev()
      requires Valid() && current != 0
      modifies this`current
      ensures Valid() && current == old(current) - 1
    {
      current := current - 1;
    }

    /** Finish, shown on the last step: validates that step, then saves the
        whole form for the signed-in user `user`. The wizard completes iff the
        save succeeds; any other answer is shown as an error toast. */
    method HandleSubmit(db: Database, user: Option<string>, writeFails: bool)
      returns (completed: bool, toast: Option<Toast>)
      requires Valid() && current == SlideCount - 1
      modifies this`isSubmitting, db
      ensures Valid()
      ensures !Trigger(form, SlideFields(current)) ==> !completed && toast.None? && db.docs == old(db.docs)
      ensures Trigger(form, SlideFields(current)) ==> toast.Some?
      ensures completed <==>
        (Trigger(form, SlideFields(current)) && user.Some? && OnboardingSchema.SafeParse(form).Valid? && !writeFails)
      ensures completed ==>
        toast == Some(Toast("Success!", OnboardingAction.SavedMessage, false)) &&
        db.docs == MergeWrite(old(db.docs), Customers, user.value,
                              OnboardingAction.SavePayload(OnboardingSchema.SafeParse(form).data))
      ensures Trigger(form, SlideFields(current)) && !completed ==>
        toast.value.title == "Oops! Something went wrong." && toast.value.destructive &&
        db.docs == old(db.docs)
      ensures Trigger(form, SlideFields(current)) && user.None? ==>
        toast.value.description == OnboardingAction.LoginMessage
      ensures Trigger(form, SlideFields(current)) && user.Some? && OnboardingSchema.SafeParse(form).Invalid? ==>
        toast.value.description == OnboardingAction.InvalidMessage
      ensures Trigger(form, SlideFields(current)) && user.Some? && OnboardingSchema.SafeParse(form).Valid? && writeFails ==>
        toast.value.description == OnboardingAction.FailedMessage
    {
      completed, toast := false, None;
      var isValid := Trigger(form, SlideFields(current));
      if isValid {
        isSubmitting := true;
        var result := OnboardingAction.SaveOnboardingData(db, user, form, writeFails);
        isSubmitting := false;
        if result.success {
          toast := Some(Toast("Success!", result.message, false));
          completed := true;
        } else {
          toast := Some(Toast("Oops! Something went wrong.", result.message, true));
        }
      }
    }
  }
}
