/** The onboarding page: three slide schemas merged into one form schema,
    role resolution when the signed-in user arrives, the Next/Finish handler
    that validates only the current step's fields, and the submit handler that
    merges the form into the user's document. The carousel reports the
    current step 1-based; it is 0 until the carousel is attached. */
module OnboardingPage {
  import opened JsValues
  import opened Zod
  import opened DocumentStore
  import opened UserActions

  // ---------------------------------------------------------------------------
  // The slide schemas and their merge.

  /** The merged form schema's fields, in order. */
  const FormFields: seq<string> :=
    ["name", "address", "phone", "email",
     "gender", "height", "weight", "age",
     "chest", "waist", "hips", "inseam", "measurementUnit"]

  const Slide1Fields: seq<string> := ["name", "address"]
  const Slide2Fields: seq<string> := ["gender", "age", "height", "weight"]
  const Slide3Fields: seq<string> := ["chest", "waist", "hips", "inseam", "measurementUnit"]

  /** The check the merged schema applies to field `k`. */
  function CheckField(d: Doc, k: string): Check
    requires k in FormFields
  {
    var v := Field(d, k);
    if k == "name" then StringMin(v, 2, "Name must be at least 2 characters.")
    else if k == "address" then StringMin(v, 5, "Please enter a valid address.")
    else if k == "phone" then OptionalString(v)
    else if k == "email" then OptionalEmail(v, "Please enter a valid email.")
    else if k == "gender" then EnumOf(v, ["male", "female", "other"])
    else if k == "height" then CoercedNumberMin(v, 1.0, "Height is required.")
    else if k == "weight" then CoercedNumberMin(v, 1.0, "Weight is required.")
    else if k == "age" then CoercedNumberMin(v, 1.0, "Age is required.")
    else if k == "measurementUnit" then EnumOf(v, ["cm", "inch", "meter"])
    else CoercedNumberMin(v, 1.0, NumberAtLeastOne)
  }

  /** `trigger(fields)`: true iff none of the listed fields has an error. */
  predicate Trigger(d: Doc, fields: seq<string>)
    requires forall k :: k in fields ==> k in FormFields
  {
    forall k :: k in fields ==> CheckField(d, k).Pass?
  }

  datatype Parsed = Valid(data: Doc) | Invalid

  /** `formSchema` applied by `handleSubmit`: the parsed record holds the
      schema's fields that are present (unknown keys are dropped, numbers are
      coerced). */
  function FormParse(d: Doc): (r: Parsed)
    ensures r.Valid? <==> forall k :: k in FormFields ==> CheckField(d, k).Pass?
    ensures r.Valid? ==> forall k :: k in r.data <==> k in FormFields && CheckField(d, k).out.Some?
    ensures r.Valid? ==> forall k :: k in r.data ==> r.data[k] == CheckField(d, k).out.value
  {
    if forall k :: k in FormFields ==> CheckField(d, k).Pass? then
      Valid(map k | k in FormFields && CheckField(d, k).out.Some? :: CheckField(d, k).out.value)
    else
      Invalid
  }

  // ---------------------------------------------------------------------------
  // Step gating.

  /** The fields `handleNext` validates at step `current`; `None` validates nothing. */
  function FieldsToValidate(role: Option<Role>, current: int): (r: Option<seq<string>>)
    ensures r.Some? ==> forall k :: k in r.value ==> k in FormFields
  {
    if role == Some(Customer) then
      (if current == 1 then Some(Slide1Fields)
       else if current == 2 then Some(Slide2Fields)
       else if current == 3 then Some(Slide3Fields)
       else None)
    else if role == Some(Tailor) && current == 1 then Some(Slide1Fields)
    else None
  }

  /** The number of slides: 3 for a customer, 1 otherwise. */
  function SlideCount(role: Option<Role>): nat
  {
    if role == Some(Customer) then 3 else 1
  }

  /** Customers validate a different, disjoint set of fields at each of their
      three steps; tailors validate only step 1. */
  lemma StepFieldsPartition()
    ensures FieldsToValidate(Some(Customer), 1) == Some(["name", "address"])
    ensures FieldsToValidate(Some(Customer), 2) == Some(["gender", "age", "height", "weight"])
    ensures FieldsToValidate(Some(Customer), 3) == Some(["chest", "waist", "hips", "inseam", "measurementUnit"])
    ensures FieldsToValidate(Some(Tailor), 1) == Some(["name", "address"])
    ensures forall c :: c != 1 ==> FieldsToValidate(Some(Tailor), c).None?
    ensures forall k :: k in Slide1Fields ==> k !in Slide2Fields && k !in Slide3Fields
    ensures forall k :: k in Slide2Fields ==> k !in Slide3Fields
  {
  }

  // ---------------------------------------------------------------------------
  // Prefill and the submit payload.

  /** `defaultFormValues` */
  const DefaultFormValues: Doc := map[
    "name" := Str(""), "address" := Str(""), "phone" := Str(""), "email" := Str(""),
    "gender" := Str("male"), "age" := Num(0.0), "height" := Num(0.0), "weight" := Num(0.0),
    "chest" := Num(0.0), "waist" := Num(0.0), "hips" := Num(0.0), "inseam" := Num(0.0),
    "measurementUnit" := Str("cm")]

  /** `{ ...defaultFormValues, ...data, name, email, phone }`: defaults, then the
      stored document, then the signed-in identity's name, e-mail and phone. */
  function Prefill(data: Doc, u: AuthProfile): Doc
  {
    DefaultFormValues + data + map[
      "name" := Str(OrText(u.displayName, "")),
      "email" := Str(OrText(u.email, "")),
      "phone" := Str(OrText(u.phoneNumber, ""))]
  }

  /** A user whose identity has no e-mail address can never pass the final
      validation: the prefilled empty e-mail fails the e-mail check, and no
      slide shows an e-mail field to correct it. */
  lemma MissingEmailBlocksSubmit(data: Doc, u: AuthProfile)
    requires u.email.None? || u.email == Some("")
    ensures FormParse(Prefill(data, u)).Invalid?
  {
    var d := Prefill(data, u);
    assert d["email"] == Str("");
    EmptyIsNotEmail();
    assert CheckField(d, "email").Issue?;
  }

  /** A document that never stored an age keeps the default age 0, which fails
      the final validation, for a tailor too, whose only slide has no age. */
  lemma DefaultAgeBlocksSubmit(data: Doc, u: AuthProfile)
    requires "age" !in data
    ensures FormParse(Prefill(data, u)).Invalid?
  {
    var d := Prefill(data, u);
    assert d["age"] == Num(0.0);
    assert CheckField(d, "age").Issue?;
  }

  /** `{ onboardingCompleted: true, updatedAt }`, then every submitted field,
      then `displayName = name` when the name is non-empty. */
  function SubmitPayload(data: Doc): (p: Doc)
    ensures "onboardingCompleted" !in data ==> "onboardingCompleted" in p && p["onboardingCompleted"] == Bool(true)
    ensures "updatedAt" !in data ==> "updatedAt" in p && p["updatedAt"] == ServerTimestamp
    ensures forall k :: k in data && k != "displayName" ==> k in p && p[k] == data[k]
    ensures "name" in data && Truthy(data["name"]) ==> "displayName" in p && p["displayName"] == data["name"]
    ensures p.Keys == data.Keys + {"onboardingCompleted", "updatedAt"} +
      (if "name" in data && Truthy(data["name"]) then {"displayName"} else {})
  {
    var profileData := map["onboardingCompleted" := Bool(true), "updatedAt" := ServerTimestamp] + data;
    if "name" in data && Truthy(data["name"]) then profileData["displayName" := data["name"]] else profileData
  }

  // ---------------------------------------------------------------------------
  // The page's state.

  class Page {
    var current: int
    var count: int
    var apiReady: bool
    var user: Option<AuthProfile>
    var userRole: Option<Role>
    var isSubmitting: bool
    var isLoading: bool
    var form: Doc

    /** Between two events nothing is being submitted. */
    ghost predicate Valid()
      reads this
    {
      !isSubmitting && current >= 0
    }

    constructor ()
      ensures Valid()
      ensures current == 0 && count == 0 && !apiReady && user.None? && userRole.None?
      ensures isLoading && form == DefaultFormValues
    {
      current, count, apiReady := 0, 0, false;
      user, userRole := None, None;
      isSubmitting, isLoading := false, true;
      form := DefaultFormValues;
    }

    /** The auth-state handler: the customer document is looked up first; a
        completed profile goes to its dashboard, an incomplete one prefills the
        form; with neither document, or nobody signed in, the page goes home. */
    method ResolveUser(authUser: Option<AuthProfile>, db: Database) returns (route: Option<string>)
      requires Valid()
      modifies this`user, this`userRole, this`form, this`count, this`isLoading
      ensures Valid() && !isLoading
      ensures authUser.None? ==>
        route == Some("/") && user == old(user) && userRole == old(userRole) && form == old(form) && count == old(count)
      ensures authUser.Some? ==> user == authUser
      ensures authUser.Some? && GetDoc(db.docs, Customers, authUser.value.uid).Some? ==>
        var data := GetDoc(db.docs, Customers, authUser.value.uid).value;
        && userRole == Some(Customer) && count == 3
        && (CompletedFlag(data) ==> route == Some("/customer/dashboard") && form == old(form))
        && (!CompletedFlag(data) ==> route.None? && form == Prefill(data, authUser.value))
      ensures authUser.Some? && GetDoc(db.docs, Customers, authUser.value.uid).None? &&
              GetDoc(db.docs, Tailors, authUser.value.uid).Some? ==>
        var data := GetDoc(db.docs, Tailors, authUser.value.uid).value;
        && userRole == Some(Tailor) && count == 1
        && (CompletedFlag(data) ==> route == Some("/tailor/dashboard") && form == old(form))
        && (!CompletedFlag(data) ==> route.None? && form == Prefill(data, authUser.value))
      ensures authUser.Some? && GetDoc(db.docs, Customers, authUser.value.uid).None? &&
              GetDoc(db.docs, Tailors, authUser.value.uid).None? ==>
        route == Some("/") && userRole == old(userRole) && form == old(form) && count == old(count)
    {
      route := None;
      if authUser.Some? {
        var u := authUser.value;
        user := authUser;
        var customerDoc := GetDoc(db.docs, Customers, u.uid);
        if customerDoc.Some? {
          userRole := Some(Customer);
          if CompletedFlag(customerDoc.value) {
            route := Some("/customer/dashboard");
          } else {
            form := Prefill(customerDoc.value, u);
          }
          count := 3;
        } else {
          var tailorDoc := GetDoc(db.docs, Tailors, u.uid);
          if tailorDoc.Some? {
            userRole := Some(Tailor);
            if CompletedFlag(tailorDoc.value) {
              route := Some("/tailor/dashboard");
            } else {
              form := Prefill(tailorDoc.value, u);
            }
            count := 1;
          } else {
            route := Some("/");
          }
        }
      } else {
        route := Some("/");
      }
      isLoading := false;
    }

    /** The carousel is attached once the page renders with a role: it shows
        one slide per step and reports the first step as 1. */
    method AttachCarousel()
      requires Valid() && userRole.Some?
      modifies this`apiReady, this`count, this`current
      ensures Valid() && apiReady && count == SlideCount(userRole) && current == 1
    {
      apiReady := true;
      count := SlideCount(userRole);
      current := 1;
    }

    /** A form control's `onChange`. */
    method SetField(k: string, v: Value)
      requires Valid()
      modifies this`form
      ensures Valid() && form == old(form)[k := v]
    {
      form := form[k := v];
    }

    /** Back, shown only after the first step: the carousel scrolls back. */
    method HandleBack()
      requires Valid() && apiReady && current > 1
      modifies this`current
      ensures Valid() && current == old(current) - 1
    {
      current := current - 1;
    }

    /** `onSubmit(data)` with the parsed form. */
    method OnSubmit(data: Doc, db: Database, writeFails: bool) returns (route: Option<string>, toast: string)
      requires Valid()
      modifies this`isSubmitting, db
      ensures Valid()
      ensures user.None? || userRole.None? ==> route.None? && toast == "User not found." && db.docs == old(db.docs)
      ensures user.Some? && userRole.Some? && writeFails ==>
        route.None? && toast == "Failed to save your profile. Please try again." && db.docs == old(db.docs)
      ensures user.Some? && userRole.Some? && !writeFails ==>
        && route == Some(Dashboard(userRole.value))
        && toast == "Your profile has been updated."
        && db.docs == MergeWrite(old(db.docs), CollectionFor(RoleName(userRole.value)), user.value.uid, SubmitPayload(data))
    {
      if user.None? || userRole.None? {
        return None, "User not found.";
      }
      isSubmitting := true;
      var collectionName := CollectionFor(RoleName(userRole.value));
      var profileData := SubmitPayload(data);
      if writeFails {
        route, toast := None, "Failed to save your profile. Please try again.";
      } else {
        db.SetMerge(collectionName, user.value.uid, profileData);
        route, toast := Some(Dashboard(userRole.value)), "Your profile has been updated.";
      }
      isSubmitting := false;
    }

    /** Next / Finish: validate the current step's fields; if they pass, scroll
        to the next slide, or, at the last step, validate the whole form and
        submit it. A failed step validation changes nothing. */
    method HandleNext(db: Database, writeFails: bool) returns (route: Option<string>, toast: Option<string>)
      requires Valid()
      modifies this`current, this`isSubmitting, db
      ensures Valid()
      ensures var fields := FieldsToValidate(userRole, old(current));
        !(fields.None? || Trigger(form, fields.value)) ==>
          current == old(current) && route.None? && toast.None? && db.docs == old(db.docs)
      ensures var fields := FieldsToValidate(userRole, old(current));
        (fields.None? || Trigger(form, fields.value)) && old(current) < SlideCount(userRole) ==>
          current == (if apiReady then old(current) + 1 else old(current)) &&
          route.None? && toast.None? && db.docs == old(db.docs)
      ensures old(current) >= SlideCount(userRole) ==> current == old(current)
      ensures var fields := FieldsToValidate(userRole, old(current));
        (fields.None? || Trigger(form, fields.value)) && old(current) >= SlideCount(userRole) &&
        FormParse(form).Invalid? ==>
          route.None? && toast.None? && db.docs == old(db.docs)
      ensures var fields := FieldsToValidate(userRole, old(current));
        (fields.None? || Trigger(form, fields.value)) && old(current) >= SlideCount(userRole) &&
        FormParse(form).Valid? ==>
          toast.Some? &&
          (user.None? || userRole.None? ==> route.None? && toast == Some("User not found.") && db.docs == old(db.docs)) &&
          (user.Some? && userRole.Some? && writeFails ==>
            route.None? && toast == Some("Failed to save your profile. Please try again.") && db.docs == old(db.docs)) &&
          (user.Some? && userRole.Some? && !writeFails ==>
            route == Some(Dashboard(userRole.value)) && toast == Some("Your profile has been updated.") &&
            db.docs == MergeWrite(old(db.docs), CollectionFor(RoleName(userRole.value)), user.value.uid,
                                  SubmitPayload(FormParse(form).data)))
    {
      route, toast := None, None;
      var fieldsToValidate := FieldsToValidate(userRole, current);
      var isValid := fieldsToValidate.None? || Trigger(form, fieldsToValidate.value);
      if isValid {
        if current < SlideCount(userRole) {
          if apiReady {
            current := current + 1;
          }
        } else {
          var parsed := FormParse(form);
          if parsed.Valid? {
            var message;
            route, message := OnSubmit(parsed.data, db, writeFails);
            toast := Some(message);
          }
        }
      }
    }
  }
}
