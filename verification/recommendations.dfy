/** The `getTailorRecommendations` server action: it validates the three form
    fields, asks the recommendation agent for tailors, and turns the agent's
    answer (or its failure) into a form state. The agent is an oracle: a
    function from the validated request to its reply. */
module Recommendations {
  import opened JsValues
  import opened Zod

  /** A recommended tailor, as the agent's output schema describes it. */
  datatype Tailor = Tailor(
    tailorId: string,
    name: string,
    shopName: string,
    location: string,
    rating: real,
    garmentSpecialties: seq<string>,
    designExpertise: seq<string>,
    distance: real)

  /** The submitted form: `formData.get(name)` for each field, `None` when the
      field is missing (`null`). */
  datatype FormInput = FormInput(garmentType: Option<string>, designDetails: Option<string>, customerLocation: Option<string>)

  /** The validated request handed to the agent. */
  datatype Request = Request(garmentType: string, designDetails: string, customerLocation: string)

  /** What the agent does: throw, or return a list that may be absent. */
  datatype Reply = Throws | Returns(results: Option<seq<Tailor>>)

  datatype FormState = FormState(message: string, data: Option<seq<Tailor>>, errors: Option<map<string, seq<string>>>)

  const InvalidMessage: string := "Invalid form data. Please check your inputs."
  const NoTailorsMessage: string := "No tailors found matching your criteria."
  const SuccessMessage: string := "Successfully found recommendations."
  const ServerErrorMessage: string := "An unexpected error occurred on the server. Please try again later."

  const FieldNames: seq<string> := ["garmentType", "designDetails", "customerLocation"]

  /** A form entry as the schema sees it: a string, or `null`. */
  function Entry(e: Option<string>): (v: Option<Value>)
    ensures v.Some?
    ensures v == Some(Null) <==> e.None?
    ensures e.Some? ==> v == Some(Str(e.value))
  {
    match e
    case None => Some(Null)
    case Some(s) => Some(Str(s))
  }

  /** The check the schema applies to field `k`. */
  function CheckField(f: FormInput, k: string): Check
    requires k in FieldNames
  {
    if k == "garmentType" then StringMin(Entry(f.garmentType), 1, "Please select a garment type.")
    else if k == "designDetails" then StringMin(Entry(f.designDetails), 3, "Please provide some design details.")
    else StringMin(Entry(f.customerLocation), 3, "Please enter your location.")
  }

  /** Each failing field with its messages. */
  function FieldErrors(f: FormInput): map<string, seq<string>>
  {
    map k | k in FieldNames && CheckField(f, k).Issue? :: CheckField(f, k).msgs
  }

  /** A field missing from the form reaches the schema as `null`, so it is
      reported with the type message "Expected string, received null", not
      with "Required" and not with the field's own message. */
  lemma MissingEntryIsNullType(f: FormInput)
    ensures f.garmentType.None? ==>
      "garmentType" in FieldErrors(f) && FieldErrors(f)["garmentType"] == [Expected("string", Null)]
    ensures f.designDetails.None? ==>
      "designDetails" in FieldErrors(f) && FieldErrors(f)["designDetails"] == [Expected("string", Null)]
    ensures f.customerLocation.None? ==>
      "customerLocation" in FieldErrors(f) && FieldErrors(f)["customerLocation"] == [Expected("string", Null)]
    ensures Expected("string", Null) == "Expected string, received null" && Expected("string", Null) != Required
  {
    assert |Expected("string", Null)| != |Required|;
  }

  /** The form passes the schema: all three fields are strings of the minimum length. */
  predicate ValidInput(f: FormInput)
  {
    && f.garmentType.Some? && |f.garmentType.value| >= 1
    && f.designDetails.Some? && |f.designDetails.value| >= 3
    && f.customerLocation.Some? && |f.customerLocation.value| >= 3
  }

  lemma ValidIffNoErrors(f: FormInput)
    ensures ValidInput(f) <==> FieldErrors(f) == map[]
  {
    if !ValidInput(f) {
      if !(f.garmentType.Some? && |f.garmentType.value| >= 1) {
        assert "garmentType" in FieldErrors(f);
      } else if !(f.designDetails.Some? && |f.designDetails.value| >= 3) {
        assert "designDetails" in FieldErrors(f);
      } else {
        assert "customerLocation" in FieldErrors(f);
      }
    }
  }

  /** The request built from a valid form. */
  function RequestOf(f: FormInput): Request
    requires ValidInput(f)
  {
    Request(f.garmentType.value, f.designDetails.value, f.customerLocation.value)
  }

  /** `getTailorRecommendations(prevState, formData)`. An invalid form never
      reaches the agent; a missing or empty list is reported as "no tailors"
      with an empty list; a throw is reported without any list. */
  function GetTailorRecommendations(prevState: FormState, f: FormInput, agent: Request -> Reply): (r: FormState)
    ensures !ValidInput(f) ==> r == FormState(InvalidMessage, None, Some(FieldErrors(f))) && FieldErrors(f) != map[]
    ensures ValidInput(f) ==> r.errors.None?
    ensures ValidInput(f) && agent(RequestOf(f)).Throws? ==> r == FormState(ServerErrorMessage, None, None)
    ensures ValidInput(f) && agent(RequestOf(f)).Returns? ==>
      var results := agent(RequestOf(f)).results;
      (results.None? || results.value == [] ==> r == FormState(NoTailorsMessage, Some([]), None)) &&
      (results.Some? && results.value != [] ==> r == FormState(SuccessMessage, results, None))
  {
    if !ValidInput(f) then
      ValidIffNoErrors(f);
      FormState(InvalidMessage, None, Some(FieldErrors(f)))
    else
      match agent(RequestOf(f))
      case Throws => FormState(ServerErrorMessage, None, None)
      case Returns(results) =>
        if results.None? || |results.value| == 0 then FormState(NoTailorsMessage, Some([]), None)
        else FormState(SuccessMessage, results, None)
  }

  /** The previous state plays no part in the answer, and an invalid form gives
      the same answer whatever the agent would have said. */
  lemma AnswerIgnoresPreviousState(s1: FormState, s2: FormState, f: FormInput, a1: Request -> Reply, a2: Request -> Reply)
    ensures GetTailorRecommendations(s1, f, a1) == GetTailorRecommendations(s2, f, a1)
    ensures !ValidInput(f) ==> GetTailorRecommendations(s1, f, a1) == GetTailorRecommendations(s2, f, a2)
  {
  }

  /** The reported list is present iff the agent answered, and it is non-empty
      exactly when the success message is given. */
  lemma DataMatchesMessage(prevState: FormState, f: FormInput, agent: Request -> Reply)
    ensures var r := GetTailorRecommendations(prevState, f, agent);
      && (r.data.Some? <==> ValidInput(f) && agent(RequestOf(f)).Returns?)
      && (r.data.Some? && r.data.value != [] <==> r.message == SuccessMessage)
      && (r.errors.Some? <==> r.message == InvalidMessage)
  {
  }
}
