/** The "find a tailor" view: a form bound to the recommendation action, an
    error toast for any message other than the two normal outcomes, the first
    error under each field, and a results panel that shows an introduction, a
    "no tailors" notice, or one card per tailor. */
module FindTailorView {
  import opened JsValues
  import opened Recommendations
  import opened Ui

  /** The garment choices the select offers. */
  const GarmentChoices: seq<string> := ["Shirt", "Pants", "Kurta", "Saree", "Blouse", "Dress"]

  const InitialState: FormState := FormState("", None, None)

  /** Whether the destructive toast appears for a state's message. */
  predicate ShowsErrorToast(message: string)
  {
    message != "" && message != SuccessMessage && message != NoTailorsMessage
  }

  /** The right-hand panel. */
  datatype Panel = Intro | NoTailors | Cards(tailors: seq<Tailor>)

  function PanelOf(state: FormState): (p: Panel)
    ensures p.Intro? <==> state.data.None?
    ensures p.NoTailors? <==> state.data == Some([])
    ensures p.Cards? ==> p.tailors == state.data.value && p.tailors != []
  {
    match state.data
    case None => Intro
    case Some(ts) => if |ts| > 0 then Cards(ts) else NoTailors
  }

  /** The message shown under field `k`: the first of its errors, if any. */
  function FirstError(state: FormState, k: string): (e: Option<string>)
    ensures e.Some? <==> state.errors.Some? && k in state.errors.value && state.errors.value[k] != []
    ensures e.Some? ==> e.value == state.errors.value[k][0]
  {
    if state.errors.Some? && k in state.errors.value && |state.errors.value[k]| > 0 then
      Some(state.errors.value[k][0])
    else None
  }

  /** Before any submission there is no toast and the introduction is shown. */
  lemma InitialStateIsQuiet()
    ensures !ShowsErrorToast(InitialState.message)
    ensures PanelOf(InitialState) == Intro
    ensures forall k :: FirstError(InitialState, k).None?
  {
  }

  /** Any garment the select offers satisfies the garment-type check. */
  lemma GarmentChoicesPass(g: string, d: string, l: string)
    requires g in GarmentChoices && |d| >= 3 && |l| >= 3
    ensures ValidInput(FormInput(Some(g), Some(d), Some(l)))
  {
  }

  /** After a submission, the error toast appears exactly when the form was
      rejected or the agent threw; a normal answer never raises it. */
  lemma ToastIffFailure(prevState: FormState, f: FormInput, agent: Request -> Reply)
    ensures var r := GetTailorRecommendations(prevState, f, agent);
      ShowsErrorToast(r.message) <==> !ValidInput(f) || agent(RequestOf(f)).Throws?
  {
  }

  /** After a submission the panel shows cards exactly when the agent returned
      a non-empty list, and those cards are the agent's tailors in order; a
      rejected form or a throw keeps the introduction. */
  lemma PanelAfterSubmit(prevState: FormState, f: FormInput, agent: Request -> Reply)
    ensures var p := PanelOf(GetTailorRecommendations(prevState, f, agent));
      && (p.Intro? <==> !ValidInput(f) || agent(RequestOf(f)).Throws?)
      && (p.Cards? <==> ValidInput(f) && agent(RequestOf(f)).Returns? &&
                        agent(RequestOf(f)).results.Some? && agent(RequestOf(f)).results.value != [])
      && (p.Cards? ==> p.tailors == agent(RequestOf(f)).results.value)
  {
  }

  /** A rejected form shows each failing field's first message under it. */
  lemma RejectedFormShowsFieldErrors(prevState: FormState, f: FormInput, agent: Request -> Reply, k: string)
    requires k in FieldNames && CheckField(f, k).Issue?
    ensures FirstError(GetTailorRecommendations(prevState, f, agent), k) == Some(CheckField(f, k).msgs[0])
  {
  }

  /** The view holds the action's last state (`useFormState`). */
  class View {
    var state: FormState

    constructor ()
      ensures state == InitialState
    {
      state := InitialState;
    }

    /** Submitting the form: the action's answer becomes the new state, and the
        effect on the new state raises the error toast when it applies. */
    method Submit(f: FormInput, agent: Request -> Reply) returns (toast: Option<Toast>)
      modifies this
      ensures state == GetTailorRecommendations(old(state), f, agent)
      ensures toast.Some? <==> ShowsErrorToast(state.message)
      ensures toast.Some? ==> toast.value == Toast("Something went wrong", state.message, true)
    {
      state := GetTailorRecommendations(state, f, agent);
      if state.message != "" && state.message != SuccessMessage && state.message != NoTailorsMessage {
        toast := Some(Toast("Something went wrong", state.message, true));
      } else {
        toast := None;
      }
    }
  }
}
