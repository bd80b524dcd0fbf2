/**
 * The contact form (src/components/ContactForm.jsx): three text fields, a
 * submission status and the field that has keyboard focus. Submission is
 * simulated: the submit handler sets the status to loading, the rest of the
 * same handler (after its first timer) sets it to success and clears the
 * fields, and a second timer scheduled there sets it back to idle. Here the
 * two timed steps are the events SubmissionCompleted and StatusReset, and
 * `Enabled` says when each event can happen.
 */
module ContactForm {
  import opened Wrappers

  datatype Field = Name | Email | Message

  /** The component's status comment (`// idle, loading, success, error`) also names an error status; nothing ever sets it. */
  datatype Status = Idle | Loading | Success | Error

  datatype FormData = FormData(name: string, email: string, message: string)

  const EmptyForm: FormData := FormData("", "", "")

  function Get(data: FormData, field: Field): string {
    match field
    case Name => data.name
    case Email => data.email
    case Message => data.message
  }

  /** `{ ...prev, [name]: value }`: the named field takes `value`, the others keep theirs. */
  function Update(data: FormData, field: Field, value: string): (r: FormData)
    ensures Get(r, field) == value
    ensures forall other :: other != field ==> Get(r, other) == Get(data, other)
  {
    match field
    case Name => data.(name := value)
    case Email => data.(email := value)
    case Message => data.(message := value)
  }

  datatype FormState = FormState(data: FormData, status: Status, focused: Option<Field>)

  /** Empty fields, idle, nothing focused. */
  const Initial: FormState := FormState(EmptyForm, Idle, None)

  /** Everything that can happen to the form. */
  datatype Event =
    | Change(field: Field, value: string)
    | Submit
    | SubmissionCompleted
    | StatusReset
    | Focus(field: Field)
    | Blur

  /** The effect of one event on the form's state. */
  function Apply(s: FormState, e: Event): FormState {
    match e
    case Change(field, value) => s.(data := Update(s.data, field, value))
    case Submit => s.(status := Loading)
    case SubmissionCompleted => s.(status := Success, data := EmptyForm)
    case StatusReset => s.(status := Idle)
    case Focus(field) => s.(focused := Some(field))
    case Blur => s.(focused := None)
  }

  /** The effect of a sequence of events, in order. */
  function Run(s: FormState, events: seq<Event>): FormState
    decreases |events|
  {
    if events == [] then s else Run(Apply(s, events[0]), events[1..])
  }

  /** Every field holds some text, so the browser lets the form submit (the inputs are `required`). */
  predicate AllFilled(data: FormData) {
    data.name != "" && data.email != "" && data.message != ""
  }

  /**
   * When an event can happen: the form submits only through its button, which
   * is disabled while loading or after success, and only with every required
   * field filled; completion is the rest of a pending submission, so it comes
   * only while loading; the reset timer is started by completion, so it comes
   * only after success. Edits and focus changes can happen at any time.
   */
  predicate Enabled(s: FormState, e: Event) {
    match e
    case Submit => !SubmitDisabled(s.status) && AllFilled(s.data)
    case SubmissionCompleted => s.status == Loading
    case StatusReset => s.status == Success
    case _ => true
  }

  /** Every event of `events` is enabled in the state it is applied to. */
  predicate EnabledTrace(s: FormState, events: seq<Event>)
    decreases |events|
  {
    events == [] || (Enabled(s, events[0]) && EnabledTrace(Apply(s, events[0]), events[1..]))
  }

  /** The states the form passes through: the start, then the state after each event. */
  function Trace(s: FormState, events: seq<Event>): (states: seq<FormState>)
    ensures |states| == |events| + 1 && states[0] == s
    decreases |events|
  {
    if events == [] then [s] else [s] + Trace(Apply(s, events[0]), events[1..])
  }

  /** One step of the status cycle idle -> loading -> success -> idle, or no change. */
  predicate CycleStep(before: Status, after: Status) {
    || before == after
    || (before == Idle && after == Loading)
    || (before == Loading && after == Success)
    || (before == Success && after == Idle)
  }

  /** Along every trace the page can produce, the status only goes round the cycle. */
  lemma {:induction false} EnabledTraceFollowsCycle(s: FormState, events: seq<Event>)
    requires s.status != Error
    requires EnabledTrace(s, events)
    ensures forall i :: 0 <= i < |events| ==>
      CycleStep(Trace(s, events)[i].status, Trace(s, events)[i + 1].status)
    ensures forall i :: 0 <= i <= |events| ==> Trace(s, events)[i].status != Error
    decreases |events|
  {
    if events != [] {
      var next := Apply(s, events[0]);
      var rest := Trace(next, events[1..]);
      EnabledTraceFollowsCycle(next, events[1..]);
      assert Trace(s, events) == [s] + rest;
      forall i | 0 <= i < |events|
        ensures CycleStep(Trace(s, events)[i].status, Trace(s, events)[i + 1].status)
      {
        if i > 0 {
          assert Trace(s, events)[i] == rest[i - 1] && Trace(s, events)[i + 1] == rest[i];
        }
      }
    }
  }

  /** The cycle from the initial form: a submission with every field filled. */
  lemma InitialCycleIsEnabled(data: FormData)
    requires AllFilled(data)
    ensures EnabledTrace(Initial.(data := data), [Submit, SubmissionCompleted, StatusReset])
  {
    assert [Submit, SubmissionCompleted, StatusReset][1..] == [SubmissionCompleted, StatusReset];
    assert [SubmissionCompleted, StatusReset][1..] == [StatusReset];
  }

  /** A change event edits only the named field; status and focus are untouched. */
  lemma ChangeTouchesOnlyField(s: FormState, field: Field, value: string, other: Field)
    ensures Get(Apply(s, Change(field, value)).data, other) == if other == field then value else Get(s.data, other)
    ensures Apply(s, Change(field, value)).status == s.status
    ensures Apply(s, Change(field, value)).focused == s.focused
  {
  }

  /** Submit, completion and reset take an idle form back to idle with every field cleared. */
  lemma SubmissionCycle(s: FormState)
    ensures Run(s, [Submit]).status == Loading
    ensures Run(s, [Submit, SubmissionCompleted]).status == Success
    ensures Run(s, [Submit, SubmissionCompleted]).data == EmptyForm
    ensures Run(s, [Submit, SubmissionCompleted, StatusReset]) == s.(data := EmptyForm, status := Idle)
  {
    assert [Submit, SubmissionCompleted, StatusReset][1..] == [SubmissionCompleted, StatusReset];
    assert [Submit, SubmissionCompleted][1..] == [SubmissionCompleted];
  }

  /** No sequence of events ever sets the error status. */
  lemma {:induction false} RunNeverErrors(s: FormState, events: seq<Event>)
    requires s.status != Error
    ensures Run(s, events).status != Error
    decreases |events|
  {
    if events != [] {
      RunNeverErrors(Apply(s, events[0]), events[1..]);
    }
  }

  /** The submit button's `disabled` attribute. */
  predicate SubmitDisabled(status: Status) {
    status == Loading || status == Success
  }

  /** The button's caption; the error status has none. */
  function ButtonLabel(status: Status): Option<string> {
    match status
    case Idle => Some("Send Message")
    case Loading => Some("Sending...")
    case Success => Some("Message Sent!")
    case Error => None
  }

  /**
   * In every state the form can reach, the button has a caption, and it can
   * be pressed exactly when the form is idle.
   */
  lemma ReachableButton(events: seq<Event>)
    ensures ButtonLabel(Run(Initial, events).status).Some?
    ensures !SubmitDisabled(Run(Initial, events).status) <==> Run(Initial, events).status == Idle
  {
    RunNeverErrors(Initial, events);
  }

  /** The input (and its icon) that is highlighted as focused. */
  predicate Highlighted(focused: Option<Field>, field: Field) {
    focused == Some(field)
  }

  /** Focus highlights exactly that field; blur highlights none. */
  lemma FocusHighlightsOne(s: FormState, field: Field, other: Field)
    ensures Highlighted(Apply(s, Focus(field)).focused, other) <==> other == field
    ensures !Highlighted(Apply(s, Blur).focused, other)
  {
  }

  /** The form component: its three pieces of state are updated by its handlers. */
  class Form {
    var formData: FormData
    var status: Status
    var focused: Option<Field>

    ghost function State(): FormState
      reads this
    {
      FormState(formData, status, focused)
    }

    ghost predicate Valid()
      reads this
    {
      status != Error
    }

    constructor()
      ensures Valid() && State() == Initial
    {
      formData := EmptyForm;
      status := Idle;
      focused := None;
    }

    /** `handleChange`: the event's target names the field. */
    method HandleChange(field: Field, value: string)
      requires Valid()
      modifies this
      ensures Valid() && State() == Apply(old(State()), Change(field, value))
    {
      formData := Update(formData, field, value);
    }

    /** The synchronous part of `handleSubmit`, run when the enabled button submits a filled form. */
    method HandleSubmit()
      requires Valid() && Enabled(State(), Submit)
      modifies this
      ensures Valid() && State() == Apply(old(State()), Submit)
    {
      status := Loading;
    }

    /** The part of `handleSubmit` after the simulated request resolves; the status is still loading. */
    method CompleteSubmission()
      requires Valid() && Enabled(State(), SubmissionCompleted)
      modifies this
      ensures Valid() && State() == Apply(old(State()), SubmissionCompleted)
    {
      status := Success;
      formData := EmptyForm;
    }

    /** The timer callback that `handleSubmit` schedules last; the status is still success. */
    method ResetStatus()
      requires Valid() && Enabled(State(), StatusReset)
      modifies this
      ensures Valid() && State() == Apply(old(State()), StatusReset)
    {
      status := Idle;
    }

    method HandleFocus(field: Field)
      requires Valid()
      modifies this
      ensures Valid() && State() == Apply(old(State()), Focus(field))
    {
      focused := Some(field);
    }

    method HandleBlur()
      requires Valid()
      modifies this
      ensures Valid() && State() == Apply(old(State()), Blur)
    {
      focused := None;
    }
  }
}
