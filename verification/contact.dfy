/**
 * The contact form (client/src/pages/Contact.jsx:5-57): four text fields, a status that
 * is null, 'success' or 'error', and an `isSubmitting` flag that disables the inputs and
 * the button while the email relay has a request in flight.
 *
 * The relay call itself is not modelled; its settlement arrives as `RelayOk` or
 * `RelayFail`.
 */
module Contact {
  import opened Optional

  datatype Field = Name | Email | Subject | Message

  datatype FormData = FormData(name: string, email: string, subject: string, message: string) {

    function Get(f: Field): string {
      match f
      case Name => name
      case Email => email
      case Subject => subject
      case Message => message
    }

    /** `{ ...formData, [f]: v }` */
    function Set(f: Field, v: string): (r: FormData)
      ensures r.Get(f) == v
      ensures forall g :: g != f ==> r.Get(g) == Get(g)
    {
      match f
      case Name => this.(name := v)
      case Email => this.(email := v)
      case Subject => this.(subject := v)
      case Message => this.(message := v)
    }
  }

  const EmptyForm: FormData := FormData("", "", "", "")

  /** `null`, `'success'` and `'error'`. */
  datatype Status = NoStatus | Success | Error

  datatype ContactState = ContactState(form: FormData, status: Status, isSubmitting: bool)

  const Initial: ContactState := ContactState(EmptyForm, NoStatus, false)

  /** Typing into one field, pressing the submit button, and the relay's two answers. */
  datatype Event = Edit(field: Field, value: string) | Submit | RelayOk | RelayFail

  /** Every field is marked `required`: the browser only submits a form with all four filled in. */
  predicate Complete(form: FormData) {
    forall f: Field :: form.Get(f) != ""
  }

  /**
   * Whether the page reacts to the event at all: inputs and button are `disabled` while
   * submitting, and the relay only answers a request that is in flight.
   */
  predicate Accepts(st: ContactState, e: Event) {
    match e
    case Edit(_, _) => !st.isSubmitting
    case Submit => !st.isSubmitting && Complete(st.form)
    case RelayOk => st.isSubmitting
    case RelayFail => st.isSubmitting
  }

  /** `handleChange`, `handleSubmit`, and the relay promise's `then` handlers with `finally`. */
  function Step(st: ContactState, e: Event): (r: ContactState)
    ensures !Accepts(st, e) ==> r == st
  {
    if !Accepts(st, e) then st
    else match e
      case Edit(f, v) => ContactState(st.form.Set(f, v), NoStatus, st.isSubmitting)
      case Submit => st.(isSubmitting := true, status := NoStatus)
      case RelayOk => ContactState(EmptyForm, Success, false)
      case RelayFail => st.(status := Error, isSubmitting := false)
  }

  /** An edit changes the named field only and clears any status message. */
  lemma EditChangesOneField(st: ContactState, f: Field, v: string)
    requires !st.isSubmitting
    ensures Step(st, Edit(f, v)).form.Get(f) == v
    ensures forall g :: g != f ==> Step(st, Edit(f, v)).form.Get(g) == st.form.Get(g)
    ensures Step(st, Edit(f, v)).status == NoStatus
    ensures !Step(st, Edit(f, v)).isSubmitting
  {
  }

  /** Submitting a complete form starts a request and clears the previous status. */
  lemma SubmitStartsRequest(st: ContactState)
    requires !st.isSubmitting && Complete(st.form)
    ensures Step(st, Submit).isSubmitting
    ensures Step(st, Submit).status == NoStatus
    ensures Step(st, Submit).form == st.form
  {
  }

  /** A successful relay reports success and empties all four fields. */
  lemma RelayOkClearsForm(st: ContactState)
    requires st.isSubmitting
    ensures Step(st, RelayOk).status == Success
    ensures forall f :: Step(st, RelayOk).form.Get(f) == ""
    ensures !Step(st, RelayOk).isSubmitting
  {
  }

  /** A failed relay reports the error and leaves every field as it was. */
  lemma RelayFailKeepsForm(st: ContactState)
    requires st.isSubmitting
    ensures Step(st, RelayFail).status == Error
    ensures forall f :: Step(st, RelayFail).form.Get(f) == st.form.Get(f)
    ensures !Step(st, RelayFail).isSubmitting
  {
  }

  /** While a request is in flight no edit and no second submission has any effect. */
  lemma DisabledWhileSubmitting(st: ContactState, e: Event)
    requires st.isSubmitting && (e.Edit? || e.Submit?)
    ensures Step(st, e) == st
  {
  }

  /**
   * The states the page can reach: while submitting there is no status and the form is
   * the complete one that was submitted.
   */
  predicate Valid(st: ContactState) {
    st.isSubmitting ==> st.status == NoStatus && Complete(st.form)
  }

  /** Applies the events in order. */
  function Run(st: ContactState, events: seq<Event>): ContactState
    decreases |events|
  {
    if |events| == 0 then st else Run(Step(st, events[0]), events[1..])
  }

  lemma {:induction false} RunKeepsValid(st: ContactState, events: seq<Event>)
    requires Valid(st)
    ensures Valid(Run(st, events))
    decreases |events|
  {
    if |events| > 0 {
      var next := Step(st, events[0]);
      assert Valid(next);
      RunKeepsValid(next, events[1..]);
    }
  }

  /** Every state the page reaches from its initial one, by any sequence of events, is `Valid`. */
  lemma ReachableStatesValid(events: seq<Event>)
    ensures Valid(Run(Initial, events))
  {
    RunKeepsValid(Initial, events);
  }

  /**
   * Whatever happens while a request is in flight, the form keeps the submitted values
   * until the relay answers; a failure therefore hands them back untouched.
   */
  lemma {:induction false} InFlightFormFrozen(st: ContactState, events: seq<Event>)
    requires st.isSubmitting
    requires forall k :: 0 <= k < |events| ==> events[k].Edit? || events[k].Submit?
    ensures Run(st, events) == st
    decreases |events|
  {
    if |events| > 0 {
      assert Step(st, events[0]) == st;
      InFlightFormFrozen(st, events[1..]);
    }
  }

  const SuccessText: string := "✅ Message sent successfully! I'll be in touch soon."
  const FailureText: string := "❌ Failed to send. Please ensure all fields are correct and try again."

  /** The two notices differ (they do not even have the same length). */
  lemma StatusTextsDiffer()
    ensures SuccessText != FailureText
  {
    assert |SuccessText| == 51;
    assert |FailureText| == 69;
  }

  /** `renderStatusMessage()` */
  function StatusMessage(status: Status): (m: Option<string>)
    ensures m == Some(SuccessText) <==> status == Success
    ensures m == Some(FailureText) <==> status == Error
    ensures m.None? <==> status == NoStatus
  {
    StatusTextsDiffer();
    match status
    case Success => Some(SuccessText)
    case Error => Some(FailureText)
    case NoStatus => None
  }

  /** The submit button's label: "Sending..." while a request is in flight. */
  function ButtonLabel(st: ContactState): (text: string)
    ensures st.isSubmitting <==> text == "Sending..."
  {
    if st.isSubmitting then "Sending..." else "Send Message"
  }
}
