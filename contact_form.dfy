/** The contact form's simulated submission: a submit shows an
    acknowledgement on the button, and a timer set for 3000 ms later puts the
    button's text back, clears its colour and resets the fields. Nothing is
    sent anywhere.

    All timers have the same delay, so they fire in the order they were set;
    the pending ones are kept as a queue of the labels each will restore. */
module ContactForm {

  const SentLabel: string := "Message Sent! \U{2713}"
  const SentBackground: string := "#10b981"
  /** The button's inline background once the timer has cleared it. */
  const NoBackground: string := ""

  datatype State = State(
    text: string,           // the submit button's text
    background: string,     // the submit button's inline background
    fields: seq<string>,    // the current values of the form's fields
    defaults: seq<string>,  // the values a form reset puts back
    pending: seq<string>    // labels captured by the timers not yet fired, oldest first
  )

  /** A submit: the current text is captured for the restore. */
  function AfterSubmit(s: State): (r: State)
    ensures r.text == SentLabel && r.background == SentBackground
    ensures r.fields == s.fields && r.defaults == s.defaults && !Idle(r)
    ensures |r.pending| == |s.pending| + 1
    ensures r.pending[..|s.pending|] == s.pending && r.pending[|s.pending|] == s.text
  {
    s.(text := SentLabel, background := SentBackground, pending := s.pending + [s.text])
  }

  /** The oldest pending timer fires. */
  function AfterTimeout(s: State): (r: State)
    requires s.pending != []
    ensures r.text == s.pending[0] && r.background == NoBackground
    ensures r.fields == r.defaults == s.defaults
    ensures |r.pending| == |s.pending| - 1 && r.pending == s.pending[1..]
  {
    s.(text := s.pending[0], background := NoBackground, fields := s.defaults, pending := s.pending[1..])
  }

  /** Every pending timer fires. */
  function Drain(s: State): State
    decreases |s.pending|
  {
    if s.pending == [] then s else Drain(AfterTimeout(s))
  }

  /** The form at rest: no timer pending. */
  predicate Idle(s: State) { s.pending == [] }

  /** A single submit on an idle form and the timeout that follows restore
      the text and reset the fields, and leave no colour on the button. */
  lemma SubmitThenTimeoutRestores(s: State)
    requires Idle(s)
    ensures AfterTimeout(AfterSubmit(s)) == s.(background := NoBackground, fields := s.defaults)
  {
  }

  /** Once every timer has fired, the text is the one captured by the last
      submit, the colour is cleared and the fields are reset. */
  lemma {:induction false} DrainRestoresLastCaptured(s: State)
    requires s.pending != []
    ensures var r := Drain(s);
      r.text == s.pending[|s.pending| - 1] && r.background == NoBackground &&
      r.fields == s.defaults && Idle(r)
    decreases |s.pending|
  {
    var t := AfterTimeout(s);
    if t.pending != [] {
      DrainRestoresLastCaptured(t);
      assert t.pending[|t.pending| - 1] == s.pending[|s.pending| - 1];
    } else {
      assert Drain(t) == t;
    }
  }

  /** The button shows the acknowledgement, and so does every label a
      pending timer will restore: nothing can bring the original label back. */
  predicate Stuck(s: State) {
    s.text == SentLabel && forall i :: 0 <= i < |s.pending| ==> s.pending[i] == SentLabel
  }

  /** A stuck form stays stuck through a submit, and through a timeout when
      a timer is pending. */
  lemma StuckIsKept(s: State)
    requires Stuck(s)
    ensures Stuck(AfterSubmit(s))
    ensures s.pending != [] ==> Stuck(AfterTimeout(s))
  {
  }

  /** What can happen to the form after it is loaded: a submit, or the oldest
      pending timer firing. */
  datatype Action = Submitted | TimerFired

  /** The form after a series of actions; a timer fires only when one is
      pending, so a `TimerFired` with none pending is not an event. */
  function Replay(s: State, acts: seq<Action>): State
    decreases |acts|
  {
    if acts == [] then s
    else if acts[0].Submitted? then Replay(AfterSubmit(s), acts[1..])
    else if s.pending != [] then Replay(AfterTimeout(s), acts[1..])
    else Replay(s, acts[1..])
  }

  /** Once stuck, the button shows the acknowledgement after any later series
      of submits and timeouts. */
  lemma {:induction false} StuckForGood(s: State, acts: seq<Action>)
    requires Stuck(s)
    ensures Stuck(Replay(s, acts)) && Replay(s, acts).text == SentLabel
    decreases |acts|
  {
    if acts != [] {
      StuckIsKept(s);
      var next := if acts[0].Submitted? then AfterSubmit(s)
                  else if s.pending != [] then AfterTimeout(s) else s;
      StuckForGood(next, acts[1..]);
    }
  }

  /** Two submits within the delay: the second captures the acknowledgement
      text itself, so after both timers fire the button keeps showing it,
      whatever submits and timeouts follow. */
  lemma DoubleSubmitKeepsAcknowledgement(s: State, later: seq<Action>)
    requires Idle(s)
    ensures var r := Drain(AfterSubmit(AfterSubmit(s)));
      r.text == SentLabel && Idle(r) && Stuck(r) && Replay(r, later).text == SentLabel
  {
    var r := Drain(AfterSubmit(AfterSubmit(s)));
    DrainRestoresLastCaptured(AfterSubmit(AfterSubmit(s)));
    StuckForGood(r, later);
  }

  /** The form as it lives on the page. */
  class Form {
    var text: string
    var background: string
    var fields: seq<string>
    const defaults: seq<string>
    var pending: seq<string>

    function Snapshot(): State
      reads this
    {
      State(text, background, fields, defaults, pending)
    }

    /** The form as the markup leaves it, with its fields at their defaults. */
    constructor (text0: string, defaults0: seq<string>)
      ensures Snapshot() == State(text0, NoBackground, defaults0, defaults0, [])
    {
      text := text0;
      background := NoBackground;
      fields := defaults0;
      defaults := defaults0;
      pending := [];
    }

    /** The visitor types into field `i`. */
    method Input(i: nat, value: string)
      requires i < |fields|
      modifies this
      ensures Snapshot() == old(Snapshot()).(fields := old(fields)[i := value])
    {
      fields := fields[i := value];
    }

    /** The submit handler: show the acknowledgement and set the timer. */
    method Submit()
      modifies this
      ensures Snapshot() == AfterSubmit(old(Snapshot()))
      ensures text == SentLabel && background == SentBackground && fields == old(fields)
      ensures pending == old(pending) + [old(text)]
    {
      var originalText := text;
      text := SentLabel;
      background := SentBackground;
      pending := pending + [originalText];
    }

    /** The oldest timer fires; the event loop fires only timers that were set. */
    method Timeout()
      requires pending != []
      modifies this
      ensures Snapshot() == AfterTimeout(old(Snapshot()))
      ensures text == old(pending)[0] && background == NoBackground && fields == defaults
      ensures pending == old(pending)[1..]
    {
      var originalText := pending[0];
      pending := pending[1..];
      text := originalText;
      background := NoBackground;
      fields := defaults;
    }
  }
}
