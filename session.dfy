/**
 * Sequences of button presses, as the click handlers wired up in `init`
 * deliver them, and what holds in every state they reach.
 */
module Session {
  import opened Wrappers
  import opened Entry
  import opened Arith
  import opened Calc

  /** One button press: a number button, an operator button, or one of the three action buttons. */
  datatype Event =
    | NumberButton(num: string)
    | OperatorButton(op: string)
    | ClearButton
    | BackspaceButton
    | EqualsButton

  /** The handler a press runs. */
  function Step(a: Arithmetic, s: State, e: Event): State {
    match e
    case NumberButton(num) => NumberStep(s, num)
    case OperatorButton(op) => OperatorStep(a, s, op)
    case ClearButton => Initial
    case BackspaceButton => BackspaceStep(s)
    case EqualsButton => EqualsStep(a, s)
  }

  /** The state after pressing the buttons of events in order. */
  function Run(a: Arithmetic, s: State, events: seq<Event>): State
    decreases |events|
  {
    if events == [] then s else Run(a, Step(a, s, events[0]), events[1..])
  }

  /**
   * The assumption that every number button delivers one digit or the point.
   * The buttons' values are set in the page markup, outside js/main.js;
   * `handleNumber` itself accepts any string.
   */
  predicate WellFormed(events: seq<Event>) {
    forall i | 0 <= i < |events| :: events[i].NumberButton? ==> IsNumberKey(events[i].num)
  }

  /** One more press runs one more handler on the state reached so far. */
  lemma {:induction false} RunAppend(a: Arithmetic, s: State, events: seq<Event>, e: Event)
    ensures Run(a, s, events + [e]) == Step(a, Run(a, s, events), e)
    decreases |events|
  {
    if events == [] {
      assert [e][1..] == [];
    } else {
      assert (events + [e])[1..] == events[1..] + [e];
      RunAppend(a, Step(a, s, events[0]), events[1..], e);
    }
  }

  lemma StepConsistent(a: Arithmetic, s: State, e: Event)
    requires Consistent(s)
    requires e.NumberButton? ==> IsNumberKey(e.num)
    ensures Consistent(Step(a, s, e))
    ensures Sound(a) && Displayable(s) ==> Displayable(Step(a, s, e))
  {
    match e
    case NumberButton(num) =>
      NumberConsistent(s, num);
      if Displayable(s) {
        NumberDisplayable(s, num);
      }
    case OperatorButton(op) =>
      OperatorKeepsInvariants(a, s, op);
    case ClearButton =>
      InitialInvariants();
    case BackspaceButton =>
      BackspaceConsistent(s);
      if Displayable(s) {
        BackspaceDisplayable(s);
      }
    case EqualsButton =>
      EqualsKeepsInvariants(a, s);
  }

  /** Every press keeps the invariant, and with a sound arithmetic the display stays non-empty with at most one point. */
  lemma {:induction false} RunInvariants(a: Arithmetic, s: State, events: seq<Event>)
    requires Consistent(s) && WellFormed(events)
    ensures Consistent(Run(a, s, events))
    ensures Sound(a) && Displayable(s) ==> Displayable(Run(a, s, events))
    decreases |events|
  {
    if events != [] {
      StepConsistent(a, s, events[0]);
      assert WellFormed(events[1..]) by {
        forall i | 0 <= i < |events[1..]|
          ensures events[1..][i].NumberButton? ==> IsNumberKey(events[1..][i].num)
        {
          assert events[1..][i] == events[i + 1];
        }
      }
      RunInvariants(a, Step(a, s, events[0]), events[1..]);
    }
  }

  /** From start-up, an operand being typed is always a well-formed entry of at most MaxLength characters, and the display is never empty and never holds two points. */
  lemma Reachable(a: Arithmetic, events: seq<Event>)
    requires WellFormed(events)
    ensures var r := Run(a, Initial, events);
      && (!r.waitingForOperand ==> IsEntry(r.currentValue))
      && (Sound(a) ==> r.currentValue != "" && DotCount(r.currentValue) <= 1)
  {
    InitialInvariants();
    RunInvariants(a, Initial, events);
  }

  /** Backspace never meets a leading minus: its `-` case cannot be reached from start-up. */
  lemma BackspaceMinusUnreachable(a: Arithmetic, events: seq<Event>)
    requires WellFormed(events)
    ensures var r := Run(a, Initial, events);
      !r.waitingForOperand ==> r.currentValue != "" && r.currentValue[0] != '-'
  {
    Reachable(a, events);
  }

  /** Clear forgets every earlier press. */
  lemma ClearForgets(a: Arithmetic, s: State, events: seq<Event>)
    ensures Run(a, s, events + [ClearButton]) == Initial
  {
    RunAppend(a, s, events, ClearButton);
  }

  /** Pressing clear twice is pressing it once. */
  lemma ClearIdempotent(a: Arithmetic, s: State)
    ensures Step(a, Step(a, s, ClearButton), ClearButton) == Step(a, s, ClearButton)
  {
  }
}
