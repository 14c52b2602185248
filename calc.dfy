/**
 * The entry state machine of js/main.js: the four module-level variables,
 * the handlers that change them (as a class, `Calculator`), and the same
 * handlers as functions on a `State` value, with their properties.
 */
module Calc {
  import opened Wrappers
  import opened Entry
  import opened Arith

  /** The calculator state: the operand being entered, the left operand, the pending operator, and whether the next digit starts a new operand. */
  datatype State = State(
    currentValue: string,
    previousValue: string,
    operator: Option<string>,
    waitingForOperand: bool)

  /** The state at start-up, and after clear. */
  const Initial: State := State("0", "", None, false)

  /** JavaScript truthiness of the `operator` variable: `null` and `''` are false. */
  predicate Truthy(operator: Option<string>) {
    operator.Some? && operator.value != ""
  }

  // ---------------------------------------------------------------------------
  // The handlers as functions on State
  // ---------------------------------------------------------------------------

  /** A point typed into an operand that already holds one: the handler returns early. */
  predicate PointRejected(s: State, num: string) {
    !s.waitingForOperand && num == "." && '.' in s.currentValue
  }

  /** The buffer after typing num, before it is cut to MaxLength characters. */
  function Entered(s: State, num: string): string {
    if s.waitingForOperand then (if num == "." then "0." else num)
    else if num == "." then s.currentValue + num
    else if s.currentValue == "0" then num
    else s.currentValue + num
  }

  /** handleNumber(num). */
  function NumberStep(s: State, num: string): State {
    if PointRejected(s, num) then s
    else s.(currentValue := LimitLength(Entered(s, num)), waitingForOperand := false)
  }

  /** handleOperator(nextOperator): run a pending calculation, then remember the operand and the operator. */
  function OperatorStep(a: Arithmetic, s: State, nextOperator: string): State {
    var current :=
      if Truthy(s.operator) && !s.waitingForOperand
      then Calculate(a, s.operator, s.previousValue, s.currentValue)
      else s.currentValue;
    State(current, current, Some(nextOperator), true)
  }

  /** handleEquals(). */
  function EqualsStep(a: Arithmetic, s: State): State {
    if !Truthy(s.operator) then s
    else State(Calculate(a, s.operator, s.previousValue, s.currentValue), "", None, true)
  }

  /** handleBackspace(). */
  function BackspaceStep(s: State): State {
    var cur := s.currentValue;
    if s.waitingForOperand then s
    else if |cur| == 1 || (|cur| == 2 && cur[0] == '-') then s.(currentValue := "0")
    else s.(currentValue := DropLast(cur))
  }

  // ---------------------------------------------------------------------------
  // Invariants
  // ---------------------------------------------------------------------------

  /**
   * The invariant every handler keeps: an operand still being typed is a
   * well-formed entry, and with no operator there is no left operand.
   */
  predicate Consistent(s: State) {
    && (!s.waitingForOperand ==> IsEntry(s.currentValue))
    && (s.operator.None? ==> s.previousValue == "")
  }

  /** The display is never empty and never shows two points. */
  predicate Displayable(s: State) {
    IsDisplayable(s.currentValue)
  }

  lemma InitialInvariants()
    ensures Consistent(Initial) && Displayable(Initial)
  {
  }

  // ---------------------------------------------------------------------------
  // handleNumber
  // ---------------------------------------------------------------------------

  /** A second point in the operand being typed changes nothing. */
  lemma NumberPointRejected(s: State)
    requires !s.waitingForOperand && '.' in s.currentValue
    ensures NumberStep(s, ".") == s
  {
  }

  /** The first key after an operator or a result starts a new operand: `0.` for the point, the digit otherwise. */
  lemma NumberStartsOperand(s: State, num: string)
    requires s.waitingForOperand && IsNumberKey(num)
    ensures NumberStep(s, num) == s.(currentValue := if num == "." then "0." else num, waitingForOperand := false)
  {
  }

  /** A first point is appended to the operand being typed, within the length limit, and nothing else changes. */
  lemma NumberPointAppended(s: State)
    requires !s.waitingForOperand && '.' !in s.currentValue
    ensures NumberStep(s, ".") == s.(currentValue := LimitLength(s.currentValue + "."))
  {
  }

  /** A digit replaces a lone `0` and is otherwise appended, within the length limit. */
  lemma NumberDigit(s: State, num: string)
    requires !s.waitingForOperand && IsNumberKey(num) && num != "."
    ensures var r := NumberStep(s, num);
      && r.previousValue == s.previousValue && r.operator == s.operator && !r.waitingForOperand
      && (s.currentValue == "0" ==> r.currentValue == num)
      && (s.currentValue != "0" ==> r.currentValue == LimitLength(s.currentValue + num))
      && (s.currentValue != "0" && |s.currentValue| < MaxLength ==> r.currentValue == s.currentValue + num)
  {
  }

  /** Unless a point is rejected, the new buffer has at most MaxLength characters and is a prefix of what was typed. */
  lemma NumberLength(s: State, num: string)
    ensures var r := NumberStep(s, num);
      || (PointRejected(s, num) && r == s)
      || (|r.currentValue| <= MaxLength && r.currentValue <= Entered(s, num)
          && (|Entered(s, num)| <= MaxLength ==> r.currentValue == Entered(s, num)))
  {
  }

  /** In a consistent state the buffer is within MaxLength after any number key. */
  lemma NumberBounded(s: State, num: string)
    requires Consistent(s)
    ensures |NumberStep(s, num).currentValue| <= MaxLength
  {
  }

  /** A full buffer takes no more keys. */
  lemma NumberAtLimit(s: State, num: string)
    requires Consistent(s) && !s.waitingForOperand && |s.currentValue| == MaxLength && IsNumberKey(num)
    ensures NumberStep(s, num) == s
  {
  }

  lemma NumberConsistent(s: State, num: string)
    requires Consistent(s) && IsNumberKey(num)
    ensures Consistent(NumberStep(s, num))
  {
    var cur := s.currentValue;
    if !PointRejected(s, num) && !s.waitingForOperand && !(cur == "0" && num != ".") {
      DotCountIn(cur);
      AppendKeepsEntry(cur, num);
    }
  }

  lemma NumberDisplayable(s: State, num: string)
    requires Displayable(s) && IsNumberKey(num)
    ensures Displayable(NumberStep(s, num))
  {
    var cur := s.currentValue;
    var t := Entered(s, num);
    if !PointRejected(s, num) {
      var r := LimitLength(t);
      if !s.waitingForOperand && !(cur == "0" && num != ".") {
        assert t == cur + num;
        DotCountIn(cur);
        assert multiset(t) == multiset(cur) + multiset(num);
      }
      DotCountPrefix(r, t);
    }
  }

  // ---------------------------------------------------------------------------
  // handleBackspace
  // ---------------------------------------------------------------------------

  /** Backspace is ignored after an operator or a result; a one-character operand, or a minus and one character, becomes `0`; otherwise exactly the last character goes. */
  lemma BackspaceEffect(s: State)
    ensures var r := BackspaceStep(s);
      && r.previousValue == s.previousValue && r.operator == s.operator
      && r.waitingForOperand == s.waitingForOperand
      && (s.waitingForOperand ==> r == s)
      && (!s.waitingForOperand && (|s.currentValue| == 1 || (|s.currentValue| == 2 && s.currentValue[0] == '-'))
          ==> r.currentValue == "0")
      && (!s.waitingForOperand && |s.currentValue| >= 2 && !(|s.currentValue| == 2 && s.currentValue[0] == '-')
          ==> r.currentValue + [s.currentValue[|s.currentValue| - 1]] == s.currentValue)
      && (!s.waitingForOperand && s.currentValue == "" ==> r.currentValue == "")
  {
  }

  lemma BackspaceConsistent(s: State)
    requires Consistent(s)
    ensures Consistent(BackspaceStep(s))
  {
    var cur := s.currentValue;
    if !s.waitingForOperand && |cur| >= 2 {
      EntryPrefix(DropLast(cur), cur);
    }
  }

  lemma BackspaceDisplayable(s: State)
    requires Displayable(s)
    ensures Displayable(BackspaceStep(s))
  {
    var cur := s.currentValue;
    if !s.waitingForOperand && |cur| >= 2 {
      DotCountPrefix(DropLast(cur), cur);
    }
  }

  /** Backspace undoes a key that was taken in full: the state is as before the key. */
  lemma BackspaceUndoesNumber(s: State, num: string)
    requires Consistent(s) && !s.waitingForOperand && |s.currentValue| < MaxLength
    requires IsNumberKey(num) && !PointRejected(s, num)
    ensures BackspaceStep(NumberStep(s, num)) == s
  {
  }

  // ---------------------------------------------------------------------------
  // handleOperator and handleEquals
  // ---------------------------------------------------------------------------

  /** After an operator key the operator is pending, the operand just shown becomes the left operand, and the next digit starts afresh; the pending calculation runs only when an operator was set and an operand was typed after it. */
  lemma OperatorEffect(a: Arithmetic, s: State, op: string)
    ensures var r := OperatorStep(a, s, op);
      && r.operator == Some(op) && r.waitingForOperand
      && r.previousValue == r.currentValue
      && (Truthy(s.operator) && !s.waitingForOperand ==>
            r.currentValue == Calculate(a, s.operator, s.previousValue, s.currentValue))
      && (!Truthy(s.operator) || s.waitingForOperand ==> r.currentValue == s.currentValue)
  {
  }

  /** Two operator keys in a row act as the second alone: the operator is replaced. */
  lemma OperatorReplaces(a: Arithmetic, s: State, op1: string, op2: string)
    ensures OperatorStep(a, OperatorStep(a, s, op1), op2) == OperatorStep(a, s, op2)
  {
  }

  /** An operator key typed after an operand finishes the pending calculation exactly as equals would. */
  lemma OperatorChains(a: Arithmetic, s: State, op: string)
    requires !s.waitingForOperand || !Truthy(s.operator)
    ensures OperatorStep(a, s, op) == OperatorStep(a, EqualsStep(a, s), op)
  {
  }

  /** Equals does nothing with no operator; otherwise it shows the result, forgets the operator and the left operand, and waits for a new operand. */
  lemma EqualsEffect(a: Arithmetic, s: State)
    ensures var r := EqualsStep(a, s);
      && (!Truthy(s.operator) ==> r == s)
      && (Truthy(s.operator) ==>
            && r.currentValue == Calculate(a, s.operator, s.previousValue, s.currentValue)
            && r.previousValue == "" && r.operator == None && r.waitingForOperand)
  {
  }

  /** A second equals changes nothing: the operation is not repeated. */
  lemma EqualsIdempotent(a: Arithmetic, s: State)
    ensures EqualsStep(a, EqualsStep(a, s)) == EqualsStep(a, s)
  {
  }

  lemma OperatorKeepsInvariants(a: Arithmetic, s: State, op: string)
    requires Consistent(s)
    ensures Consistent(OperatorStep(a, s, op))
    ensures Sound(a) && Displayable(s) ==> Displayable(OperatorStep(a, s, op))
  {
  }

  lemma EqualsKeepsInvariants(a: Arithmetic, s: State)
    requires Consistent(s)
    ensures Consistent(EqualsStep(a, s))
    ensures Sound(a) && Displayable(s) ==> Displayable(EqualsStep(a, s))
  {
  }

  // ---------------------------------------------------------------------------
  // The calculator object
  // ---------------------------------------------------------------------------

  /** The module-level state of js/main.js and the handlers that update it in place. */
  class Calculator {
    var currentValue: string
    var previousValue: string
    var operator: Option<string>
    var waitingForOperand: bool
    /** The double-precision arithmetic `calculate` uses. */
    const arith: Arithmetic

    function Snapshot(): State
      reads this
    {
      State(currentValue, previousValue, operator, waitingForOperand)
    }

    ghost predicate Valid()
      reads this
    {
      Consistent(Snapshot())
    }

    constructor (arith: Arithmetic)
      ensures Snapshot() == Initial && this.arith == arith
      ensures Valid()
    {
      currentValue := "0";
      previousValue := "";
      operator := None;
      waitingForOperand := false;
      this.arith := arith;
    }

    method HandleNumber(num: string)
      modifies this
      ensures Snapshot() == NumberStep(old(Snapshot()), num)
      ensures old(Valid()) ==> |currentValue| <= MaxLength
      ensures old(Valid()) && IsNumberKey(num) ==> Valid()
      ensures old(Displayable(Snapshot())) && IsNumberKey(num) ==> Displayable(Snapshot())
    {
      ghost var before := Snapshot();
      if waitingForOperand {
        currentValue := if num == "." then "0." else num;
        waitingForOperand := false;
      } else {
        if num == "." {
          if '.' in currentValue {
            if Consistent(before) {
              NumberBounded(before, num);
            }
            return;
          }
          currentValue := currentValue + num;
        } else {
          currentValue := if currentValue == "0" then num else currentValue + num;
        }
      }
      if |currentValue| > MaxLength {
        currentValue := currentValue[..MaxLength];
      }
      if Consistent(before) {
        NumberBounded(before, num);
        if IsNumberKey(num) {
          NumberConsistent(before, num);
        }
      }
      if Displayable(before) && IsNumberKey(num) {
        NumberDisplayable(before, num);
      }
    }

    method HandleOperator(nextOperator: string)
      modifies this
      ensures Snapshot() == OperatorStep(arith, old(Snapshot()), nextOperator)
      ensures operator == Some(nextOperator) && waitingForOperand && previousValue == currentValue
      ensures old(Valid()) ==> Valid()
      ensures old(Valid()) && Sound(arith) && old(Displayable(Snapshot())) ==> Displayable(Snapshot())
    {
      ghost var before := Snapshot();
      if Truthy(operator) && !waitingForOperand {
        var result := Calculate(arith, operator, previousValue, currentValue);
        currentValue := result;
      }
      previousValue := currentValue;
      operator := Some(nextOperator);
      waitingForOperand := true;
      if Consistent(before) {
        OperatorKeepsInvariants(arith, before, nextOperator);
      }
    }

    method HandleEquals()
      modifies this
      ensures Snapshot() == EqualsStep(arith, old(Snapshot()))
      ensures old(Valid()) ==> Valid()
      ensures old(Valid()) && Sound(arith) && old(Displayable(Snapshot())) ==> Displayable(Snapshot())
    {
      ghost var before := Snapshot();
      if !Truthy(operator) {
        return;
      }
      var result := Calculate(arith, operator, previousValue, currentValue);
      currentValue := result;
      previousValue := "";
      operator := None;
      waitingForOperand := true;
      if Consistent(before) {
        EqualsKeepsInvariants(arith, before);
      }
    }

    method HandleClear()
      modifies this
      ensures Snapshot() == Initial
      ensures Valid() && Displayable(Snapshot())
    {
      currentValue := "0";
      previousValue := "";
      operator := None;
      waitingForOperand := false;
    }

    method HandleBackspace()
      modifies this
      ensures Snapshot() == BackspaceStep(old(Snapshot()))
      ensures old(Valid()) ==> Valid()
      ensures old(Displayable(Snapshot())) ==> Displayable(Snapshot())
    {
      ghost var before := Snapshot();
      if waitingForOperand {
        return;
      }
      if |currentValue| == 1 || (|currentValue| == 2 && currentValue[0] == '-') {
        currentValue := "0";
      } else {
        currentValue := DropLast(currentValue);
      }
      if Consistent(before) {
        BackspaceConsistent(before);
      }
      if Displayable(before) {
        BackspaceDisplayable(before);
      }
    }
  }
}
