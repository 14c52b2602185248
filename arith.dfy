/**
 * The pure functions of js/main.js: `formatOperator`, and `calculate` with
 * its operator dispatch. The floating-point arithmetic and the
 * number-to-string conversion are not interpreted: they are the fields of an
 * `Arithmetic` value that the caller supplies.
 */
module Arith {
  import opened Wrappers
  import opened Entry

  /** The four operations of the calculator. */
  datatype BinOp = Add | Sub | Mul | Div

  /** The operator string an operator button delivers for b. */
  function Symbol(b: BinOp): string {
    match b
    case Add => "+"
    case Sub => "-"
    case Mul => "*"
    case Div => "/"
  }

  /** Which operation an operator string selects in the switch of `calculate`. */
  function ParseOperator(op: string): (r: Option<BinOp>)
    ensures r.Some? ==> Symbol(r.value) == op
    ensures r.None? ==> forall b: BinOp :: Symbol(b) != op
  {
    if op == "+" then Some(Add)
    else if op == "-" then Some(Sub)
    else if op == "*" then Some(Mul)
    else if op == "/" then Some(Div)
    else None
  }

  /** Every operator string is read back as the operation it stands for. */
  lemma ParseSymbol(b: BinOp)
    ensures ParseOperator(Symbol(b)) == Some(b)
  {
  }

  /** The glyph the display shows for an operator string. */
  function FormatOperator(op: string): (r: string)
    ensures r == "" <==> ParseOperator(op).None?
    ensures |r| <= 1
  {
    if op == "+" then "+"
    else if op == "-" then "\U{2212}"
    else if op == "*" then "\U{00D7}"
    else if op == "/" then "\U{00F7}"
    else ""
  }

  /** The glyphs: plus, minus sign, multiplication sign, division sign. */
  lemma FormatOperatorGlyphs()
    ensures FormatOperator(Symbol(Add)) == "+"
    ensures FormatOperator(Symbol(Sub)) == "\U{2212}"
    ensures FormatOperator(Symbol(Mul)) == "\U{00D7}"
    ensures FormatOperator(Symbol(Div)) == "\U{00F7}"
  {
  }

  /** A shown glyph names one operator only. */
  lemma FormatOperatorInjective(x: string, y: string)
    requires FormatOperator(x) != ""
    requires FormatOperator(x) == FormatOperator(y)
    ensures x == y
  {
  }

  /** The result of one double-precision operation, already rounded and formatted. */
  datatype Outcome = Finite(text: string) | NonFinite

  /**
   * The numeric part of `calculate`, left uninterpreted:
   * `parses(s)` says that `parseFloat(s)` is not NaN; `echo(s)` is
   * `String(parseFloat(s))`; `combine(b, p, c)` is `p b c` on doubles,
   * `NonFinite` when that is infinite or NaN, and otherwise the rounded
   * result formatted for the display.
   */
  datatype Arithmetic = Arithmetic(
    parses: string -> bool,
    echo: string -> string,
    combine: (BinOp, string, string) -> Outcome)

  /** What the display shows for a non-finite result. */
  const ErrorText: string := "Error"

  /** A number as JavaScript prints it: displayable, and never the error text. */
  predicate IsNumeral(t: string) {
    IsDisplayable(t) && t != ErrorText
  }

  /** The property of JavaScript's number-to-string conversion the model relies on. */
  ghost predicate Sound(a: Arithmetic) {
    && (forall s :: IsNumeral(a.echo(s)))
    && (forall b, p, c :: a.combine(b, p, c).Finite? ==> IsNumeral(a.combine(b, p, c).text))
  }

  /** The operation selected by the pending operator, if it is one of the four. */
  function Pending(operator: Option<string>): (r: Option<BinOp>)
    ensures r.Some? <==> operator.Some? && ParseOperator(operator.value).Some?
    ensures r.Some? ==> operator.Some? && Symbol(r.value) == operator.value
  {
    if operator.Some? then ParseOperator(operator.value) else None
  }

  /**
   * `calculate`, followed by the `String(...)` its callers apply: the
   * current operand when an operand does not parse or the operator is not one
   * of the four, the error text for a non-finite result, and otherwise the
   * formatted result.
   */
  function Calculate(a: Arithmetic, operator: Option<string>, previousValue: string, currentValue: string): (r: string)
    ensures Pending(operator).None? ==> r == a.echo(currentValue)
    ensures !a.parses(previousValue) || !a.parses(currentValue) ==> r == a.echo(currentValue)
    ensures a.parses(previousValue) && a.parses(currentValue) && Pending(operator).Some? ==>
      var o := a.combine(Pending(operator).value, previousValue, currentValue);
      r == if o.NonFinite? then ErrorText else o.text
  {
    if !a.parses(previousValue) || !a.parses(currentValue) then a.echo(currentValue)
    else
      match Pending(operator)
      case None => a.echo(currentValue)
      case Some(b) =>
        match a.combine(b, previousValue, currentValue)
        case NonFinite => ErrorText
        case Finite(text) => text
  }

  /** With both operands parsed, an operator string of the four applies its own operation: the error text when non-finite, the formatted result otherwise. */
  lemma CalculateApplies(a: Arithmetic, b: BinOp, p: string, c: string)
    requires a.parses(p) && a.parses(c)
    ensures Calculate(a, Some(Symbol(b)), p, c) ==
      if a.combine(b, p, c).NonFinite? then ErrorText else a.combine(b, p, c).text
  {
    ParseSymbol(b);
  }

  /** With a sound arithmetic, the error text appears exactly when a real operation is non-finite. */
  lemma CalculateErrorIff(a: Arithmetic, operator: Option<string>, previousValue: string, currentValue: string)
    requires Sound(a)
    ensures Calculate(a, operator, previousValue, currentValue) == ErrorText <==>
      && a.parses(previousValue) && a.parses(currentValue)
      && Pending(operator).Some?
      && a.combine(Pending(operator).value, previousValue, currentValue).NonFinite?
  {
  }

  /** With a sound arithmetic, every result of `calculate` can be shown. */
  lemma CalculateDisplayable(a: Arithmetic, operator: Option<string>, previousValue: string, currentValue: string)
    requires Sound(a)
    ensures IsDisplayable(Calculate(a, operator, previousValue, currentValue))
  {
  }
}
