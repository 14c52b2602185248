/**
 * The entry buffer of the calculator (`currentValue` in js/main.js): the
 * characters typed so far for the operand being entered, and the string
 * operations the handlers apply to it.
 */
module Entry {

  /** The longest buffer that number entry keeps. */
  const MaxLength: nat := 12

  predicate IsDigit(c: char) {
    '0' <= c <= '9'
  }

  /** The strings a number button delivers: one decimal digit, or the point. */
  predicate IsNumberKey(num: string) {
    num == "." || (|num| == 1 && IsDigit(num[0]))
  }

  /** How many decimal points t holds. */
  function DotCount(t: string): nat {
    multiset(t)['.']
  }

  /** A string the display can show: not empty, and with at most one point. */
  predicate IsDisplayable(t: string) {
    t != "" && DotCount(t) <= 1
  }

  /**
   * A buffer built by typing: a non-empty decimal literal of at most
   * MaxLength characters made of digits and at most one point, which does
   * not start with the point and has no leading zero before another digit.
   */
  predicate IsEntry(t: string) {
    && 1 <= |t| <= MaxLength
    && (forall i | 0 <= i < |t| :: IsDigit(t[i]) || t[i] == '.')
    && DotCount(t) <= 1
    && t[0] != '.'
    && (|t| >= 2 && t[0] == '0' ==> t[1] == '.')
  }

  /** `t.slice(0, 12)` applied when t is longer than 12 characters. */
  function LimitLength(t: string): (r: string)
    ensures |r| <= MaxLength
    ensures r <= t
    ensures |t| <= MaxLength ==> r == t
    ensures |t| > MaxLength ==> |r| == MaxLength
  {
    if |t| > MaxLength then t[..MaxLength] else t
  }

  /** `t.slice(0, -1)`: t without its last character; the empty string stays empty. */
  function DropLast(t: string): (r: string)
    ensures t == [] ==> r == []
    ensures t != [] ==> r + [t[|t| - 1]] == t
  {
    if t == [] then [] else t[..|t| - 1]
  }

  /** A prefix holds no more points than the whole. */
  lemma DotCountPrefix(u: string, t: string)
    requires u <= t
    ensures DotCount(u) <= DotCount(t)
  {
    assert t == u + t[|u|..];
  }

  /** The point is in t exactly when t counts at least one point. */
  lemma DotCountIn(t: string)
    ensures '.' in t <==> DotCount(t) > 0
  {
  }

  /** Every non-empty prefix of an entry is an entry. */
  lemma EntryPrefix(u: string, t: string)
    requires IsEntry(t) && u <= t && u != ""
    ensures IsEntry(u)
  {
    DotCountPrefix(u, t);
    assert u[0] == t[0];
    if |u| >= 2 {
      assert u[1] == t[1];
    }
  }

  /** Appending a key to an entry, other than a digit to a lone `0` or a second point, and cutting to MaxLength, gives an entry. */
  lemma AppendKeepsEntry(cur: string, num: string)
    requires IsEntry(cur) && IsNumberKey(num)
    requires num == "." ==> DotCount(cur) == 0
    requires num != "." ==> cur != "0"
    ensures IsEntry(LimitLength(cur + num))
  {
    assert multiset(cur + num) == multiset(cur) + multiset(num);
    DotCountPrefix(LimitLength(cur + num), cur + num);
  }
}
