/**
 * PHP 8's loose comparison, as far as Ranger.php needs it: push_to_mask
 * raises the precision with max over an int, null or a literal's text, and
 * format compares the comparator's result with that precision using >=.
 *
 * push_to_mask as written keeps its precision as a Scalar; the main model
 * (Pattern.Push) keeps an int raised by field categories only.  The lemmas
 * below say when the two agree, and that a literal sorting after the digits
 * makes the comparison with any category fail.
 */
module Loose {

  import opened Pattern

  /** A PHP value as the precision can hold it. */
  datatype Scalar = Null | Int(i: int) | Str(s: string)

  function Digit(d: int): (r: char)
    requires 0 <= d < 10
    ensures '0' <= r <= '9'
  {
    "0123456789"[d]
  }

  /** The decimal text of a natural number. */
  function NatText(n: nat): (r: string)
    ensures r != [] && '0' <= r[0] <= '9'
    ensures forall k :: 0 <= k < |r| ==> '0' <= r[k] <= '9'
  {
    if n < 10 then [Digit(n)] else NatText(n / 10) + [Digit(n % 10)]
  }

  /** The text PHP converts an int to. */
  function IntText(i: int): (r: string)
    ensures r != [] && (r[0] == '-' || '0' <= r[0] <= '9')
    ensures r[0] == '-' <==> i < 0
  {
    if i < 0 then "-" + NatText(-i) else NatText(i)
  }

  /**
   * A numeric string, restricted here to a non-empty run of decimal
   * digits; PHP also accepts signs, fractions, exponents and surrounding
   * whitespace.
   */
  predicate Numeric(s: string) {
    s != [] && forall k :: 0 <= k < |s| ==> '0' <= s[k] <= '9'
  }

  function DigitsValue(s: string): int
    decreases |s|
  {
    if s == [] then 0 else 10 * DigitsValue(s[..|s| - 1]) + (s[|s| - 1] as int - '0' as int)
  }

  function Sign(d: int): (r: int)
    ensures r == -1 || r == 0 || r == 1
    ensures r > 0 <==> d > 0
    ensures r < 0 <==> d < 0
  {
    if d < 0 then -1 else if d > 0 then 1 else 0
  }

  /** Byte-wise string comparison (code point order equals UTF-8 byte order). */
  function StrCmp(s: string, t: string): (r: int)
    ensures r == -1 || r == 0 || r == 1
    ensures r == 0 <==> s == t
    decreases |s|
  {
    if s == [] then (if t == [] then 0 else -1)
    else if t == [] then 1
    else if s[0] < t[0] then -1
    else if s[0] > t[0] then 1
    else
      var r := StrCmp(s[1..], t[1..]);
      assert r == 0 ==> s == [s[0]] + s[1..] && t == [t[0]] + t[1..];
      r
  }

  /** A boolean as a number, for null's comparison with an int. */
  function BoolValue(b: bool): int {
    if b then 1 else 0
  }

  /**
   * PHP 8's <=> on these values: an int and a non-numeric string compare
   * as strings, null and an int as booleans, null and a string as the empty
   * string and that string, two numeric strings as numbers.
   */
  function Compare(a: Scalar, b: Scalar): (r: int)
    ensures r == -1 || r == 0 || r == 1
  {
    match (a, b)
    case (Null, Null) => 0
    case (Int(x), Int(y)) => Sign(x - y)
    case (Null, Int(y)) => Sign(0 - BoolValue(y != 0))
    case (Int(x), Null) => Sign(BoolValue(x != 0))
    case (Null, Str(t)) => StrCmp("", t)
    case (Str(s), Null) => StrCmp(s, "")
    case (Str(s), Str(t)) =>
      if Numeric(s) && Numeric(t) then Sign(DigitsValue(s) - DigitsValue(t)) else StrCmp(s, t)
    case (Int(x), Str(t)) => if Numeric(t) then Sign(x - DigitsValue(t)) else StrCmp(IntText(x), t)
    case (Str(s), Int(y)) => if Numeric(s) then Sign(DigitsValue(s) - y) else StrCmp(s, IntText(y))
  }

  /** max($a, $b): the first argument unless the second compares greater. */
  function PhpMax(a: Scalar, b: Scalar): (r: Scalar)
    ensures r == a || r == b
  {
    if Compare(b, a) > 0 then b else a
  }

  /** What push_to_mask passes to max: a field's category or a literal's text. */
  function SegmentValue(seg: Segment): Scalar {
    match seg
    case Field(c) => Int(c)
    case Literal(t) => Str(t)
  }

  /** The precision push_to_mask leaves after pushing the mask's segments, from an initial value. */
  function WrittenPrecision(p: Scalar, mask: seq<Segment>): Scalar
    decreases |mask|
  {
    if mask == [] then p
    else PhpMax(WrittenPrecision(p, mask[..|mask| - 1]), SegmentValue(mask[|mask| - 1]))
  }

  /** format's test $best_match >= $this->precision. */
  predicate Collapses(best: int, precision: Scalar) {
    Compare(Int(best), precision) >= 0
  }

  /** A text that sorts after every digit, such as "de" or ":". */
  predicate HighText(t: string) {
    t != [] && t[0] > '9'
  }

  /** A text that sorts before every digit, such as " ", ", ", "/" or ".". */
  predicate LowText(t: string) {
    t != [] && t[0] < '0'
  }

  predicate HasHighLiteral(mask: seq<Segment>) {
    exists k :: 0 <= k < |mask| && mask[k].Literal? && HighText(mask[k].text)
  }

  predicate LowLiterals(mask: seq<Segment>) {
    forall k :: 0 <= k < |mask| && mask[k].Literal? ==> LowText(mask[k].text)
  }

  // ---------------------------------------------------------------------------
  // Properties

  /** On ints the test is the integer comparison. */
  lemma IntCollapses(best: int, p: int)
    ensures Collapses(best, Int(p)) <==> best >= p
  {
  }

  /** A null precision lets every comparator result through, EXPAND included. */
  lemma NullAlwaysCollapses(best: int)
    ensures Collapses(best, Null)
  {
  }

  /** No int is >= a text that sorts after the digits. */
  lemma HighTextNeverCollapses(best: int, t: string)
    requires HighText(t)
    ensures !Collapses(best, Str(t))
  {
    var b := IntText(best);
    assert !Numeric(t);
    assert b[0] < t[0];
  }

  /** Whatever the precision was, max with a high text is high. */
  lemma HighLiteralIsTaken(p: Scalar, t: string)
    requires HighText(t)
    ensures PhpMax(p, Str(t)).Str? && HighText(PhpMax(p, Str(t)).s)
  {
    assert !Numeric(t);
    match p
    case Null =>
    case Int(x) =>
      var b := IntText(x);
      assert b[0] < t[0];
    case Str(u) =>
      if Compare(Str(t), p) <= 0 {
        assert !Numeric(u) ==> StrCmp(t, u) <= 0;
        assert u != [] && u[0] >= t[0];
      }
  }

  /** A high precision stays high, whatever segment is pushed. */
  lemma HighStaysHigh(t: string, seg: Segment)
    requires HighText(t)
    ensures PhpMax(Str(t), SegmentValue(seg)).Str? && HighText(PhpMax(Str(t), SegmentValue(seg)).s)
  {
    assert !Numeric(t);
    match seg
    case Field(c) =>
      var b := IntText(c);
      assert b[0] < t[0];
    case Literal(u) =>
      if Compare(Str(u), Str(t)) > 0 {
        assert u != [] && u[0] >= t[0];
      }
  }

  /**
   * Once the mask holds a literal that sorts after the digits, the precision
   * as written is a text that sorts after the digits, from any initial value.
   */
  lemma {:induction false} HighLiteralCapturesPrecision(p: Scalar, mask: seq<Segment>)
    requires HasHighLiteral(mask)
    ensures WrittenPrecision(p, mask).Str? && HighText(WrittenPrecision(p, mask).s)
    decreases |mask|
  {
    var n := |mask| - 1;
    var init := mask[..n];
    if mask[n].Literal? && HighText(mask[n].text) {
      HighLiteralIsTaken(WrittenPrecision(p, init), mask[n].text);
    } else {
      var k :| 0 <= k < |mask| && mask[k].Literal? && HighText(mask[k].text);
      assert k < n && init[k] == mask[k];
      HighLiteralCapturesPrecision(p, init);
      HighStaysHigh(WrittenPrecision(p, init).s, mask[n]);
    }
  }

  /** The test never passes on a mask with a high literal: the range is never collapsed. */
  lemma HighLiteralNeverCollapses(p: Scalar, mask: seq<Segment>, best: int)
    requires HasHighLiteral(mask)
    ensures !Collapses(best, WrittenPrecision(p, mask))
  {
    HighLiteralCapturesPrecision(p, mask);
    HighTextNeverCollapses(best, WrittenPrecision(p, mask).s);
  }

  /**
   * When every literal sorts before the digits, max keeps the
   * int precision of the main model: the finest field category.
   */
  lemma {:induction false} LowLiteralsKeepFieldMax(k: int, mask: seq<Segment>)
    requires k >= 0 && LowLiterals(mask)
    ensures WrittenPrecision(Int(k), mask) == Int(MaxField(k, mask))
    decreases |mask|
  {
    if mask != [] {
      var n := |mask| - 1;
      var init := mask[..n];
      assert LowLiterals(init) by {
        forall q | 0 <= q < n && init[q].Literal? ensures LowText(init[q].text) {
          assert init[q] == mask[q];
        }
      }
      LowLiteralsKeepFieldMax(k, init);
      var m := MaxField(k, init);
      if mask[n].Literal? {
        var u := mask[n].text;
        var b := IntText(m);
        assert u[0] < b[0];
        assert !Numeric(u);
        assert Compare(Str(u), Int(m)) < 0;
      }
    }
  }

  /**
   * From null, the precision as written equals the one from 0 once the
   * first segment is a field finer than ERA.
   */
  lemma {:induction false} FinerFirstFieldForgetsNull(mask: seq<Segment>)
    requires mask != [] && mask[0].Field? && mask[0].category > 0
    ensures WrittenPrecision(Null, mask) == WrittenPrecision(Int(0), mask)
    decreases |mask|
  {
    var n := |mask| - 1;
    var init := mask[..n];
    if n == 0 {
      assert WrittenPrecision(Null, init) == Null && WrittenPrecision(Int(0), init) == Int(0);
    } else {
      assert init[0] == mask[0];
      FinerFirstFieldForgetsNull(init);
    }
  }

  /** From null, a mask of ERA fields keeps null: every later comparison passes. */
  lemma {:induction false} EraOnlyKeepsNull(mask: seq<Segment>)
    requires forall k :: 0 <= k < |mask| ==> mask[k] == Field(0)
    ensures WrittenPrecision(Null, mask) == Null
    decreases |mask|
  {
    if mask != [] {
      var n := |mask| - 1;
      assert forall k :: 0 <= k < n ==> mask[..n][k] == mask[k];
      EraOnlyKeepsNull(mask[..n]);
    }
  }
}
