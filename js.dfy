/**
 * The few JavaScript primitives the analysis pipeline relies on, stated over
 * Dafny values: `undefined` as an Option, a number that may be NaN, `parseInt`
 * on a digit prefix, `Number.prototype.toString`, `String.prototype.padStart`,
 * `String.prototype.split('-')` and the `<=` order on strings.
 */
module Js {

  datatype Option<T> = None | Some(value: T)

  /** A JavaScript number as it can arise here: an exact real, or NaN (0/0). */
  datatype Num = Finite(v: real) | NaN

  /** `a + b` on numbers: NaN is absorbing. */
  function Add(a: Num, b: Num): Num
  {
    if a.Finite? && b.Finite? then Finite(a.v + b.v) else NaN
  }

  /** `a * k` for a number `a` and an ordinary real `k`. */
  function Scale(a: Num, k: real): Num
  {
    if a.Finite? then Finite(a.v * k) else NaN
  }

  // ---------------------------------------------------------------- digits

  predicate IsDigit(ch: char)
  {
    '0' <= ch <= '9'
  }

  predicate AllDigits(s: string)
  {
    forall i :: 0 <= i < |s| ==> IsDigit(s[i])
  }

  function DigitValue(ch: char): (d: nat)
    requires IsDigit(ch)
    ensures d < 10
  {
    (ch as int) - ('0' as int)
  }

  function DigitChar(d: nat): (ch: char)
    requires d < 10
    ensures IsDigit(ch) && DigitValue(ch) == d
  {
    (('0' as int) + d) as char
  }

  /** The value of a decimal digit string, most significant digit first. */
  function DigitsValue(s: string): nat
    requires AllDigits(s)
  {
    if s == [] then 0 else DigitsValue(s[..|s| - 1]) * 10 + DigitValue(s[|s| - 1])
  }

  /** Number of leading decimal digits of `s`. */
  function LeadingDigits(s: string): (k: nat)
    ensures k <= |s| && AllDigits(s[..k])
    ensures k < |s| ==> !IsDigit(s[k])
  {
    if s == [] || !IsDigit(s[0]) then 0
    else
      var k := 1 + LeadingDigits(s[1..]);
      assert s[..k] == [s[0]] + s[1..][..k - 1];
      k
  }

  /**
   * `parseInt(s)` for strings that do not start with white space, a sign or
   * a `0x` prefix: the value of the leading digits, or None (NaN) when there
   * are none.
   */
  function ParseInt(s: string): (r: Option<nat>)
    ensures r.None? <==> (s == [] || !IsDigit(s[0]))
    ensures AllDigits(s) && s != [] ==> r == Some(DigitsValue(s))
  {
    var k := LeadingDigits(s);
    if k == 0 then None
    else
      assert AllDigits(s) ==> k == |s| && s[..k] == s;
      Some(DigitsValue(s[..k]))
  }

  /** `n.toString()` for a non-negative integer. */
  function NatToString(n: nat): (s: string)
    ensures |s| >= 1 && AllDigits(s)
    ensures DigitsValue(s) == n
    ensures n < 10 <==> |s| == 1
  {
    if n < 10 then [DigitChar(n)]
    else
      var s := NatToString(n / 10) + [DigitChar(n % 10)];
      assert s[..|s| - 1] == NatToString(n / 10);
      s
  }

  /** `String(x)` for a number that is a non-negative integer or NaN. */
  function NumberText(x: Option<nat>): string
  {
    match x
    case None => "NaN"
    case Some(n) => NatToString(n)
  }

  /** `s.padStart(2, '0')`. */
  function PadStart2(s: string): (r: string)
    ensures |r| == if |s| >= 2 then |s| else 2
  {
    if |s| == 0 then "00" else if |s| == 1 then "0" + s else s
  }

  /** `s.slice(from, to)` for `0 <= from <= to`: out-of-range ends are clamped. */
  function Slice(s: string, from: nat, to: nat): (r: string)
    requires from <= to
    ensures |r| == (if to <= |s| then to else |s|) - (if from <= |s| then from else |s|)
  {
    var a := if from <= |s| then from else |s|;
    var b := if to <= |s| then to else |s|;
    s[a..b]
  }

  // ------------------------------------------------------- split on '-'

  function IndexOf(s: string, ch: char): (r: Option<nat>)
    ensures r.None? <==> ch !in s
    ensures r.Some? ==> r.value < |s| && s[r.value] == ch && ch !in s[..r.value]
  {
    if s == [] then None
    else if s[0] == ch then Some(0)
    else
      match IndexOf(s[1..], ch)
      case None => None
      case Some(i) =>
        assert s[..i + 1] == [s[0]] + s[1..][..i];
        Some(i + 1)
  }

  /** `s.split('-')[0]`. */
  function FirstField(s: string): string
  {
    match IndexOf(s, '-')
    case None => s
    case Some(i) => s[..i]
  }

  /** `s.split('-')[1]`, None when `s` holds no '-' (JavaScript's undefined). */
  function SecondField(s: string): Option<string>
  {
    match IndexOf(s, '-')
    case None => None
    case Some(i) => Some(FirstField(s[i + 1..]))
  }

  /** `s.substring(1)`. */
  function Rest(s: string): string
  {
    if s == [] then [] else s[1..]
  }

  /** The two fields of `a + "-" + b` when neither part contains '-'. */
  lemma {:induction false} SplitJoin(a: string, b: string)
    requires '-' !in a && '-' !in b
    ensures FirstField(a + "-" + b) == a
    ensures SecondField(a + "-" + b) == Some(b)
  {
    var s := a + "-" + b;
    assert s[..|a|] == a && s[|a|] == '-';
    assert IndexOf(s, '-') == Some(|a|);
    assert s[|a| + 1..] == b;
  }

  lemma DigitsHaveNoDash(s: string)
    requires AllDigits(s)
    ensures '-' !in s
  {
  }

  // ------------------------------------------------------- string order

  /**
   * `a <= b` on JavaScript strings: lexicographic order on characters, a
   * proper prefix coming first. (Dafny's own `<` on sequences is the
   * proper-prefix relation, which is not this order.)
   */
  predicate LexLe(a: string, b: string)
  {
    if a == [] then true
    else if b == [] then false
    else if a[0] != b[0] then a[0] < b[0]
    else LexLe(a[1..], b[1..])
  }

  /** `a < b` on JavaScript strings. */
  predicate LexLt(a: string, b: string)
  {
    LexLe(a, b) && a != b
  }

  lemma {:induction false} LexLeRefl(a: string)
    ensures LexLe(a, a)
  {
    if a != [] { LexLeRefl(a[1..]); }
  }

  lemma {:induction false} LexLeAntisym(a: string, b: string)
    requires LexLe(a, b) && LexLe(b, a)
    ensures a == b
  {
    if a != [] && b != [] {
      LexLeAntisym(a[1..], b[1..]);
      assert a == [a[0]] + a[1..] && b == [b[0]] + b[1..];
    }
  }

  lemma {:induction false} LexLeTrans(a: string, b: string, c: string)
    requires LexLe(a, b) && LexLe(b, c)
    ensures LexLe(a, c)
  {
    if a != [] && b != [] && c != [] && a[0] == b[0] && b[0] == c[0] {
      LexLeTrans(a[1..], b[1..], c[1..]);
    }
  }

  lemma {:induction false} LexLeTotal(a: string, b: string)
    ensures LexLe(a, b) || LexLe(b, a)
  {
    if a != [] && b != [] && a[0] == b[0] {
      LexLeTotal(a[1..], b[1..]);
    }
  }

  /** LexLt is a strict order: irreflexive and transitive, and `!(b < a)` means `a <= b`. */
  lemma LexLtTrans(a: string, b: string, c: string)
    requires LexLt(a, b) && LexLe(b, c)
    ensures LexLt(a, c)
  {
    LexLeTrans(a, b, c);
    if a == c { LexLeAntisym(a, b); }
  }

  lemma LexNotLe(a: string, b: string)
    requires !LexLe(a, b)
    ensures LexLt(b, a)
  {
    LexLeTotal(a, b);
  }
}
