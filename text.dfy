/**
 * Decimal rendering of numbers, as JavaScript's template strings do it for
 * non-negative integers (`${n}`), and the few text predicates the rest of the
 * model needs.
 */
module Text {

  predicate IsDigit(c: char) {
    '0' <= c <= '9'
  }

  function DigitChar(d: nat): (c: char)
    requires d < 10
    ensures IsDigit(c)
  {
    "0123456789"[d]
  }

  /** `${n}` for a non-negative integer: its decimal digits, without leading zeros. */
  function NatToString(n: nat): (s: string)
    ensures 1 <= |s|
    ensures forall i :: 0 <= i < |s| ==> IsDigit(s[i])
    ensures n < 10 <==> |s| == 1
    decreases n
  {
    if n < 10 then [DigitChar(n)] else NatToString(n / 10) + [DigitChar(n % 10)]
  }

  /** Left-pads `s` with '0' up to `width` characters (moment's fixed-width tokens). */
  function ZeroPad(s: string, width: nat): (r: string)
    ensures |r| == if |s| < width then width else |s|
    ensures r[|r| - |s|..] == s
    ensures forall i :: 0 <= i < |r| - |s| ==> r[i] == '0'
  {
    if |s| < width then seq(width - |s|, _ => '0') + s else s
  }

  /** The text before the first occurrence of `sep`, or all of `s` when there is none. */
  function TextBefore(s: string, sep: char): (r: string)
    ensures |r| <= |s| && r == s[..|r|]
    ensures sep !in r
    ensures |r| < |s| ==> s[|r|] == sep
  {
    if s == [] || s[0] == sep then [] else [s[0]] + TextBefore(s[1..], sep)
  }

  /** A prefix free of `sep` followed by `sep` is exactly what `TextBefore` returns. */
  lemma {:induction false} TextBeforeSeparated(p: string, sep: char, rest: string)
    requires sep !in p
    ensures TextBefore(p + [sep] + rest, sep) == p
  {
    if p != [] {
      assert (p + [sep] + rest)[1..] == p[1..] + [sep] + rest;
      TextBeforeSeparated(p[1..], sep, rest);
    } else {
      assert (p + [sep] + rest)[0] == sep;
    }
  }

  /** `front + [c] + tail` ends with `c` followed by `tail`. */
  lemma EndsWith(front: string, c: char, tail: string)
    ensures var s := front + [c] + tail;
      |s| > |tail| && s[|s| - |tail| - 1] == c && s[|s| - |tail|..] == tail
  {
    var s := front + [c] + tail;
    assert s[|front|] == c;
    assert s[|front| + 1..] == tail;
  }

  /** `TextBefore` stops at the first separator, whatever follows it. */
  lemma TextBeforeFirst(p: string, sep: char, a: string, b: string, c: string)
    requires sep !in p
    ensures TextBefore(p + [sep] + a + b + c, sep) == p
  {
    assert p + [sep] + a + b + c == p + [sep] + (a + b + c);
    TextBeforeSeparated(p, sep, a + b + c);
  }

  /** Different texts after a common prefix give different texts. */
  lemma PrefixCancels(p: string, a: string, b: string)
    requires a != b
    ensures p + a != p + b
  {
    assert (p + a)[|p|..] == a;
    assert (p + b)[|p|..] == b;
  }

  /** Different middles inside the same frame give different texts. */
  lemma FramedDiffer(p: string, a: string, b: string, q: string, x: string)
    requires a != b
    ensures p + a + q + x != p + b + q + x
  {
    assert (p + a + q + x)[|p|..|p| + |a|] == a;
    assert (p + b + q + x)[|p|..|p| + |b|] == b;
  }
}
