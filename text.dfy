/**
 * String operations the components rely on, over `string` = `seq<char>`: the `[0-9]` character
 * class, `toLowerCase`, `includes`, `join`, `split` and the `Number(...)` conversion of a part.
 */
module Text {
  import opened Base
  import Seqs

  /** The regular-expression class `[0-9]` (and `\d` without the `u` flag). */
  predicate IsDigit(c: char) {
    '0' <= c <= '9'
  }

  predicate AllDigits(s: string) {
    forall i :: 0 <= i < |s| ==> IsDigit(s[i])
  }

  /** `s.replace(/[^0-9]/g, '')`: every character outside `[0-9]` removed. */
  function DigitsOnly(s: string): (r: string)
    ensures AllDigits(r)
    ensures |r| <= |s|
  {
    Seqs.Filter(s, IsDigit)
  }

  lemma DigitsOnlyOfDigits(s: string)
    requires AllDigits(s)
    ensures DigitsOnly(s) == s
  {
    Seqs.FilterKeepsAll(s, IsDigit);
  }

  function DigitValue(c: char): (r: nat)
    requires IsDigit(c)
    ensures r < 10
  {
    c as int - '0' as int
  }

  function DigitChar(d: nat): (c: char)
    requires d < 10
    ensures IsDigit(c) && DigitValue(c) == d
  {
    ('0' as int + d) as char
  }

  /** The value of a string of decimal digits, most significant first. */
  function DecimalValue(s: string): nat
    requires AllDigits(s)
    decreases |s|
  {
    if s == [] then 0 else 10 * DecimalValue(s[..|s| - 1]) + DigitValue(s[|s| - 1])
  }

  /**
   * `Number(s)` for the strings the components pass it: the empty string is 0, a string of
   * decimal digits is its value, and anything else is modelled as NaN (`None`).
   */
  function NumberOf(s: string): (r: Option<nat>)
    ensures s == "" ==> r == Some(0)
    ensures r.Some? <==> AllDigits(s)
  {
    if AllDigits(s) then Some(DecimalValue(s)) else None
  }

  /** `String(n).padStart(2, '0')` for a number below 100. */
  function Pad2(n: nat): (r: string)
    requires n < 100
    ensures |r| == 2 && AllDigits(r)
  {
    [DigitChar(n / 10), DigitChar(n % 10)]
  }

  /** Reading a padded number back gives the number. */
  lemma Pad2RoundTrip(n: nat)
    requires n < 100
    ensures NumberOf(Pad2(n)) == Some(n)
  {
    var s := Pad2(n);
    assert s[..1] == [DigitChar(n / 10)];
    assert DecimalValue(s[..1]) == n / 10 by {
      assert s[..1][..0] == [];
    }
  }

  /** ASCII upper-case letters mapped to lower case, every other character unchanged. */
  function LowerChar(c: char): (r: char)
    ensures 'A' <= c <= 'Z' ==> r as int == c as int + 32
    ensures !('A' <= c <= 'Z') ==> r == c
  {
    if 'A' <= c <= 'Z' then (c as int + 32) as char else c
  }

  /** `s.toLowerCase()`, restricted to ASCII letters. */
  function ToLower(s: string): (r: string)
    ensures |r| == |s|
    ensures forall i :: 0 <= i < |s| ==> r[i] == LowerChar(s[i])
  {
    seq(|s|, i requires 0 <= i < |s| => LowerChar(s[i]))
  }

  /** Lower-casing twice is lower-casing once. */
  lemma ToLowerIdempotent(s: string)
    ensures ToLower(ToLower(s)) == ToLower(s)
  {
  }

  /** `hay.includes(needle)`: `needle` occurs somewhere in `hay` as a contiguous substring. */
  predicate Contains(hay: string, needle: string)
    decreases |hay|
  {
    needle <= hay || (hay != [] && Contains(hay[1..], needle))
  }

  /** `Contains` holds exactly when `needle` sits at some offset of `hay`. */
  lemma {:induction false} ContainsAt(hay: string, needle: string, k: nat)
    requires k + |needle| <= |hay| && hay[k..k + |needle|] == needle
    ensures Contains(hay, needle)
    decreases k
  {
    if k > 0 {
      assert hay[1..][k - 1..k - 1 + |needle|] == hay[k..k + |needle|];
      ContainsAt(hay[1..], needle, k - 1);
    } else {
      assert needle == hay[..|needle|];
    }
  }

  /** Every string contains the empty string and itself. */
  lemma ContainsTrivial(s: string)
    ensures Contains(s, "") && Contains(s, s)
  {
  }

  /** `items.join(sep)`. */
  function Join(items: seq<string>, sep: string): string
    decreases |items|
  {
    if |items| == 0 then ""
    else if |items| == 1 then items[0]
    else items[0] + sep + Join(items[1..], sep)
  }

  /** The joined string contains every item. */
  lemma {:induction false} JoinContainsItems(items: seq<string>, sep: string, i: nat)
    requires i < |items|
    ensures Contains(Join(items, sep), items[i])
    decreases |items|
  {
    var j := Join(items, sep);
    if |items| == 1 {
      ContainsTrivial(items[0]);
    } else if i == 0 {
      assert j[0..|items[0]|] == items[0];
      ContainsAt(j, items[0], 0);
    } else {
      JoinContainsItems(items[1..], sep, i - 1);
      var rest := Join(items[1..], sep);
      ContainsShift(items[0] + sep, rest, items[i]);
    }
  }

  /** Text found in a suffix is found in the whole. */
  lemma {:induction false} ContainsShift(prefix: string, s: string, needle: string)
    requires Contains(s, needle)
    ensures Contains(prefix + s, needle)
    decreases |prefix|
  {
    if prefix != [] {
      assert (prefix + s)[1..] == prefix[1..] + s;
      ContainsShift(prefix[1..], s, needle);
    } else {
      assert prefix + s == s;
    }
  }

  /** The length of a join: all items plus one separator between each neighbouring pair. */
  lemma {:induction false} JoinLength(items: seq<string>, sep: string)
    requires |items| > 0
    ensures |Join(items, sep)| == TotalLength(items) + (|items| - 1) * |sep|
    decreases |items|
  {
    if |items| > 1 {
      JoinLength(items[1..], sep);
    }
  }

  function TotalLength(items: seq<string>): nat
    decreases |items|
  {
    if items == [] then 0 else |items[0]| + TotalLength(items[1..])
  }

  /** `s.split(c)`: the pieces between occurrences of `c`; the empty string gives `[""]`. */
  function SplitOn(s: string, c: char): (r: seq<string>)
    ensures |r| >= 1
    ensures forall i :: 0 <= i < |r| ==> c !in r[i]
    decreases |s|
  {
    if s == [] then [""]
    else
      var rest := SplitOn(s[1..], c);
      if s[0] == c then [""] + rest else [[s[0]] + rest[0]] + rest[1..]
  }

  /** A string without the separator is one piece. */
  lemma {:induction false} SplitOnNone(s: string, c: char)
    requires c !in s
    ensures SplitOn(s, c) == [s]
    decreases |s|
  {
    if s != [] {
      SplitOnNone(s[1..], c);
      assert [s[0]] + s[1..] == s;
    }
  }

  /** Splitting `a + c + b`, where `a` has no separator, gives `a` then the pieces of `b`. */
  lemma {:induction false} SplitOnFirst(a: string, b: string, c: char)
    requires c !in a
    ensures SplitOn(a + [c] + b, c) == [a] + SplitOn(b, c)
    decreases |a|
  {
    var s := a + [c] + b;
    if a == [] {
      assert s[1..] == b;
    } else {
      assert s[1..] == a[1..] + [c] + b;
      SplitOnFirst(a[1..], b, c);
      assert [a[0]] + a[1..] == a;
    }
  }
}
