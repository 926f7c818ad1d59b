/**
 * Text helpers used by the request and table models: searching for a
 * character, `Array.prototype.join` / `String.prototype.split` on a
 * one-character separator, and the decimal rendering of integers that a
 * JavaScript template literal or `JSON.stringify` performs.
 */
module Text {

  /** Position of the first `c` in `s`, or `|s|` when `s` has no `c`. */
  function IndexOf(s: string, c: char): (i: nat)
    ensures i <= |s|
    ensures i < |s| ==> s[i] == c
    ensures forall k :: 0 <= k < i ==> s[k] != c
  {
    if s == [] then 0
    else if s[0] == c then 0
    else 1 + IndexOf(s[1..], c)
  }

  /** `xs.join(sep)`: the elements separated by `sep`; the empty list gives "". */
  function Join(xs: seq<string>, sep: char): (r: string)
    ensures xs == [] ==> r == ""
    ensures |xs| == 1 ==> r == xs[0]
    ensures xs != [] ==> |xs[0]| <= |r| && r[..|xs[0]|] == xs[0]
  {
    if xs == [] then ""
    else if |xs| == 1 then xs[0]
    else xs[0] + [sep] + Join(xs[1..], sep)
  }

  /** Joining two or more pieces: the first, the separator, then the rest joined. */
  lemma JoinCons(xs: seq<string>, sep: char)
    requires |xs| >= 2
    ensures Join(xs, sep) == xs[0] + [sep] + Join(xs[1..], sep)
  {
  }

  /** `s.split(sep)`: the pieces between separators; "" gives [""]. */
  function Split(s: string, sep: char): (pieces: seq<string>)
    ensures |pieces| >= 1
    decreases |s|
  {
    var i := IndexOf(s, sep);
    if i == |s| then [s] else [s[..i]] + Split(s[i + 1..], sep)
  }

  /** Splitting a join gives the list back when no element holds the separator. */
  lemma {:induction false} SplitJoin(xs: seq<string>, sep: char)
    requires xs != []
    requires forall k :: 0 <= k < |xs| ==> sep !in xs[k]
    ensures Split(Join(xs, sep), sep) == xs
  {
    if |xs| == 1 {
      assert IndexOf(xs[0], sep) == |xs[0]|;
    } else {
      var rest := Join(xs[1..], sep);
      assert Join(xs, sep) == xs[0] + [sep] + rest;
      assert sep !in xs[0];
      assert forall k :: 0 <= k < |xs[1..]| ==> sep !in xs[1..][k] by {
        forall k | 0 <= k < |xs[1..]| ensures sep !in xs[1..][k] {
          assert xs[1..][k] == xs[k + 1];
        }
      }
      SplitFirst(xs[0], rest, sep);
      SplitJoin(xs[1..], sep);
      assert xs == [xs[0]] + xs[1..];
    }
  }

  /** A separator-free head splits off as the first piece. */
  lemma SplitFirst(head: string, rest: string, sep: char)
    requires sep !in head
    ensures Split(head + [sep] + rest, sep) == [head] + Split(rest, sep)
  {
    var s := head + [sep] + rest;
    assert s[|head|] == sep;
    assert IndexOf(s, sep) == |head|;
    assert s[..|head|] == head;
    assert s[|head| + 1..] == rest;
  }

  function DigitChar(d: nat): (c: char)
    requires d < 10
    ensures '0' <= c <= '9'
  {
    "0123456789"[d]
  }

  /** Decimal digits of a natural number, most significant first, no leading zero. */
  function NatToString(n: nat): (s: string)
    ensures |s| >= 1
    ensures forall k :: 0 <= k < |s| ==> '0' <= s[k] <= '9'
    ensures n > 0 ==> s[0] != '0'
  {
    if n < 10 then [DigitChar(n)] else NatToString(n / 10) + [DigitChar(n % 10)]
  }

  /** `String(n)` for an integer: an optional minus sign and the decimal digits. */
  function IntToString(n: int): (s: string)
    ensures |s| >= 1
    ensures forall k :: 0 <= k < |s| ==> '0' <= s[k] <= '9' || s[k] == '-'
  {
    if n < 0 then "-" + NatToString(-n) else NatToString(n)
  }

  /** Reads a run of decimal digits back into the number they denote. */
  function DigitsValue(s: string): (n: nat)
  {
    if s == [] then 0
    else DigitsValue(s[..|s| - 1]) * 10 + (if '0' <= s[|s| - 1] <= '9' then (s[|s| - 1] as int - '0' as int) else 0)
  }

  /** The rendering of a natural number reads back as that number. */
  lemma {:induction false} NatToStringRoundTrip(n: nat)
    ensures DigitsValue(NatToString(n)) == n
  {
    DigitCharValue(n % 10);
    if n >= 10 {
      var init := NatToString(n / 10);
      var s := init + [DigitChar(n % 10)];
      assert s[..|s| - 1] == init;
      NatToStringRoundTrip(n / 10);
    }
  }

  lemma DigitCharValue(d: nat)
    requires d < 10
    ensures DigitChar(d) as int - '0' as int == d
  {
  }
}
