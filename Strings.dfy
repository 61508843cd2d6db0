/**
 * The few operations on Rust `str` values that the tunnel's setup code relies on:
 * `find`, `split_once`, `split` and `lines` with a `char` pattern, and the decimal
 * rendering of an unsigned integer (`to_string`).
 */
module Strings {

  import opened Wrappers

  /** Index of the first `c` in `s`, or `|s|` when `s` holds no `c`. */
  function Find(s: string, c: char): (i: nat)
    ensures i <= |s|
    ensures i < |s| ==> s[i] == c
    ensures forall k :: 0 <= k < i ==> s[k] != c
  {
    if s == [] || s[0] == c then 0 else 1 + Find(s[1..], c)
  }

  /** In `p + [c] + q` with no `c` in `p`, the first `c` is the one right after `p`. */
  lemma FindAfter(p: string, c: char, q: string)
    requires c !in p
    ensures Find(p + [c] + q, c) == |p|
  {
    var s := p + [c] + q;
    assert s[|p|] == c;
    assert forall k :: 0 <= k < |p| ==> s[k] == p[k];
  }

  /** `str::split_once(c)`: the text before the first `c` and the text after it. */
  function SplitOnce(s: string, c: char): (r: Option<(string, string)>)
    ensures r.None? <==> c !in s
    ensures r.Some? ==> r.value.0 + [c] + r.value.1 == s && c !in r.value.0
  {
    var i := Find(s, c);
    if i == |s| then
      None
    else
      assert s == s[..i] + [c] + s[i + 1..];
      Some((s[..i], s[i + 1..]))
  }

  /** Splitting at the first `c` of `p + [c] + q`, with no `c` in `p`, gives back `p` and `q`. */
  lemma SplitOnceAt(p: string, c: char, q: string)
    requires c !in p
    ensures SplitOnce(p + [c] + q, c) == Some((p, q))
  {
    var s := p + [c] + q;
    FindAfter(p, c, q);
    assert s[..|p|] == p;
    assert s[|p| + 1..] == q;
  }

  /** `str::split(c)`: every piece between two separators, empty pieces included. */
  function Split(s: string, c: char): (r: seq<string>)
    ensures |r| >= 1
    ensures forall k :: 0 <= k < |r| ==> c !in r[k]
    decreases |s|
  {
    var i := Find(s, c);
    if i == |s| then [s] else [s[..i]] + Split(s[i + 1..], c)
  }

  /** The pieces put back together with `c` between two neighbours. */
  function Join(parts: seq<string>, c: char): string
  {
    if parts == [] then ""
    else if |parts| == 1 then parts[0]
    else parts[0] + [c] + Join(parts[1..], c)
  }

  /** Joining the pieces of a split restores the text. */
  lemma {:induction false} JoinSplit(s: string, c: char)
    ensures Join(Split(s, c), c) == s
    decreases |s|
  {
    var i := Find(s, c);
    if i < |s| {
      JoinSplit(s[i + 1..], c);
      assert s == s[..i] + [c] + s[i + 1..];
    }
  }

  /** Splitting a join of separator-free pieces gives the pieces back. */
  lemma {:induction false} SplitJoin(parts: seq<string>, c: char)
    requires |parts| >= 1
    requires forall k :: 0 <= k < |parts| ==> c !in parts[k]
    ensures Split(Join(parts, c), c) == parts
  {
    if |parts| == 1 {
      assert Find(parts[0], c) == |parts[0]|;
    } else {
      var rest := Join(parts[1..], c);
      var s := parts[0] + [c] + rest;
      assert Join(parts, c) == s;
      FindAfter(parts[0], c, rest);
      assert s[..|parts[0]|] == parts[0];
      assert s[|parts[0]| + 1..] == rest;
      SplitJoin(parts[1..], c);
    }
  }

  /** A line that does not end in a carriage return. */
  predicate NoTrailingCr(line: string)
  {
    line == [] || line[|line| - 1] != '\r'
  }

  /** The line ending "\r\n" counts as one: drop a carriage return left before a "\n". */
  function StripCr(line: string): (r: string)
    ensures NoTrailingCr(line) ==> r == line
  {
    if NoTrailingCr(line) then line else line[..|line| - 1]
  }

  /**
   * `str::lines`: the text cut at every "\n" (a "\r" just before it goes too);
   * a final "\n" does not start one more, empty, line.
   */
  function Lines(s: string): (r: seq<string>)
    ensures s == [] <==> r == []
    ensures forall k :: 0 <= k < |r| ==> '\n' !in r[k]
    decreases |s|
  {
    if s == [] then
      []
    else
      var i := Find(s, '\n');
      if i == |s| then [s] else [StripCr(s[..i])] + Lines(s[i + 1..])
  }

  /** Lines that each carry their "\n" are read back exactly, empty lines included. */
  lemma {:induction false} LinesOfTerminated(ls: seq<string>)
    requires |ls| >= 1
    requires forall k :: 0 <= k < |ls| ==> '\n' !in ls[k] && NoTrailingCr(ls[k])
    ensures Lines(Join(ls, '\n') + "\n") == ls
  {
    var rest := if |ls| == 1 then "" else Join(ls[1..], '\n') + "\n";
    var s := ls[0] + "\n" + rest;
    assert Join(ls, '\n') + "\n" == s;
    FindAfter(ls[0], '\n', rest);
    assert s[..|ls[0]|] == ls[0];
    assert s[|ls[0]| + 1..] == rest;
    if |ls| > 1 {
      LinesOfTerminated(ls[1..]);
    }
  }

  /** "\r\n" ends a line as "\n" does: one carriage return before the "\n" is not part of the line. */
  lemma LinesCrlf(l: string, t: string)
    requires '\n' !in l
    ensures Lines(l + "\r\n" + t) == [l] + Lines(t)
  {
    var p := l + "\r";
    var s := p + "\n" + t;
    assert l + "\r\n" + t == s;
    FindAfter(p, '\n', t);
    assert s[..|p|] == p && s[|p| + 1..] == t;
    assert p[..|p| - 1] == l;
  }

  /** The last line needs no "\n" of its own, as long as it is not empty. */
  lemma {:induction false} LinesOfJoined(ls: seq<string>)
    requires |ls| >= 1 && ls[|ls| - 1] != ""
    requires forall k :: 0 <= k < |ls| ==> '\n' !in ls[k] && NoTrailingCr(ls[k])
    ensures Lines(Join(ls, '\n')) == ls
  {
    if |ls| == 1 {
      assert Find(ls[0], '\n') == |ls[0]|;
    } else {
      var rest := Join(ls[1..], '\n');
      var s := ls[0] + "\n" + rest;
      assert Join(ls, '\n') == s;
      FindAfter(ls[0], '\n', rest);
      assert s[..|ls[0]|] == ls[0];
      assert s[|ls[0]| + 1..] == rest;
      LinesOfJoined(ls[1..]);
    }
  }

  predicate IsDigit(ch: char)
  {
    '0' <= ch <= '9'
  }

  function DigitChar(d: nat): (ch: char)
    requires d < 10
    ensures IsDigit(ch)
  {
    ('0' as int + d) as char
  }

  /** `to_string` of an unsigned integer: its decimal digits, without leading zeros. */
  function Decimal(n: nat): (s: string)
    ensures |s| >= 1
    ensures forall k :: 0 <= k < |s| ==> IsDigit(s[k])
    ensures s[0] == '0' ==> n == 0
  {
    if n < 10 then [DigitChar(n)] else Decimal(n / 10) + [DigitChar(n % 10)]
  }

  /** The number a string of decimal digits denotes. */
  function DigitsValue(s: string): int
  {
    if s == [] then 0 else 10 * DigitsValue(s[..|s| - 1]) + (s[|s| - 1] as int - '0' as int)
  }

  /** Reading the decimal rendering back gives the number. */
  lemma {:induction false} DecimalRoundTrip(n: nat)
    ensures DigitsValue(Decimal(n)) == n
  {
    if n >= 10 {
      var d := Decimal(n / 10);
      var s := d + [DigitChar(n % 10)];
      assert s[..|s| - 1] == d;
      DecimalRoundTrip(n / 10);
    }
  }
}
