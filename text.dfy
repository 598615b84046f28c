/** The .NET string primitives the converter relies on, stated over `seq<char>`:
    `String.IndexOf`, `String.LastIndexOf(char, int)`, `String.Split(' ')`,
    successive `StringReader.ReadLine` calls, and `int.ToString()` for
    non-negative values.  Searches are ordinal: the culture-sensitive
    matching of .NET `string.IndexOf` is not modelled. */
module Text {

  predicate OccursAt(s: string, pat: string, k: int)
  {
    0 <= k && k + |pat| <= |s| && s[k..k + |pat|] == pat
  }

  /** `s.IndexOf(pat, from)`: the least position at or after `from` where `pat`
      occurs, or -1.  .NET throws when `from > |s|`; callers check that first. */
  function IndexOf(s: string, pat: string, from: nat): (r: int)
    requires from <= |s|
    ensures r == -1 || (from <= r && OccursAt(s, pat, r))
    decreases |s| - from
  {
    if OccursAt(s, pat, from) then from
    else if from == |s| then -1
    else IndexOf(s, pat, from + 1)
  }

  /** `IndexOf` finds the first occurrence: none lies between `from` and
      the result, nor anywhere from `from` on when the result is -1. */
  lemma {:induction false} IndexOfFirst(s: string, pat: string, from: nat)
    requires from <= |s|
    ensures IndexOf(s, pat, from) == -1 ==> forall k :: from <= k ==> !OccursAt(s, pat, k)
    ensures IndexOf(s, pat, from) >= 0 ==> forall k :: from <= k < IndexOf(s, pat, from) ==> !OccursAt(s, pat, k)
    decreases |s| - from
  {
    if !OccursAt(s, pat, from) && from < |s| {
      IndexOfFirst(s, pat, from + 1);
    }
  }

  /** `s.LastIndexOf(c, from)`: the greatest position at or before `from`
      holding `c`, or -1. */
  function LastIndexOfChar(s: string, c: char, from: int): (r: int)
    requires -1 <= from < |s|
    ensures -1 <= r <= from
    ensures r >= 0 ==> s[r] == c
    ensures forall k :: r < k <= from ==> s[k] != c
    decreases from + 1
  {
    if from < 0 then -1
    else if s[from] == c then from
    else LastIndexOfChar(s, c, from - 1)
  }

  /** `s.Split(sep)` without options: empty entries are kept, so the result
      always has one more element than `s` has separators. */
  function Split(s: string, sep: char): (r: seq<string>)
    ensures |r| >= 1
    ensures forall k :: 0 <= k < |r| ==> sep !in r[k]
    decreases |s|
  {
    if |s| == 0 then [""]
    else
      var rest := Split(s[1..], sep);
      if s[0] == sep then [""] + rest
      else [[s[0]] + rest[0]] + rest[1..]
  }

  /** `string.Join(sep, ts)`, the inverse of `Split`. */
  function Join(ts: seq<string>, sep: char): string
    requires |ts| >= 1
    decreases |ts|
  {
    if |ts| == 1 then ts[0] else ts[0] + [sep] + Join(ts[1..], sep)
  }

  lemma {:induction false} JoinSplit(s: string, sep: char)
    ensures Join(Split(s, sep), sep) == s
    decreases |s|
  {
    if |s| > 0 {
      JoinSplit(s[1..], sep);
      var rest := Split(s[1..], sep);
      if s[0] != sep {
        if |rest| == 1 {
          assert Join(Split(s, sep), sep) == [s[0]] + rest[0];
        } else {
          assert Split(s, sep)[1..] == rest[1..];
          assert Join(Split(s, sep), sep) == [s[0]] + rest[0] + [sep] + Join(rest[1..], sep);
        }
      } else {
        assert Split(s, sep)[1..] == rest;
      }
    }
  }

  lemma {:induction false} SplitJoin(ts: seq<string>, sep: char)
    requires |ts| >= 1
    requires forall k :: 0 <= k < |ts| ==> sep !in ts[k]
    ensures Split(Join(ts, sep), sep) == ts
    decreases |ts|, |ts[0]|
  {
    if |ts| == 1 {
      SplitNoSeparator(ts[0], sep);
    } else if |ts[0]| == 0 {
      SplitJoin(ts[1..], sep);
      assert Join(ts, sep) == [sep] + Join(ts[1..], sep);
      assert Join(ts, sep)[1..] == Join(ts[1..], sep);
    } else {
      var ts' := [ts[0][1..]] + ts[1..];
      SplitJoin(ts', sep);
      assert ts'[1..] == ts[1..];
      assert Join(ts, sep) == [ts[0][0]] + Join(ts', sep);
      assert Join(ts, sep)[1..] == Join(ts', sep);
      assert [ts[0][0]] + ts'[0] == ts[0];
    }
  }

  lemma {:induction false} SplitNoSeparator(s: string, sep: char)
    requires sep !in s
    ensures Split(s, sep) == [s]
    decreases |s|
  {
    if |s| > 0 {
      SplitNoSeparator(s[1..], sep);
      assert [s[0]] + s[1..] == s;
    }
  }

  predicate IsLineBreak(c: char) { c == '\n' || c == '\r' }

  /** Where the line starting at `pos` ends: the first line break, or `|s|`. */
  function LineEnd(s: string, pos: nat): (e: nat)
    requires pos <= |s|
    ensures pos <= e <= |s|
    ensures forall k :: pos <= k < e ==> !IsLineBreak(s[k])
    ensures e < |s| ==> IsLineBreak(s[e])
    decreases |s| - pos
  {
    if pos == |s| || IsLineBreak(s[pos]) then pos else LineEnd(s, pos + 1)
  }

  /** The lines successive `ReadLine` calls return, starting at `pos`, until
      `ReadLine` returns null.  "\r\n", "\r" and "\n" each end a line. */
  function LinesFrom(s: string, pos: nat): (ls: seq<string>)
    requires pos <= |s|
    ensures forall k :: 0 <= k < |ls| ==> forall c :: c in ls[k] ==> !IsLineBreak(c)
    decreases |s| - pos
  {
    if pos == |s| then []
    else
      var e := LineEnd(s, pos);
      var next := if e == |s| then e
                  else if s[e] == '\r' && e + 1 < |s| && s[e + 1] == '\n' then e + 2
                  else e + 1;
      assert forall c :: c in s[pos..e] ==> !IsLineBreak(c);
      [s[pos..e]] + LinesFrom(s, next)
  }

  function Lines(s: string): seq<string>
  {
    LinesFrom(s, 0)
  }

  lemma {:induction false} LinesOfOneLine(s: string)
    requires |s| > 0 && forall k :: 0 <= k < |s| ==> !IsLineBreak(s[k])
    ensures Lines(s) == [s]
  {
    LineEndNoBreak(s, 0);
    assert s[0..|s|] == s;
    assert LinesFrom(s, |s|) == [];
  }

  lemma {:induction false} LineEndNoBreak(s: string, pos: nat)
    requires pos <= |s|
    requires forall k :: pos <= k < |s| ==> !IsLineBreak(s[k])
    ensures LineEnd(s, pos) == |s|
    decreases |s| - pos
  {
    if pos < |s| { LineEndNoBreak(s, pos + 1); }
  }

  function DigitChar(d: nat): (c: char)
    requires d < 10
    ensures '0' <= c <= '9'
  {
    "0123456789"[d]
  }

  /** `n.ToString()` for a non-negative `int`: canonical decimal digits. */
  function NatToString(n: nat): (r: string)
    ensures |r| >= 1
    ensures forall k :: 0 <= k < |r| ==> '0' <= r[k] <= '9'
    ensures |r| > 1 ==> r[0] != '0'
    decreases n
  {
    if n < 10 then [DigitChar(n)] else NatToString(n / 10) + [DigitChar(n % 10)]
  }

  /** The value of a string of decimal digits. */
  function DecimalValue(s: string): nat
    requires forall k :: 0 <= k < |s| ==> '0' <= s[k] <= '9'
    decreases |s|
  {
    if |s| == 0 then 0
    else 10 * DecimalValue(s[..|s| - 1]) + ((s[|s| - 1] as int) - ('0' as int))
  }

  lemma DigitCharValue(d: nat)
    requires d < 10
    ensures (DigitChar(d) as int) - ('0' as int) == d
  {
    if d == 0 {} else if d == 1 {} else if d == 2 {} else if d == 3 {} else if d == 4 {}
    else if d == 5 {} else if d == 6 {} else if d == 7 {} else if d == 8 {} else {}
  }

  lemma {:induction false} NatToStringValue(n: nat)
    ensures DecimalValue(NatToString(n)) == n
    decreases n
  {
    var r := NatToString(n);
    if n < 10 {
      DigitCharValue(n);
      assert r[..0] == [];
    } else {
      NatToStringValue(n / 10);
      DigitCharValue(n % 10);
      assert r[..|r| - 1] == NatToString(n / 10);
      assert r[|r| - 1] == DigitChar(n % 10);
    }
  }

  /** Distinct indexes have distinct decimal spellings. */
  lemma NatToStringInjective(m: nat, n: nat)
    requires NatToString(m) == NatToString(n)
    ensures m == n
  {
    NatToStringValue(m);
    NatToStringValue(n);
  }
}
