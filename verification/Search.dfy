/** Searching in strings: what `std::search` and `std::find` return. */
module Search {
  import opened Options

  const CRLF: string := "\r\n"

  /** `needle` occurs in `s` at position `i`. */
  predicate MatchAt(s: string, needle: string, i: nat) {
    i + |needle| <= |s| && s[i..i + |needle|] == needle
  }

  /** `i` is the first position of `s`, not before `from`, where `needle` occurs. */
  ghost predicate FirstMatch(s: string, needle: string, from: nat, i: nat) {
    from <= i && MatchAt(s, needle, i) && forall j :: from <= j < i ==> !MatchAt(s, needle, j)
  }

  /** The first occurrence of `needle` in `s` at or after `from`, if there is one. */
  function FindFrom(s: string, needle: string, from: nat): (r: Option<nat>)
    requires from <= |s|
    ensures r.Some? ==> FirstMatch(s, needle, from, r.value)
    ensures r.None? ==> forall i: nat :: from <= i ==> !MatchAt(s, needle, i)
    decreases |s| - from
  {
    if MatchAt(s, needle, from) then Some(from)
    else if from == |s| then None
    else FindFrom(s, needle, from + 1)
  }

  function FindCrlf(s: string): Option<nat> {
    FindFrom(s, CRLF, 0)
  }

  /** The position of the first `c` in `s`, or the length of `s`, as `std::find`. */
  function FindChar(s: string, c: char): (k: nat)
    ensures k <= |s|
    ensures c !in s[..k]
    ensures k < |s| ==> s[k] == c
  {
    if s == [] || s[0] == c then 0 else 1 + FindChar(s[1..], c)
  }

  lemma SliceOfSlice(s: string, from: nat, to: nat, a: nat, b: nat)
    requires from <= to <= |s| && a <= b <= to - from
    ensures s[from..to][a..b] == s[from + a..from + b]
  {
    assert forall i :: 0 <= i < b - a ==> s[from..to][a..b][i] == s[from + a + i];
  }

  /** Bytes that arrive later do not move a CRLF that is already there. */
  lemma FindCrlfExtends(s: string, t: string)
    requires FindCrlf(s).Some?
    ensures FindCrlf(s + t) == FindCrlf(s)
  {
    var k := FindCrlf(s).value;
    forall i: nat | i <= k ensures MatchAt(s + t, CRLF, i) == MatchAt(s, CRLF, i) {
      assert (s + t)[i..i + 2] == s[i..i + 2];
    }
    assert FirstMatch(s + t, CRLF, 0, k);
  }

  /** A line without a CRLF, followed by one, is what the search cuts off. */
  lemma FindCrlfAfterLine(line: string, rest: string)
    requires FindCrlf(line + "\r").None?
    ensures FindCrlf(line + CRLF + rest) == Some(|line|)
  {
    var s := line + CRLF + rest;
    assert s[|line|..|line| + 2] == CRLF;
    forall i: nat | i < |line| ensures !MatchAt(s, CRLF, i) {
      assert !MatchAt(line + "\r", CRLF, i);
      assert s[i..i + 2] == (line + "\r")[i..i + 2];
    }
    assert FirstMatch(s, CRLF, 0, |line|);
  }

  /** The first `c` after a text without `c`. */
  lemma FindCharAfter(s: string, c: char, t: string)
    requires c !in s
    ensures FindChar(s + [c] + t, c) == |s|
  {
    var whole := s + [c] + t;
    assert whole[|s|] == c;
    assert forall i :: 0 <= i < |s| ==> whole[i] == s[i];
  }
}
