/** The handful of `java.lang.String` operations the client relies on, over
    `seq<char>`: prefix and suffix tests, forward search, `lastIndexOf`, `trim`
    and an ASCII case-insensitive comparison. */
module Text {

  predicate StartsWith(s: string, prefix: string) {
    |prefix| <= |s| && s[..|prefix|] == prefix
  }

  predicate EndsWith(s: string, suffix: string) {
    |suffix| <= |s| && s[|s| - |suffix|..] == suffix
  }

  /** `pattern` occurs in `s` starting at index `i`. */
  predicate OccursAt(s: string, pattern: string, i: int) {
    0 <= i && i + |pattern| <= |s| && s[i..i + |pattern|] == pattern
  }

  /** `s.indexOf(pattern, from)`: the least index at or after `from` where
      `pattern` occurs, or -1. */
  function IndexOf(s: string, pattern: string, from: nat): (r: int)
    ensures r == -1 || (from <= r && OccursAt(s, pattern, r))
    ensures r == -1 ==> forall i {:trigger OccursAt(s, pattern, i)} :: from <= i ==> !OccursAt(s, pattern, i)
    ensures r != -1 ==> forall i {:trigger OccursAt(s, pattern, i)} :: from <= i < r ==> !OccursAt(s, pattern, i)
    decreases |s| - from
  {
    if from + |pattern| > |s| then -1
    else if s[from..from + |pattern|] == pattern then from
    else IndexOf(s, pattern, from + 1)
  }

  /** Every index at or after `from` where `pattern` occurs in `s`, in
      increasing order. */
  function Occurrences(s: string, pattern: string, from: nat): (r: seq<nat>)
    decreases |s| - from
  {
    if from >= |s| then []
    else (if OccursAt(s, pattern, from) then [from] else []) + Occurrences(s, pattern, from + 1)
  }

  /** An index is listed exactly when the pattern occurs there. */
  lemma {:induction false} OccurrencesMembers(s: string, pattern: string, from: nat)
    requires pattern != []
    ensures forall i :: i in Occurrences(s, pattern, from) <==> from <= i && OccursAt(s, pattern, i)
    decreases |s| - from
  {
    if from < |s| {
      OccurrencesMembers(s, pattern, from + 1);
    }
  }

  /** The listed indices are strictly increasing. */
  lemma {:induction false} OccurrencesIncreasing(s: string, pattern: string, from: nat)
    ensures forall j, k :: 0 <= j < k < |Occurrences(s, pattern, from)| ==>
              Occurrences(s, pattern, from)[j] < Occurrences(s, pattern, from)[k]
    decreases |s| - from
  {
    if from < |s| {
      OccurrencesIncreasing(s, pattern, from + 1);
      OccurrencesAbove(s, pattern, from + 1);
      var rest := Occurrences(s, pattern, from + 1);
      if OccursAt(s, pattern, from) {
        var r := Occurrences(s, pattern, from);
        assert r == [from] + rest;
        forall j, k | 0 <= j < k < |r|
          ensures r[j] < r[k]
        {
          assert r[k] == rest[k - 1];
          if j > 0 {
            assert r[j] == rest[j - 1];
          }
        }
      }
    }
  }

  /** Every listed index is at least `from`. */
  lemma {:induction false} OccurrencesAbove(s: string, pattern: string, from: nat)
    ensures forall k :: 0 <= k < |Occurrences(s, pattern, from)| ==> from <= Occurrences(s, pattern, from)[k]
    decreases |s| - from
  {
    if from < |s| {
      OccurrencesAbove(s, pattern, from + 1);
      var rest := Occurrences(s, pattern, from + 1);
      var r := Occurrences(s, pattern, from);
      assert r == (if OccursAt(s, pattern, from) then [from] else []) + rest;
    }
  }

  /** Occurrences before `to` that do not exist can be skipped. */
  lemma {:induction false} OccurrencesSkip(s: string, pattern: string, from: nat, to: nat)
    requires from <= to
    requires forall i :: from <= i < to ==> !OccursAt(s, pattern, i)
    ensures Occurrences(s, pattern, from) == Occurrences(s, pattern, to)
    decreases (to as int) - (from as int)
  {
    if from < to {
      OccurrencesSkip(s, pattern, from + 1, to);
      if from >= |s| {
        assert Occurrences(s, pattern, to) == [];
      }
    }
  }

  /** There are no occurrences from `from` on when `IndexOf` finds none. */
  lemma OccurrencesNone(s: string, pattern: string, from: nat)
    requires IndexOf(s, pattern, from) == -1
    ensures Occurrences(s, pattern, from) == []
  {
    var to := if from < |s| then |s| else from;
    OccurrencesSkip(s, pattern, from, to);
  }

  /** The occurrences from `from` on begin with the one `IndexOf` finds. */
  lemma OccurrencesFirst(s: string, pattern: string, from: nat, i: nat)
    requires pattern != [] && IndexOf(s, pattern, from) == i as int
    ensures Occurrences(s, pattern, from) == [i] + Occurrences(s, pattern, i + 1)
  {
    OccurrencesSkip(s, pattern, from, i);
  }

  /** `s.indexOf(c)`. */
  function IndexOfChar(s: string, c: char): (r: int)
    ensures r == -1 <==> c !in s
    ensures r != -1 ==> 0 <= r < |s| && s[r] == c && c !in s[..r]
  {
    if |s| == 0 then -1
    else if s[0] == c then 0
    else
      var r := IndexOfChar(s[1..], c);
      assert s[1..][..if r == -1 then 0 else r] == s[1..1 + (if r == -1 then 0 else r)];
      if r == -1 then -1 else r + 1
  }

  /** `s.lastIndexOf(c)`. */
  function LastIndexOfChar(s: string, c: char): (r: int)
    ensures r == -1 <==> c !in s
    ensures r != -1 ==> 0 <= r < |s| && s[r] == c && c !in s[r + 1..]
  {
    if |s| == 0 then -1
    else if s[|s| - 1] == c then |s| - 1
    else
      var r := LastIndexOfChar(s[..|s| - 1], c);
      assert r != -1 ==> s[r + 1..] == s[..|s| - 1][r + 1..] + [s[|s| - 1]];
      assert s == s[..|s| - 1] + [s[|s| - 1]];
      r
  }

  /** The characters `String.trim` removes: every code point up to the space. */
  predicate IsTrimmable(c: char) {
    c <= ' '
  }

  /** `s.trim()`: drops trimmable characters at both ends. */
  function Trim(s: string): (r: string)
    ensures |r| <= |s|
    ensures r != [] ==> !IsTrimmable(r[0]) && !IsTrimmable(r[|r| - 1])
    ensures exists i :: OccursAt(s, r, i)
  {
    var t := TrimStart(s);
    var r := TrimEnd(t);
    assert OccursAt(s, r, |s| - |t|) by {
      assert s[|s| - |t|..][..|r|] == r;
    }
    r
  }

  function TrimStart(s: string): (r: string)
    ensures |r| <= |s| && r == s[|s| - |r|..]
    ensures r != [] ==> !IsTrimmable(r[0])
    ensures s != [] && !IsTrimmable(s[0]) ==> r == s
  {
    if s != [] && IsTrimmable(s[0]) then TrimStart(s[1..]) else s
  }

  function TrimEnd(s: string): (r: string)
    ensures |r| <= |s| && r == s[..|r|]
    ensures r != [] ==> !IsTrimmable(r[|r| - 1])
    ensures s != [] && !IsTrimmable(s[|s| - 1]) ==> r == s
  {
    if s != [] && IsTrimmable(s[|s| - 1]) then TrimEnd(s[..|s| - 1]) else s
  }

  /** Trimming text that already begins and ends with a visible character
      changes nothing. */
  lemma TrimKeepsVisibleEnds(s: string)
    requires s != [] && !IsTrimmable(s[0]) && !IsTrimmable(s[|s| - 1])
    ensures Trim(s) == s
  {
  }

  function ToLowerAscii(c: char): char {
    if 'A' <= c <= 'Z' then (c as int + 32) as char else c
  }

  /** Header-name comparison: equal up to ASCII letter case. */
  predicate EqualsIgnoreCase(a: string, b: string) {
    |a| == |b| && forall i :: 0 <= i < |a| ==> ToLowerAscii(a[i]) == ToLowerAscii(b[i])
  }
}
