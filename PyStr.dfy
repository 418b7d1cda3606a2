/**
 * The Python `str` operations the trainer relies on: startswith, find,
 * replace, split and join, over strings as sequences of characters.
 */
module PyStr {

  /** str.startswith */
  predicate StartsWith(s: string, prefix: string) {
    |prefix| <= |s| && s[..|prefix|] == prefix
  }

  /** str.endswith */
  predicate EndsWith(s: string, suffix: string) {
    |suffix| <= |s| && s[|s| - |suffix|..] == suffix
  }

  /** `p` occurs in `s` starting at index i. */
  predicate OccursAt(s: string, p: string, i: int) {
    0 <= i && i + |p| <= |s| && s[i..i + |p|] == p
  }

  lemma OccursAtTail(s: string, p: string, j: int)
    requires |s| > 0 && 0 <= j
    ensures OccursAt(s[1..], p, j) <==> OccursAt(s, p, j + 1)
  {
    if j + 1 + |p| <= |s| {
      assert s[1..][j..j + |p|] == s[j + 1..j + 1 + |p|];
    }
  }

  /** str.find: the index of the leftmost occurrence of a non-empty `p`, or -1. */
  function Find(s: string, p: string): (r: int)
    requires p != []
    ensures -1 <= r <= |s|
    ensures r >= 0 ==> OccursAt(s, p, r)
    ensures forall j :: 0 <= j < (if r < 0 then |s| else r) ==> !OccursAt(s, p, j)
    decreases |s|
  {
    if |s| < |p| then -1
    else if s[..|p|] == p then 0
    else
      var k := Find(s[1..], p);
      FindStep(s, p, k);
      if k < 0 then -1 else k + 1
  }

  /** A first occurrence in s[1..] at k is a first occurrence in s at k + 1, when s does not start with p. */
  lemma FindStep(s: string, p: string, k: int)
    requires p != [] && |p| <= |s| && s[..|p|] != p
    requires -1 <= k <= |s| - 1
    requires k >= 0 ==> OccursAt(s[1..], p, k)
    requires forall j :: 0 <= j < (if k < 0 then |s| - 1 else k) ==> !OccursAt(s[1..], p, j)
    ensures k >= 0 ==> OccursAt(s, p, k + 1)
    ensures forall j :: 0 <= j < (if k < 0 then |s| else k + 1) ==> !OccursAt(s, p, j)
  {
    if k >= 0 {
      OccursAtTail(s, p, k);
    }
    forall j | 0 <= j < (if k < 0 then |s| else k + 1)
      ensures !OccursAt(s, p, j)
    {
      if j > 0 {
        OccursAtTail(s, p, j - 1);
      }
    }
  }

  /** str.replace(p, r) for a non-empty `p`: left to right, every non-overlapping occurrence becomes r. */
  function ReplaceAll(s: string, p: string, r: string): (t: string)
    requires p != []
    ensures |p| == |r| ==> |t| == |s|
    ensures s != [] && r != [] && p[|p| - 1] == r[|r| - 1] ==> t != [] && t[|t| - 1] == s[|s| - 1]
    decreases |s|
  {
    if |s| < |p| then s
    else if s[..|p|] == p then r + ReplaceAll(s[|p|..], p, r)
    else [s[0]] + ReplaceAll(s[1..], p, r)
  }

  /** str.split(p) for a non-empty separator `p`. */
  function Split(s: string, p: string): (parts: seq<string>)
    requires p != []
    ensures |parts| >= 1
    ensures forall k, j :: 0 <= k < |parts| ==> !OccursAt(parts[k], p, j)
    decreases |s|
  {
    var i := Find(s, p);
    if i < 0 then
      [s]
    else
      NoneBeforeFirst(s, p, i);
      [s[..i]] + Split(s[i + |p|..], p)
  }

  /** The text before the first occurrence of p holds no occurrence of p. */
  lemma NoneBeforeFirst(s: string, p: string, i: int)
    requires p != [] && i == Find(s, p) && i >= 0
    ensures forall j :: !OccursAt(s[..i], p, j)
  {
    forall j | OccursAt(s[..i], p, j) ensures false {
      assert s[..i][j..j + |p|] == s[j..j + |p|];
      assert OccursAt(s, p, j);
    }
  }

  /** r.join(parts) */
  function Join(r: string, parts: seq<string>): (t: string)
    ensures |parts| >= 1 ==> StartsWith(t, parts[0]) && EndsWith(t, parts[|parts| - 1])
  {
    if |parts| == 0 then ""
    else if |parts| == 1 then parts[0]
    else
      var rest := Join(r, parts[1..]);
      JoinStep(parts[0], r, rest, parts[|parts| - 1]);
      parts[0] + r + rest
  }

  lemma JoinStep(first: string, r: string, rest: string, last: string)
    requires EndsWith(rest, last)
    ensures StartsWith(first + r + rest, first) && EndsWith(first + r + rest, last)
  {
    var t := first + r + rest;
    assert t[..|first|] == first;
    assert t[|t| - |last|..] == rest[|rest| - |last|..];
  }

  /** Without an occurrence of p, replace leaves the string as it is. */
  lemma {:induction false} ReplaceAllNoMatch(s: string, p: string, r: string)
    requires p != [] && Find(s, p) < 0
    ensures ReplaceAll(s, p, r) == s
    decreases |s|
  {
    if |p| <= |s| {
      assert !OccursAt(s, p, 0);
      forall j | 0 <= j < |s| - 1 ensures !OccursAt(s[1..], p, j) {
        OccursAtTail(s, p, j);
      }
      ReplaceAllNoMatch(s[1..], p, r);
      assert [s[0]] + s[1..] == s;
    }
  }

  /** Replace copies everything before the first occurrence, then writes r and goes on after it. */
  lemma {:induction false} ReplaceAllAtFirst(s: string, p: string, r: string, i: int)
    requires p != [] && i == Find(s, p) && i >= 0
    ensures ReplaceAll(s, p, r) == s[..i] + r + ReplaceAll(s[i + |p|..], p, r)
    decreases |s|, 1
  {
    if s[..|p|] == p {
      assert s[..i] == [];
    } else {
      ReplaceAllAtLater(s, p, r, i);
    }
  }

  lemma {:induction false} ReplaceAllAtLater(s: string, p: string, r: string, i: int)
    requires p != [] && i == Find(s, p) && i >= 0 && s[..|p|] != p
    ensures ReplaceAll(s, p, r) == s[..i] + r + ReplaceAll(s[i + |p|..], p, r)
    decreases |s|, 0
  {
    var t := s[1..];
    var k := Find(t, p);
    assert i == k + 1;
    var rest := s[i + |p|..];
    assert t[k + |p|..] == rest;
    ReplaceAllSkip(s, p, r);
    ReplaceAllAtFirst(t, p, r, k);
    var head := t[..k];
    assert [s[0]] + head == s[..i];
    ConcatAssoc(s[0], head, r, ReplaceAll(rest, p, r));
  }

  lemma ReplaceAllSkip(s: string, p: string, r: string)
    requires p != [] && |s| >= |p| && s[..|p|] != p
    ensures ReplaceAll(s, p, r) == [s[0]] + ReplaceAll(s[1..], p, r)
  {
  }

  lemma ConcatAssoc(c: char, h: string, r: string, x: string)
    ensures [c] + (h + r + x) == ([c] + h) + r + x
  {
  }

  /** Splitting at a first occurrence at i: the piece before it, then the split of the rest. */
  lemma {:induction false} SplitAtFirst(s: string, p: string, i: int)
    requires p != [] && i == Find(s, p) && i >= 0
    ensures Split(s, p) == [s[..i]] + Split(s[i + |p|..], p)
  {
  }

  /** Joining a piece in front of a non-empty list of pieces puts the separator after it. */
  lemma {:induction false} JoinCons(r: string, a: string, rest: seq<string>)
    requires |rest| >= 1
    ensures Join(r, [a] + rest) == a + r + Join(r, rest)
  {
    assert ([a] + rest)[1..] == rest;
  }

  /** Python's identity s.replace(p, r) == r.join(s.split(p)): every occurrence is replaced. */
  lemma {:induction false} ReplaceAllIsSplitJoin(s: string, p: string, r: string)
    requires p != []
    ensures ReplaceAll(s, p, r) == Join(r, Split(s, p))
    decreases |s|
  {
    var i := Find(s, p);
    if i < 0 {
      ReplaceAllNoMatch(s, p, r);
    } else {
      var tail := s[i + |p|..];
      ReplaceAllAtFirst(s, p, r, i);
      ReplaceAllIsSplitJoin(tail, p, r);
      SplitAtFirst(s, p, i);
      JoinCons(r, s[..i], Split(tail, p));
    }
  }

  /** Joining the pieces of a split with its separator gives the string back. */
  lemma {:induction false} SplitJoinRoundTrip(s: string, p: string)
    requires p != []
    ensures Join(p, Split(s, p)) == s
    decreases |s|
  {
    var i := Find(s, p);
    if i >= 0 {
      var tail := s[i + |p|..];
      SplitJoinRoundTrip(tail, p);
      SplitAtFirst(s, p, i);
      JoinCons(p, s[..i], Split(tail, p));
      AroundOccurrence(s, p, i);
    }
  }

  /** A string is what comes before an occurrence, the occurrence, and what comes after it. */
  lemma AroundOccurrence(s: string, p: string, i: int)
    requires OccursAt(s, p, i)
    ensures s[..i] + p + s[i + |p|..] == s
  {
    assert s[i..i + |p|] == p;
    assert s == s[..i] + s[i..i + |p|] + s[i + |p|..];
  }
}
