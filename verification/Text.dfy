/** Strings as the rest of the model compares them: trimmed of surrounding blanks
    and, where a name is a person's own words, with the case folded.
    Letters outside ASCII fold to themselves. */
module Text {

  datatype Option<+T> = None | Some(value: T)

  predicate IsSpace(c: char) {
    c == ' ' || '\t' <= c <= '\r'
  }

  function Lower(c: char): char {
    if 'A' <= c <= 'Z' then c + 32 as char else c
  }

  function Fold(s: string): (r: string)
    ensures |r| == |s|
  {
    seq(|s|, i requires 0 <= i < |s| => Lower(s[i]))
  }

  predicate EqualFold(a: string, b: string) {
    Fold(a) == Fold(b)
  }

  function TrimLeft(s: string): (r: string)
    ensures r != [] ==> !IsSpace(r[0])
  {
    if s != [] && IsSpace(s[0]) then TrimLeft(s[1..]) else s
  }

  function TrimRight(s: string): (r: string)
    ensures r != [] ==> !IsSpace(r[|r| - 1])
    ensures r != [] ==> s != [] && r[0] == s[0]
  {
    if s != [] && IsSpace(s[|s| - 1]) then TrimRight(s[..|s| - 1]) else s
  }

  // Go's strings.TrimSpace.
  function Trim(s: string): (r: string)
    ensures Trimmed(r)
  {
    TrimRight(TrimLeft(s))
  }

  predicate Trimmed(s: string) {
    s == [] || (!IsSpace(s[0]) && !IsSpace(s[|s| - 1]))
  }

  lemma TrimmedIsFixed(s: string)
    requires Trimmed(s)
    ensures Trim(s) == s
  {
  }

  predicate AllSpace(s: string) {
    forall i :: 0 <= i < |s| ==> IsSpace(s[i])
  }

  // Only blanks go, at either end.
  lemma TrimIsTheMiddle(s: string)
    ensures exists l, r :: 0 <= l <= r <= |s| && Trim(s) == s[l..r] && AllSpace(s[..l]) && AllSpace(s[r..])
  {
    var l := TrimLeftCuts(s);
    var k := TrimRightCuts(TrimLeft(s));
    assert TrimLeft(s)[..k] == s[l..l + k] && TrimLeft(s)[k..] == s[l + k..];
  }

  lemma {:induction false} TrimLeftCuts(s: string) returns (l: nat)
    ensures l <= |s| && TrimLeft(s) == s[l..] && AllSpace(s[..l])
  {
    l := 0;
    if s != [] && IsSpace(s[0]) {
      var rest := TrimLeftCuts(s[1..]);
      l := rest + 1;
      assert s[..l] == [s[0]] + s[1..][..rest];
    }
  }

  lemma {:induction false} TrimRightCuts(s: string) returns (k: nat)
    ensures k <= |s| && TrimRight(s) == s[..k] && AllSpace(s[k..])
  {
    k := |s|;
    if s != [] && IsSpace(s[|s| - 1]) {
      var front := s[..|s| - 1];
      k := TrimRightCuts(front);
      assert s[k..] == front[k..] + [s[|s| - 1]];
    }
  }

  // Folding takes each capital to its letter and nothing else anywhere.
  lemma FoldingIsByLetter(s: string, i: nat)
    requires i < |s|
    ensures 'A' <= s[i] <= 'Z' ==> Fold(s)[i] as int - 'a' as int == s[i] as int - 'A' as int
    ensures !('A' <= s[i] <= 'Z') ==> Fold(s)[i] == s[i]
  {
  }

  // One letter in either case.
  predicate SameLetter(a: char, b: char) {
    || a == b
    || ('A' <= a <= 'Z' && b as int == a as int + 32)
    || ('A' <= b <= 'Z' && a as int == b as int + 32)
  }

  lemma SameInAnyCase(a: string, b: string)
    ensures EqualFold(a, b) <==> |a| == |b| && forall i :: 0 <= i < |a| ==> SameLetter(a[i], b[i])
  {
    if EqualFold(a, b) {
      forall i | 0 <= i < |a| ensures SameLetter(a[i], b[i]) {
        assert Fold(a)[i] == Fold(b)[i];
      }
    }
  }

  lemma TrimIdempotent(s: string)
    ensures Trim(Trim(s)) == Trim(s)
  {
    TrimmedIsFixed(Trim(s));
  }

  predicate HasPrefix(s: string, p: string) {
    |p| <= |s| && s[..|p|] == p
  }

  predicate HasSuffix(s: string, p: string) {
    |p| <= |s| && s[|s| - |p|..] == p
  }

  predicate OccursAt(s: string, p: string, k: nat) {
    k + |p| <= |s| && s[k..k + |p|] == p
  }

  // Go's strings.Index, from a position on.
  function IndexFrom(s: string, p: string, from: nat): (r: int)
    requires from <= |s|
    ensures r == -1 || (from <= r && OccursAt(s, p, r))
    decreases |s| - from
  {
    if OccursAt(s, p, from) then from
    else if from == |s| then -1
    else IndexFrom(s, p, from + 1)
  }

  function Index(s: string, p: string): (r: int)
    ensures r == -1 || (0 <= r && OccursAt(s, p, r))
  {
    IndexFrom(s, p, 0)
  }

  lemma {:induction false} IndexIsLeftmost(s: string, p: string, from: nat, k: nat)
    requires from <= k && OccursAt(s, p, k)
    ensures from <= IndexFrom(s, p, from) <= k
    decreases k - from
  {
    if !OccursAt(s, p, from) {
      IndexIsLeftmost(s, p, from + 1, k);
    }
  }
}
