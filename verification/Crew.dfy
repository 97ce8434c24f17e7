/** Turning a roster of names into a roster of ids, as a board is read
    (internal/acp/bindrefs.go). What a name resolves to is a parameter: a machine's
    registry is one answer, the same registry with more agents in it another. */
module Crew {
  import opened Text
  import opened Agents

  // What a name on a roster stands for: nothing, somebody unknown here, or an id.
  datatype Ref = Blank | Unknown | Known(id: string)

  type Resolver = string -> Ref

  // A registry's answer. An agent with no id of its own cannot be pointed at.
  function By(agents: seq<Agent>): Resolver {
    (name: string) => Resolve(agents, name)
  }

  function Resolve(agents: seq<Agent>, name: string): Ref {
    if Trim(name) == "" then Blank
    else
      var a := AgentByName(agents, name);
      if a.None? || a.value.id == "" then Unknown else Known(a.value.id)
  }

  // The names left for whoever registers them.
  function Kept(names: seq<string>, who: Resolver): seq<string> {
    if names == [] then []
    else (if who(names[0]).Unknown? then [names[0]] else []) + Kept(names[1..], who)
  }

  function Bound(ids: seq<string>, names: seq<string>, who: Resolver): seq<string>
    decreases |names|
  {
    if names == [] then ids
    else
      var ref := who(names[0]);
      Bound(if ref.Known? && ref.id !in ids then ids + [ref.id] else ids, names[1..], who)
  }

  predicate NoneResolves(names: seq<string>, who: Resolver, k: nat) {
    forall j :: 0 <= j < k && j < |names| ==> who(names[j]).Unknown?
  }

  lemma {:induction false} KeptAll(names: seq<string>, who: Resolver)
    ensures |Kept(names, who)| <= |names|
    ensures Kept(names, who) == names <==> NoneResolves(names, who, |names|)
  {
    if names != [] {
      var rest := names[1..];
      KeptAll(rest, who);
      assert names == [names[0]] + rest;
      assert NoneResolves(names, who, |names|) <==> who(names[0]).Unknown? && NoneResolves(rest, who, |rest|) by {
        assert forall j :: 0 <= j < |rest| ==> rest[j] == names[j + 1];
        assert forall j :: 0 < j < |names| ==> names[j] == rest[j - 1];
      }
    }
  }

  method BindCrew(ids: seq<string>, names: seq<string>, who: Resolver)
    returns (bound: seq<string>, kept: seq<string>, changed: bool)
    ensures bound == Bound(ids, names, who) && kept == Kept(names, who)
    ensures changed <==> kept != names
  {
    bound, kept, changed := ids, [], false;
    for i := 0 to |names|
      invariant Bound(ids, names, who) == Bound(bound, names[i..], who)
      invariant Kept(names, who) == kept + Kept(names[i..], who)
      invariant changed <==> !NoneResolves(names, who, i)
    {
      var name := names[i];
      assert names[i..][0] == name && names[i..][1..] == names[i + 1..];
      match who(name)
      case Blank =>
        changed := true;
      case Unknown =>
        kept := kept + [name];
      case Known(id) =>
        if id !in bound {
          bound := bound + [id];
        }
        changed := true;
    }
    KeptAll(names, who);
  }

  predicate NoRepeats(s: seq<string>) {
    forall i, j :: 0 <= i < j < |s| ==> s[i] != s[j]
  }

  predicate Names(names: seq<string>, who: Resolver, id: string) {
    exists i :: 0 <= i < |names| && who(names[i]) == Known(id)
  }

  // What was bound before stays in its place; after it comes, once each, exactly
  // what the names stand for and was not there.
  lemma {:induction false} BoundAdds(ids: seq<string>, names: seq<string>, who: Resolver) returns (added: seq<string>)
    ensures Bound(ids, names, who) == ids + added && NoRepeats(added)
    ensures forall id :: id in added <==> Names(names, who, id) && id !in ids
    decreases |names|
  {
    if names == [] {
      added := [];
    } else {
      var ref := who(names[0]);
      var rest := names[1..];
      assert forall id :: Names(names, who, id) <==> ref == Known(id) || Names(rest, who, id) by {
        forall id ensures Names(names, who, id) <==> ref == Known(id) || Names(rest, who, id) {
          NamesSplit(names, who, id);
        }
      }
      if ref.Known? && ref.id !in ids {
        var added' := BoundAdds(ids + [ref.id], rest, who);
        assert forall j :: 0 <= j < |added'| ==> added'[j] in added';
        added := [ref.id] + added';
      } else {
        added := BoundAdds(ids, rest, who);
      }
    }
  }

  lemma NamesSplit(names: seq<string>, who: Resolver, id: string)
    requires names != []
    ensures Names(names, who, id) <==> who(names[0]) == Known(id) || Names(names[1..], who, id)
  {
    var rest := names[1..];
    assert forall i :: 0 <= i < |rest| ==> rest[i] == names[i + 1];
    assert forall i :: 0 < i < |names| ==> names[i] == rest[i - 1];
  }

  // A registry that only grew: what it answered it answers still.
  ghost predicate Grew(who: Resolver, who': Resolver) {
    forall name :: if who(name).Unknown? then !who'(name).Blank? else who'(name) == who(name)
  }

  lemma AppendedRegistryGrew(agents: seq<Agent>, more: seq<Agent>)
    ensures Grew(By(agents), By(agents + more))
  {
    forall name ensures if By(agents)(name).Unknown? then !By(agents + more)(name).Blank?
                        else By(agents + more)(name) == By(agents)(name)
    {
      NameKeepsItsAgent(agents, more, name);
    }
  }

  lemma {:induction false} KeptTwice(names: seq<string>, who: Resolver, who': Resolver, id: string)
    requires Grew(who, who')
    ensures Kept(Kept(names, who), who') == Kept(names, who')
    ensures Names(names, who', id) <==> Names(names, who, id) || Names(Kept(names, who), who', id)
  {
    if names != [] {
      var rest := names[1..];
      KeptTwice(rest, who, who', id);
      NamesSplit(names, who, id);
      NamesSplit(names, who', id);
      if who(names[0]).Unknown? {
        assert Kept(names, who)[0] == names[0] && Kept(names, who)[1..] == Kept(rest, who);
        NamesSplit(Kept(names, who), who', id);
      } else {
        assert Kept(names, who) == Kept(rest, who) && Kept(names, who') == Kept(rest, who');
      }
    }
  }

  lemma {:induction false} CountsOnce(s: seq<string>, x: string)
    requires NoRepeats(s)
    ensures multiset(s)[x] == if x in s then 1 else 0
  {
    if s != [] {
      var last := |s| - 1;
      assert s == s[..last] + [s[last]];
      CountsOnce(s[..last], x);
    }
  }

  lemma SameOnce(s: seq<string>, t: seq<string>)
    requires NoRepeats(s) && NoRepeats(t) && forall x :: x in s <==> x in t
    ensures multiset(s) == multiset(t)
  {
    forall x ensures multiset(s)[x] == multiset(t)[x] {
      CountsOnce(s, x);
      CountsOnce(t, x);
    }
  }

  // The ids bound in two steps are those bound in one.
  lemma SameIDs(ids: seq<string>, bound: seq<string>, names: seq<string>, who: Resolver, who': Resolver,
                one: seq<string>, two: seq<string>, once: seq<string>)
    requires Grew(who, who') && bound == ids + one
    requires forall id :: id in one <==> Names(names, who, id) && id !in ids
    requires forall id :: id in two <==> Names(Kept(names, who), who', id) && id !in bound
    requires forall id :: id in once <==> Names(names, who', id) && id !in ids
    ensures forall x :: x in one + two <==> x in once
  {
    forall x ensures x in one + two <==> x in once {
      KeptTwice(names, who, who', x);
      assert x in bound <==> x in ids || x in one;
    }
  }

  lemma TwoStepsBind(ids: seq<string>, names: seq<string>, who: Resolver, who': Resolver)
    requires Grew(who, who')
    ensures multiset(Bound(Bound(ids, names, who), Kept(names, who), who')) == multiset(Bound(ids, names, who'))
  {
    var bound, kept := Bound(ids, names, who), Kept(names, who);
    var one := BoundAdds(ids, names, who);
    var two := BoundAdds(bound, kept, who');
    var once := BoundAdds(ids, names, who');
    SameIDs(ids, bound, names, who, who', one, two, once);
    Apart(one, two, bound);
    SameOnce(one + two, once);
    Recount(ids, one, two, once);
  }

  lemma Recount(ids: seq<string>, one: seq<string>, two: seq<string>, once: seq<string>)
    requires multiset(one + two) == multiset(once)
    ensures multiset((ids + one) + two) == multiset(ids + once)
  {
    assert (ids + one) + two == ids + (one + two);
    ConcatCounts(ids, one + two);
    ConcatCounts(ids, once);
  }

  // Reading a roster before some of its agents were registered, and again after,
  // keeps the same names and binds the same ids as reading it once after.
  lemma BindingInTwoStepsAgrees(ids: seq<string>, names: seq<string>, who: Resolver, who': Resolver)
    requires Grew(who, who')
    ensures var bound, kept := Bound(ids, names, who), Kept(names, who);
            && Kept(kept, who') == Kept(names, who')
            && multiset(Bound(bound, kept, who')) == multiset(Bound(ids, names, who'))
  {
    TwoStepsBind(ids, names, who, who');
    KeptTwice(names, who, who', "");
  }

  lemma ConcatCounts(s: seq<string>, t: seq<string>)
    ensures multiset(s + t) == multiset(s) + multiset(t)
  {
  }

  lemma Apart(one: seq<string>, two: seq<string>, bound: seq<string>)
    requires NoRepeats(one) && NoRepeats(two)
    requires forall x :: x in one ==> x in bound
    requires forall x :: x in two ==> x !in bound
    ensures NoRepeats(one + two)
  {
    forall i, j | 0 <= i < j < |one + two| ensures (one + two)[i] != (one + two)[j] {
      if i < |one| <= j {
        assert one[i] in bound && two[j - |one|] in two;
      }
    }
  }

  // But not always in the order they were listed, although a crew is tried in its
  // order. A name resolved late stands for an id the first pass has not bound by
  // name j, and name j for one the single pass has not bound by name i: the first
  // pass binds j's first, the single pass i's.
  predicate Overtakes(ids: seq<string>, names: seq<string>, who: Resolver, who': Resolver, i: nat, j: nat) {
    && i < |names| && j < |names|
    && who(names[i]).Unknown? && who'(names[i]).Known? && who(names[j]).Known?
    && who(names[j]).id !in Bound(ids, names[..i + 1], who')
    && who'(names[i]).id !in Bound(ids, names[..j + 1], who)
  }

  lemma {:induction false} BoundSplit(ids: seq<string>, s: seq<string>, t: seq<string>, who: Resolver)
    ensures Bound(ids, s + t, who) == Bound(Bound(ids, s, who), t, who)
    decreases |s|
  {
    if s == [] {
      assert s + t == t;
    } else {
      assert (s + t)[1..] == s[1..] + t;
      var ref := who(s[0]);
      BoundSplit(if ref.Known? && ref.id !in ids then ids + [ref.id] else ids, s[1..], t, who);
    }
  }

  lemma {:induction false} KeptSplit(s: seq<string>, t: seq<string>, who: Resolver)
    ensures Kept(s + t, who) == Kept(s, who) + Kept(t, who)
  {
    if s == [] {
      assert s + t == t;
    } else {
      assert (s + t)[1..] == s[1..] + t;
      KeptSplit(s[1..], t, who);
    }
  }

  // What is bound of the first names stands first.
  lemma BoundIsAPrefix(ids: seq<string>, names: seq<string>, who: Resolver, k: nat)
    requires k <= |names|
    ensures Bound(ids, names[..k], who) <= Bound(ids, names, who)
  {
    assert names == names[..k] + names[k..];
    BoundSplit(ids, names[..k], names[k..], who);
    var _ := BoundAdds(Bound(ids, names[..k], who), names[k..], who);
  }

  lemma NamedIsBound(ids: seq<string>, names: seq<string>, who: Resolver, k: nat, n: nat)
    requires k < n <= |names| && who(names[k]).Known?
    ensures who(names[k]).id in Bound(ids, names[..n], who)
  {
    var first := names[..n];
    assert first[k] == names[k];
    assert Names(first, who, who(names[k]).id);
    var added := BoundAdds(ids, first, who);
  }

  // The name an id was bound by, when it was.
  lemma {:induction false} BoundBy(ids: seq<string>, names: seq<string>, who: Resolver, d: nat) returns (i: nat)
    requires |ids| <= d < |Bound(ids, names, who)|
    ensures i < |names| && who(names[i]) == Known(Bound(ids, names, who)[d])
    ensures Bound(ids, names[..i], who) == Bound(ids, names, who)[..d]
    ensures Bound(ids, names[..i + 1], who) == Bound(ids, names, who)[..d + 1]
    decreases |names|
  {
    assert names != [];
    var last := |names| - 1;
    assert names == names[..last] + [names[last]];
    BoundSplit(ids, names[..last], [names[last]], who);
    var before := Bound(ids, names[..last], who);
    if d < |before| {
      i := BoundBy(ids, names[..last], who, d);
      assert names[..last][..i] == names[..i] && names[..last][..i + 1] == names[..i + 1];
    } else {
      i := last;
      BoundOne(before, names[last], who);
      var _ := BoundAdds(ids, names[..last], who);
      assert names[..i + 1] == names;
    }
  }

  lemma BoundOne(ids: seq<string>, name: string, who: Resolver)
    ensures Bound(ids, [name], who) ==
            if who(name).Known? && who(name).id !in ids then ids + [who(name).id] else ids
  {
    assert [name][1..] == [];
  }

  // Where a kept name stood.
  lemma {:induction false} KeptFrom(names: seq<string>, who: Resolver, q: nat) returns (j: nat)
    requires q < |Kept(names, who)|
    ensures j < |names| && who(names[j]).Unknown? && names[j] == Kept(names, who)[q]
    ensures Kept(names[..j], who) == Kept(names, who)[..q]
    decreases |names|
  {
    var last := |names| - 1;
    assert names == names[..last] + [names[last]];
    KeptSplit(names[..last], [names[last]], who);
    if q < |Kept(names[..last], who)| {
      j := KeptFrom(names[..last], who, q);
      assert names[..last][..j] == names[..j];
    } else {
      assert [names[last]][1..] == [];
      j := last;
    }
  }

  // What a roster is bound to in two passes, and in one.
  function TwoPasses(ids: seq<string>, names: seq<string>, who: Resolver, who': Resolver): seq<string> {
    Bound(Bound(ids, names, who), Kept(names, who), who')
  }

  lemma OvertakingShows(ids: seq<string>, names: seq<string>, who: Resolver, who': Resolver, i: nat, j: nat)
    requires Grew(who, who') && Overtakes(ids, names, who, who', i, j)
    ensures TwoPasses(ids, names, who, who') != Bound(ids, names, who')
  {
    var once, early := Bound(ids, names[..i + 1], who'), Bound(ids, names[..j + 1], who);
    NamedIsBound(ids, names, who', i, i + 1);
    NamedIsBound(ids, names, who, j, j + 1);
    BoundIsAPrefix(ids, names, who', i + 1);
    BoundIsAPrefix(ids, names, who, j + 1);
    var _ := BoundAdds(Bound(ids, names, who), Kept(names, who), who');
    var x, y := who'(names[i]).id, who(names[j]).id;
    assert once <= Bound(ids, names, who') && early <= TwoPasses(ids, names, who, who');
    if TwoPasses(ids, names, who, who') == Bound(ids, names, who') {
      PrefixesNest(once, early, Bound(ids, names, who'));
      assert false;
    }
  }

  lemma PrefixesNest(a: seq<string>, b: seq<string>, whole: seq<string>)
    requires a <= whole && b <= whole
    ensures (forall x :: x in a ==> x in b) || (forall x :: x in b ==> x in a)
  {
    if |a| <= |b| {
      assert a == b[..|a|];
    } else {
      assert b == a[..|b|];
    }
  }

  lemma {:induction false} FirstDifference(s: seq<string>, t: seq<string>) returns (d: nat)
    requires |s| == |t| && s != t
    ensures d < |s| && s[d] != t[d] && s[..d] == t[..d]
  {
    var last := |s| - 1;
    assert s == s[..last] + [s[last]] && t == t[..last] + [t[last]];
    if s[..last] == t[..last] {
      d := last;
    } else {
      d := FirstDifference(s[..last], t[..last]);
      assert s[..last][..d] == s[..d] && t[..last][..d] == t[..d];
    }
  }

  // An id of those added is not among the ones before it.
  lemma AddedOnce(ids: seq<string>, names: seq<string>, who: Resolver, d: nat)
    requires |ids| <= d < |Bound(ids, names, who)|
    ensures Bound(ids, names, who)[d] !in Bound(ids, names, who)[..d]
  {
    var added := BoundAdds(ids, names, who);
    var all := Bound(ids, names, who);
    assert all[d] == added[d - |ids|] && all[d] in added;
    forall k | 0 <= k < d ensures all[k] != all[d] {
      if k < |ids| {
        assert all[k] == ids[k] && ids[k] in ids;
      }
    }
  }

  // Where the two first differ, the single pass binds a name resolved late and the
  // first of the two passes one known from the start.
  lemma DifferenceIsOvertaking(ids: seq<string>, names: seq<string>, who: Resolver, who': Resolver)
    returns (i: nat, j: nat)
    requires Grew(who, who') && TwoPasses(ids, names, who, who') != Bound(ids, names, who')
    ensures Overtakes(ids, names, who, who', i, j)
  {
    var early, two, once := Bound(ids, names, who), TwoPasses(ids, names, who, who'), Bound(ids, names, who');
    TwoStepsBind(ids, names, who, who');
    assert |two| == |once| by {
      assert |multiset(two)| == |two| && |multiset(once)| == |once|;
    }
    var d := FirstDifference(once, two);
    var a1 := BoundAdds(ids, names, who);
    var a2 := BoundAdds(early, Kept(names, who), who');
    var a3 := BoundAdds(ids, names, who');
    assert forall k :: 0 <= k < |ids| ==> once[k] == ids[k] && two[k] == ids[k];
    i := BoundBy(ids, names, who', d);
    AddedOnce(ids, names, who', d);
    if d >= |early| {
      LateKeepOrder(ids, names, who, who', d, i);
    }
    j := FirstIsEarly(ids, names, who, who', d, i);
  }

  // Single pass and two passes agree before d and part at d, where name i is bound.
  ghost predicate PartAt(ids: seq<string>, names: seq<string>, who: Resolver, who': Resolver, d: nat, i: nat) {
    var two, once := TwoPasses(ids, names, who, who'), Bound(ids, names, who');
    && Grew(who, who') && |ids| <= d < |two| && d < |once| && two[d] != once[d] && two[..d] == once[..d]
    && once[d] !in once[..d] && i < |names|
    && who'(names[i]) == Known(once[d]) && Bound(ids, names[..i], who') == once[..d]
    && Bound(ids, names[..i + 1], who') == once[..d + 1]
  }

  lemma FirstIsEarly(ids: seq<string>, names: seq<string>, who: Resolver, who': Resolver, d: nat, i: nat) returns (j: nat)
    requires PartAt(ids, names, who, who', d, i) && d < |Bound(ids, names, who)|
    ensures Overtakes(ids, names, who, who', i, j)
  {
    var early, two, once := Bound(ids, names, who), TwoPasses(ids, names, who, who'), Bound(ids, names, who');
    var a2 := BoundAdds(early, Kept(names, who), who');
    j := BoundBy(ids, names, who, d);
    AddedOnce(ids, names, who, d);
    assert early[d] == two[d] && early[..d] == two[..d] && early[..d + 1] == two[..d] + [two[d]];
    assert once[..d + 1] == once[..d] + [once[d]];
    if who(names[i]).Known? {
      if i <= j {
        NamedIsBound(ids, names, who, i, j + 1);
      } else {
        NamedIsBound(ids, names, who', j, i);
      }
    }
  }

  // Ids that only late names stand for are bound in the order of those names either
  // way.
  lemma LateKeepOrder(ids: seq<string>, names: seq<string>, who: Resolver, who': Resolver, d: nat, i: nat)
    requires PartAt(ids, names, who, who', d, i)
    ensures d < |Bound(ids, names, who)|
  {
    var early, two, once := Bound(ids, names, who), TwoPasses(ids, names, who, who'), Bound(ids, names, who');
    if d >= |early| {
      var kept := Kept(names, who);
      var q := BoundBy(early, kept, who', d);
      var j := KeptFrom(names, who, q);
      var a2 := BoundAdds(early, kept[..q], who');
      if i < j {
        LateIsBound(early, names, who, who', i, j);
        KnownEarly(ids, names, who, i);
      } else if j < i {
        NamedIsBound(ids, names, who', j, i);
      }
      AddedOnce(early, kept, who', d);
      assert false;
    }
  }

  lemma KnownEarly(ids: seq<string>, names: seq<string>, who: Resolver, i: nat)
    requires i < |names|
    ensures who(names[i]).Known? ==> who(names[i]).id in Bound(ids, names, who)
  {
    if who(names[i]).Known? {
      NamedIsBound(ids, names, who, i, |names|);
      assert names[..|names|] == names;
    }
  }

  lemma LateIsBound(ids: seq<string>, names: seq<string>, who: Resolver, who': Resolver, i: nat, n: nat)
    requires i < n <= |names| && who'(names[i]).Known?
    ensures who(names[i]).Unknown? ==> who'(names[i]).id in Bound(ids, Kept(names[..n], who), who')
  {
    if who(names[i]).Unknown? {
      assert names[..n] == names[..i] + ([names[i]] + names[i + 1..n]);
      KeptSplit(names[..i], [names[i]] + names[i + 1..n], who);
      var kept := Kept(names[..n], who);
      var k := |Kept(names[..i], who)|;
      assert kept[k] == names[i];
      NamedIsBound(ids, kept, who', k, |kept|);
      assert kept[..|kept|] == kept;
    }
  }

  // A roster bound in two passes is in the order of one exactly when no name
  // overtakes another.
  lemma OrderIsKeptExactlyWhen(ids: seq<string>, names: seq<string>, who: Resolver, who': Resolver)
    requires Grew(who, who')
    ensures TwoPasses(ids, names, who, who') == Bound(ids, names, who') <==>
            forall i, j :: !Overtakes(ids, names, who, who', i, j)
  {
    forall i, j | Overtakes(ids, names, who, who', i, j)
      ensures TwoPasses(ids, names, who, who') != Bound(ids, names, who')
    {
      OvertakingShows(ids, names, who, who', i, j);
    }
    if TwoPasses(ids, names, who, who') != Bound(ids, names, who') {
      var i, j := DifferenceIsOvertaking(ids, names, who, who');
    }
  }

  // So a name resolved late goes behind one that was known before it.
  lemma LateNameGoesLast(ids: seq<string>, late: string, early: string, who: Resolver, who': Resolver)
    requires Grew(who, who') && who(late).Unknown? && who'(late).Known? && who(early).Known?
    ensures TwoPasses(ids, [late, early], who, who') == Bound(ids, [late, early], who') <==>
            who(early).id in ids || who'(late).id in ids || who(early) == who'(late)
  {
    var names := [late, early];
    var x, y := who'(late).id, who(early).id;
    OrderIsKeptExactlyWhen(ids, names, who, who');
    assert names[..1] == [late] && names[..2] == names && names[1..] == [early];
    BoundOne(ids, late, who');
    BoundSplit(ids, [late], [early], who);
    BoundSplit(ids, [late], [early], who');
    assert [late] + [early] == names;
    BoundOne(ids, late, who);
    BoundOne(ids, early, who);
    BoundOne(Bound(ids, [late], who'), early, who');
    assert Overtakes(ids, names, who, who', 0, 1) <==> !(y in ids || x in ids || x == y);
    forall i, j | Overtakes(ids, names, who, who', i, j) ensures i == 0 && j == 1 {
    }
  }


  // Binding a bound roster again changes nothing.
  lemma {:induction false} BindingIsIdempotent(ids: seq<string>, names: seq<string>, who: Resolver)
    ensures Kept(Kept(names, who), who) == Kept(names, who)
    ensures Bound(ids, Kept(names, who), who) == ids
    decreases |names|
  {
    if names != [] {
      BindingIsIdempotent(ids, names[1..], who);
      if who(names[0]).Unknown? {
        assert Kept(names, who)[0] == names[0] && Kept(names, who)[1..] == Kept(names[1..], who);
      } else {
        assert Kept(names, who) == Kept(names[1..], who);
      }
    }
  }
}
