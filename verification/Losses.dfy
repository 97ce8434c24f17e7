/** Exactly which routes of a board a reading loses (internal/acp/boardseed.go,
    flows.go). Whether one route answers for another is a matter of their heads, and
    a head never changes in the registry, so it can be told before the reading. */
module Losses {
  import opened Text
  import opened Flows
  import opened Binding
  import opened Adoption
  import opened BoardSeed

  // ---- who joins --------------------------------------------------------------------

  type Same<!T> = (T, T) -> bool

  predicate Answered<T>(same: Same<T>, es: seq<T>, v: T) {
    exists i :: 0 <= i < |es| && same(es[i], v)
  }

  // Of the first k that are accepted, those that join: nothing that was there answers
  // for them, nor any that joined before.
  function Joined<T>(same: Same<T>, es: seq<T>, vs: seq<Option<T>>, k: nat): seq<T>
    requires k <= |vs|
  {
    if k == 0 then []
    else
      var before := Joined(same, es, vs, k - 1);
      var v := vs[k - 1];
      if v.Some? && !Answered(same, es, v.value) && !Answered(same, before, v.value) then before + [v.value] else before
  }

  lemma {:induction false} JoinedGrows<T>(same: Same<T>, es: seq<T>, vs: seq<Option<T>>, j: nat, k: nat)
    requires j <= k <= |vs|
    ensures Joined(same, es, vs, j) <= Joined(same, es, vs, k)
  {
    if j < k {
      JoinedGrows(same, es, vs, j, k - 1);
    }
  }

  lemma OneMoreJoins<T>(same: Same<T>, es: seq<T>, vs: seq<Option<T>>, k: nat)
    requires k < |vs| && vs[k].Some?
    ensures var joined := Joined(same, es, vs, k);
            es + Joined(same, es, vs, k + 1) ==
            if Answered(same, es, vs[k].value) || Answered(same, joined, vs[k].value) then es + joined
            else es + joined + [vs[k].value]
  {
  }

  lemma {:induction false} JoinedAreAccepted<T>(same: Same<T>, es: seq<T>, vs: seq<Option<T>>, k: nat)
    requires k <= |vs|
    ensures forall e :: e in Joined(same, es, vs, k) ==> Some(e) in vs
  {
    if k > 0 {
      JoinedAreAccepted(same, es, vs, k - 1);
      assert vs[k - 1] in vs;
    }
  }

  lemma AnsweredOfBoth<T>(same: Same<T>, a: seq<T>, b: seq<T>, v: T)
    ensures Answered(same, a + b, v) <==> Answered(same, a, v) || Answered(same, b, v)
  {
    var c := a + b;
    assert forall i :: 0 <= i < |a| ==> c[i] == a[i];
    assert forall i :: 0 <= i < |b| ==> c[|a| + i] == b[i];
    assert forall i :: |a| <= i < |c| ==> c[i] == b[i - |a|];
  }

  // What nothing there answers for has joined, or something that joined answers.
  lemma NewcomerIsAnswered<T>(same: Same<T>, es: seq<T>, vs: seq<Option<T>>, i: nat)
    requires i < |vs| && vs[i].Some? && same(vs[i].value, vs[i].value)
    ensures !Answered(same, es, vs[i].value) ==> Answered(same, Joined(same, es, vs, |vs|), vs[i].value)
  {
    var v := vs[i].value;
    if !Answered(same, es, v) {
      var before, after := Joined(same, es, vs, i), Joined(same, es, vs, i + 1);
      if !Answered(same, before, v) {
        assert after == before + [v] && after[|before|] == v;
      }
      JoinedGrows(same, es, vs, i + 1, |vs|);
      var k :| 0 <= k < |after| && same(after[k], v);
      assert Joined(same, es, vs, |vs|)[k] == after[k];
    }
  }

  // ---- the registry, as far as heads go ------------------------------------------------

  predicate SameHeads(a: seq<Flow>, b: seq<Flow>) {
    |a| == |b| && forall i :: 0 <= i < |a| ==> SameHead(a[i], b[i])
  }

  // A route of this board that answers.
  function OwnSame(boardID: string): Same<Flow> {
    (e: Flow, v: Flow) => e.head.boardID == boardID && SameRoute(e, v)
  }

  lemma HeadsAnswer(a: seq<Flow>, b: seq<Flow>, boardID: string, v: Flow)
    requires SameHeads(a, b)
    ensures Answered(SameRoute, a, v) <==> Answered(SameRoute, b, v)
    ensures Answered(OwnSame(boardID), a, v) <==> Answered(OwnSame(boardID), b, v)
  {
    forall i | 0 <= i < |a|
      ensures SameRoute(a[i], v) == SameRoute(b[i], v) && OwnSame(boardID)(a[i], v) == OwnSame(boardID)(b[i], v)
    {
      assert SameHead(a[i], b[i]);
      SameByHead(a[i], b[i], v);
    }
  }

  // What a route of the board becomes when it is accepted.
  function Accepted(m: Machine, boardID: string, f: Flow, mint: Mint): Option<Flow> {
    var p := PrepareRoute(m, boardID)(f);
    if Acceptable(p, m.r) then Some(Normal(p, mint)) else None
  }

  function AcceptedOf(m: Machine, boardID: string, said: seq<Flow>, mint: nat -> Mint): (vs: seq<Option<Flow>>)
    ensures |vs| == |said|
    ensures forall i {:trigger vs[i]} :: 0 <= i < |said| ==> vs[i] == Accepted(m, boardID, said[i], mint(i))
  {
    seq(|said|, i requires 0 <= i < |said| => Accepted(m, boardID, said[i], mint(i)))
  }

  lemma AcceptedIsOwn(m: Machine, boardID: string, f: Flow, mint: Mint)
    ensures var v := Accepted(m, boardID, f, mint);
            && RouteRules(m, boardID).valid(PrepareRoute(m, boardID)(f), mint) == v
            && (v.Some? ==> v.value.head.boardID == boardID && SameRoute(v.value, v.value))
  {
  }

  lemma RegisteredHeads(m: Machine, boardID: string, es: seq<Flow>, like: seq<Flow>, v: Flow)
    requires SameHeads(es, like)
    ensures SameHeads(Register(RouteRules(m, boardID), es, v), if Answered(SameRoute, es, v) then like else like + [v])
  {
    var r := RouteRules(m, boardID);
    var i := FirstSame(r, es, v);
    if i.Some? {
      assert SameRoute(es[i.value], v);
      MeldKeepsHead(m, es[i.value], v);
      assert SameHead(es[i.value], like[i.value]);
    }
  }

  // One route more.
  lemma NextJoins(m: Machine, boardID: string, flows: seq<Flow>, vs: seq<Option<Flow>>, k: nat, was: Reading<Flow>,
                  f: Flow, mint: Mint)
    requires k < |vs| && vs[k] == Accepted(m, boardID, f, mint)
    requires SameHeads(was.registry, flows + Joined(SameRoute, flows, vs, k))
    ensures var now := AdoptOne(RouteRules(m, boardID), was, f, mint);
            SameHeads(now.registry, flows + Joined(SameRoute, flows, vs, k + 1))
  {
    AcceptedIsOwn(m, boardID, f, mint);
    if vs[k].Some? {
      JoinsOrNot(m, boardID, flows, vs, k, was.registry);
    }
  }

  lemma JoinsOrNot(m: Machine, boardID: string, flows: seq<Flow>, vs: seq<Option<Flow>>, k: nat, es: seq<Flow>)
    requires k < |vs| && vs[k].Some? && SameHeads(es, flows + Joined(SameRoute, flows, vs, k))
    ensures SameHeads(Register(RouteRules(m, boardID), es, vs[k].value), flows + Joined(SameRoute, flows, vs, k + 1))
  {
    var v, joined := vs[k].value, Joined(SameRoute, flows, vs, k);
    HeadsAnswer(es, flows + joined, boardID, v);
    AnsweredOfBoth(SameRoute, flows, joined, v);
    RegisteredHeads(m, boardID, es, flows + joined, v);
    OneMoreJoins(SameRoute, flows, vs, k);
  }

  lemma {:induction false} ReadingJoins(m: Machine, boardID: string, flows: seq<Flow>, said: seq<Flow>, mint: nat -> Mint,
                                        vs: seq<Option<Flow>>, k: nat, was: Reading<Flow>)
    requires k <= |said| && vs == AcceptedOf(m, boardID, said, mint)
    requires SameHeads(was.registry, flows + Joined(SameRoute, flows, vs, k))
    ensures SameHeads(Adopt(RouteRules(m, boardID), was, said, mint, k).registry,
                      flows + Joined(SameRoute, flows, vs, |said|))
    decreases |said| - k
  {
    if k < |said| {
      NextJoins(m, boardID, flows, vs, k, was, said[k], mint(k));
      ReadingJoins(m, boardID, flows, said, mint, vs, k + 1, AdoptOne(RouteRules(m, boardID), was, said[k], mint(k)));
    }
  }

  // ---- what was refused is held back ------------------------------------------------

  lemma {:induction false} HeldStays<T>(r: Rules<T>, said: seq<T>, mint: nat -> Mint, k: nat, was: Reading<T>)
    requires k <= |said|
    ensures was.held <= Adopt(r, was, said, mint, k).held
    decreases |said| - k
  {
    if k < |said| {
      HeldStays(r, said, mint, k + 1, AdoptOne(r, was, said[k], mint(k)));
    }
  }

  lemma {:induction false} RefusedIsHeld<T>(r: Rules<T>, said: seq<T>, mint: nat -> Mint, k: nat, was: Reading<T>, i: nat)
    requires k <= i < |said| && r.valid(r.prepare(said[i]), mint(i)).None?
    ensures r.left(r.prepare(said[i])) in Adopt(r, was, said, mint, k).held
    decreases |said| - k
  {
    var next := AdoptOne(r, was, said[k], mint(k));
    if k < i {
      RefusedIsHeld(r, said, mint, k + 1, next, i);
    } else {
      var left := r.left(r.prepare(said[i]));
      assert next.held == was.held + [left] && next.held[|was.held|] == left;
      HeldStays(r, said, mint, k + 1, next);
    }
  }

  // ---- what is kept, and what is lost --------------------------------------------------

  // Accepted, and in the end nobody of this board's answers for it.
  predicate IsLost<T>(own: Same<T>, same: Same<T>, es: seq<T>, vs: seq<Option<T>>, i: nat)
    requires i < |vs|
  {
    vs[i].Some? && !Answered(own, es, vs[i].value) && !Answered(same, Joined(same, es, vs, |vs|), vs[i].value)
  }

  lemma OwnJoined(m: Machine, boardID: string, flows: seq<Flow>, said: seq<Flow>, mint: nat -> Mint, v: Flow)
    ensures var joined := Joined(SameRoute, flows, AcceptedOf(m, boardID, said, mint), |said|);
            Answered(OwnSame(boardID), joined, v) <==> Answered(SameRoute, joined, v)
  {
    var vs := AcceptedOf(m, boardID, said, mint);
    var joined := Joined(SameRoute, flows, vs, |said|);
    JoinedAreAccepted(SameRoute, flows, vs, |said|);
    forall k | 0 <= k < |joined| ensures joined[k].head.boardID == boardID {
      assert Some(joined[k]) in vs;
      var i :| 0 <= i < |vs| && vs[i] == Some(joined[k]);
      AcceptedIsOwn(m, boardID, said[i], mint(i));
    }
  }

  lemma RepresentedIsAnswered(m: Machine, boardID: string, es: seq<Flow>, v: Flow)
    ensures Represented(RouteRules(m, boardID), es, v) <==> Answered(OwnSame(boardID), es, v)
  {
    var r := RouteRules(m, boardID);
    assert forall e :: r.own(e) && r.stands(e, v) <==> OwnSame(boardID)(e, v);
  }

  // Over a whole reading a route of the board is still on it exactly when it was
  // refused and held back, or a route of this board's there was answers for it, or
  // one of the board that joined.
  lemma RouteIsKeptExactlyWhen(m: Machine, boardID: string, flows: seq<Flow>, said: seq<Flow>, mint: nat -> Mint, i: nat)
    requires i < |said|
    ensures var r := RouteRules(m, boardID);
            Survives(r, Adopt(r, Reading(flows, []), said, mint), said[i], mint(i)) <==>
            !IsLost(OwnSame(boardID), SameRoute, flows, AcceptedOf(m, boardID, said, mint), i)
  {
    var r, vs := RouteRules(m, boardID), AcceptedOf(m, boardID, said, mint);
    var fs := Adopt(r, Reading(flows, []), said, mint);
    AcceptedIsOwn(m, boardID, said[i], mint(i));
    if vs[i].None? {
      RefusedIsHeld(r, said, mint, 0, Reading(flows, []), i);
    } else {
      AnsweredInTheEnd(m, boardID, flows, said, mint, vs[i].value);
      RepresentedIsAnswered(m, boardID, fs.registry, vs[i].value);
    }
  }

  // Whether somebody of this board's answers for a route, once the board is read.
  lemma AnsweredInTheEnd(m: Machine, boardID: string, flows: seq<Flow>, said: seq<Flow>, mint: nat -> Mint, v: Flow)
    ensures var fs := Adopt(RouteRules(m, boardID), Reading(flows, []), said, mint);
            var joined := Joined(SameRoute, flows, AcceptedOf(m, boardID, said, mint), |said|);
            Answered(OwnSame(boardID), fs.registry, v) <==>
            Answered(OwnSame(boardID), flows, v) || Answered(SameRoute, joined, v)
  {
    var vs := AcceptedOf(m, boardID, said, mint);
    var joined := Joined(SameRoute, flows, vs, |said|);
    assert flows + [] == flows && SameHeads(flows, flows);
    ReadingJoins(m, boardID, flows, said, mint, vs, 0, Reading(flows, []));
    HeadsAnswer(Adopt(RouteRules(m, boardID), Reading(flows, []), said, mint).registry, flows + joined, boardID, v);
    AnsweredOfBoth(OwnSame(boardID), flows, joined, v);
    OwnJoined(m, boardID, flows, said, mint, v);
  }

  lemma OnlyToStrangers(m: Machine, boardID: string, flows: seq<Flow>, said: seq<Flow>, mint: nat -> Mint, i: nat)
    requires i < |said| && IsLost(OwnSame(boardID), SameRoute, flows, AcceptedOf(m, boardID, said, mint), i)
    ensures Answered(SameRoute, flows, AcceptedOf(m, boardID, said, mint)[i].value)
  {
    AcceptedIsOwn(m, boardID, said[i], mint(i));
    NewcomerIsAnswered(SameRoute, flows, AcceptedOf(m, boardID, said, mint), i);
  }

  predicate NoneIsLost(m: Machine, boardID: string, flows: seq<Flow>, said: seq<Flow>, mint: nat -> Mint) {
    var vs := AcceptedOf(m, boardID, said, mint);
    forall i :: 0 <= i < |said| ==> !IsLost(OwnSame(boardID), SameRoute, flows, vs, i)
  }

  // So a board keeps all it said exactly when none of its routes is lost; and one is
  // lost only to a route that was there and is not this board's.
  lemma BoardLosesNothingExactlyWhen(m: Machine, boardID: string, flows: seq<Flow>, said: seq<Flow>, mint: nat -> Mint)
    ensures var r := RouteRules(m, boardID);
            SurviveAll(r, Adopt(r, Reading(flows, []), said, mint), said, mint) <==>
            NoneIsLost(m, boardID, flows, said, mint)
  {
    if NoneIsLost(m, boardID, flows, said, mint) {
      NoneLostAllSurvive(m, boardID, flows, said, mint);
    } else {
      var i :| 0 <= i < |said| && IsLost(OwnSame(boardID), SameRoute, flows, AcceptedOf(m, boardID, said, mint), i);
      RouteIsKeptExactlyWhen(m, boardID, flows, said, mint, i);
    }
  }

  lemma NoneLostAllSurvive(m: Machine, boardID: string, flows: seq<Flow>, said: seq<Flow>, mint: nat -> Mint)
    requires NoneIsLost(m, boardID, flows, said, mint)
    ensures var r := RouteRules(m, boardID); SurviveAll(r, Adopt(r, Reading(flows, []), said, mint), said, mint)
  {
    forall i {:trigger said[i]} | 0 <= i < |said| {
      NotLostSurvives(m, boardID, flows, said, mint, i);
    }
  }

  lemma NotLostSurvives(m: Machine, boardID: string, flows: seq<Flow>, said: seq<Flow>, mint: nat -> Mint, i: nat)
    requires i < |said| && NoneIsLost(m, boardID, flows, said, mint)
    ensures var r := RouteRules(m, boardID);
            Survives(r, Adopt(r, Reading(flows, []), said, mint), said[i], mint(i))
  {
    RouteIsKeptExactlyWhen(m, boardID, flows, said, mint, i);
  }
}
