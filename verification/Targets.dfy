/** What the folder watcher polls for, and whom an event it saw is offered to
    (internal/acp/flowengine.go). */
module Targets {
  import opened Text
  import opened Flows
  import opened Routing
  import Engine

  // A card's place on its route, with the folder and branch its work is on.
  datatype Parked = Parked(card: string, flowID: string, nodeID: string, path: string, branch: string)

  datatype Target = Target(path: string, branch: string, triggers: seq<string>)

  // marker tells one occurrence of an event from the next.
  datatype VCSEvent = VCSEvent(kind: string, path: string, branch: string, marker: string)

  predicate Waits(flows: map<string, Flow>, s: Parked, on: string) {
    && s.path != "" && s.branch != ""
    && s.flowID in flows
    && IsVCSTrigger(on) && HasEdge(flows[s.flowID].edges, s.nodeID, on)
  }

  // A card's work is on a branch of a folder, and its stage has a transition on what
  // happened there, which is one of the things watched for.
  lemma WaitsExactlyWhen(flows: map<string, Flow>, s: Parked, on: string)
    ensures Waits(flows, s, on) <==>
            && s.path != "" && s.branch != "" && s.flowID in flows
            && on in {"branch.pushed", "branch.merged", "pr.opened", "pr.merged", "pr.closed", "review.approved",
                      "checks.passed", "checks.failed"}
            && exists i :: 0 <= i < |flows[s.flowID].edges| && flows[s.flowID].edges[i].from == s.nodeID
                           && flows[s.flowID].edges[i].on == on
  {
    TriggersAre(on);
    if Waits(flows, s, on) {
      var i :| 0 <= i < |flows[s.flowID].edges| && Leaves(flows[s.flowID].edges[i], s.nodeID, on);
      assert flows[s.flowID].edges[i].from == s.nodeID && flows[s.flowID].edges[i].on == on;
    }
    if s.flowID in flows {
      if i :| 0 <= i < |flows[s.flowID].edges| && flows[s.flowID].edges[i].from == s.nodeID && flows[s.flowID].edges[i].on == on {
        assert Leaves(flows[s.flowID].edges[i], s.nodeID, on);
      }
    }
  }

  // Which card asks for which trigger.
  type Asking = (Parked, string) -> bool

  function Needs(flows: map<string, Flow>): Asking {
    (s: Parked, on: string) => Waits(flows, s, on)
  }

  ghost predicate Waiting(asks: Asking, s: Parked) {
    exists on :: asks(s, on)
  }

  // The text a folder and branch are looked up by.
  function Key(path: string, branch: string): string {
    path + ['\0'] + branch
  }

  ghost predicate Wanted(asks: Asking, states: seq<Parked>, path: string, branch: string, on: string) {
    exists s :: s in states && s.path == path && s.branch == branch && asks(s, on)
  }

  predicate Polled(targets: seq<Target>, path: string, branch: string, on: string) {
    exists i :: 0 <= i < |targets| && targets[i].path == path && targets[i].branch == branch && on in targets[i].triggers
  }

  predicate NoRepeats<T(==)>(s: seq<T>) {
    forall i, j :: 0 <= i < j < |s| ==> s[i] != s[j]
  }

  // Nothing missed and nothing extra.
  ghost predicate Exact(asks: Asking, states: seq<Parked>, targets: seq<Target>) {
    forall path, branch, on :: Polled(targets, path, branch, on) <==> Wanted(asks, states, path, branch, on)
  }

  // No two waiting cards in different places share a look-up text.
  ghost predicate KeysApart(asks: Asking, states: seq<Parked>) {
    forall a, b ::
      a in states && b in states && Waiting(asks, a) && Waiting(asks, b) && Key(a.path, a.branch) == Key(b.path, b.branch)
      ==> a.path == b.path && a.branch == b.branch
  }

  // ---- FlowTargets ------------------------------------------------------------------

  predicate Groups(byKey: map<string, Target>) {
    forall k :: k in byKey ==> Key(byKey[k].path, byKey[k].branch) == k && NoRepeats(byKey[k].triggers)
  }

  // What the table holds once these cards are gone through: every trigger asked
  // for, no other, and each entry in the name of a card that asked.
  ghost predicate Gathered(asks: Asking, seen: seq<Parked>, byKey: map<string, Target>) {
    Covers(asks, seen, byKey) && Justified(asks, seen, byKey) && Named(asks, seen, byKey)
  }

  ghost predicate Covers(asks: Asking, seen: seq<Parked>, byKey: map<string, Target>) {
    forall s, on :: s in seen && asks(s, on) ==>
      Key(s.path, s.branch) in byKey && on in byKey[Key(s.path, s.branch)].triggers
  }

  ghost predicate Justified(asks: Asking, seen: seq<Parked>, byKey: map<string, Target>) {
    forall k, on :: k in byKey && on in byKey[k].triggers ==> Lookup(asks, seen, k, on)
  }

  ghost predicate Named(asks: Asking, seen: seq<Parked>, byKey: map<string, Target>) {
    forall k :: k in byKey ==> StandsFor(asks, seen, byKey[k])
  }

  ghost predicate Lookup(asks: Asking, seen: seq<Parked>, k: string, on: string) {
    exists s :: s in seen && Key(s.path, s.branch) == k && asks(s, on)
  }

  ghost predicate StandsFor(asks: Asking, seen: seq<Parked>, t: Target) {
    exists s :: s in seen && s.path == t.path && s.branch == t.branch && Waiting(asks, s)
  }

  // Add what one card waits for to its target.
  method AddTriggers(t: Target, waits: seq<string>) returns (t': Target)
    requires NoRepeats(t.triggers)
    ensures t'.path == t.path && t'.branch == t.branch && NoRepeats(t'.triggers)
    ensures forall on :: on in t'.triggers <==> on in t.triggers || on in waits
  {
    t' := t;
    for i := 0 to |waits|
      invariant t'.path == t.path && t'.branch == t.branch && NoRepeats(t'.triggers)
      invariant forall on :: on in t'.triggers <==> on in t.triggers || on in waits[..i]
    {
      if waits[i] !in t'.triggers {
        t' := t'.(triggers := t'.triggers + [waits[i]]);
      }
    }
  }

  lemma SeenGrows(asks: Asking, seen: seq<Parked>, s: Parked, k: string, on: string)
    requires Lookup(asks, seen, k, on)
    ensures Lookup(asks, seen + [s], k, on)
  {
    var s' :| s' in seen && Key(s'.path, s'.branch) == k && asks(s', on);
    assert s' in seen + [s];
  }

  lemma NamesGrow(asks: Asking, seen: seq<Parked>, s: Parked, t: Target)
    requires StandsFor(asks, seen, t)
    ensures StandsFor(asks, seen + [s], t)
  {
    var s' :| s' in seen && s'.path == t.path && s'.branch == t.branch && Waiting(asks, s');
    assert s' in seen + [s];
  }

  lemma GatherNothing(asks: Asking, seen: seq<Parked>, byKey: map<string, Target>, s: Parked)
    requires Gathered(asks, seen, byKey) && !Waiting(asks, s)
    ensures Gathered(asks, seen + [s], byKey)
  {
    forall k, on | k in byKey && on in byKey[k].triggers ensures Lookup(asks, seen + [s], k, on) {
      SeenGrows(asks, seen, s, k, on);
    }
    forall k | k in byKey ensures StandsFor(asks, seen + [s], byKey[k]) {
      NamesGrow(asks, seen, s, byKey[k]);
    }
  }

  // t' is t with what the card asks for besides.
  ghost predicate Extends(asks: Asking, s: Parked, t: Target, t': Target) {
    && t'.path == t.path && t'.branch == t.branch
    && forall on :: on in t'.triggers <==> on in t.triggers || asks(s, on)
  }

  function TargetAt(byKey: map<string, Target>, s: Parked): Target {
    if Key(s.path, s.branch) in byKey then byKey[Key(s.path, s.branch)] else Target(s.path, s.branch, [])
  }

  lemma CoversOne(asks: Asking, seen: seq<Parked>, byKey: map<string, Target>, s: Parked, t': Target)
    requires Covers(asks, seen, byKey) && Extends(asks, s, TargetAt(byKey, s), t')
    ensures Covers(asks, seen + [s], byKey[Key(s.path, s.branch) := t'])
  {
  }

  lemma JustifiedOne(asks: Asking, seen: seq<Parked>, byKey: map<string, Target>, s: Parked, t': Target)
    requires Justified(asks, seen, byKey) && Extends(asks, s, TargetAt(byKey, s), t')
    ensures Justified(asks, seen + [s], byKey[Key(s.path, s.branch) := t'])
  {
    var key := Key(s.path, s.branch);
    var byKey' := byKey[key := t'];
    forall k, on | k in byKey' && on in byKey'[k].triggers ensures Lookup(asks, seen + [s], k, on) {
      if k == key && asks(s, on) {
        assert (seen + [s])[|seen|] == s;
      } else {
        SeenGrows(asks, seen, s, k, on);
      }
    }
  }

  lemma NamedOne(asks: Asking, seen: seq<Parked>, byKey: map<string, Target>, s: Parked, t': Target)
    requires Named(asks, seen, byKey) && Waiting(asks, s) && Extends(asks, s, TargetAt(byKey, s), t')
    ensures Named(asks, seen + [s], byKey[Key(s.path, s.branch) := t'])
  {
    var byKey' := byKey[Key(s.path, s.branch) := t'];
    forall k | k in byKey' ensures StandsFor(asks, seen + [s], byKey'[k]) {
      if k in byKey {
        NamesGrow(asks, seen, s, byKey[k]);
        assert StandsFor(asks, seen + [s], byKey[k]);
      } else {
        assert (seen + [s])[|seen|] == s;
      }
    }
  }

  // What one card waits for: nothing, unless it is on a route and its work is on a
  // branch of a folder.
  method AsksFor(flows: map<string, Flow>, s: Parked) returns (waits: seq<string>)
    ensures forall on :: on in waits <==> Needs(flows)(s, on)
  {
    if s.path == "" || s.branch == "" || s.flowID !in flows {
      return [];
    }
    waits := WaitsFor(flows[s.flowID], s.nodeID);
  }

  method FlowTargets(flows: map<string, Flow>, states: seq<Parked>) returns (out: seq<Target>)
    ensures forall i, j :: 0 <= i < j < |out| ==> out[i].path != out[j].path || out[i].branch != out[j].branch
    ensures forall i :: 0 <= i < |out| ==> NoRepeats(out[i].triggers)
    ensures Exact(Needs(flows), states, out) <==> KeysApart(Needs(flows), states)
  {
    ghost var asks := Needs(flows);
    var byKey: map<string, Target> := map[];
    for i := 0 to |states|
      invariant Groups(byKey) && Gathered(asks, states[..i], byKey)
    {
      var s := states[i];
      assert states[..i + 1] == states[..i] + [s];
      var waits := AsksFor(flows, s);
      if |waits| == 0 {
        GatherNothing(asks, states[..i], byKey, s);
        continue;
      }
      assert asks(s, waits[0]);
      var key := Key(s.path, s.branch);
      var t' := AddTriggers(if key in byKey then byKey[key] else Target(s.path, s.branch, []), waits);
      CoversOne(asks, states[..i], byKey, s, t');
      JustifiedOne(asks, states[..i], byKey, s, t');
      NamedOne(asks, states[..i], byKey, s, t');
      byKey := byKey[key := t'];
    }
    assert states[..|states|] == states;
    out := Listed(byKey);
    ListedIsExact(asks, states, byKey, out);
  }

  ghost predicate Lists(byKey: map<string, Target>, out: seq<Target>) {
    && (forall t :: t in out ==> Key(t.path, t.branch) in byKey && byKey[Key(t.path, t.branch)] == t)
    && (forall k :: k in byKey ==> byKey[k] in out)
  }

  // The table's entries, in no particular order.
  method Listed(byKey: map<string, Target>) returns (out: seq<Target>)
    requires Groups(byKey)
    ensures Lists(byKey, out)
    ensures forall i, j :: 0 <= i < j < |out| ==> Key(out[i].path, out[i].branch) != Key(out[j].path, out[j].branch)
  {
    out := [];
    var left := byKey.Keys;
    while left != {}
      invariant left <= byKey.Keys
      invariant forall t :: t in out ==> Key(t.path, t.branch) in byKey.Keys - left && byKey[Key(t.path, t.branch)] == t
      invariant forall k :: k in byKey.Keys - left ==> byKey[k] in out
      invariant forall i, j :: 0 <= i < j < |out| ==> Key(out[i].path, out[i].branch) != Key(out[j].path, out[j].branch)
      decreases |left|
    {
      var k :| k in left;
      out := out + [byKey[k]];
      left := left - {k};
    }
  }

  lemma ListedIsExact(asks: Asking, states: seq<Parked>, byKey: map<string, Target>, out: seq<Target>)
    requires Groups(byKey) && Gathered(asks, states, byKey) && Lists(byKey, out)
    ensures Exact(asks, states, out) <==> KeysApart(asks, states)
  {
    if KeysApart(asks, states) {
      forall path, branch, on ensures Polled(out, path, branch, on) <==> Wanted(asks, states, path, branch, on) {
        ApartIsExact(asks, states, byKey, out, path, branch, on);
      }
    }
    if Exact(asks, states, out) {
      forall a, b | a in states && b in states && Waiting(asks, a) && Waiting(asks, b)
                    && Key(a.path, a.branch) == Key(b.path, b.branch)
        ensures a.path == b.path && a.branch == b.branch
      {
        var on :| asks(a, on);
        var on' :| asks(b, on');
        assert Wanted(asks, states, a.path, a.branch, on) && Wanted(asks, states, b.path, b.branch, on');
        assert Polled(out, a.path, a.branch, on) && Polled(out, b.path, b.branch, on');
        var i :| 0 <= i < |out| && out[i].path == a.path && out[i].branch == a.branch && on in out[i].triggers;
        var j :| 0 <= j < |out| && out[j].path == b.path && out[j].branch == b.branch && on' in out[j].triggers;
        assert out[i] in out && out[j] in out;
      }
    }
  }

  lemma ApartIsExact(asks: Asking, states: seq<Parked>, byKey: map<string, Target>, out: seq<Target>,
                     path: string, branch: string, on: string)
    requires Groups(byKey) && Gathered(asks, states, byKey) && Lists(byKey, out) && KeysApart(asks, states)
    ensures Polled(out, path, branch, on) <==> Wanted(asks, states, path, branch, on)
  {
    var k := Key(path, branch);
    if Polled(out, path, branch, on) {
      var i :| 0 <= i < |out| && out[i].path == path && out[i].branch == branch && on in out[i].triggers;
      assert out[i] in out && Lookup(asks, states, k, on) && StandsFor(asks, states, byKey[k]);
      var s :| s in states && Key(s.path, s.branch) == k && asks(s, on);
      assert Waiting(asks, s);
    }
    if Wanted(asks, states, path, branch, on) {
      var s :| s in states && s.path == path && s.branch == branch && asks(s, on);
      assert Waiting(asks, s) && StandsFor(asks, states, byKey[k]);
      assert byKey[k] in out;
    }
  }

  // ---- when look-up texts can be confused ------------------------------------------------

  // A folder's path holds no NUL byte on any file system, and that is enough.
  lemma OrdinaryPathsStayApart(asks: Asking, states: seq<Parked>)
    requires forall s :: s in states && Waiting(asks, s) ==> '\0' !in s.path
    ensures KeysApart(asks, states)
  {
    forall a, b | a in states && b in states && Waiting(asks, a) && Waiting(asks, b)
                  && Key(a.path, a.branch) == Key(b.path, b.branch)
      ensures a.path == b.path && a.branch == b.branch
    {
      SplitsOneWay(a.path, a.branch, b.path, b.branch);
    }
  }

  lemma SplitsOneWay(p: string, b: string, p': string, b': string)
    requires '\0' !in p && '\0' !in p' && Key(p, b) == Key(p', b')
    ensures p == p' && b == b'
  {
    FirstNul(p, b);
    FirstNul(p', b');
    assert |p| == |p'|;
    var k := Key(p, b);
    assert p == k[..|p|] && p' == k[..|p'|];
    assert b == k[|p| + 1..] && b' == k[|p'| + 1..];
  }

  lemma FirstNul(p: string, b: string)
    requires '\0' !in p
    ensures Key(p, b)[|p|] == '\0' && forall i :: 0 <= i < |p| ==> Key(p, b)[i] != '\0'
  {
    forall i | 0 <= i < |p| ensures Key(p, b)[i] != '\0' {
      assert p[i] in p;
    }
  }

  // With one in the path, a card can be left unpolled: its place is taken for
  // another's.
  lemma ConfusedPlaceIsMissed(asks: Asking, a: Parked, b: Parked, x: string, y: string, z: string)
    requires a.path == x + ['\0'] + y && a.branch == z
    requires b.path == x && b.branch == y + ['\0'] + z
    requires Waiting(asks, a) && Waiting(asks, b)
    ensures !KeysApart(asks, [a, b])
  {
    assert Key(a.path, a.branch) == Key(b.path, b.branch);
    assert |a.path| > |b.path|;
    assert a in [a, b] && b in [a, b];
  }

  // ---- OnVCSEvent ------------------------------------------------------------------

  predicate Concerns(s: Parked, e: VCSEvent) {
    EqualFold(s.branch, e.branch) && s.path == e.path
  }

  predicate IsOffered(states: seq<Parked>, e: VCSEvent, card: string) {
    exists s :: s in states && Concerns(s, e) && s.card == card
  }

  // The cards whose work is in that folder, and on that branch in any case, in the order
  // their places are stored.
  function OfferedTo(states: seq<Parked>, e: VCSEvent): seq<string> {
    if states == [] then []
    else
      (if states[0].path == e.path && Fold(states[0].branch) == Fold(e.branch) then [states[0].card] else [])
      + OfferedTo(states[1..], e)
  }

  lemma {:induction false} OfferedAreConcerned(states: seq<Parked>, e: VCSEvent, card: string)
    ensures card in OfferedTo(states, e) <==> IsOffered(states, e, card)
  {
    if states != [] {
      OfferedAreConcerned(states[1..], e, card);
    }
  }

  lemma OfferedAre(states: seq<Parked>, e: VCSEvent)
    ensures |OfferedTo(states, e)| <= |states|
    ensures forall card :: card in OfferedTo(states, e) <==> IsOffered(states, e, card)
  {
    forall card {
      OfferedAreConcerned(states, e, card);
    }
    NoMoreThanThere(states, e);
  }

  lemma {:induction false} NoMoreThanThere(states: seq<Parked>, e: VCSEvent)
    ensures |OfferedTo(states, e)| <= |states|
  {
    if states != [] {
      NoMoreThanThere(states[1..], e);
    }
  }

  // The cards an event is offered to.
  method OnVCSEvent(states: seq<Parked>, e: VCSEvent) returns (offered: seq<string>)
    ensures forall card :: card in offered <==> IsOffered(states, e, card)
    ensures |offered| <= |states| && offered == OfferedTo(states, e)
  {
    offered := [];
    for i := 0 to |states|
      invariant OfferedTo(states, e) == offered + OfferedTo(states[i..], e)
    {
      assert states[i..][0] == states[i] && states[i..][1..] == states[i + 1..];
      if !EqualFold(states[i].branch, e.branch) || states[i].path != e.path {
        continue;
      }
      offered := offered + [states[i].card];
    }
    assert offered == OfferedTo(states, e);
    OfferedAre(states, e);
  }

  // ---- the latch --------------------------------------------------------------------

  // What an event is remembered under: the workspace its folder is, its branch, and
  // what happened. A folder nobody registered is no workspace, and cannot latch.
  datatype Spot = Spot(workspace: string, branch: string, kind: string)

  type Workspaces = string -> string

  type Latch = map<Spot, string>

  function SpotOf(ws: Workspaces, e: VCSEvent): Spot {
    Spot(ws(e.path), e.branch, e.kind)
  }

  predicate Latches(ws: Workspaces, e: VCSEvent) {
    ws(e.path) != ""
  }

  predicate Acted(ws: Workspaces, latch: Latch, e: VCSEvent) {
    Latches(ws, e) && SpotOf(ws, e) in latch && latch[SpotOf(ws, e)] == e.marker
  }

  function Remembered(ws: Workspaces, latch: Latch, e: VCSEvent): Latch {
    if Latches(ws, e) then latch[SpotOf(ws, e) := e.marker] else latch
  }

  class Watcher {
    const workspaces: Workspaces
    var latch: Latch

    constructor (workspaces: Workspaces)
      ensures this.workspaces == workspaces && latch == map[]
    {
      this.workspaces, latch := workspaces, map[];
    }

    // ClaimVCSEvent. stored says whether the store could be asked and written.
    method Claim(e: VCSEvent, stored: bool) returns (claimed: bool)
      requires Latches(workspaces, e)
      modifies this
      ensures claimed <==> stored && !Acted(workspaces, old(latch), e)
      ensures latch == if stored then Remembered(workspaces, old(latch), e) else old(latch)
    {
      if !stored {
        return false;
      }
      var spot := SpotOf(workspaces, e);
      if spot in latch && latch[spot] == e.marker {
        assert latch[spot := e.marker] == latch;
        return false;
      }
      latch := latch[spot := e.marker];
      return true;
    }

    // deliverVCSEvent: an event the engine has acted on already is dropped; any other
    // is offered to the cards it concerns.
    method Deliver(states: seq<Parked>, e: VCSEvent, stored: bool) returns (offered: seq<string>)
      modifies this
      ensures var dropped := Latches(workspaces, e) && (!stored || Acted(workspaces, old(latch), e));
              if dropped then offered == []
              else offered == OfferedTo(states, e) && forall card :: card in offered <==> IsOffered(states, e, card)
      ensures latch == if stored then Remembered(workspaces, old(latch), e) else old(latch)
    {
      if Latches(workspaces, e) {
        var claimed := Claim(e, stored);
        if !claimed {
          return [];
        }
      }
      offered := OnVCSEvent(states, e);
    }

    // One event seen on a target. Every card that asked for it and is still where it
    // was is reached exactly when the event was not acted on before; or there is no
    // such card to reach.
    method Poll(flows: map<string, Flow>, states: seq<Parked>, t: Target, kind: string, marker: string, stored: bool)
      returns (offered: seq<string>)
      requires kind in t.triggers
      modifies this
      ensures var e := VCSEvent(kind, t.path, t.branch, marker);
              && (ReachesAll(flows, states, e, offered) <==>
                    || !Latches(workspaces, e) || (stored && !Acted(workspaces, old(latch), e))
                    || forall s :: s in states ==> !AskedThere(flows, s, e))
              && latch == if stored then Remembered(workspaces, old(latch), e) else old(latch)
    {
      var e := VCSEvent(kind, t.path, t.branch, marker);
      offered := Deliver(states, e, stored);
    }
  }

  // A card that waits for just this event, just there.
  predicate AskedThere(flows: map<string, Flow>, s: Parked, e: VCSEvent) {
    s.path == e.path && s.branch == e.branch && Waits(flows, s, e.kind)
  }

  ghost predicate ReachesAll(flows: map<string, Flow>, states: seq<Parked>, e: VCSEvent, offered: seq<string>) {
    forall s :: s in states && AskedThere(flows, s, e) ==> s.card in offered
  }

  // The latch over a run of events, each of them stored.
  function After(ws: Workspaces, latch: Latch, es: seq<VCSEvent>): Latch {
    if es == [] then latch else Remembered(ws, After(ws, latch, es[..|es| - 1]), es[|es| - 1])
  }

  // The same thing happening on one branch of one workspace.
  predicate SameSpot(ws: Workspaces, a: VCSEvent, b: VCSEvent) {
    ws(a.path) == ws(b.path) != "" && a.branch == b.branch && a.kind == b.kind
  }

  // Where nothing of the kind has happened yet, whatever happens is let through.
  lemma {:induction false} FirstIsLetThrough(ws: Workspaces, es: seq<VCSEvent>, e: VCSEvent)
    requires forall j :: 0 <= j < |es| ==> !SameSpot(ws, e, es[j])
    ensures !Acted(ws, After(ws, map[], es), e)
  {
    if es != [] {
      assert !SameSpot(ws, e, es[|es| - 1]);
      FirstIsLetThrough(ws, es[..|es| - 1], e);
    }
  }

  // What is remembered of a spot is the marker of the last event there.
  lemma {:induction false} LatchHoldsTheLast(ws: Workspaces, latch: Latch, es: seq<VCSEvent>, k: nat, spot: Spot)
    requires k < |es| && Latches(ws, es[k]) && SpotOf(ws, es[k]) == spot
    requires forall j :: k < j < |es| ==> !SameSpot(ws, es[j], es[k])
    ensures spot in After(ws, latch, es) && After(ws, latch, es)[spot] == es[k].marker
  {
    var front := es[..|es| - 1];
    if k < |front| {
      assert forall j :: 0 <= j < |front| ==> front[j] == es[j];
      LatchHoldsTheLast(ws, latch, front, k, spot);
      assert !SameSpot(ws, es[|es| - 1], es[k]);
    }
  }

  // So over every run an event is offered exactly when its marker is not that of the
  // last event of its spot: no marker twice running.
  lemma NoMarkerTwiceRunning(ws: Workspaces, latch: Latch, es: seq<VCSEvent>, k: nat, e: VCSEvent)
    requires k < |es| && SameSpot(ws, e, es[k]) && Latches(ws, es[k])
    requires forall j :: k < j < |es| ==> !SameSpot(ws, es[j], es[k])
    ensures !Acted(ws, After(ws, latch, es), e) <==> e.marker != es[k].marker
  {
    LatchHoldsTheLast(ws, latch, es, k, SpotOf(ws, es[k]));
  }

  // The marker of a merge says which branch landed where, and nothing of when.
  function MergedMarker(base: string, branch: string): string {
    base + ":" + branch
  }

  // A branch is merged once, as far as the latch goes. A card that comes to wait for
  // it afterwards, in the same folder and on the same branch, is never offered it, on
  // however many polls: not a second card, nor the first coming round again.
  lemma {:induction false} LateCardIsPassedOver(ws: Workspaces, latch: Latch, first: VCSEvent, base: string, polls: nat)
    requires Latches(ws, first) && first.marker == MergedMarker(base, first.branch)
    ensures Acted(ws, After(ws, latch, [first] + seq(polls, i => first)), first)
  {
    var es := [first] + seq(polls, i => first);
    assert es[|es| - 1] == first;
    LatchHoldsTheLast(ws, latch, es, |es| - 1, SpotOf(ws, first));
  }

  // Two cards, one after the other.
  method SecondCardWaitsInVain(ws: Workspaces, flows: map<string, Flow>, a: Parked, b: Parked, base: string)
    returns (watcher: Watcher, once: seq<string>, twice: seq<string>)
    requires a.path == b.path && a.branch == b.branch && a.card != b.card && ws(a.path) != ""
    requires Waits(flows, a, "branch.merged") && Waits(flows, b, "branch.merged")
    ensures a.card in once && b.card !in once && twice == []
  {
    var e := VCSEvent("branch.merged", a.path, a.branch, MergedMarker(base, a.branch));
    watcher := new Watcher(ws);
    once := watcher.Deliver([a], e, true);
    assert a in [a] && Concerns(a, e);
    assert IsOffered([a], e, a.card) && !IsOffered([a], e, b.card);
    twice := watcher.Deliver([a, b], e, true);
  }

  lemma OnlyTheWaitingMove(flows: map<string, Flow>, s: Parked, card: Option<map<string, string>>, kind: string)
    requires IsVCSTrigger(kind) && s.path != "" && s.branch != ""
    requires Engine.Destination(flows, Some(Engine.Position(s.flowID, s.nodeID, [])), card, kind, "").Some?
    ensures Waits(flows, s, kind)
  {
    ChoiceIsFirst(flows[s.flowID].edges, s.nodeID, kind, Asked(card.value, ""));
  }
}
