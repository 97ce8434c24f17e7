/** Routes: what a stored route must be before a card may travel it, and where an
    event sends a card that stands on it (internal/acp/flows.go). */
module Flows {
  import opened Text
  import T = Tools

  datatype Source = Outcome | Git | GitHub | Board

  // The closed set of edge triggers, in the editor's order.
  const TRIGGERS: seq<(string, Source)> := [
    ("success", Outcome), ("failure", Outcome), ("blocked", Outcome),
    ("branch.pushed", Git), ("branch.merged", Git),
    ("pr.opened", GitHub), ("pr.merged", GitHub), ("pr.closed", GitHub),
    ("review.approved", GitHub), ("checks.passed", GitHub), ("checks.failed", GitHub),
    ("card.changed", Board)]

  const SUCCESS := "success"
  const FAILURE := "failure"
  const CARD_CHANGED := "card.changed"

  predicate IsTrigger(on: string) {
    exists i :: 0 <= i < |TRIGGERS| && TRIGGERS[i].0 == on
  }

  predicate HasSource(on: string, source: Source) {
    exists i :: 0 <= i < |TRIGGERS| && TRIGGERS[i] == (on, source)
  }

  // The triggers a watcher has to poll for.
  predicate IsVCSTrigger(on: string) {
    HasSource(on, Git) || HasSource(on, GitHub)
  }

  // Which those are, and which carry an agent's words.
  lemma TriggersAre(on: string)
    ensures IsTrigger(on) <==> on in {"success", "failure", "blocked", "card.changed"} || IsVCSTrigger(on)
    ensures IsVCSTrigger(on) <==>
            on in {"branch.pushed", "branch.merged", "pr.opened", "pr.merged", "pr.closed", "review.approved",
                   "checks.passed", "checks.failed"}
    ensures HasSource(on, Outcome) <==> on in {"success", "failure", "blocked"}
  {
    SourceIs(on, Outcome);
    SourceIs(on, Git);
    SourceIs(on, GitHub);
    SourceIs(on, Board);
    KnownHasASource(on);
  }

  lemma SourceIs(on: string, source: Source)
    ensures HasSource(on, source) <==>
            match source
            case Outcome => on in {"success", "failure", "blocked"}
            case Git => on in {"branch.pushed", "branch.merged"}
            case GitHub => on in {"pr.opened", "pr.merged", "pr.closed", "review.approved", "checks.passed", "checks.failed"}
            case Board => on == "card.changed"
  {
    assert |TRIGGERS| == 12;
    assert HasSource(on, source) <==> (on, source) in TRIGGERS[..6] || (on, source) in TRIGGERS[6..] by {
      if i :| 0 <= i < |TRIGGERS| && TRIGGERS[i] == (on, source) {
        assert i < 6 ==> TRIGGERS[..6][i] == (on, source);
        assert i >= 6 ==> TRIGGERS[6..][i - 6] == (on, source);
      }
      if (on, source) in TRIGGERS[..6] || (on, source) in TRIGGERS[6..] {
        assert (on, source) in TRIGGERS;
      }
    }
    assert TRIGGERS[..6] == [("success", Outcome), ("failure", Outcome), ("blocked", Outcome),
                             ("branch.pushed", Git), ("branch.merged", Git), ("pr.opened", GitHub)];
    assert TRIGGERS[6..] == [("pr.merged", GitHub), ("pr.closed", GitHub), ("review.approved", GitHub),
                             ("checks.passed", GitHub), ("checks.failed", GitHub), ("card.changed", Board)];
  }

  lemma KnownHasASource(on: string)
    ensures IsTrigger(on) <==> exists source :: HasSource(on, source)
  {
    if i :| 0 <= i < |TRIGGERS| && TRIGGERS[i].0 == on {
      assert TRIGGERS[i] == (on, TRIGGERS[i].1) && HasSource(on, TRIGGERS[i].1);
    }
  }

  datatype EdgeCond = EdgeCond(property: string, value: string, commentContains: string)

  datatype FlowEdge = FlowEdge(from: string, to: string, on: string, cond: Option<EdgeCond>)

  // rest stands for what validation passes through: the stage's prompt, its
  // declared inputs and outputs, where it runs and where it is drawn.
  datatype FlowNode = FlowNode(
    id: string, column: string, optionID: string, action: string,
    agentIDs: seq<string>, agentNames: seq<string>, agentName: string,
    deployID: string, deployName: string, tools: T.Servers, rest: string)

  datatype FlowHead = FlowHead(
    id: string, name: string, boardID: string, workspaceID: string, workdirName: string, property: string)

  datatype Flow = Flow(head: FlowHead, nodes: seq<FlowNode>, edges: seq<FlowEdge>)

  // A registry entry, as far as a route refers to one.
  datatype Entry = Entry(id: string, name: string)

  datatype Registries = Registries(workdirs: seq<Entry>, agents: seq<Entry>, deploys: seq<Entry>)

  // agentByID, deployByID, workdirByID.
  predicate Has(entries: seq<Entry>, id: string) {
    Trim(id) != "" && exists i :: 0 <= i < |entries| && entries[i].id == Trim(id)
  }

  // ---- normal forms -----------------------------------------------------------

  // A roster trimmed, without blanks and without repeats, in the order listed.
  function NormRoster(ids: seq<string>): seq<string> {
    if ids == [] then []
    else
      var before := NormRoster(ids[..|ids| - 1]);
      var id := Trim(ids[|ids| - 1]);
      if id == "" || id in before then before else before + [id]
  }

  function NormNode(n: FlowNode): FlowNode {
    n.(id := Trim(n.id), column := Trim(n.column), action := Trim(n.action),
       agentIDs := NormRoster(n.agentIDs), deployID := Trim(n.deployID), tools := T.NormTools(n.tools))
  }

  function NormCond(c: EdgeCond): EdgeCond {
    EdgeCond(Trim(c.property), Trim(c.value), Trim(c.commentContains))
  }

  function NormEdge(e: FlowEdge): FlowEdge {
    FlowEdge(Trim(e.from), Trim(e.to), Trim(e.on), if e.cond.Some? then Some(NormCond(e.cond.value)) else None)
  }

  function NormNodes(ns: seq<FlowNode>): (r: seq<FlowNode>)
    ensures |r| == |ns|
  {
    seq(|ns|, i requires 0 <= i < |ns| => NormNode(ns[i]))
  }

  function NormEdges(es: seq<FlowEdge>): (r: seq<FlowEdge>)
    ensures |r| == |es|
  {
    seq(|es|, i requires 0 <= i < |es| => NormEdge(es[i]))
  }

  // A route without an id gets one the moment it is first accepted.
  function NormHead(h: FlowHead, minted: string): FlowHead {
    h.(name := Trim(h.name), property := Trim(h.property), id := if Trim(h.id) == "" then minted else h.id)
  }

  function Normal(f: Flow, minted: string): Flow {
    Flow(NormHead(f.head, minted), NormNodes(f.nodes), NormEdges(f.edges))
  }

  // ---- what is accepted ----------------------------------------------------------

  predicate IsAction(action: string) {
    action in ["", "none", "agent", "deploy", "test"]
  }

  predicate Knows(agents: seq<Entry>, id: string) {
    Trim(id) == "" || Has(agents, id)
  }

  predicate RosterKnown(ids: seq<string>, agents: seq<Entry>) {
    forall i {:trigger Knows(agents, ids[i])} :: 0 <= i < |ids| ==> Knows(agents, ids[i])
  }

  predicate NodeOk(n: FlowNode, r: Registries) {
    && Trim(n.id) != "" && Trim(n.column) != "" && IsAction(Trim(n.action))
    && RosterKnown(n.agentIDs, r.agents)
    && (Trim(n.deployID) != "" ==> Has(r.deploys, n.deployID))
    && T.ToolsOk(n.tools)
  }

  // No two stages share an id, or a column whatever its case.
  predicate Apart(a: FlowNode, b: FlowNode) {
    Trim(a.id) != Trim(b.id) && Fold(Trim(a.column)) != Fold(Trim(b.column))
  }

  predicate NodesOkTo(ns: seq<FlowNode>, k: nat, r: Registries)
    requires k <= |ns|
  {
    NodesFine(ns, k, r) && NodesApart(ns, k)
  }

  predicate NodesFine(ns: seq<FlowNode>, k: nat, r: Registries)
    requires k <= |ns|
  {
    forall i {:trigger NodeOk(ns[i], r)} :: 0 <= i < k ==> NodeOk(ns[i], r)
  }

  predicate NodesApart(ns: seq<FlowNode>, k: nat)
    requires k <= |ns|
  {
    forall i, j {:trigger Apart(ns[i], ns[j])} :: 0 <= i < j < k ==> Apart(ns[i], ns[j])
  }

  predicate NodesOk(ns: seq<FlowNode>, r: Registries) {
    NodesOkTo(ns, |ns|, r)
  }

  predicate CondOk(c: EdgeCond, on: string) {
    var p, v, words := Trim(c.property), Trim(c.value), Trim(c.commentContains);
    if words == "" then p != "" && v != ""
    else p == "" && v == "" && HasSource(on, Outcome)
  }

  predicate EdgeOk(e: FlowEdge, ids: set<string>) {
    && Trim(e.from) in ids && Trim(e.to) in ids && IsTrigger(Trim(e.on))
    && (e.cond.Some? ==> CondOk(e.cond.value, Trim(e.on)))
    && (Trim(e.on) == CARD_CHANGED ==> e.cond.Some?)
  }

  // Not two unconditional edges for one event of one stage.
  predicate ToldApart(a: FlowEdge, b: FlowEdge) {
    a.cond.Some? || b.cond.Some? || Trim(a.from) != Trim(b.from) || Trim(a.on) != Trim(b.on)
  }

  predicate EdgesOkTo(es: seq<FlowEdge>, k: nat, ids: set<string>)
    requires k <= |es|
  {
    EdgesFine(es, k, ids) && EdgesTold(es, k)
  }

  predicate EdgesFine(es: seq<FlowEdge>, k: nat, ids: set<string>)
    requires k <= |es|
  {
    forall i {:trigger EdgeOk(es[i], ids)} :: 0 <= i < k ==> EdgeOk(es[i], ids)
  }

  predicate EdgesTold(es: seq<FlowEdge>, k: nat)
    requires k <= |es|
  {
    forall i, j {:trigger ToldApart(es[i], es[j])} :: 0 <= i < j < k ==> ToldApart(es[i], es[j])
  }

  predicate EdgesOk(es: seq<FlowEdge>, ids: set<string>) {
    EdgesOkTo(es, |es|, ids)
  }

  predicate HeadOk(h: FlowHead, r: Registries) {
    && Trim(h.name) != "" && (h.workspaceID != "" ==> Has(r.workdirs, h.workspaceID)) && h.workdirName == ""
  }

  predicate NoLeftovers(ns: seq<FlowNode>) {
    forall i :: 0 <= i < |ns| ==> ns[i].agentNames == [] && ns[i].deployName == ""
  }

  function IdsTo(ns: seq<FlowNode>, k: nat): set<string>
    requires k <= |ns|
  {
    set i | 0 <= i < k :: Trim(ns[i].id)
  }

  function ColumnsTo(ns: seq<FlowNode>, k: nat): set<string>
    requires k <= |ns|
  {
    set i | 0 <= i < k :: Fold(Trim(ns[i].column))
  }

  function Ids(ns: seq<FlowNode>): set<string> {
    IdsTo(ns, |ns|)
  }

  // The first k are in normal form, the rest as they were.
  predicate TidiedTo(now: seq<FlowNode>, was: seq<FlowNode>, k: nat) {
    && |now| == |was| && k <= |was|
    && (forall i :: 0 <= i < k ==> now[i] == NormNode(was[i]))
    && (forall i :: k <= i < |was| ==> now[i] == was[i])
  }

  predicate EdgesTidiedTo(now: seq<FlowEdge>, was: seq<FlowEdge>, k: nat) {
    && |now| == |was| && k <= |was|
    && (forall i :: 0 <= i < k ==> now[i] == NormEdge(was[i]))
    && (forall i :: k <= i < |was| ==> now[i] == was[i])
  }

  predicate Acceptable(f: Flow, r: Registries) {
    && NoLeftovers(f.nodes) && HeadOk(f.head, r) && f.nodes != []
    && NodesOk(f.nodes, r) && EdgesOk(f.edges, Ids(f.nodes))
  }

  // ---- the loops -------------------------------------------------------------------

  lemma KnowsTrimmed(agents: seq<Entry>, id: string)
    ensures Knows(agents, id) <==> Trim(id) == "" || Has(agents, Trim(id))
  {
    TrimIdempotent(id);
  }

  // One more of a roster: what it adds, and that a listed one is known.
  lemma RosterStep(ids: seq<string>, i: nat, agents: seq<Entry>)
    requires i < |ids| && RosterKnown(ids[..i], agents)
    ensures var before, id := NormRoster(ids[..i]), Trim(ids[i]);
            && NormRoster(ids[..i + 1]) == (if id == "" || id in before then before else before + [id])
            && (id in before ==> Knows(agents, ids[i]))
            && (Knows(agents, ids[i]) ==> RosterKnown(ids[..i + 1], agents))
  {
    assert ids[..i + 1][..i] == ids[..i];
    var id := Trim(ids[i]);
    InRosterIsListed(ids[..i], id);
    if id in NormRoster(ids[..i]) {
      var j :| 0 <= j < i && Trim(ids[..i][j]) == id;
      assert Knows(agents, ids[..i][j]);
      KnowsTrimmed(agents, ids[j]);
      KnowsTrimmed(agents, ids[i]);
    }
  }

  // A stage's roster, checked and folded.
  method CheckRoster(ids: seq<string>, agents: seq<Entry>) returns (roster: Option<seq<string>>)
    ensures roster == if RosterKnown(ids, agents) then Some(NormRoster(ids)) else None
    ensures roster.Some? ==> IsRosterOf(ids, roster.value)
  {
    NormRosterIsIt(ids);
    var out: seq<string> := [];
    for i := 0 to |ids|
      invariant out == NormRoster(ids[..i])
      invariant RosterKnown(ids[..i], agents)
    {
      var id := Trim(ids[i]);
      RosterStep(ids, i, agents);
      if id == "" || id in out {
        continue;
      }
      KnowsTrimmed(agents, ids[i]);
      if !Has(agents, id) {
        assert !Knows(agents, ids[i]);
        return None;
      }
      out := out + [id];
    }
    assert ids[..|ids|] == ids;
    return Some(out);
  }

  lemma {:induction false} InRosterIsListed(ids: seq<string>, id: string)
    ensures id in NormRoster(ids) <==> id != "" && exists i :: 0 <= i < |ids| && Trim(ids[i]) == id
  {
    if ids != [] {
      InRosterIsListed(ids[..|ids| - 1], id);
    }
  }

  // The stages, normalised in place as they pass; a refused stage and those after
  // it are left as they were.
  method CheckNodes(nodes: array<FlowNode>, r: Registries) returns (ok: bool, ghost k: nat)
    modifies nodes
    ensures ok <==> NodesOk(old(nodes[..]), r)
    ensures TidiedTo(nodes[..], old(nodes[..]), k) && k == OkNodes(old(nodes[..]), r)
    ensures ok <==> k == nodes.Length
  {
    ghost var ns := nodes[..];
    var seenID: set<string>, seenColumn: set<string> := {}, {};
    ok, k := true, 0;
    var i := 0;
    while i < nodes.Length && ok
      invariant 0 <= k <= i <= nodes.Length && (ok ==> k == i)
      invariant TidiedTo(nodes[..], ns, k)
      invariant NodesOkTo(ns, k, r)
      invariant ok ==> seenID == IdsTo(ns, i) && seenColumn == ColumnsTo(ns, i)
      invariant !ok ==> k < nodes.Length && !NodesOkTo(ns, k + 1, r)
    {
      assert nodes[i] == nodes[..][i] == ns[i];
      var tidy;
      ok, tidy := CheckNode(nodes[i], r);
      if !ok || tidy.id in seenID || Fold(tidy.column) in seenColumn {
        NodeRefused(ns, i, r);
        ok := false;
      } else {
        NodeAccepted(ns, i, r);
        seenID := seenID + {tidy.id};
        seenColumn := seenColumn + {Fold(tidy.column)};
        TidyOne(nodes[..], ns, i, tidy);
        ghost var before := nodes[..];
        nodes[i] := tidy;
        assert nodes[..] == before[i := tidy];
        k := i + 1;
      }
      i := i + 1;
    }
    OkNodesIs(ns, r, k, 0);
    OkNodesEnds(ns, r, k);
  }

  // How many stages pass before the first that does not.
  function OkNodes(ns: seq<FlowNode>, r: Registries, k: nat := 0): (n: nat)
    requires k <= |ns|
    ensures k <= n <= |ns|
    decreases |ns| - k
  {
    if k == |ns| || !NodesOkTo(ns, k + 1, r) then k else OkNodes(ns, r, k + 1)
  }

  lemma {:induction false} OkNodesIs(ns: seq<FlowNode>, r: Registries, k: nat, from: nat)
    requires from <= k <= |ns| && NodesOkTo(ns, k, r) && (k < |ns| ==> !NodesOkTo(ns, k + 1, r))
    ensures OkNodes(ns, r, from) == k
    decreases k - from
  {
    if from < k {
      assert NodesOkTo(ns, from + 1, r);
      OkNodesIs(ns, r, k, from + 1);
    }
  }

  lemma OkNodesEnds(ns: seq<FlowNode>, r: Registries, k: nat)
    requires k <= |ns| && NodesOkTo(ns, k, r) && (k < |ns| ==> !NodesOkTo(ns, k + 1, r))
    ensures NodesOk(ns, r) <==> k == |ns|
  {
    if k < |ns| && NodesOk(ns, r) {
      assert NodesOkTo(ns, k + 1, r);
    }
  }

  lemma TidyOne(now: seq<FlowNode>, was: seq<FlowNode>, k: nat, tidy: FlowNode)
    requires TidiedTo(now, was, k) && k < |was| && tidy == NormNode(was[k])
    ensures TidiedTo(now[k := tidy], was, k + 1)
  {
    var next := now[k := tidy];
    forall i | 0 <= i < k + 1 ensures next[i] == NormNode(was[i]) {
      if i < k {
        assert next[i] == now[i];
      }
    }
  }

  method CheckNode(n: FlowNode, r: Registries) returns (ok: bool, tidy: FlowNode)
    ensures ok == NodeOk(n, r)
    ensures ok ==> tidy == NormNode(n)
  {
    var id, column, action, deployID := Trim(n.id), Trim(n.column), Trim(n.action), Trim(n.deployID);
    TrimIdempotent(n.deployID);
    if id == "" || column == "" || !IsAction(action) {
      return false, n;
    }
    var roster := CheckRoster(n.agentIDs, r.agents);
    if roster.None? || (deployID != "" && !Has(r.deploys, deployID)) {
      return false, n;
    }
    var tools := T.ValidateTools(n.tools);
    if tools.None? {
      return false, n;
    }
    return true, n.(id := id, column := column, action := action, agentIDs := roster.value, deployID := deployID,
                    tools := tools.value);
  }

  lemma NodeToldApart(ns: seq<FlowNode>, i: nat)
    requires i < |ns| && NodesApart(ns, i)
    requires Trim(ns[i].id) !in IdsTo(ns, i)
    requires Fold(Trim(ns[i].column)) !in ColumnsTo(ns, i)
    ensures NodesApart(ns, i + 1)
  {
    forall j | 0 <= j < i ensures Apart(ns[j], ns[i]) {
      assert Trim(ns[j].id) in IdsTo(ns, i);
      assert Fold(Trim(ns[j].column)) in ColumnsTo(ns, i);
    }
  }

  lemma NodeCounted(ns: seq<FlowNode>, i: nat)
    requires i < |ns|
    ensures IdsTo(ns, i + 1) == IdsTo(ns, i) + {Trim(ns[i].id)}
    ensures ColumnsTo(ns, i + 1) == ColumnsTo(ns, i) + {Fold(Trim(ns[i].column))}
  {
  }

  lemma NodeAccepted(ns: seq<FlowNode>, i: nat, r: Registries)
    requires i < |ns| && NodesOkTo(ns, i, r) && NodeOk(ns[i], r)
    requires Trim(ns[i].id) !in IdsTo(ns, i)
    requires Fold(Trim(ns[i].column)) !in ColumnsTo(ns, i)
    ensures NodesOkTo(ns, i + 1, r)
    ensures IdsTo(ns, i + 1) == IdsTo(ns, i) + {Trim(ns[i].id)}
    ensures ColumnsTo(ns, i + 1) == ColumnsTo(ns, i) + {Fold(Trim(ns[i].column))}
  {
    NodeToldApart(ns, i);
    NodeCounted(ns, i);
  }

  lemma NodeRefused(ns: seq<FlowNode>, i: nat, r: Registries)
    requires i < |ns|
    requires !NodeOk(ns[i], r) || Trim(ns[i].id) in IdsTo(ns, i)
      || Fold(Trim(ns[i].column)) in ColumnsTo(ns, i)
    ensures !NodesOkTo(ns, i + 1, r)
  {
    if NodeOk(ns[i], r) {
      var j :| 0 <= j < i && (Trim(ns[j].id) == Trim(ns[i].id) || Fold(Trim(ns[j].column)) == Fold(Trim(ns[i].column)));
      assert !Apart(ns[j], ns[i]);
    }
  }

  // The key two fallbacks are told apart by; no trigger holds a bar, so it says
  // both halves.
  function FallbackKey(e: FlowEdge): string {
    Trim(e.from) + "|" + Trim(e.on)
  }

  lemma KeySaysBoth(a: FlowEdge, b: FlowEdge)
    requires IsTrigger(Trim(a.on)) && IsTrigger(Trim(b.on)) && FallbackKey(a) == FallbackKey(b)
    ensures Trim(a.from) == Trim(b.from) && Trim(a.on) == Trim(b.on)
  {
    var x, y := Trim(a.from), Trim(b.from);
    NoBar(Trim(a.on));
    NoBar(Trim(b.on));
    var k := FallbackKey(a);
    assert k[|x|] == '|' && k[|y|] == '|';
    assert k[..|x|] == x && k[..|y|] == y && k[|x| + 1..] == Trim(a.on) && k[|y| + 1..] == Trim(b.on);
  }

  lemma NoBar(on: string)
    requires IsTrigger(on)
    ensures '|' !in on
  {
  }

  // validateEdgeCond: about the card or about what was said, not both, nor neither.
  method CheckCond(c: EdgeCond, on: string) returns (valid: Option<EdgeCond>)
    ensures valid == if CondOk(c, on) then Some(NormCond(c)) else None
  {
    var property, value, words := Trim(c.property), Trim(c.value), Trim(c.commentContains);
    var asksCard, asksWords := property != "" || value != "", words != "";
    if asksCard == asksWords {
      return None;
    }
    if asksCard && (property == "" || value == "") {
      return None;
    }
    if asksWords && !HasSource(on, Outcome) {
      return None;
    }
    return Some(EdgeCond(property, value, words));
  }

  // One transition, but for the others of its stage.
  method CheckEdge(e: FlowEdge, ids: set<string>) returns (valid: Option<FlowEdge>)
    ensures valid == if EdgeOk(e, ids) then Some(NormEdge(e)) else None
  {
    var from, dest, on := Trim(e.from), Trim(e.to), Trim(e.on);
    if from !in ids || dest !in ids || !IsTrigger(on) {
      return None;
    }
    if e.cond.None? {
      return if on == CARD_CHANGED then None else Some(FlowEdge(from, dest, on, None));
    }
    var cond := CheckCond(e.cond.value, on);
    return if cond.None? then None else Some(FlowEdge(from, dest, on, cond));
  }

  // The transitions, likewise in place.
  method CheckEdges(edges: array<FlowEdge>, ids: set<string>) returns (ok: bool, ghost k: nat)
    modifies edges
    ensures ok <==> EdgesOk(old(edges[..]), ids)
    ensures EdgesTidiedTo(edges[..], old(edges[..]), k) && k == OkEdges(old(edges[..]), ids)
    ensures ok <==> k == edges.Length
  {
    ghost var es := edges[..];
    var seen: set<string> := {};
    var i := 0;
    assert EdgesTidiedTo(edges[..], es, 0);
    while i < edges.Length
      invariant 0 <= i <= edges.Length
      invariant EdgesTidiedTo(edges[..], es, i)
      invariant seen == SeenKeys(es, i)
      invariant EdgesOkTo(es, i, ids)
    {
      assert edges[i] == edges[..][i] == es[i];
      var e := CheckEdge(edges[i], ids);
      if e.None? {
        OkEdgesIs(es, ids, i, 0);
        return false, i;
      }
      if e.value.cond.None? && e.value.from + "|" + e.value.on in seen {
        SecondFallback(es, i, ids);
        OkEdgesIs(es, ids, i, 0);
        return false, i;
      }
      EdgeAccepted(es, i, ids);
      if e.value.cond.None? {
        seen := seen + {e.value.from + "|" + e.value.on};
      }
      edges[i] := e.value;
      i := i + 1;
    }
    OkEdgesIs(es, ids, i, 0);
    return true, i;
  }

  function OkEdges(es: seq<FlowEdge>, ids: set<string>, k: nat := 0): (n: nat)
    requires k <= |es|
    ensures k <= n <= |es|
    decreases |es| - k
  {
    if k == |es| || !EdgesOkTo(es, k + 1, ids) then k else OkEdges(es, ids, k + 1)
  }

  lemma {:induction false} OkEdgesIs(es: seq<FlowEdge>, ids: set<string>, k: nat, from: nat)
    requires from <= k <= |es| && EdgesOkTo(es, k, ids) && (k < |es| ==> !EdgesOkTo(es, k + 1, ids))
    ensures OkEdges(es, ids, from) == k
    ensures EdgesOk(es, ids) <==> k == |es|
    decreases k - from
  {
    if k < |es| && EdgesOk(es, ids) {
      assert EdgesOkTo(es, k + 1, ids);
    }
    if from < k {
      assert EdgesOkTo(es, from + 1, ids);
      OkEdgesIs(es, ids, k, from + 1);
    }
  }

  lemma KeysTellApart(a: FlowEdge, b: FlowEdge)
    requires a.cond.None? && b.cond.None? ==> FallbackKey(a) != FallbackKey(b)
    ensures ToldApart(a, b)
  {
  }

  function SeenKeys(es: seq<FlowEdge>, i: nat): set<string>
    requires i <= |es|
  {
    set j | 0 <= j < i && es[j].cond.None? :: FallbackKey(es[j])
  }

  lemma KeyWasSeen(es: seq<FlowEdge>, i: nat, j: nat)
    requires j < i <= |es| && es[j].cond.None?
    ensures FallbackKey(es[j]) in SeenKeys(es, i)
  {
  }

  lemma EdgeToldApart(es: seq<FlowEdge>, i: nat)
    requires i < |es| && EdgesTold(es, i)
    requires es[i].cond.None? ==> FallbackKey(es[i]) !in SeenKeys(es, i)
    ensures EdgesTold(es, i + 1)
  {
    forall j | 0 <= j < i ensures ToldApart(es[j], es[i]) {
      if es[j].cond.None? && es[i].cond.None? {
        KeyWasSeen(es, i, j);
        KeysTellApart(es[j], es[i]);
      }
    }
  }

  lemma EdgeAccepted(es: seq<FlowEdge>, i: nat, ids: set<string>)
    requires i < |es| && EdgesOkTo(es, i, ids) && EdgeOk(es[i], ids)
    requires es[i].cond.None? ==> FallbackKey(es[i]) !in SeenKeys(es, i)
    ensures EdgesOkTo(es, i + 1, ids)
  {
    EdgeToldApart(es, i);
  }

  lemma SecondFallback(es: seq<FlowEdge>, i: nat, ids: set<string>)
    requires i < |es| && EdgesOkTo(es, i, ids) && EdgeOk(es[i], ids) && es[i].cond.None?
    requires FallbackKey(es[i]) in SeenKeys(es, i)
    ensures !EdgesOkTo(es, i + 1, ids)
  {
    var j :| 0 <= j < i && es[j].cond.None? && FallbackKey(es[j]) == FallbackKey(es[i]);
    assert EdgeOk(es[j], ids);
    KeySaysBoth(es[j], es[i]);
    assert !ToldApart(es[j], es[i]);
  }

  function TidyNodes(ns: seq<FlowNode>, k: nat): (r: seq<FlowNode>)
    ensures |r| == |ns|
  {
    seq(|ns|, i requires 0 <= i < |ns| => if i < k then NormNode(ns[i]) else ns[i])
  }

  function TidyEdges(es: seq<FlowEdge>, k: nat): (r: seq<FlowEdge>)
    ensures |r| == |es|
  {
    seq(|es|, i requires 0 <= i < |es| => if i < k then NormEdge(es[i]) else es[i])
  }

  // What a refused route is left as: tidied up to where it was refused.
  function Left(f: Flow, r: Registries): Flow {
    if !NoLeftovers(f.nodes) || !HeadOk(f.head, r) || f.nodes == [] then f
    else if !NodesOk(f.nodes, r) then f.(nodes := TidyNodes(f.nodes, OkNodes(f.nodes, r)))
    else f.(nodes := NormNodes(f.nodes), edges := TidyEdges(f.edges, OkEdges(f.edges, Ids(f.nodes))))
  }

  // validateFlow. What it is handed is normalised in place, so a refused route
  // may come back with its first stages, or its first transitions, tidied.
  method ValidateFlow(head: FlowHead, nodes: array<FlowNode>, edges: array<FlowEdge>, r: Registries, minted: string)
    returns (out: Option<FlowHead>)
    modifies nodes, edges
    ensures out.Some? <==> Acceptable(old(Flow(head, nodes[..], edges[..])), r)
    ensures out.Some? ==>
              Flow(out.value, nodes[..], edges[..]) == Normal(old(Flow(head, nodes[..], edges[..])), minted)
    ensures out.None? ==> Flow(head, nodes[..], edges[..]) == Left(old(Flow(head, nodes[..], edges[..])), r)
    ensures out.Some? <==> RouteFits(old(Flow(head, nodes[..], edges[..])), r)
    ensures out.Some? ==> IsTidyRoute(old(Flow(head, nodes[..], edges[..])), Flow(out.value, nodes[..], edges[..]), minted)
    ensures out.None? ==> IsPartlyTidied(old(Flow(head, nodes[..], edges[..])), Flow(head, nodes[..], edges[..]))
  {
    ghost var f := Flow(head, nodes[..], edges[..]);
    out := CheckFlow(head, nodes, edges, r, minted);
    WhatItLeaves(f, r, minted);
  }

  method CheckFlow(head: FlowHead, nodes: array<FlowNode>, edges: array<FlowEdge>, r: Registries, minted: string)
    returns (out: Option<FlowHead>)
    modifies nodes, edges
    ensures out.Some? <==> Acceptable(old(Flow(head, nodes[..], edges[..])), r)
    ensures out.Some? ==>
              Flow(out.value, nodes[..], edges[..]) == Normal(old(Flow(head, nodes[..], edges[..])), minted)
    ensures out.None? ==> Flow(head, nodes[..], edges[..]) == Left(old(Flow(head, nodes[..], edges[..])), r)
  {
    ghost var ns, es := nodes[..], edges[..];
    for i := 0 to nodes.Length
      invariant forall j :: 0 <= j < i ==> ns[j].agentNames == [] && ns[j].deployName == ""
    {
      if nodes[i].agentNames != [] || nodes[i].deployName != "" {
        assert ns[i] == nodes[i];
        return None;
      }
    }
    if !HeadOk(head, r) || nodes.Length == 0 {
      return None;
    }
    ghost var k, kE;
    var nodesFine, edgesFine;
    nodesFine, k := CheckNodes(nodes, r);
    assert nodes[..] == TidyNodes(ns, k) && edges[..] == es;
    if !nodesFine {
      return None;
    }
    var ids := StageIDs(nodes);
    NormKeepsIds(ns, nodes[..]);
    edgesFine, kE := CheckEdges(edges, ids);
    assert nodes[..] == NormNodes(ns) && edges[..] == TidyEdges(es, kE);
    if !edgesFine {
      return None;
    }
    assert edges[..] == NormEdges(es);
    return Some(NormHead(head, minted));
  }

  method StageIDs(nodes: array<FlowNode>) returns (ids: set<string>)
    ensures ids == set i | 0 <= i < |nodes[..]| :: nodes[..][i].id
  {
    ids := set i | 0 <= i < nodes.Length :: nodes[i].id;
  }

  lemma NormKeepsIds(was: seq<FlowNode>, now: seq<FlowNode>)
    requires TidiedTo(now, was, |was|)
    ensures (set i | 0 <= i < |now| :: now[i].id) == Ids(was)
    ensures Ids(now) == Ids(was)
  {
    forall i | 0 <= i < |was| ensures Trim(now[i].id) == Trim(was[i].id) {
      TrimIdempotent(was[i].id);
    }
    forall id | id in Ids(was) ensures id in Ids(now) && id in (set i | 0 <= i < |now| :: now[i].id) {
      var i :| 0 <= i < |was| && Trim(was[i].id) == id;
      assert now[i].id == id && Trim(now[i].id) == id;
    }
  }

  // ---- what acceptance buys ---------------------------------------------------------

  // What every reader of a route relies on.
  predicate RouteInvariant(f: Flow) {
    && (forall i :: 0 <= i < |f.nodes| ==> f.nodes[i].id != "" && f.nodes[i].column != "")
    && (forall i, j :: 0 <= i < j < |f.nodes| ==>
          f.nodes[i].id != f.nodes[j].id && !EqualFold(f.nodes[i].column, f.nodes[j].column))
    && (forall i :: 0 <= i < |f.edges| ==>
          && HasStage(f, f.edges[i].from) && HasStage(f, f.edges[i].to) && IsTrigger(f.edges[i].on))
    && (forall i, j :: 0 <= i < j < |f.edges| && f.edges[i].cond.None? && f.edges[j].cond.None? ==>
          f.edges[i].from != f.edges[j].from || f.edges[i].on != f.edges[j].on)
    && (forall i :: 0 <= i < |f.edges| && f.edges[i].cond.Some? && f.edges[i].cond.value.commentContains != "" ==>
          HasSource(f.edges[i].on, Outcome))
    && (forall i :: 0 <= i < |f.edges| && f.edges[i].on == CARD_CHANGED ==> f.edges[i].cond.Some?)
  }

  predicate HasStage(f: Flow, id: string) {
    exists i :: 0 <= i < |f.nodes| && f.nodes[i].id == id
  }

  lemma AcceptedRouteIsSound(f: Flow, r: Registries, minted: string)
    requires Acceptable(f, r)
    ensures RouteInvariant(Normal(f, minted))
  {
    var g := Normal(f, minted);
    forall i | 0 <= i < |f.edges| ensures HasStage(g, g.edges[i].from) && HasStage(g, g.edges[i].to)
                                          && IsTrigger(g.edges[i].on) {
      assert EdgeOk(f.edges[i], Ids(f.nodes));
      StageIsKept(f, minted, f.edges[i].from);
      StageIsKept(f, minted, f.edges[i].to);
    }
    forall i, j | 0 <= i < j < |f.nodes|
      ensures g.nodes[i].id != g.nodes[j].id && !EqualFold(g.nodes[i].column, g.nodes[j].column) {
      assert Apart(f.nodes[i], f.nodes[j]);
    }
    forall i, j | 0 <= i < j < |f.edges| && g.edges[i].cond.None? && g.edges[j].cond.None?
      ensures g.edges[i].from != g.edges[j].from || g.edges[i].on != g.edges[j].on {
      assert ToldApart(f.edges[i], f.edges[j]);
    }
    forall i | 0 <= i < |f.nodes| ensures g.nodes[i].id != "" && g.nodes[i].column != "" {
      assert NodeOk(f.nodes[i], r);
    }
    forall i | 0 <= i < |f.edges|
      ensures g.edges[i].cond.Some? && g.edges[i].cond.value.commentContains != "" ==> HasSource(g.edges[i].on, Outcome)
      ensures g.edges[i].on == CARD_CHANGED ==> g.edges[i].cond.Some? {
      assert EdgeOk(f.edges[i], Ids(f.nodes));
    }
  }

  lemma StageIsKept(f: Flow, minted: string, id: string)
    requires Trim(id) in Ids(f.nodes)
    ensures HasStage(Normal(f, minted), Trim(id))
  {
    var i :| 0 <= i < |f.nodes| && Trim(f.nodes[i].id) == Trim(id);
    assert Normal(f, minted).nodes[i].id == Trim(id);
  }

  // An accepted route is accepted again, as it is: what validation wrote is what
  // it would write.
  lemma ValidationIsIdempotent(f: Flow, r: Registries, minted: string, again: string)
    requires Acceptable(f, r) && Trim(minted) != ""
    ensures Acceptable(Normal(f, minted), r)
    ensures Normal(Normal(f, minted), again) == Normal(f, minted)
  {
    NodesTwice(f.nodes, r);
    EdgesTwice(f.edges, Ids(f.nodes));
    HeadTwice(f.head, minted, again);
  }

  lemma EdgesTwice(es: seq<FlowEdge>, ids: set<string>)
    requires EdgesOk(es, ids)
    ensures EdgesOk(NormEdges(es), ids) && NormEdges(NormEdges(es)) == NormEdges(es)
  {
    var es' := NormEdges(es);
    forall i | 0 <= i < |es| ensures NormEdge(es'[i]) == es'[i] && EdgeOk(es'[i], ids) {
      assert EdgeOk(es[i], ids);
      EdgeTwice(es[i], ids);
    }
    forall i, j | 0 <= i < j < |es| ensures ToldApart(es'[i], es'[j]) {
      assert ToldApart(es[i], es[j]);
      EdgeTwice(es[i], ids);
      EdgeTwice(es[j], ids);
    }
  }

  lemma HeadTwice(h: FlowHead, minted: string, again: string)
    requires Trim(minted) != ""
    ensures NormHead(NormHead(h, minted), again) == NormHead(h, minted)
    ensures Trim(NormHead(h, minted).name) == Trim(h.name)
  {
    TrimIdempotent(h.name);
    TrimIdempotent(h.property);
  }

  // A roster known to one registry is, folded, known to any that knows as much.
  lemma RosterStaysKnown(ids: seq<string>, agents: seq<Entry>, agents': seq<Entry>)
    requires RosterKnown(ids, agents) && forall id :: Has(agents, id) ==> Has(agents', id)
    ensures RosterKnown(NormRoster(ids), agents')
  {
    var roster := NormRoster(ids);
    forall i | 0 <= i < |roster| ensures Knows(agents', roster[i]) {
      InRosterIsListed(ids, roster[i]);
      var j :| 0 <= j < |ids| && Trim(ids[j]) == roster[i];
      assert Knows(agents, ids[j]);
      KnowsTrimmed(agents, ids[j]);
    }
  }

  lemma NodeTwice(n: FlowNode, r: Registries)
    requires NodeOk(n, r)
    ensures NormNode(NormNode(n)) == NormNode(n) && NodeOk(NormNode(n), r)
    ensures Trim(NormNode(n).id) == Trim(n.id) && Trim(NormNode(n).column) == Trim(n.column)
  {
    TrimIdempotent(n.id);
    TrimIdempotent(n.column);
    TrimIdempotent(n.action);
    TrimIdempotent(n.deployID);
    RosterTwice(n.agentIDs);
    RosterStaysKnown(n.agentIDs, r.agents, r.agents);
    T.ToolsTwice(n.tools);
  }

  lemma {:induction false} RosterTwice(ids: seq<string>)
    ensures NormRoster(NormRoster(ids)) == NormRoster(ids)
  {
    if ids != [] {
      var front, id := ids[..|ids| - 1], Trim(ids[|ids| - 1]);
      RosterTwice(front);
      var before := NormRoster(front);
      if !(id == "" || id in before) {
        TrimIdempotent(ids[|ids| - 1]);
        assert (before + [id])[..|before|] == before;
      }
    }
  }

  lemma EdgeTwice(e: FlowEdge, ids: set<string>)
    requires EdgeOk(e, ids)
    ensures NormEdge(NormEdge(e)) == NormEdge(e) && EdgeOk(NormEdge(e), ids)
    ensures Trim(NormEdge(e).from) == Trim(e.from) && Trim(NormEdge(e).on) == Trim(e.on)
  {
    TrimIdempotent(e.from);
    TrimIdempotent(e.to);
    TrimIdempotent(e.on);
    if e.cond.Some? {
      TrimIdempotent(e.cond.value.property);
      TrimIdempotent(e.cond.value.value);
      TrimIdempotent(e.cond.value.commentContains);
    }
  }

  // ---- what a refusal leaves --------------------------------------------------------

  lemma {:induction false} OkNodesSays(ns: seq<FlowNode>, r: Registries, from: nat)
    requires from <= |ns| && NodesOkTo(ns, from, r)
    ensures var k := OkNodes(ns, r, from); NodesOkTo(ns, k, r) && (k < |ns| ==> !NodesOkTo(ns, k + 1, r))
    decreases |ns| - from
  {
    if from < |ns| && NodesOkTo(ns, from + 1, r) {
      OkNodesSays(ns, r, from + 1);
    }
  }

  lemma {:induction false} OkEdgesSays(es: seq<FlowEdge>, ids: set<string>, from: nat)
    requires from <= |es| && EdgesOkTo(es, from, ids)
    ensures var k := OkEdges(es, ids, from); EdgesOkTo(es, k, ids) && (k < |es| ==> !EdgesOkTo(es, k + 1, ids))
    decreases |es| - from
  {
    if from < |es| && EdgesOkTo(es, from + 1, ids) {
      OkEdgesSays(es, ids, from + 1);
    }
  }

  lemma ApartOnTrims(a: FlowNode, b: FlowNode)
    ensures Apart(NormNode(a), b) == Apart(a, b) && Apart(a, NormNode(b)) == Apart(a, b)
  {
    TrimIdempotent(a.id);
    TrimIdempotent(a.column);
    TrimIdempotent(b.id);
    TrimIdempotent(b.column);
  }

  lemma ToldApartOnTrims(a: FlowEdge, b: FlowEdge)
    ensures ToldApart(NormEdge(a), b) == ToldApart(a, b) && ToldApart(a, NormEdge(b)) == ToldApart(a, b)
  {
    TrimIdempotent(a.from);
    TrimIdempotent(a.on);
    TrimIdempotent(b.from);
    TrimIdempotent(b.on);
  }

  lemma TidiedNodesPass(ns: seq<FlowNode>, r: Registries, k: nat)
    requires k <= |ns| && NodesOkTo(ns, k, r)
    ensures NodesOkTo(TidyNodes(ns, k), k, r) && TidyNodes(TidyNodes(ns, k), k) == TidyNodes(ns, k)
  {
    var ns' := TidyNodes(ns, k);
    forall i | 0 <= i < k ensures NodeOk(ns'[i], r) && NormNode(ns'[i]) == ns'[i] {
      assert NodeOk(ns[i], r);
      NodeTwice(ns[i], r);
    }
    forall i, j | 0 <= i < j < k ensures Apart(ns'[i], ns'[j]) {
      assert Apart(ns[i], ns[j]);
      ApartOnTrims(ns[i], ns[j]);
      ApartOnTrims(ns[i], ns'[j]);
    }
  }

  lemma TidiedNodesStop(ns: seq<FlowNode>, r: Registries, k: nat)
    requires k < |ns| && NodesOkTo(ns, k, r) && NodesOkTo(TidyNodes(ns, k), k + 1, r)
    ensures NodesOkTo(ns, k + 1, r)
  {
    var ns' := TidyNodes(ns, k);
    assert NodeOk(ns'[k], r);
    forall i | 0 <= i < k ensures Apart(ns[i], ns[k]) {
      assert Apart(ns'[i], ns'[k]);
      ApartOnTrims(ns[i], ns[k]);
    }
  }

  // Stages tidied up to where they were refused are refused there again.
  lemma TidiedNodesRefused(ns: seq<FlowNode>, r: Registries)
    requires !NodesOk(ns, r)
    ensures var k := OkNodes(ns, r);
            var ns' := TidyNodes(ns, k);
            !NodesOk(ns', r) && OkNodes(ns', r) == k && TidyNodes(ns', k) == ns'
  {
    OkNodesSays(ns, r, 0);
    var k := OkNodes(ns, r);
    var ns' := TidyNodes(ns, k);
    OkNodesEnds(ns, r, k);
    TidiedNodesPass(ns, r, k);
    if NodesOkTo(ns', k + 1, r) {
      TidiedNodesStop(ns, r, k);
    }
    OkNodesIs(ns', r, k, 0);
    OkNodesEnds(ns', r, k);
  }

  lemma TidiedEdgesPass(es: seq<FlowEdge>, ids: set<string>, k: nat)
    requires k <= |es| && EdgesOkTo(es, k, ids)
    ensures EdgesOkTo(TidyEdges(es, k), k, ids) && TidyEdges(TidyEdges(es, k), k) == TidyEdges(es, k)
  {
    var es' := TidyEdges(es, k);
    forall i | 0 <= i < k ensures EdgeOk(es'[i], ids) && NormEdge(es'[i]) == es'[i] {
      assert EdgeOk(es[i], ids);
      EdgeTwice(es[i], ids);
    }
    forall i, j | 0 <= i < j < k ensures ToldApart(es'[i], es'[j]) {
      assert ToldApart(es[i], es[j]);
      ToldApartOnTrims(es[i], es[j]);
      ToldApartOnTrims(es[i], es'[j]);
    }
  }

  lemma TidiedEdgesStop(es: seq<FlowEdge>, ids: set<string>, k: nat)
    requires k < |es| && EdgesOkTo(es, k, ids) && EdgesOkTo(TidyEdges(es, k), k + 1, ids)
    ensures EdgesOkTo(es, k + 1, ids)
  {
    var es' := TidyEdges(es, k);
    assert EdgeOk(es'[k], ids);
    forall i | 0 <= i < k ensures ToldApart(es[i], es[k]) {
      assert ToldApart(es'[i], es'[k]);
      ToldApartOnTrims(es[i], es[k]);
    }
  }

  lemma TidiedEdgesRefused(es: seq<FlowEdge>, ids: set<string>)
    requires !EdgesOk(es, ids)
    ensures var k := OkEdges(es, ids);
            var es' := TidyEdges(es, k);
            !EdgesOk(es', ids) && OkEdges(es', ids) == k && TidyEdges(es', k) == es'
  {
    OkEdgesSays(es, ids, 0);
    var k := OkEdges(es, ids);
    var es' := TidyEdges(es, k);
    TidiedEdgesPass(es, ids, k);
    if EdgesOkTo(es', k + 1, ids) {
      TidiedEdgesStop(es, ids, k);
    }
    OkEdgesIs(es', ids, k, 0);
  }

  lemma NodesTwice(ns: seq<FlowNode>, r: Registries)
    requires NodesOk(ns, r)
    ensures NodesOk(NormNodes(ns), r) && NormNodes(NormNodes(ns)) == NormNodes(ns) && Ids(NormNodes(ns)) == Ids(ns)
  {
    var ns' := NormNodes(ns);
    forall i | 0 <= i < |ns| ensures NodeOk(ns'[i], r) && NormNode(ns'[i]) == ns'[i] {
      assert NodeOk(ns[i], r);
      NodeTwice(ns[i], r);
    }
    forall i, j | 0 <= i < j < |ns| ensures Apart(ns'[i], ns'[j]) {
      assert Apart(ns[i], ns[j]);
      ApartOnTrims(ns[i], ns[j]);
      ApartOnTrims(ns[i], ns'[j]);
    }
    NormKeepsIds(ns, ns');
  }

  // A refused route, as it is left, is refused again and left as it is.
  lemma RefusedRouteStaysRefused(f: Flow, r: Registries)
    requires !Acceptable(f, r)
    ensures !Acceptable(Left(f, r), r) && Left(Left(f, r), r) == Left(f, r)
  {
    if NoLeftovers(f.nodes) && HeadOk(f.head, r) && f.nodes != [] {
      var h := Left(f, r);
      if !NodesOk(f.nodes, r) {
        TidiedNodesRefused(f.nodes, r);
        assert h.nodes != [];
      } else {
        NodesTwice(f.nodes, r);
        TidiedEdgesRefused(f.edges, Ids(f.nodes));
        assert h.nodes != [];
      }
    }
  }

  // ---- what validation leaves, said outright ----------------------------------------

  ghost predicate IsFirstOf(ids: seq<string>, id: string, i: nat) {
    i < |ids| && Trim(ids[i]) == id && forall k :: 0 <= k < i ==> Trim(ids[k]) != id
  }

  ghost predicate ComesBefore(ids: seq<string>, a: string, b: string) {
    exists i: nat, j: nat :: i < j && IsFirstOf(ids, a, i) && IsFirstOf(ids, b, j)
  }

  // The ids that are not blank, without the blanks around them, once each, in the order
  // they are first listed.
  ghost predicate IsRosterOf(ids: seq<string>, roster: seq<string>) {
    && (forall id :: id in roster <==> id != "" && exists i :: 0 <= i < |ids| && Trim(ids[i]) == id)
    && (forall a, b :: 0 <= a < b < |roster| ==> roster[a] != roster[b])
    && forall a, b :: 0 <= a < b < |roster| ==> ComesBefore(ids, roster[a], roster[b])
  }

  lemma {:induction false} FirstIsSomewhere(ids: seq<string>, id: string, i: nat) returns (k: nat)
    requires i < |ids| && Trim(ids[i]) == id
    ensures IsFirstOf(ids, id, k) && k <= i
  {
    if j :| 0 <= j < i && Trim(ids[j]) == id {
      k := FirstIsSomewhere(ids, id, j);
    } else {
      k := i;
    }
  }

  lemma FirstStays(ids: seq<string>, more: string, id: string, i: nat)
    requires IsFirstOf(ids, id, i)
    ensures IsFirstOf(ids + [more], id, i)
  {
  }

  lemma OrderStays(ids: seq<string>, more: string, a: string, b: string)
    requires ComesBefore(ids, a, b)
    ensures ComesBefore(ids + [more], a, b)
  {
    var i: nat, j: nat :| i < j && IsFirstOf(ids, a, i) && IsFirstOf(ids, b, j);
    FirstStays(ids, more, a, i);
    FirstStays(ids, more, b, j);
  }

  lemma NewestIsLast(ids: seq<string>, more: string, a: string)
    requires a in NormRoster(ids) && Trim(more) != "" && Trim(more) !in NormRoster(ids)
    ensures ComesBefore(ids + [more], a, Trim(more))
  {
    InRosterIsListed(ids, a);
    InRosterIsListed(ids, Trim(more));
    var at :| 0 <= at < |ids| && Trim(ids[at]) == a;
    var i := FirstIsSomewhere(ids, a, at);
    FirstStays(ids, more, a, i);
    assert IsFirstOf(ids + [more], Trim(more), |ids|);
  }

  lemma {:induction false} NormRosterIsIt(ids: seq<string>)
    ensures IsRosterOf(ids, NormRoster(ids))
  {
    forall id ensures id in NormRoster(ids) <==> id != "" && exists i :: 0 <= i < |ids| && Trim(ids[i]) == id {
      InRosterIsListed(ids, id);
    }
    if ids != [] {
      var front, more := ids[..|ids| - 1], ids[|ids| - 1];
      assert ids == front + [more];
      NormRosterIsIt(front);
      var before, roster := NormRoster(front), NormRoster(ids);
      forall a, b | 0 <= a < b < |roster| ensures roster[a] != roster[b] && ComesBefore(ids, roster[a], roster[b]) {
        if b < |before| {
          OrderStays(front, more, before[a], before[b]);
        } else {
          assert before[a] in before;
          NewestIsLast(front, more, before[a]);
        }
      }
    }
  }

  // The same stage: nothing of it is changed but the blanks around its words, and what its
  // roster repeats.
  ghost predicate IsTidyNode(n: FlowNode, v: FlowNode) {
    && v.id == Trim(n.id) && v.column == Trim(n.column) && v.action == Trim(n.action) && v.optionID == n.optionID
    && IsRosterOf(n.agentIDs, v.agentIDs) && v.deployID == Trim(n.deployID)
    && v.agentNames == n.agentNames && v.agentName == n.agentName && v.deployName == n.deployName
    && T.AreTidied(n.tools, v.tools) && v.rest == n.rest
  }

  ghost predicate IsTidyEdge(e: FlowEdge, v: FlowEdge) {
    && v.from == Trim(e.from) && v.to == Trim(e.to) && v.on == Trim(e.on) && (v.cond.None? <==> e.cond.None?)
    && (v.cond.Some? ==>
          && v.cond.value.property == Trim(e.cond.value.property) && v.cond.value.value == Trim(e.cond.value.value)
          && v.cond.value.commentContains == Trim(e.cond.value.commentContains))
  }

  ghost predicate IsTidyHead(h: FlowHead, v: FlowHead, minted: string) {
    && v.name == Trim(h.name) && v.property == Trim(h.property) && v.boardID == h.boardID
    && v.workspaceID == h.workspaceID && v.workdirName == h.workdirName
    && (if Trim(h.id) == "" then v.id == minted else v.id == h.id)
  }

  ghost predicate IsTidyRoute(f: Flow, v: Flow, minted: string) {
    && IsTidyHead(f.head, v.head, minted) && |v.nodes| == |f.nodes| && |v.edges| == |f.edges|
    && (forall i :: 0 <= i < |f.nodes| ==> IsTidyNode(f.nodes[i], v.nodes[i]))
    && forall i :: 0 <= i < |f.edges| ==> IsTidyEdge(f.edges[i], v.edges[i])
  }

  // A route a refusal has left: each part is as it was, or tidied.
  ghost predicate IsPartlyTidied(f: Flow, v: Flow) {
    && v.head == f.head && |v.nodes| == |f.nodes| && |v.edges| == |f.edges|
    && (forall i :: 0 <= i < |f.nodes| ==> v.nodes[i] == f.nodes[i] || IsTidyNode(f.nodes[i], v.nodes[i]))
    && forall i :: 0 <= i < |f.edges| ==> v.edges[i] == f.edges[i] || IsTidyEdge(f.edges[i], v.edges[i])
  }

  lemma NormNodeIsTidy(n: FlowNode)
    requires T.ToolsOk(n.tools)
    ensures IsTidyNode(n, NormNode(n))
  {
    NormRosterIsIt(n.agentIDs);
    T.NormToolsAreTidied(n.tools);
  }

  lemma NormalIsTidy(f: Flow, r: Registries, minted: string)
    requires NodesOk(f.nodes, r)
    ensures IsTidyRoute(f, Normal(f, minted), minted)
  {
    forall i | 0 <= i < |f.nodes| ensures IsTidyNode(f.nodes[i], NormNodes(f.nodes)[i]) {
      assert NodeOk(f.nodes[i], r);
      NormNodeIsTidy(f.nodes[i]);
    }
  }

  lemma TidiedNodesAreTidy(ns: seq<FlowNode>, r: Registries, k: nat)
    requires k <= |ns| && NodesFine(ns, k, r)
    ensures forall i :: 0 <= i < |ns| ==> TidyNodes(ns, k)[i] == ns[i] || IsTidyNode(ns[i], TidyNodes(ns, k)[i])
  {
    forall i | 0 <= i < k ensures IsTidyNode(ns[i], TidyNodes(ns, k)[i]) {
      assert NodeOk(ns[i], r);
      NormNodeIsTidy(ns[i]);
    }
  }

  lemma LeftIsPartlyTidied(f: Flow, r: Registries)
    ensures IsPartlyTidied(f, Left(f, r))
  {
    OkNodesSays(f.nodes, r, 0);
    TidiedNodesAreTidy(f.nodes, r, OkNodes(f.nodes, r));
    if NodesOk(f.nodes, r) {
      TidiedNodesAreTidy(f.nodes, r, |f.nodes|);
      assert NormNodes(f.nodes) == TidyNodes(f.nodes, |f.nodes|);
    }
  }

  lemma WhatItLeaves(f: Flow, r: Registries, minted: string)
    ensures Acceptable(f, r) <==> RouteFits(f, r)
    ensures if Acceptable(f, r) then IsTidyRoute(f, Normal(f, minted), minted) else IsPartlyTidied(f, Left(f, r))
  {
    AcceptedExactlyWhenItFits(f, r);
    LeftIsPartlyTidied(f, r);
    if Acceptable(f, r) {
      NormalIsTidy(f, r, minted);
    }
  }

  // ---- what is accepted, said outright -----------------------------------------------

  ghost predicate IsAmong(entries: seq<Entry>, id: string) {
    exists k :: 0 <= k < |entries| && entries[k].id == Trim(id)
  }

  // A stage is named and stands on a named column, does one of the things there are to do,
  // and refers only to agents and deploys there are.
  ghost predicate NodeFits(n: FlowNode, r: Registries) {
    && Trim(n.id) != "" && Trim(n.column) != "" && Trim(n.action) in {"", "none", "agent", "deploy", "test"}
    && (forall i :: 0 <= i < |n.agentIDs| ==> Trim(n.agentIDs[i]) == "" || IsAmong(r.agents, n.agentIDs[i]))
    && (Trim(n.deployID) == "" || IsAmong(r.deploys, n.deployID)) && T.AreFit(n.tools)
  }

  // It asks about the card, naming a property and a value; or for words, of an agent's own
  // outcome; and not both.
  ghost predicate CondFits(c: EdgeCond, on: string) {
    || (Trim(c.property) != "" && Trim(c.value) != "" && Trim(c.commentContains) == "")
    || (&& Trim(c.property) == "" && Trim(c.value) == "" && Trim(c.commentContains) != ""
        && on in {"success", "failure", "blocked"})
  }

  ghost predicate IsNamed(nodes: seq<FlowNode>, id: string) {
    exists i :: 0 <= i < |nodes| && Trim(nodes[i].id) == Trim(id)
  }

  // It joins stages of the route on a trigger there is, and one that waits for an option
  // of the card says which.
  ghost predicate EdgeFits(e: FlowEdge, nodes: seq<FlowNode>) {
    && IsNamed(nodes, e.from) && IsNamed(nodes, e.to)
    && Trim(e.on) in {"success", "failure", "blocked", "branch.pushed", "branch.merged", "pr.opened", "pr.merged", "pr.closed",
                      "review.approved", "checks.passed", "checks.failed", "card.changed"}
    && (e.cond.Some? ==> CondFits(e.cond.value, Trim(e.on)))
    && (Trim(e.on) == "card.changed" ==> e.cond.Some?)
  }

  ghost predicate HeadFits(h: FlowHead, r: Registries) {
    && Trim(h.name) != "" && h.workdirName == ""
    && (h.workspaceID == "" || (Trim(h.workspaceID) != "" && IsAmong(r.workdirs, h.workspaceID)))
  }

  ghost predicate RouteFits(f: Flow, r: Registries) {
    && HeadFits(f.head, r) && f.nodes != []
    && (forall i :: 0 <= i < |f.nodes| ==>
          NodeFits(f.nodes[i], r) && f.nodes[i].agentNames == [] && f.nodes[i].deployName == "")
    && (forall i, j :: 0 <= i < j < |f.nodes| ==>
          Trim(f.nodes[i].id) != Trim(f.nodes[j].id) && Fold(Trim(f.nodes[i].column)) != Fold(Trim(f.nodes[j].column)))
    && (forall i :: 0 <= i < |f.edges| ==> EdgeFits(f.edges[i], f.nodes))
    && forall i, j :: 0 <= i < j < |f.edges| && f.edges[i].cond.None? && f.edges[j].cond.None? ==>
          Trim(f.edges[i].from) != Trim(f.edges[j].from) || Trim(f.edges[i].on) != Trim(f.edges[j].on)
  }

  lemma NodeFitsWhen(n: FlowNode, r: Registries)
    ensures NodeOk(n, r) <==> NodeFits(n, r)
  {
    T.FitAreOk(n.tools);
    assert forall i :: 0 <= i < |n.agentIDs| ==>
      (Knows(r.agents, n.agentIDs[i]) <==> Trim(n.agentIDs[i]) == "" || IsAmong(r.agents, n.agentIDs[i]));
    assert Has(r.deploys, n.deployID) <==> Trim(n.deployID) != "" && IsAmong(r.deploys, n.deployID);
  }

  lemma EdgeFitsWhen(e: FlowEdge, nodes: seq<FlowNode>)
    ensures EdgeOk(e, Ids(nodes)) <==> EdgeFits(e, nodes)
  {
    TriggersAre(Trim(e.on));
    assert forall id :: Trim(id) in Ids(nodes) <==> IsNamed(nodes, id);
  }

  lemma NodesFitWhen(ns: seq<FlowNode>, r: Registries)
    ensures NodesOk(ns, r) && NoLeftovers(ns) <==>
            && (forall i :: 0 <= i < |ns| ==> NodeFits(ns[i], r) && ns[i].agentNames == [] && ns[i].deployName == "")
            && forall i, j :: 0 <= i < j < |ns| ==>
                 Trim(ns[i].id) != Trim(ns[j].id) && Fold(Trim(ns[i].column)) != Fold(Trim(ns[j].column))
  {
    forall i | 0 <= i < |ns| ensures NodeOk(ns[i], r) <==> NodeFits(ns[i], r) {
      NodeFitsWhen(ns[i], r);
    }
    assert NodesFine(ns, |ns|, r) <==> forall i :: 0 <= i < |ns| ==> NodeFits(ns[i], r);
    assert NodesApart(ns, |ns|) <==> forall i, j :: 0 <= i < j < |ns| ==> Apart(ns[i], ns[j]);
  }

  lemma EdgesFitWhen(es: seq<FlowEdge>, ns: seq<FlowNode>)
    ensures EdgesOk(es, Ids(ns)) <==>
            && (forall i :: 0 <= i < |es| ==> EdgeFits(es[i], ns))
            && forall i, j :: 0 <= i < j < |es| && es[i].cond.None? && es[j].cond.None? ==>
                 Trim(es[i].from) != Trim(es[j].from) || Trim(es[i].on) != Trim(es[j].on)
  {
    forall i | 0 <= i < |es| ensures EdgeOk(es[i], Ids(ns)) <==> EdgeFits(es[i], ns) {
      EdgeFitsWhen(es[i], ns);
    }
    assert EdgesFine(es, |es|, Ids(ns)) <==> forall i :: 0 <= i < |es| ==> EdgeFits(es[i], ns);
    assert EdgesTold(es, |es|) <==> forall i, j :: 0 <= i < j < |es| ==> ToldApart(es[i], es[j]);
  }

  // A route is accepted exactly when it fits, whatever order it is looked at in.
  lemma AcceptedExactlyWhenItFits(f: Flow, r: Registries)
    ensures Acceptable(f, r) <==> RouteFits(f, r)
  {
    NodesFitWhen(f.nodes, r);
    EdgesFitWhen(f.edges, f.nodes);
    assert Has(r.workdirs, f.head.workspaceID) <==> Trim(f.head.workspaceID) != "" && IsAmong(r.workdirs, f.head.workspaceID);
  }
}
