/** Registering what a board was missing: the next reading takes in what was held
    back for want of it (internal/acp/boardseed.go, bindrefs.go, columns.go). */
module Healing {
  import opened Text
  import opened Flows
  import opened Columns
  import opened Binding
  import opened Adoption
  import opened BoardSeed
  import opened Ownership
  import opened Boards
  import A = Agents
  import Crew

  // The machine's registries grew; the board's own options are what they were.
  ghost predicate LearnedMore(m: Machine, m': Machine) {
    && (forall id :: Has(m.r.agents, id) ==> Has(m'.r.agents, id))
    && (forall id :: Has(m.r.deploys, id) ==> Has(m'.r.deploys, id))
    && (forall id :: Has(m.r.workdirs, id) ==> Has(m'.r.workdirs, id))
    && m'.option == m.option
  }

  lemma RegisteringAgentsIsLearning(workdirs: seq<Entry>, agents: seq<A.Agent>, more: seq<A.Agent>, deploys: seq<Entry>,
                                    options: seq<BoardOption>)
    ensures LearnedMore(MachineOf(workdirs, agents, deploys, options), MachineOf(workdirs, agents + more, deploys, options))
  {
    forall id | Has(AgentEntries(agents), id) ensures Has(AgentEntries(agents + more), id) {
      var i :| 0 <= i < |agents| && AgentEntries(agents)[i].id == Trim(id);
      assert AgentEntries(agents + more)[i].id == Trim(id);
    }
  }

  // ---- nothing settled comes undone -----------------------------------------------

  lemma ColumnStaysSettled(m: Machine, m': Machine, boardID: string, e: Column)
    requires LearnedMore(m, m') && Settled(ColumnRules(m, boardID), e)
    ensures Settled(ColumnRules(m', boardID), e)
  {
    SettledColumnIsBound(m, boardID, e);
    assert Placed(e, boardID, m') == Placed(e, boardID, m);
    ColumnStaysOk(m, m', e);
    BoundColumnIsSettled(m', boardID, e);
  }

  lemma ColumnStaysOk(m: Machine, m': Machine, e: Column)
    requires LearnedMore(m, m') && ColumnOk(e, m.r)
    ensures ColumnOk(e, m'.r)
  {
    KnownStay(m, m', e.agentIDs);
  }

  lemma KnownStay(m: Machine, m': Machine, ids: seq<string>)
    requires LearnedMore(m, m') && RosterKnown(ids, m.r.agents)
    ensures RosterKnown(ids, m'.r.agents)
  {
    forall i | 0 <= i < |ids| ensures Knows(m'.r.agents, ids[i]) {
      assert Knows(m.r.agents, ids[i]);
    }
  }

  lemma ColumnsKnowMore(m: Machine, m': Machine, boardID: string)
    requires LearnedMore(m, m')
    ensures KnowsMore(ColumnRules(m, boardID), ColumnRules(m', boardID))
  {
    forall e {
      SettledColumnStays(m, m', boardID, e);
    }
  }

  lemma SettledColumnStays(m: Machine, m': Machine, boardID: string, e: Column)
    requires LearnedMore(m, m')
    ensures Settled(ColumnRules(m, boardID), e) ==> Settled(ColumnRules(m', boardID), e)
  {
    if Settled(ColumnRules(m, boardID), e) {
      ColumnStaysSettled(m, m', boardID, e);
    }
  }

  lemma NodeStaysBound(m: Machine, m': Machine, n: FlowNode)
    requires LearnedMore(m, m') && NodeBound(n, m) && n.agentNames == [] && n.deployName == ""
    ensures NodeBound(n, m')
  {
    assert n.agentName == "";
    NothingToBindHere(n, m');
  }

  lemma RouteStaysAcceptable(m: Machine, m': Machine, e: Flow)
    requires LearnedMore(m, m') && Acceptable(e, m.r)
    ensures Acceptable(e, m'.r)
  {
    forall i | 0 <= i < |e.nodes| ensures NodeOk(e.nodes[i], m'.r) {
      assert NodeOk(e.nodes[i], m.r);
      KnownStay(m, m', e.nodes[i].agentIDs);
    }
  }

  // What a settled route looks like.
  lemma SettledRouteIsBound(m: Machine, boardID: string, e: Flow)
    requires Settled(RouteRules(m, boardID), e)
    ensures RouteBound(e, m, boardID) && Acceptable(e, m.r) && forall mint: Mint :: Normal(e, mint) == e
  {
    var r := RouteRules(m, boardID);
    PreparedRouteIsBound(e, m, boardID);
    assert r.valid(e, "m") == Some(e);
    forall mint: Mint ensures Normal(e, mint) == e {
      assert r.valid(e, mint) == Some(e);
    }
  }

  lemma RouteStaysSettled(m: Machine, m': Machine, boardID: string, e: Flow)
    requires LearnedMore(m, m') && Settled(RouteRules(m, boardID), e)
    ensures Settled(RouteRules(m', boardID), e)
  {
    SettledRouteIsBound(m, boardID, e);
    RouteStaysAcceptable(m, m', e);
    forall i | 0 <= i < |e.nodes| ensures NodeBound(e.nodes[i], m') {
      assert NodeBound(e.nodes[i], m);
      NodeStaysBound(m, m', e.nodes[i]);
    }
    assert Trim("") == "";
    assert RouteBound(e, m', boardID);
    BoundRouteStays(e, m', boardID);
  }

  lemma RoutesKnowMore(m: Machine, m': Machine, boardID: string)
    requires LearnedMore(m, m')
    ensures KnowsMore(RouteRules(m, boardID), RouteRules(m', boardID))
  {
    forall e | Settled(RouteRules(m, boardID), e) ensures Settled(RouteRules(m', boardID), e) {
      RouteStaysSettled(m, m', boardID, e);
    }
  }

  // ---- what a re-read adopts -------------------------------------------------------------

  lemma HeldColumnsAreQuiet(m: Machine, boardID: string, columns: seq<Column>, held: seq<Column>,
                             mint: nat -> Mint, from: nat)
    requires boardID != "" && forall i :: 0 <= i < |columns| ==> Elsewhere(boardID, columns[i].boardID)
    ensures HeldAreQuiet(ColumnRules(m, boardID), columns, held, mint, from)
  {
    forall k | 0 <= k < |held| ensures Quiet(ColumnRules(m, boardID), columns, held[k], mint(from + k)) {
      PreparedIsOwn(m, boardID, held[k]);
    }
  }

  // After more is registered, a re-read leaves every column on the board: those it
  // can use now in the registry, the others held back still.
  lemma ReReadingHealsColumns(m: Machine, m': Machine, boardID: string, columns: seq<Column>, said: seq<Column>,
                              mint: nat -> Mint, again: nat -> Mint, cs: Reading<Column>, board: seq<Column>)
    requires NamesTrimmed(m) && NamesTrimmed(m') && LearnedMore(m, m')
    requires boardID != "" && forall i :: 0 <= i < |columns| ==> Elsewhere(boardID, columns[i].boardID)
    requires cs == Adopt(ColumnRules(m, boardID), Reading(columns, []), said, mint)
    requires board == WriteBack(ColumnRules(m, boardID), cs)
    ensures var twice := Adopt(ColumnRules(m', boardID), Reading(cs.registry, []), board, again);
            SurviveAll(ColumnRules(m', boardID), twice, board, again)
  {
    var r, r' := ColumnRules(m, boardID), ColumnRules(m', boardID);
    ColumnsElsewhereAreSilent(m, boardID, columns, said, mint);
    HeldColumnsAreQuiet(m', boardID, columns, cs.held, again, |Own(r, cs.registry)|);
    ColumnsAreLawful(m, boardID);
    ColumnsAreLawful(m', boardID);
    ColumnsKnowMore(m, m', boardID);
    ReReadingHeals(r, r', columns, said, mint, again, cs);
  }

  // What is held back has the id it had on the board.
  lemma {:induction false} HeldKeepTheirIDs(m: Machine, boardID: string, was: Reading<Flow>, said: seq<Flow>,
                                            mint: nat -> Mint, k: nat)
    requires k <= |said| && forall h :: h in was.held ==> IDIsSaid(said, h)
    ensures forall h :: h in Adopt(RouteRules(m, boardID), was, said, mint, k).held ==> IDIsSaid(said, h)
    decreases |said| - k
  {
    var r := RouteRules(m, boardID);
    if k < |said| {
      var next := AdoptOne(r, was, said[k], mint(k));
      forall h | h in next.held ensures IDIsSaid(said, h) {
        if h !in was.held {
          assert h == Left(PrepareRoute(m, boardID)(said[k]), m.r) && h.head.id == said[k].head.id;
        }
      }
      HeldKeepTheirIDs(m, boardID, next, said, mint, k + 1);
    }
  }

  predicate NewTo(flows: seq<Flow>, id: string) {
    forall i :: 0 <= i < |flows| ==> flows[i].head.id != id
  }

  predicate IDIsSaid(said: seq<Flow>, h: Flow) {
    exists j :: 0 <= j < |said| && said[j].head.id == h.head.id
  }

  // So the others' routes, with ids none of this board's has or will be given, do not
  // answer for it either.
  lemma HeldRoutesAreQuiet(m: Machine, m': Machine, boardID: string, flows: seq<Flow>, said: seq<Flow>,
                           mint: nat -> Mint, again: nat -> Mint, fs: Reading<Flow>)
    requires boardID != "" && RoutesElsewhere(boardID, flows, said, mint)
    requires fs == Adopt(RouteRules(m, boardID), Reading(flows, []), said, mint)
    requires forall k :: 0 <= k < |WriteBack(RouteRules(m, boardID), fs)| ==> NewTo(flows, again(k))
    ensures HeldAreQuiet(RouteRules(m', boardID), flows, fs.held, again, |Own(RouteRules(m, boardID), fs.registry)|)
  {
    var from := |Own(RouteRules(m, boardID), fs.registry)|;
    HeldKeepTheirIDs(m, boardID, Reading(flows, []), said, mint, 0);
    forall k {:trigger fs.held[k]} | 0 <= k < |fs.held| ensures NewTo(flows, again(from + k)) {
      assert from + k < |WriteBack(RouteRules(m, boardID), fs)|;
    }
    AllAreQuiet(m', boardID, flows, said, mint, fs.held, again, from);
  }

  lemma AllAreQuiet(m: Machine, boardID: string, flows: seq<Flow>, said: seq<Flow>, mint: nat -> Mint,
                    held: seq<Flow>, again: nat -> Mint, from: nat)
    requires boardID != "" && RoutesElsewhere(boardID, flows, said, mint) && forall h :: h in held ==> IDIsSaid(said, h)
    requires forall k {:trigger held[k]} :: 0 <= k < |held| ==> NewTo(flows, again(from + k))
    ensures HeldAreQuiet(RouteRules(m, boardID), flows, held, again, from)
  {
    forall k | 0 <= k < |held| {
      HeldRouteIsQuiet(m, boardID, flows, said, mint, held[k], again(from + k));
    }
  }

  lemma HeldRouteIsQuiet(m: Machine, boardID: string, flows: seq<Flow>, said: seq<Flow>, mint: nat -> Mint, h: Flow, again: Mint)
    requires boardID != "" && RoutesElsewhere(boardID, flows, said, mint) && IDIsSaid(said, h)
    requires NewTo(flows, again)
    ensures Quiet(RouteRules(m, boardID), flows, h, again)
  {
    var p := PrepareRoute(m, boardID)(h);
    var j :| 0 <= j < |said| && said[j].head.id == h.head.id;
    if Acceptable(p, m.r) {
      var v := Normal(p, again);
      assert v.head.boardID == boardID && v.head.id in {h.head.id, again} && v.head.id != "";
      forall i | 0 <= i < |flows| ensures !SameRoute(flows[i], v) {
        assert flows[i].head.id != said[j].head.id && Elsewhere(boardID, flows[i].head.boardID);
      }
    }
  }

  lemma ReReadingHealsRoutes(m: Machine, m': Machine, boardID: string, flows: seq<Flow>, said: seq<Flow>,
                             mint: nat -> Mint, again: nat -> Mint, fs: Reading<Flow>, board: seq<Flow>)
    requires NamesTrimmed(m) && NamesTrimmed(m') && LearnedMore(m, m')
    requires boardID != "" && RoutesElsewhere(boardID, flows, said, mint)
    requires fs == Adopt(RouteRules(m, boardID), Reading(flows, []), said, mint)
    requires board == WriteBack(RouteRules(m, boardID), fs)
    requires forall k :: 0 <= k < |board| ==> NewTo(flows, again(k))
    ensures var twice := Adopt(RouteRules(m', boardID), Reading(fs.registry, []), board, again);
            SurviveAll(RouteRules(m', boardID), twice, board, again)
  {
    var r, r' := RouteRules(m, boardID), RouteRules(m', boardID);
    RoutesElsewhereAreSilent(m, boardID, flows, said, mint);
    HeldRoutesAreQuiet(m, m', boardID, flows, said, mint, again, fs);
    RoutesAreLawful(m, boardID);
    RoutesAreLawful(m', boardID);
    RoutesKnowMore(m, m', boardID);
    ReReadingHeals(r, r', flows, said, mint, again, fs);
  }

  // The ids names resolve to are ids the registry has.
  ghost predicate CrewIsKnown(m: Machine) {
    forall name :: m.crew(name).Known? ==> Has(m.r.agents, m.crew(name).id)
  }

  lemma RegisteredCrewIsKnown(workdirs: seq<Entry>, agents: seq<A.Agent>, deploys: seq<Entry>, options: seq<BoardOption>)
    requires forall a :: a in agents ==> Trim(a.id) == a.id
    ensures CrewIsKnown(MachineOf(workdirs, agents, deploys, options))
  {
    forall name | Crew.Resolve(agents, name).Known? ensures Has(AgentEntries(agents), Crew.Resolve(agents, name).id) {
      var a := A.AgentByName(agents, name).value;
      var i :| 0 <= i < |agents| && agents[i] == a;
      assert AgentEntries(agents)[i].id == a.id;
    }
  }

  // A column with nothing against it but the names it was left with is adopted
  // exactly when every one of them is an agent now.
  lemma HeldColumnIsAdoptedWhen(m: Machine, boardID: string, h: Column, mint: Mint)
    requires CrewIsKnown(m) && h.deployName == "" && ColumnOk(h.(agentNames := []), m.r)
    ensures ColumnRules(m, boardID).valid(PrepareColumn(m, boardID)(h), mint).Some? <==>
            forall i :: 0 <= i < |h.agentNames| ==> !m.crew(h.agentNames[i]).Unknown?
  {
    var placed := BindColumnOption(h, boardID, m).(boardID := boardID);
    var p := BindColumnRefs(placed, m);
    assert Trim("") == "";
    assert p.agentIDs == Crew.Bound(h.agentIDs, h.agentNames, m.crew) && p.agentNames == Crew.Kept(h.agentNames, m.crew);
    assert p.deployID == h.deployID && p.deployName == "";
    NothingKept(h.agentNames, m.crew);
    BoundRosterOk(m, h.agentIDs, h.agentNames);
    assert ColumnOk(p, m.r) <==> p.agentNames == [];
  }

  lemma {:induction false} NothingKept(names: seq<string>, who: Crew.Resolver)
    ensures Crew.Kept(names, who) == [] <==> forall i :: 0 <= i < |names| ==> !who(names[i]).Unknown?
  {
    if names != [] {
      NothingKept(names[1..], who);
      assert forall i :: 0 < i < |names| ==> names[i] == names[1..][i - 1];
      assert forall i :: 0 <= i < |names| - 1 ==> names[1..][i] == names[i + 1];
    }
  }

  lemma BoundRosterOk(m: Machine, ids: seq<string>, names: seq<string>)
    requires CrewIsKnown(m) && RosterKnown(ids, m.r.agents)
    ensures RosterKnown(Crew.Bound(ids, names, m.crew), m.r.agents)
  {
    var added := Crew.BoundAdds(ids, names, m.crew);
    var bound := ids + added;
    forall i | 0 <= i < |bound| ensures Knows(m.r.agents, bound[i]) {
      if i < |ids| {
        assert Knows(m.r.agents, ids[i]);
      } else {
        assert added[i - |ids|] in added && Crew.Names(names, m.crew, bound[i]);
        var k :| 0 <= k < |names| && m.crew(names[k]) == Crew.Known(bound[i]);
      }
    }
  }

  // ---- what is held back exactly as it came ---------------------------------------------

  // What is held back is not what the board said, though: whatever of it did resolve
  // is bound, and of a route whatever was looked at before the refusal is tidied.

  // A pin that has its id, or names nothing, or nothing this machine knows.
  predicate PinStays(id: string, name: string, find: string -> Option<string>) {
    Trim(id) != "" || Trim(name) == "" || find(name).None?
  }

  // An option that is there already, or that the board does not have.
  predicate OptionStays(optionID: string, column: string, m: Machine) {
    optionID != "" || m.option(column).None? || m.option(column).value.optionID == ""
  }

  predicate PlaceStays(m: Machine, boardID: string, c: Column) {
    && c.boardID == boardID && OptionStays(c.optionID, c.column, m)
    && (c.optionID == "" && m.option(c.column).Some? ==> m.option(c.column).value.propertyID == c.propertyID)
  }

  predicate ColumnStays(m: Machine, boardID: string, c: Column) {
    PlaceStays(m, boardID, c) && RefsStay(m, c)
  }

  lemma {:induction false} NoneBound(ids: seq<string>, names: seq<string>, who: Crew.Resolver)
    requires Crew.NoneResolves(names, who, |names|)
    ensures Crew.Bound(ids, names, who) == ids
    decreases |names|
  {
    if names != [] {
      var rest := names[1..];
      assert forall j :: 0 <= j < |rest| ==> rest[j] == names[j + 1];
      NoneBound(ids, rest, who);
    }
  }

  lemma CrewStaysWhen(ids: seq<string>, names: seq<string>, who: Crew.Resolver)
    ensures Crew.Kept(names, who) == names <==> Crew.NoneResolves(names, who, |names|)
    ensures Crew.NoneResolves(names, who, |names|) ==> Crew.Bound(ids, names, who) == ids
  {
    Crew.KeptAll(names, who);
    if Crew.NoneResolves(names, who, |names|) {
      NoneBound(ids, names, who);
    }
  }

  lemma PinStaysWhen(id: string, name: string, m: Machine)
    ensures BindDeploy(id, name, m) == (id, name) <==> PinStays(id, name, m.deploy)
    ensures BindDeploy(id, name, m).1 == name <==> PinStays(id, name, m.deploy)
  {
    assert Trim("") == "";
  }

  // A column is handed back as it came exactly when it is on its board and on its
  // option, and no name in it, or no name at all, means anything here.
  lemma ColumnIsHeldVerbatimWhen(m: Machine, boardID: string, c: Column)
    ensures var r := ColumnRules(m, boardID); r.left(r.prepare(c)) == c <==> ColumnStays(m, boardID, c)
  {
    var placed := BindColumnOption(c, boardID, m).(boardID := boardID);
    PlaceStaysWhen(m, boardID, c);
    RefsStayWhen(m, placed);
    assert PrepareColumn(m, boardID)(c) == BindColumnRefs(placed, m);
  }

  lemma PlaceStaysWhen(m: Machine, boardID: string, c: Column)
    ensures var placed := BindColumnOption(c, boardID, m).(boardID := boardID);
            && (placed == c <==> PlaceStays(m, boardID, c))
            && placed == c.(boardID := placed.boardID, propertyID := placed.propertyID, optionID := placed.optionID)
  {
  }

  predicate RefsStay(m: Machine, c: Column) {
    PinStays(c.deployID, c.deployName, m.deploy) && Crew.NoneResolves(c.agentNames, m.crew, |c.agentNames|)
  }

  lemma RefsStayWhen(m: Machine, c: Column)
    ensures var p := BindColumnRefs(c, m);
            && (p == c <==> RefsStay(m, c)) && (p.agentNames == c.agentNames && p.deployName == c.deployName ==> p == c)
            && p.boardID == c.boardID && p.propertyID == c.propertyID && p.optionID == c.optionID
  {
    CrewStaysWhen(c.agentIDs, c.agentNames, m.crew);
    PinStaysWhen(c.deployID, c.deployName, m);
  }

  predicate NodeStays(m: Machine, n: FlowNode) {
    && OptionStays(n.optionID, n.column, m) && PinStays(n.deployID, n.deployName, m.deploy)
    && n.agentName == "" && Crew.NoneResolves(n.agentNames, m.crew, |n.agentNames|)
  }

  predicate RouteStays(m: Machine, boardID: string, f: Flow) {
    && f.head.boardID == boardID && PinStays(f.head.workspaceID, f.head.workdirName, m.workdir)
    && forall i :: 0 <= i < |f.nodes| ==> NodeStays(m, f.nodes[i])
  }

  // What of a route is looked at before it is refused is in its normal form.
  predicate TidyAlready(f: Flow, r: Registries) {
    !NoLeftovers(f.nodes) || !HeadOk(f.head, r) || f.nodes == [] ||
    if !NodesOk(f.nodes, r) then forall i :: 0 <= i < OkNodes(f.nodes, r) ==> NormNode(f.nodes[i]) == f.nodes[i]
    else
      && (forall i :: 0 <= i < |f.nodes| ==> NormNode(f.nodes[i]) == f.nodes[i])
      && (forall i :: 0 <= i < OkEdges(f.edges, Ids(f.nodes)) ==> NormEdge(f.edges[i]) == f.edges[i])
  }

  function Prepared(m: Machine, n: FlowNode): FlowNode {
    BindNodeRefs(BindStageOption(n, m), m)
  }

  // A stage, bound and perhaps tidied, is as it came only if it was so when bound.
  lemma NodeStaysWhen(m: Machine, n: FlowNode)
    ensures Prepared(m, n) == n <==> NodeStays(m, n)
    ensures NormNode(Prepared(m, n)) == n ==> Prepared(m, n) == n
  {
    CrewStaysWhen(n.agentIDs, CrewNames(n), m.crew);
    PinStaysWhen(n.deployID, n.deployName, m);
    var p := Prepared(m, n);
    assert p.agentName == "" && p.agentNames == Crew.Kept(CrewNames(n), m.crew);
    assert p.deployName == BindDeploy(n.deployID, n.deployName, m).1;
    assert NormNode(p).agentName == "" && NormNode(p).agentNames == p.agentNames && NormNode(p).deployName == p.deployName;
    assert NormNode(p).optionID == p.optionID;
  }

  lemma LeftStage(f: Flow, r: Registries, i: nat)
    requires i < |f.nodes|
    ensures var g := Left(f, r);
            |g.nodes| == |f.nodes| && g.head == f.head && g.nodes[i] in {f.nodes[i], NormNode(f.nodes[i])}
  {
  }

  lemma LeftIsTidy(f: Flow, r: Registries)
    ensures Left(f, r) == f <==> TidyAlready(f, r)
  {
    if NoLeftovers(f.nodes) && HeadOk(f.head, r) && f.nodes != [] {
      if NodesOk(f.nodes, r) {
        TidyEdgesWhen(f.edges, OkEdges(f.edges, Ids(f.nodes)));
        TidyNodesWhen(f.nodes, |f.nodes|);
        assert TidyNodes(f.nodes, |f.nodes|) == NormNodes(f.nodes);
      } else {
        TidyNodesWhen(f.nodes, OkNodes(f.nodes, r));
      }
    }
  }

  lemma TidyNodesWhen(ns: seq<FlowNode>, k: nat)
    requires k <= |ns|
    ensures TidyNodes(ns, k) == ns <==> forall i :: 0 <= i < k ==> NormNode(ns[i]) == ns[i]
  {
    forall i | 0 <= i < |ns| ensures TidyNodes(ns, k)[i] == if i < k then NormNode(ns[i]) else ns[i] {
    }
  }

  lemma TidyEdgesWhen(es: seq<FlowEdge>, k: nat)
    requires k <= |es|
    ensures TidyEdges(es, k) == es <==> forall i :: 0 <= i < k ==> NormEdge(es[i]) == es[i]
  {
    forall i | 0 <= i < |es| ensures TidyEdges(es, k)[i] == if i < k then NormEdge(es[i]) else es[i] {
    }
  }

  lemma WorkspaceStaysWhen(h: FlowHead, boardID: string, m: Machine)
    ensures BindWorkspace(h.(boardID := boardID), m) == h <==>
            h.boardID == boardID && PinStays(h.workspaceID, h.workdirName, m.workdir)
  {
    assert Trim("") == "";
  }

  // Likewise a route, which must be in its normal form besides, as far as it is
  // looked at.
  lemma RouteIsHeldVerbatimWhen(m: Machine, boardID: string, f: Flow)
    ensures var r := RouteRules(m, boardID);
            r.left(r.prepare(f)) == f <==> RouteStays(m, boardID, f) && TidyAlready(f, m.r)
  {
    var p := PrepareRoute(m, boardID)(f);
    var g := Left(p, m.r);
    WorkspaceStaysWhen(f.head, boardID, m);
    forall i | 0 <= i < |f.nodes|
      ensures p.nodes[i] == f.nodes[i] <==> NodeStays(m, f.nodes[i])
      ensures g.nodes[i] == f.nodes[i] ==> p.nodes[i] == f.nodes[i]
    {
      assert p.nodes[i] == Prepared(m, f.nodes[i]);
      NodeStaysWhen(m, f.nodes[i]);
      LeftStage(p, m.r, i);
    }
    LeftIsTidy(f, m.r);
    assert p.edges == f.edges && (f.nodes != [] ==> g.head == p.head);
    if forall i :: 0 <= i < |f.nodes| ==> p.nodes[i] == f.nodes[i] {
      assert p.nodes == f.nodes;
    }
  }

  // So a refused column with a name that did resolve is not what the board said.
  lemma HeldBackIsNotVerbatim(m: Machine, boardID: string, c: Column, mint: Mint, known: nat, unknown: nat)
    requires known < |c.agentNames| && unknown < |c.agentNames|
    requires m.crew(c.agentNames[known]).Known? && m.crew(c.agentNames[unknown]).Unknown?
    ensures var r := ColumnRules(m, boardID); r.valid(r.prepare(c), mint) == None && r.left(r.prepare(c)) != c
  {
    ColumnIsHeldVerbatimWhen(m, boardID, c);
    NothingKept(c.agentNames, m.crew);
  }
}
