/** A board's columns and routes: what reading the board registers, what it holds
    back, and what is written to the board again (internal/acp/boardseed.go,
    columns.go, flows.go). The general argument is in Adoption; here are the two sets
    of rules it is about, and the loops that follow them. */
module BoardSeed {
  import opened Text
  import opened Flows
  import opened Columns
  import opened Binding
  import opened Adoption
  import Crew

  // ---- columns -------------------------------------------------------------------

  function PrepareColumn(m: Machine, boardID: string): Column -> Column {
    (c: Column) => BindColumnRefs(BindColumnOption(c, boardID, m).(boardID := boardID), m)
  }

  function ValidColumn(m: Machine): (Column, Mint) -> Option<Column> {
    (c: Column, mint: Mint) => if ColumnOk(c, m.r) then Some(NormColumn(c)) else None
  }

  // The board knows which option a name turned out to be: the registry's entry takes
  // that, and keeps its own behaviour.
  function TakeOption(existing: Column, valid: Column): Column {
    if existing.optionID == "" && valid.optionID != "" then
      existing.(boardID := valid.boardID, propertyID := valid.propertyID, optionID := valid.optionID)
    else existing
  }

  function MeldColumn(m: Machine): (Column, Column) -> Column {
    (existing: Column, valid: Column) => BindColumnRefs(TakeOption(existing, valid), m)
  }

  function ColumnOf(boardID: string): Column -> bool {
    (c: Column) => c.boardID == boardID
  }

  predicate Unbound(c: Column) {
    c.optionID == ""
  }

  predicate ColumnStands(e: Column, v: Column) {
    SameColumn(e, v) && (e.optionID != "" || v.optionID == "")
  }

  function LeftAsIs(c: Column): Column {
    c
  }

  function ColumnRules(m: Machine, boardID: string): Rules<Column> {
    Rules(PrepareColumn(m, boardID), ValidColumn(m), LeftAsIs, SameColumn, MeldColumn(m),
          ColumnOf(boardID), Unbound, ColumnStands)
  }

  lemma AcceptedColumnIsBound(c: Column, boardID: string, m: Machine)
    requires NamesTrimmed(m) && ColumnOk(PrepareColumn(m, boardID)(c), m.r)
    ensures var v := NormColumn(PrepareColumn(m, boardID)(c));
            PrepareColumn(m, boardID)(v) == v && ColumnOk(v, m.r) && NormColumn(v) == v
  {
    var p := PrepareColumn(m, boardID)(c);
    var v := NormColumn(p);
    AcceptedColumnStays(p, m.r, m.r);
    assert m.option(v.column) == m.option(p.column);
    assert BindColumnOption(v, boardID, m).(boardID := boardID) == v;
    NothingToBind(v, m);
  }

  lemma RefusedColumnIsBound(c: Column, boardID: string, m: Machine)
    ensures var p := PrepareColumn(m, boardID)(c); PrepareColumn(m, boardID)(p) == p
  {
    var b := BindColumnOption(c, boardID, m).(boardID := boardID);
    var p := BindColumnRefs(b, m);
    ColumnRefsTwice(b, m);
    assert BindColumnOption(p, boardID, m).(boardID := boardID) == p;
  }

  lemma ColumnsPrepareSettles(m: Machine, boardID: string)
    requires NamesTrimmed(m)
    ensures PreparingSettles(ColumnRules(m, boardID))
  {
    var r := ColumnRules(m, boardID);
    forall c, mint: Mint | r.valid(r.prepare(c), mint).Some?
      ensures var v := r.valid(r.prepare(c), mint).value; r.own(v) && r.stands(v, v) && Settled(r, v)
    {
      AcceptedColumnIsBound(c, boardID, m);
    }
    forall c, mint: Mint | r.valid(r.prepare(c), mint).None? ensures HeldFast(r, r.left(r.prepare(c))) {
      RefusedColumnIsBound(c, boardID, m);
    }
  }

  function Placed(c: Column, boardID: string, m: Machine): Column {
    BindColumnOption(c, boardID, m).(boardID := boardID)
  }

  // What a settled column looks like.
  predicate BoundColumn(m: Machine, boardID: string, e: Column) {
    Placed(e, boardID, m) == e && ColumnOk(e, m.r) && NormColumn(e) == e
  }

  lemma SettledColumnIsBound(m: Machine, boardID: string, e: Column)
    requires Settled(ColumnRules(m, boardID), e)
    ensures BoundColumn(m, boardID, e)
  {
    var r := ColumnRules(m, boardID);
    assert r.valid(e, "m") == Some(e);
    assert r.prepare(e) == BindColumnRefs(Placed(e, boardID, m), m);
  }

  lemma BoundColumnIsSettled(m: Machine, boardID: string, e: Column)
    requires BoundColumn(m, boardID, e)
    ensures Settled(ColumnRules(m, boardID), e)
  {
    NothingToBind(e, m);
  }

  lemma BoundColumnMelds(m: Machine, boardID: string, e: Column, v: Column)
    requires BoundColumn(m, boardID, e) && BoundColumn(m, boardID, v)
    ensures BoundColumn(m, boardID, TakeOption(e, v)) && MeldColumn(m)(e, v) == TakeOption(e, v)
  {
    var t := TakeOption(e, v);
    NothingToBind(t, m);
    assert t.boardID == boardID && Placed(t, boardID, m) == t;
  }

  // Binding references does not change which column it is.
  predicate SameIdentity(a: Column, b: Column) {
    a.boardID == b.boardID && a.optionID == b.optionID && a.column == b.column
  }

  lemma MeldIsTake(m: Machine, e: Column, v: Column)
    ensures SameIdentity(MeldColumn(m)(e, v), TakeOption(e, v))
  {
  }

  lemma TakenStands(e: Column, v: Column, t: Column, boardID: string)
    requires SameColumn(e, v) && v.boardID == boardID && t.boardID == boardID && SameIdentity(t, TakeOption(e, v))
    ensures ColumnStands(t, v)
  {
  }

  lemma TakenStillStands(e: Column, w: Column, v: Column, t: Column, boardID: string)
    requires e.boardID == boardID && w.boardID == boardID && ColumnStands(e, v) && SameIdentity(t, TakeOption(e, w))
    ensures t.boardID == boardID && ColumnStands(t, v)
  {
  }

  lemma TakenStaysApart(e: Column, x: Column, v: Column, t: Column, boardID: string)
    requires x.boardID == boardID && v.boardID == boardID && SameIdentity(t, TakeOption(x, v))
    requires (Unbound(e) || e.boardID != boardID) && !SameColumn(e, x)
    ensures !SameColumn(e, t)
  {
  }

  lemma ColumnsMeldKeeps(m: Machine, boardID: string)
    ensures MeldingKeeps(ColumnRules(m, boardID))
  {
    MeldedColumnsStand(m, boardID, ColumnRules(m, boardID));
    MeldedColumnsStillStand(m, boardID, ColumnRules(m, boardID));
  }

  lemma MeldedColumnsStand(m: Machine, boardID: string, r: Rules<Column>)
    requires r == ColumnRules(m, boardID)
    ensures forall e, v :: r.same(e, v) && r.own(v) && r.own(r.meld(e, v)) ==> r.stands(r.meld(e, v), v)
    ensures forall e, w :: r.same(e, w) && r.own(e) && r.own(w) ==> r.own(r.meld(e, w))
  {
    forall e, v | r.same(e, v) && r.own(v) && r.own(r.meld(e, v)) ensures r.stands(r.meld(e, v), v) {
      MeldedStands(m, boardID, e, v);
    }
    forall e, w | r.same(e, w) && r.own(e) && r.own(w) ensures r.own(r.meld(e, w)) {
      MeldIsTake(m, e, w);
    }
  }

  lemma MeldedColumnsStillStand(m: Machine, boardID: string, r: Rules<Column>)
    requires r == ColumnRules(m, boardID)
    ensures forall e, w, v :: r.same(e, w) && r.own(e) && r.own(w) && r.stands(e, v) ==> r.stands(r.meld(e, w), v)
  {
    forall e, w, v | r.same(e, w) && r.own(e) && r.own(w) && r.stands(e, v) ensures r.stands(r.meld(e, w), v) {
      MeldedStillStands(m, boardID, e, w, v);
    }
  }

  lemma MeldedStands(m: Machine, boardID: string, e: Column, v: Column)
    requires SameColumn(e, v) && v.boardID == boardID && MeldColumn(m)(e, v).boardID == boardID
    ensures ColumnStands(MeldColumn(m)(e, v), v)
  {
    MeldIsTake(m, e, v);
    TakenStands(e, v, MeldColumn(m)(e, v), boardID);
  }

  lemma MeldedStillStands(m: Machine, boardID: string, e: Column, w: Column, v: Column)
    requires e.boardID == boardID && w.boardID == boardID && ColumnStands(e, v)
    ensures ColumnStands(MeldColumn(m)(e, w), v)
  {
    MeldIsTake(m, e, w);
    TakenStillStands(e, w, v, MeldColumn(m)(e, w), boardID);
  }

  lemma SettledColumnsMeld(m: Machine, boardID: string, e: Column, v: Column)
    requires Settled(ColumnRules(m, boardID), e) && Settled(ColumnRules(m, boardID), v)
    ensures MeldSettles(ColumnRules(m, boardID), e, v)
  {
    SettledColumnIsBound(m, boardID, e);
    SettledColumnIsBound(m, boardID, v);
    BoundColumnMelds(m, boardID, e, v);
    BoundColumnIsSettled(m, boardID, TakeOption(e, v));
  }

  lemma MeldedStaysApart(m: Machine, boardID: string, e: Column, x: Column, v: Column)
    requires !SameColumn(e, x)
    ensures StaysApart(ColumnRules(m, boardID), e, x, v)
  {
    if x.boardID == boardID && v.boardID == boardID && (Unbound(e) || e.boardID != boardID) {
      MeldIsTake(m, x, v);
      TakenStaysApart(e, x, v, MeldColumn(m)(x, v), boardID);
    }
  }

  lemma ColumnsMeldSettles(m: Machine, boardID: string)
    ensures MeldingSettles(ColumnRules(m, boardID))
  {
    var r := ColumnRules(m, boardID);
    forall e, v | Settled(r, e) && Settled(r, v) && r.same(e, v) ensures MeldSettles(r, e, v) {
      SettledColumnsMeld(m, boardID, e, v);
    }
  }

  lemma ColumnsStayApart(m: Machine, boardID: string)
    ensures MeldingStaysApart(ColumnRules(m, boardID))
  {
    var r := ColumnRules(m, boardID);
    forall e, x, v | r.same(x, v) && !r.same(e, x) {
      MeldedStaysApart(m, boardID, e, x, v);
    }
  }

  lemma ColumnsAreLawful(m: Machine, boardID: string)
    requires NamesTrimmed(m)
    ensures Lawful(ColumnRules(m, boardID))
  {
    ColumnsPrepareSettles(m, boardID);
    ColumnsMeldKeeps(m, boardID);
    ColumnsMeldSettles(m, boardID);
    ColumnsStayApart(m, boardID);
  }

  // ---- routes --------------------------------------------------------------------

  // The same id, or, for one that has none yet, the same name on boards not known to
  // differ. The id is compared without the board.
  predicate SameFlow(a: Flow, b: Flow) {
    if a.head.id != "" && b.head.id != "" then a.head.id == b.head.id else NameTaken(a, b)
  }

  predicate NameTaken(a: Flow, b: Flow) {
    && EqualFold(Trim(a.head.name), Trim(b.head.name))
    && (a.head.boardID == b.head.boardID || a.head.boardID == "" || b.head.boardID == "")
  }

  predicate SameRoute(a: Flow, b: Flow) {
    SameFlow(a, b) || NameTaken(a, b)
  }

  // One id, whatever board it is on; or, of two that are not both given one, one name,
  // without the blanks around it and in any case, on boards that may be one. A route of
  // the registry answers for the board's when either holds.
  lemma SameRouteExactlyWhen(a: Flow, b: Flow)
    ensures NameTaken(a, b) <==>
            SameWords(Trim(a.head.name), Trim(b.head.name)) && MayBeOne(a.head.boardID, b.head.boardID)
    ensures SameFlow(a, b) <==>
            || a.head.id == b.head.id != ""
            || ((a.head.id == "" || b.head.id == "") && SameWords(Trim(a.head.name), Trim(b.head.name))
                && MayBeOne(a.head.boardID, b.head.boardID))
    ensures SameRoute(a, b) <==>
            || a.head.id == b.head.id != ""
            || (SameWords(Trim(a.head.name), Trim(b.head.name)) && MayBeOne(a.head.boardID, b.head.boardID))
  {
    SameInAnyCase(Trim(a.head.name), Trim(b.head.name));
  }

  function BindNodes(ns: seq<FlowNode>, m: Machine): (r: seq<FlowNode>)
    ensures |r| == |ns|
  {
    seq(|ns|, i requires 0 <= i < |ns| => BindNodeRefs(ns[i], m))
  }

  function PlaceNodes(ns: seq<FlowNode>, m: Machine): (r: seq<FlowNode>)
    ensures |r| == |ns|
  {
    seq(|ns|, i requires 0 <= i < |ns| => BindStageOption(ns[i], m))
  }

  function PrepareRoute(m: Machine, boardID: string): Flow -> Flow {
    (f: Flow) =>
      Flow(BindWorkspace(f.head.(boardID := boardID), m), BindNodes(PlaceNodes(f.nodes, m), m), f.edges)
  }

  function ValidRoute(m: Machine): (Flow, Mint) -> Option<Flow> {
    (f: Flow, mint: Mint) => if Acceptable(f, m.r) then Some(Normal(f, mint)) else None
  }

  function LeftRoute(m: Machine): Flow -> Flow {
    (f: Flow) => Left(f, m.r)
  }

  function MeldRoute(m: Machine): (Flow, Flow) -> Flow {
    (e: Flow, v: Flow) => Flow(BindWorkspace(e.head, m), BindNodes(e.nodes, m), e.edges)
  }

  function RouteOf(boardID: string): Flow -> bool {
    (f: Flow) => f.head.boardID == boardID
  }

  predicate NeverLoose(f: Flow) {
    false
  }

  function RouteRules(m: Machine, boardID: string): Rules<Flow> {
    Rules(PrepareRoute(m, boardID), ValidRoute(m), LeftRoute(m), SameRoute, MeldRoute(m),
          RouteOf(boardID), NeverLoose, SameRoute)
  }

  // ---- what is bound stays so ------------------------------------------------------

  predicate NodeBound(n: FlowNode, m: Machine) {
    BindStageOption(n, m) == n && BindNodeRefs(n, m) == n
  }

  predicate NodesBound(ns: seq<FlowNode>, m: Machine) {
    forall i :: 0 <= i < |ns| ==> NodeBound(ns[i], m)
  }

  lemma PreparedNodeIsBound(n: FlowNode, m: Machine)
    ensures NodeBound(BindNodeRefs(BindStageOption(n, m), m), m)
  {
    NodeRefsTwice(BindStageOption(n, m), m);
  }

  lemma NormNodeIsBound(n: FlowNode, m: Machine)
    requires NamesTrimmed(m) && NodeBound(n, m) && n.agentNames == [] && n.deployName == ""
    ensures NodeBound(NormNode(n), m)
  {
    assert n.agentName == "";
    NothingToBindHere(NormNode(n), m);
    assert m.option(Trim(n.column)) == m.option(n.column);
  }

  lemma PreparedNodesAreBound(ns: seq<FlowNode>, m: Machine)
    ensures NodesBound(BindNodes(PlaceNodes(ns, m), m), m)
  {
    forall i | 0 <= i < |ns| ensures NodeBound(BindNodes(PlaceNodes(ns, m), m)[i], m) {
      PreparedNodeIsBound(ns[i], m);
    }
  }

  lemma TidyNodesAreBound(ns: seq<FlowNode>, m: Machine, k: nat)
    requires NamesTrimmed(m) && NodesBound(ns, m) && NoLeftovers(ns)
    ensures NodesBound(TidyNodes(ns, k), m)
  {
    forall i | 0 <= i < |ns| ensures NodeBound(TidyNodes(ns, k)[i], m) {
      if i < k {
        NormNodeIsBound(ns[i], m);
      }
    }
  }

  lemma BoundNodesStay(ns: seq<FlowNode>, m: Machine)
    requires NodesBound(ns, m)
    ensures PlaceNodes(ns, m) == ns && BindNodes(ns, m) == ns
  {
    assert forall i :: 0 <= i < |ns| ==> NodeBound(ns[i], m);
  }

  // A route nothing of which is left to bind.
  predicate RouteBound(f: Flow, m: Machine, boardID: string) {
    f.head.boardID == boardID && BindWorkspace(f.head, m) == f.head && NodesBound(f.nodes, m)
  }

  lemma BoundRouteStays(f: Flow, m: Machine, boardID: string)
    requires RouteBound(f, m, boardID)
    ensures PrepareRoute(m, boardID)(f) == f && MeldRoute(m)(f, f) == f
  {
    BoundNodesStay(f.nodes, m);
  }

  lemma PreparedRouteIsBound(f: Flow, m: Machine, boardID: string)
    ensures RouteBound(PrepareRoute(m, boardID)(f), m, boardID)
  {
    PreparedNodesAreBound(f.nodes, m);
  }

  lemma NormalIsTidied(ns: seq<FlowNode>)
    ensures NormNodes(ns) == TidyNodes(ns, |ns|)
  {
  }

  lemma NormalRouteIsBound(f: Flow, m: Machine, boardID: string, mint: Mint)
    requires NamesTrimmed(m) && RouteBound(f, m, boardID) && Acceptable(f, m.r)
    ensures RouteBound(Normal(f, mint), m, boardID)
  {
    NormalIsTidied(f.nodes);
    TidyNodesAreBound(f.nodes, m, |f.nodes|);
  }

  lemma LeftRouteIsBound(f: Flow, m: Machine, boardID: string)
    requires NamesTrimmed(m) && RouteBound(f, m, boardID)
    ensures RouteBound(Left(f, m.r), m, boardID)
  {
    if NoLeftovers(f.nodes) {
      NormalIsTidied(f.nodes);
      TidyNodesAreBound(f.nodes, m, |f.nodes|);
      TidyNodesAreBound(f.nodes, m, OkNodes(f.nodes, m.r));
    }
  }

  lemma AcceptedRouteSettles(f: Flow, m: Machine, boardID: string, mint: Mint)
    requires NamesTrimmed(m) && RouteBound(f, m, boardID) && Acceptable(f, m.r)
    ensures var v := Normal(f, mint);
            Settled(RouteRules(m, boardID), v) && v.head.boardID == boardID && SameRoute(v, v)
  {
    var v := Normal(f, mint);
    NormalRouteIsBound(f, m, boardID, mint);
    BoundRouteStays(v, m, boardID);
    forall again: Mint ensures ValidRoute(m)(v, again) == Some(v) {
      ValidationIsIdempotent(f, m.r, mint, again);
    }
  }

  lemma RefusedRouteHolds(f: Flow, m: Machine, boardID: string)
    requires NamesTrimmed(m) && RouteBound(f, m, boardID) && !Acceptable(f, m.r)
    ensures HeldFast(RouteRules(m, boardID), Left(f, m.r))
  {
    LeftRouteIsBound(f, m, boardID);
    BoundRouteStays(Left(f, m.r), m, boardID);
    RefusedRouteStaysRefused(f, m.r);
  }

  // ---- the laws -------------------------------------------------------------------

  lemma RoutesPrepareSettles(m: Machine, boardID: string)
    requires NamesTrimmed(m)
    ensures PreparingSettles(RouteRules(m, boardID))
  {
    var r := RouteRules(m, boardID);
    forall c, mint: Mint | r.valid(r.prepare(c), mint).Some?
      ensures var v := r.valid(r.prepare(c), mint).value; r.own(v) && r.stands(v, v) && Settled(r, v)
    {
      PreparedRouteIsBound(c, m, boardID);
      AcceptedRouteSettles(PrepareRoute(m, boardID)(c), m, boardID, mint);
    }
    forall c, mint: Mint | r.valid(r.prepare(c), mint).None? ensures HeldFast(r, r.left(r.prepare(c))) {
      PreparedRouteIsBound(c, m, boardID);
      RefusedRouteHolds(PrepareRoute(m, boardID)(c), m, boardID);
    }
  }

  // Binding references does not change which route it is.
  predicate SameHead(a: Flow, b: Flow) {
    a.head.id == b.head.id && a.head.name == b.head.name && a.head.boardID == b.head.boardID
  }

  lemma MeldKeepsHead(m: Machine, e: Flow, v: Flow)
    ensures SameHead(MeldRoute(m)(e, v), e)
  {
  }

  lemma SameByHead(a: Flow, b: Flow, x: Flow)
    requires SameHead(a, b)
    ensures SameRoute(a, x) == SameRoute(b, x) && SameRoute(x, a) == SameRoute(x, b)
  {
  }

  lemma RoutesMeldKeeps(m: Machine, boardID: string)
    ensures MeldingKeeps(RouteRules(m, boardID))
  {
    var r := RouteRules(m, boardID);
    forall e, w ensures r.own(e) ==> r.own(r.meld(e, w)) {
      MeldKeepsHead(m, e, w);
    }
    forall e, w, v | r.stands(e, v) ensures r.stands(r.meld(e, w), v) {
      MeldKeepsHead(m, e, w);
      SameByHead(r.meld(e, w), e, v);
    }
  }

  lemma SettledRouteMelds(m: Machine, boardID: string, e: Flow, v: Flow)
    requires Settled(RouteRules(m, boardID), e)
    ensures MeldSettles(RouteRules(m, boardID), e, v)
  {
    var r := RouteRules(m, boardID);
    assert r.valid(e, "m") == Some(e) && Acceptable(e, m.r);
    PreparedRouteIsBound(e, m, boardID);
    assert RouteBound(e, m, boardID);
    BoundRouteStays(e, m, boardID);
  }

  lemma RoutesMeldSettles(m: Machine, boardID: string)
    ensures MeldingSettles(RouteRules(m, boardID))
  {
    var r := RouteRules(m, boardID);
    forall e, v | Settled(r, e) && Settled(r, v) && r.same(e, v) ensures MeldSettles(r, e, v) {
      SettledRouteMelds(m, boardID, e, v);
    }
  }

  lemma RoutesStayApart(m: Machine, boardID: string)
    ensures MeldingStaysApart(RouteRules(m, boardID))
  {
    var r := RouteRules(m, boardID);
    forall e, x, v | r.same(x, v) && !r.same(e, x) ensures StaysApart(r, e, x, v) {
      MeldKeepsHead(m, x, v);
      SameByHead(r.meld(x, v), x, e);
    }
  }

  lemma RoutesAreLawful(m: Machine, boardID: string)
    requires NamesTrimmed(m)
    ensures Lawful(RouteRules(m, boardID))
  {
    RoutesPrepareSettles(m, boardID);
    RoutesMeldKeeps(m, boardID);
    RoutesMeldSettles(m, boardID);
    RoutesStayApart(m, boardID);
  }
}
