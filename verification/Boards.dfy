/** The registry as a cache of what the boards say: reading a board into it, and
    writing the board back from it (internal/acp/boardseed.go). */
module Boards {
  import opened Text
  import T = Tools
  import opened Flows
  import opened Columns
  import opened Binding
  import opened Adoption
  import opened BoardSeed
  import opened Ownership
  import opened Behaviour
  import Crew

  // The board that has the column an edit is about: else the edit's own.
  function BoardOf(columns: seq<Column>, v: Column): string {
    var at := FirstColumn(columns, v);
    if at.Some? then columns[at.value].boardID else v.boardID
  }

  lemma PutElsewhere(columns: seq<Column>, v: Column, was: string)
    requires was == BoardOf(columns, v)
    ensures forall other :: other != was && other != v.boardID ==>
              OwnColumns(PutColumn(columns, v), other) == OwnColumns(columns, other)
  {
    forall other | other != was && other != v.boardID
      ensures OwnColumns(PutColumn(columns, v), other) == OwnColumns(columns, other)
    {
      PutColumnElsewhere(columns, v, other);
    }
  }

  lemma DroppedElsewhere(columns: seq<Column>, i: nat)
    requires i < |columns|
    ensures forall other :: other != columns[i].boardID ==>
              OwnColumns(columns[..i] + columns[i + 1..], other) == OwnColumns(columns, other)
  {
    forall other | other != columns[i].boardID
      ensures OwnColumns(columns[..i] + columns[i + 1..], other) == OwnColumns(columns, other)
    {
      ColumnDroppedElsewhere(columns, i, other);
    }
  }

  lemma AfterReading(m: Machine, boardID: string, columns: seq<Column>, flows: seq<Flow>, unadopted: map<string, Automation>,
                     store: map<string, Automation>, said: Automation, mint: nat -> Mint, cs: Reading<Column>,
                     fs: Reading<Flow>, unadopted': map<string, Automation>, level: set<string>, known: set<string>,
                     refusing: set<string>)
    requires boardID != ""
    requires cs == Adopt(ColumnRules(m, boardID), Reading(columns, []), said.columns, mint)
    requires fs == Adopt(RouteRules(m, boardID), Reading(flows, []), said.flows, mint)
    requires forall b :: b != boardID ==>
               (b in unadopted' <==> b in unadopted) && HeldFor(unadopted', b) == HeldFor(unadopted, b)
    ensures IDsApart(flows) ==> IDsApart(fs.registry)
    ensures AllNameNothing(flows) && StepOf(columns, flows, unadopted, store, level, known) ==>
              && AllNameNothing(fs.registry)
              && StepOf(cs.registry, fs.registry, unadopted',
                        WrittenTo(cs.registry, fs.registry, unadopted', store, boardID, refusing),
                        LevelAfter(level, boardID, boardID, refusing), known + {boardID})
  {
    if IDsApart(flows) {
      ReadingKeepsIDsApart(m, boardID, Reading(flows, []), said.flows, mint, 0);
    }
    if AllNameNothing(flows) && StepOf(columns, flows, unadopted, store, level, known) {
      ReadingKeepsStep(m, boardID, columns, flows, unadopted, store, said, mint, cs, fs, unadopted', level, known, refusing);
    }
  }

  // A column named by the ids and the name an edit gives.
  function Target(boardID: string, optionID: string, column: string): Column {
    Column(boardID, "", optionID, "", column, "", [], [], "", "", 0, T.Servers(map[]), "")
  }

  // A route edited in its place: everything as the edit says but for its id.
  predicate IsReplaced(flows: seq<Flow>, i: nat, v: Flow, flows': seq<Flow>)
    requires i < |flows|
  {
    |flows'| == |flows| && flows' == flows[i := v.(head := v.head.(id := flows[i].head.id))]
  }

  lemma DropKeepsRoutes(flows: seq<Flow>, i: nat)
    requires i < |flows|
    ensures var flows' := flows[..i] + flows[i + 1..];
            (IDsApart(flows) ==> IDsApart(flows')) && (AllNameNothing(flows) ==> AllNameNothing(flows'))
  {
  }

  function FlowTarget(boardID: string, flowID: string): Flow {
    Flow(FlowHead(Trim(flowID), "", boardID, "", "", ""), [], [])
  }

  class Registry {
    var columns: seq<Column>
    var flows: seq<Flow>
    var unadopted: map<string, Automation>
    var seeded: set<string>
    var store: map<string, Automation>     // the boards, by id
    var refusing: set<string>              // boards that do not take a write at present
    ghost var known: set<string>           // boards that have been read, or edited
    ghost var level: set<string>           // those that took their last write

    constructor (store: map<string, Automation>)
      ensures InStep() && AllNameNothing(flows) && IDsApart(flows) && this.store == store
      ensures columns == [] && flows == [] && unadopted == map[] && seeded == {} && refusing == {}
      ensures known == {} && level == {}
    {
      columns, flows, unadopted, seeded, this.store, refusing := [], [], map[], {}, store, {};
      known, level := {}, {};
    }

    // The board says what the registry says of it.
    ghost predicate Agrees(boardID: string)
      reads this
    {
      Agree(columns, flows, unadopted, store, boardID)
    }

    // So does every board that took its last write, and of those neither read nor
    // edited the registry has nothing.
    ghost predicate InStep()
      reads this
    {
      StepOf(columns, flows, unadopted, store, level, known)
    }

    function Held(boardID: string): Automation
      reads this
    {
      HeldFor(unadopted, boardID)
    }

    // The registry's first answer for a column.
    method FindColumn(v: Column, ghost r: Rules<Column>) returns (at: Option<nat>)
      requires r.same == SameColumn
      ensures at == FirstSame(r, columns, v)
    {
      for i := 0 to |columns|
        invariant FirstSame(r, columns, v) == FirstSame(r, columns, v, i)
      {
        if SameColumn(columns[i], v) {
          return Some(i);
        }
      }
      return None;
    }

    method FindRoute(v: Flow, ghost r: Rules<Flow>) returns (at: Option<nat>)
      requires r.same == SameRoute
      ensures at == FirstSame(r, flows, v)
    {
      for i := 0 to |flows|
        invariant FirstSame(r, flows, v) == FirstSame(r, flows, v, i)
      {
        if SameRoute(flows[i], v) {
          return Some(i);
        }
      }
      return None;
    }

    // A usable column joins the registry, or what answers for it there is bound too.
    method RegisterColumn(boardID: string, v: Column, m: Machine)
      modifies this`columns
      ensures columns == Register(ColumnRules(m, boardID), old(columns), v)
    {
      var at := FindColumn(v, ColumnRules(m, boardID));
      if at.None? {
        columns := columns + [v];
        return;
      }
      var existing := columns[at.value];
      if existing.optionID == "" && v.optionID != "" {
        existing := existing.(boardID := v.boardID, propertyID := v.propertyID, optionID := v.optionID);
      }
      var bound, _ := BindColumn(existing, m);
      columns := columns[at.value := bound];
    }

    // One column of the board: placed on its option, bound, checked, and registered
    // or handed back.
    method AdoptColumn(boardID: string, said: Column, m: Machine, mint: Mint) returns (held: seq<Column>)
      modifies this`columns
      ensures Reading(columns, held) == AdoptOne(ColumnRules(m, boardID), Reading(old(columns), []), said, mint)
    {
      var placed := BindColumnOption(said, boardID, m);
      var c, _ := BindColumn(placed.(boardID := boardID), m);
      assert c == PrepareColumn(m, boardID)(said);
      var valid := ValidateColumn(c, m.r);
      if valid.None? {
        held := [c];
        assert [] + held == held;
      } else {
        held := [];
        RegisterColumn(boardID, valid.value, m);
      }
    }

    method AdoptColumns(boardID: string, said: seq<Column>, m: Machine, mint: nat -> Mint) returns (unusable: seq<Column>)
      modifies this`columns
      ensures Reading(columns, unusable) == Adopt(ColumnRules(m, boardID), Reading(old(columns), []), said, mint)
    {
      ghost var r := ColumnRules(m, boardID);
      unusable := [];
      for i := 0 to |said|
        invariant Adopt(r, Reading(old(columns), []), said, mint) == Adopt(r, Reading(columns, unusable), said, mint, i)
      {
        ghost var was := Reading(columns, unusable);
        var held := AdoptColumn(boardID, said[i], m, mint(i));
        Advance(r, was, Reading(columns, held), said, mint, i);
        unusable := unusable + held;
      }
    }

    // A usable route joins the registry, or what answers for it there is bound too.
    method RegisterRoute(boardID: string, v: Flow, m: Machine)
      modifies this`flows
      ensures flows == Register(RouteRules(m, boardID), old(flows), v)
    {
      var at := FindRoute(v, RouteRules(m, boardID));
      if at.None? {
        flows := flows + [v];
        return;
      }
      var e := flows[at.value];
      var stages := new FlowNode[|e.nodes|](i requires 0 <= i < |e.nodes| => e.nodes[i]);
      assert stages[..] == e.nodes;
      BindStages(stages, m);
      assert stages[..] == BindNodes(e.nodes, m);
      flows := flows[at.value := Flow(BindWorkspace(e.head, m), stages[..], e.edges)];
    }

    // One route of the board, bound and checked in place.
    method AdoptFlow(boardID: string, head: FlowHead, nodes: array<FlowNode>, edges: array<FlowEdge>,
                     m: Machine, mint: Mint, ghost raw: Flow)
      returns (unusable: Option<Flow>)
      requires head == raw.head && nodes[..] == PlaceNodes(raw.nodes, m) && edges[..] == raw.edges
      modifies nodes, edges, this`flows
      ensures Reading(flows, if unusable.Some? then [unusable.value] else []) ==
              AdoptOne(RouteRules(m, boardID), Reading(old(flows), []), raw, mint)
    {
      ghost var r := RouteRules(m, boardID);
      BindStages(nodes, m);
      assert nodes[..] == BindNodes(PlaceNodes(raw.nodes, m), m);
      var bound := BindWorkspace(head.(boardID := boardID), m);
      ghost var p := Flow(bound, nodes[..], edges[..]);
      assert p == r.prepare(raw);
      var valid := ValidateFlow(bound, nodes, edges, m.r, mint);
      if valid.None? {
        var left := Flow(bound, nodes[..], edges[..]);
        assert left == r.left(p) && [] + [left] == [left];
        return Some(left);
      }
      var v := Flow(valid.value, nodes[..], edges[..]);
      assert r.valid(p, mint) == Some(v);
      RegisterRoute(boardID, v, m);
      return None;
    }

    // One route as it was parsed: its stages placed on the board's options, then
    // bound, checked and registered or handed back.
    method AdoptParsed(boardID: string, f: Flow, m: Machine, mint: Mint) returns (held: seq<Flow>)
      modifies this`flows
      ensures Reading(flows, held) == AdoptOne(RouteRules(m, boardID), Reading(old(flows), []), f, mint)
    {
      var nodes := new FlowNode[|f.nodes|](k requires 0 <= k < |f.nodes| => f.nodes[k]);
      var edges := new FlowEdge[|f.edges|](k requires 0 <= k < |f.edges| => f.edges[k]);
      assert nodes[..] == f.nodes && edges[..] == f.edges;
      BindStageOptions(nodes, m);
      assert nodes[..] == PlaceNodes(f.nodes, m);
      var refused := AdoptFlow(boardID, f.head, nodes, edges, m, mint, f);
      held := if refused.Some? then [refused.value] else [];
    }

    method AdoptFlows(boardID: string, entries: seq<Flow>, m: Machine, mint: nat -> Mint)
      returns (unusable: seq<Flow>)
      modifies this`flows
      ensures Reading(flows, unusable) == Adopt(RouteRules(m, boardID), Reading(old(flows), []), entries, mint)
    {
      ghost var r := RouteRules(m, boardID);
      unusable := [];
      for i := 0 to |entries|
        invariant Adopt(r, Reading(old(flows), []), entries, mint) == Adopt(r, Reading(flows, unusable), entries, mint, i)
      {
        ghost var was := Reading(flows, unusable);
        var held := AdoptParsed(boardID, entries[i], m, mint(i));
        Advance(r, was, Reading(flows, held), entries, mint, i);
        unusable := unusable + held;
      }
    }

    // persistBoardLocked: the registry's own, and what was held back, written over
    // what the board said, if it takes it.
    method PersistBoard(boardID: string)
      modifies this`store
      ensures store == WrittenTo(columns, flows, unadopted, old(store), boardID, refusing)
    {
      if boardID == "" || boardID in refusing {
        return;
      }
      var own := ColumnsOf(boardID);
      var routes := FlowsOf(boardID);
      var held := Held(boardID);
      store := store[boardID := Automation(own + held.columns, routes + held.flows)];
    }

    method ColumnsOf(boardID: string) returns (own: seq<Column>)
      ensures own == OwnColumns(columns, boardID)
    {
      own := [];
      for i := 0 to |columns|
        invariant OwnColumns(columns, boardID) == own + OwnColumns(columns[i..], boardID)
      {
        assert columns[i..][0] == columns[i] && columns[i..][1..] == columns[i + 1..];
        if columns[i].boardID == boardID {
          own := own + [columns[i]];
        }
      }
    }

    method FlowsOf(boardID: string) returns (own: seq<Flow>)
      ensures own == OwnFlows(flows, boardID)
    {
      own := [];
      for i := 0 to |flows|
        invariant OwnFlows(flows, boardID) == own + OwnFlows(flows[i..], boardID)
      {
        assert flows[i..][0] == flows[i] && flows[i..][1..] == flows[i + 1..];
        if flows[i].head.boardID == boardID {
          own := own + [flows[i]];
        }
      }
    }

    method RememberUnadopted(boardID: string, unusable: Automation)
      modifies this`unadopted
      ensures Held(boardID) == unusable
      ensures forall b :: b != boardID ==>
                (b in unadopted <==> b in old(unadopted)) && HeldFor(unadopted, b) == HeldFor(old(unadopted), b)
      ensures boardID in unadopted <==> unusable != Automation([], [])
    {
      if unusable.columns == [] && unusable.flows == [] {
        unadopted := unadopted - {boardID};
      } else {
        unadopted := unadopted[boardID := unusable];
      }
    }

    // seedFromBoard. readable says whether the board could be read and parsed.
    method SeedFromBoard(boardID: string, m: Machine, mint: nat -> Mint, readable: bool) returns (read: bool)
      modifies this
      ensures read == (&& boardID != "" && readable && boardID in old(store)
                       && (boardID !in old(seeded) || boardID in old(unadopted)))
      ensures !read ==> columns == old(columns) && flows == old(flows) && unadopted == old(unadopted) && store == old(store)
      ensures boardID != "" ==> boardID in seeded
      ensures read ==>
                && Reading(columns, Held(boardID).columns) ==
                   Adopt(ColumnRules(m, boardID), Reading(old(columns), []), old(store)[boardID].columns, mint)
                && Reading(flows, Held(boardID).flows) ==
                   Adopt(RouteRules(m, boardID), Reading(old(flows), []), old(store)[boardID].flows, mint)
                && store == (if boardID in refusing then old(store)
                             else old(store)[boardID := Written(columns, flows, Held(boardID), boardID)])
      ensures refusing == old(refusing)
      ensures known == if read then old(known) + {boardID} else old(known)
      ensures level == if read then LevelAfter(old(level), boardID, boardID, refusing) else old(level)
      ensures old(InStep()) && old(AllNameNothing(flows)) ==> InStep() && AllNameNothing(flows)
      ensures old(IDsApart(flows)) ==> IDsApart(flows)
    {
      if boardID == "" {
        return false;
      }
      if boardID in seeded && boardID !in unadopted {
        return false;
      }
      seeded := seeded + {boardID};
      if !readable || boardID !in store {
        assert forall b :: Agrees(b) == old(Agrees(b));
        return false;
      }
      ReadBoard(boardID, m, mint);
      return true;
    }

    // Take in what the board says, and write it back.
    method ReadBoard(boardID: string, m: Machine, mint: nat -> Mint)
      requires boardID != "" && boardID in store
      modifies this`columns, this`flows, this`unadopted, this`store, this`known, this`level
      ensures Reading(columns, Held(boardID).columns) ==
              Adopt(ColumnRules(m, boardID), Reading(old(columns), []), old(store)[boardID].columns, mint)
      ensures Reading(flows, Held(boardID).flows) ==
              Adopt(RouteRules(m, boardID), Reading(old(flows), []), old(store)[boardID].flows, mint)
      ensures store == WrittenTo(columns, flows, unadopted, old(store), boardID, refusing)
      ensures known == old(known) + {boardID} && level == LevelAfter(old(level), boardID, boardID, refusing)
      ensures old(InStep()) && old(AllNameNothing(flows)) ==> InStep() && AllNameNothing(flows)
      ensures old(IDsApart(flows)) ==> IDsApart(flows)
    {
      ghost var said, before, before', board := store[boardID], known, level, store;
      ghost var columns0, flows0, unadopted0 := columns, flows, unadopted;
      TakeInAndWrite(boardID, m, mint);
      AfterReading(m, boardID, columns0, flows0, unadopted0, board, said, mint,
                   Reading(columns, Held(boardID).columns), Reading(flows, Held(boardID).flows), unadopted, before', before,
                   refusing);
      known, level := known + {boardID}, LevelAfter(level, boardID, boardID, refusing);
    }

    method TakeInAndWrite(boardID: string, m: Machine, mint: nat -> Mint)
      requires boardID in store
      modifies this`columns, this`flows, this`unadopted, this`store
      ensures Reading(columns, Held(boardID).columns) ==
              Adopt(ColumnRules(m, boardID), Reading(old(columns), []), old(store)[boardID].columns, mint)
      ensures Reading(flows, Held(boardID).flows) ==
              Adopt(RouteRules(m, boardID), Reading(old(flows), []), old(store)[boardID].flows, mint)
      ensures forall b :: b != boardID ==>
                (b in unadopted <==> b in old(unadopted)) && HeldFor(unadopted, b) == HeldFor(old(unadopted), b)
      ensures store == WrittenTo(columns, flows, unadopted, old(store), boardID, refusing)
    {
      TakeIn(boardID, store[boardID], m, mint);
      PersistBoard(boardID);
    }

    // saveBoardsLocked: the change is written to every board it touched.
    method SaveBoards(a: string, b: string)
      modifies this`store, this`known, this`level
      ensures BothWritten(columns, flows, unadopted, old(store), store, a, b, refusing)
      ensures known == old(known) + ({a, b} - {""}) && level == LevelAfter(old(level), a, b, refusing)
    {
      TwoAreWritten(columns, flows, unadopted, store, a, b, refusing);
      PersistBoard(a);
      if b != a {
        PersistBoard(b);
      }
      known, level := known + ({a, b} - {""}), LevelAfter(level, a, b, refusing);
    }

    // The board's server comes and goes.
    method Outside(refusing: set<string>)
      requires InStep()
      modifies this`refusing
      ensures InStep() && this.refusing == refusing
    {
      this.refusing := refusing;
    }

    // After an edit the registry and the boards that took it are in step, if the
    // others are; and the edit loses only what was never read.
    lemma EditKeepsStep(columns0: seq<Column>, flows0: seq<Flow>, store0: map<string, Automation>, level0: set<string>,
                        known0: set<string>, a: string, b: string, gone: Entries, put: Entries)
      requires StepOf(columns0, flows0, unadopted, store0, level0, known0)
      requires IsEdit(columns0, flows0, columns, flows, gone, put) && PutsOnlyOn(put, a, b)
      requires BothWritten(columns, flows, unadopted, store0, store, a, b, refusing)
      requires known == known0 + ({a, b} - {""}) && level == LevelAfter(level0, a, b, refusing)
      requires forall x :: x in known0 && x != a && x != b ==>
                 OwnColumns(columns, x) == OwnColumns(columns0, x) && OwnFlows(flows, x) == OwnFlows(flows0, x)
      ensures InStep() && LosesOnlyUnread(level0, known0, refusing, store0, store, a, b, gone, put)
    {
      EditLosesOnlyUnread(columns0, flows0, unadopted, level0, known0, store0, columns, flows, store, a, b, refusing, gone, put);
      EditStaysUnheard(columns0, flows0, unadopted, known0, columns, flows, a, b, gone, put);
      assert Unheard(columns, flows, unadopted, known);
      forall x | x in level ensures Agrees(x) {
        assert x in level0 ==> Agree(columns0, flows0, unadopted, store0, x);
      }
    }

    // SaveColumn, once the board it belongs to has been read: a column is put in the
    // registry, in the place of the one it is, and the boards it touches are written.
    method SaveColumn(c: Column, m: Machine) returns (saved: Option<Column>)
      requires InStep()
      modifies this`columns, this`store, this`known, this`level
      ensures InStep()
      ensures saved == if ColumnOk(c, m.r) then Some(NormColumn(c)) else None
      ensures columns == if saved.Some? then PutColumn(old(columns), saved.value) else old(columns)
      ensures saved.None? ==> store == old(store) && known == old(known) && level == old(level)
      ensures saved.Some? ==>
                LosesOnlyUnread(old(level), old(known), refusing, old(store), store, BoardOf(old(columns), saved.value), saved.value.boardID,
                                ReplacedBy(old(columns), saved.value), Entries({saved.value}, {}))
                && known == old(known) + ({BoardOf(old(columns), saved.value), saved.value.boardID} - {""})
                && level == LevelAfter(old(level), BoardOf(old(columns), saved.value), saved.value.boardID, refusing)
    {
      saved := ValidateColumn(c, m.r);
      if saved.Some? {
        PutIn(saved.value);
      }
    }

    method PutIn(v: Column)
      requires InStep()
      modifies this`columns, this`store, this`known, this`level
      ensures InStep() && columns == PutColumn(old(columns), v)
      ensures LosesOnlyUnread(old(level), old(known), refusing, old(store), store, BoardOf(old(columns), v), v.boardID,
                              ReplacedBy(old(columns), v), Entries({v}, {}))
      ensures known == old(known) + ({BoardOf(old(columns), v), v.boardID} - {""})
      ensures level == LevelAfter(old(level), BoardOf(old(columns), v), v.boardID, refusing)
    {
      ghost var columns0, store0, level0, known0 := columns, store, level, known;
      var at := FindSameColumn(v);
      var was := v.boardID;
      if at.Some? {
        was := columns[at.value].boardID;
        columns := columns[at.value := v];
      } else {
        columns := columns + [v];
      }
      SaveBoards(was, v.boardID);
      PutElsewhere(columns0, v, was);
      PutIsEdit(columns0, flows, v);
      EditKeepsStep(columns0, flows, store0, level0, known0, was, v.boardID, ReplacedBy(columns0, v), Entries({v}, {}));
    }

    method FindSameColumn(c: Column) returns (at: Option<nat>)
      ensures at == FirstColumn(columns, c)
    {
      for i := 0 to |columns|
        invariant FirstColumn(columns, c) == FirstColumn(columns, c, i)
      {
        if SameColumn(columns[i], c) {
          return Some(i);
        }
      }
      return None;
    }

    method FindSameFlow(f: Flow) returns (at: Option<nat>)
      ensures at == FirstFlow(flows, f)
    {
      for i := 0 to |flows|
        invariant FirstFlow(flows, f) == FirstFlow(flows, f, i)
      {
        if SameFlow(flows[i], f) {
          return Some(i);
        }
      }
      return None;
    }

    // RemoveColumn, likewise: the first spec that is the column goes.
    method RemoveColumn(boardID: string, optionID: string, column: string) returns (removed: bool)
      requires InStep()
      modifies this`columns, this`store, this`known, this`level
      ensures InStep()
      ensures var at := FirstColumn(old(columns), Target(boardID, optionID, column));
              && removed == at.Some?
              && columns == (if removed then old(columns)[..at.value] + old(columns)[at.value + 1..] else old(columns))
              && (removed ==> LosesOnlyUnread(old(level), old(known), refusing, old(store), store, old(columns)[at.value].boardID, boardID,
                                              Entries({old(columns)[at.value]}, {}), Entries({}, {})))
      ensures !removed ==> store == old(store) && known == old(known) && level == old(level)
    {
      var at := FindSameColumn(Target(boardID, optionID, column));
      if at.None? {
        return false;
      }
      TakeOut(at.value, boardID);
      return true;
    }

    method TakeOut(i: nat, boardID: string)
      requires InStep() && i < |columns|
      modifies this`columns, this`store, this`known, this`level
      ensures InStep() && columns == old(columns)[..i] + old(columns)[i + 1..]
      ensures LosesOnlyUnread(old(level), old(known), refusing, old(store), store, old(columns)[i].boardID, boardID,
                              Entries({old(columns)[i]}, {}), Entries({}, {}))
    {
      ghost var columns0, store0, level0, known0 := columns, store, level, known;
      var was := columns[i].boardID;
      columns := columns[..i] + columns[i + 1..];
      SaveBoards(was, boardID);
      DroppedElsewhere(columns0, i);
      DropIsEdit(columns0, flows, i);
      EditKeepsStep(columns0, flows, store0, level0, known0, was, boardID, Entries({columns0[i]}, {}), Entries({}, {}));
    }

    method FindRouteLike(v: Flow) returns (found: bool)
      ensures found <==> exists i :: 0 <= i < |flows| && SameRoute(flows[i], v)
    {
      for i := 0 to |flows|
        invariant forall k :: 0 <= k < i ==> !SameRoute(flows[k], v)
      {
        if SameRoute(flows[i], v) {
          return true;
        }
      }
      return false;
    }

    method FindClash(v: Flow) returns (found: bool)
      ensures found == NameClashes(flows, v)
    {
      for i := 0 to |flows|
        invariant forall k :: 0 <= k < i ==> SameFlow(flows[k], v) || !NameTaken(flows[k], v)
      {
        if !SameFlow(flows[i], v) && NameTaken(flows[i], v) {
          return true;
        }
      }
      return false;
    }

    // AddFlow, once the route is checked: it joins the registry unless one of its id
    // or its name is there.
    method AddFlow(v: Flow) returns (added: bool)
      requires InStep() && IDsApart(flows) && v.head.id != ""
      modifies this`flows, this`store, this`known, this`level
      ensures InStep() && IDsApart(flows)
      ensures added <==> forall i :: 0 <= i < |old(flows)| ==> !SameRoute(old(flows)[i], v)
      ensures flows == if added then old(flows) + [v] else old(flows)
      ensures AllNameNothing(old(flows)) && NamesNothing(v) ==> AllNameNothing(flows)
      ensures !added ==> store == old(store) && known == old(known) && level == old(level)
      ensures added ==> LosesOnlyUnread(old(level), old(known), refusing, old(store), store, v.head.boardID, v.head.boardID,
                                        Entries({}, {}), Entries({}, {v}))
    {
      ghost var flows0, store0, level0, known0 := flows, store, level, known;
      var found := FindRouteLike(v);
      if found {
        return false;
      }
      flows := flows + [v];
      SaveBoards(v.head.boardID, v.head.boardID);
      forall b | b != v.head.boardID ensures OwnFlows(flows, b) == OwnFlows(flows0, b) {
        FlowAddedElsewhere(flows0, v, b);
      }
      AddFlowIsEdit(columns, flows0, v);
      EditKeepsStep(columns, flows0, store0, level0, known0, v.head.boardID, v.head.boardID, Entries({}, {}), Entries({}, {v}));
      return true;
    }

    // UpdateFlow, once the route is checked: the route it is about is replaced, and
    // keeps its id; both the board that had it and the board that has it are written.
    method UpdateFlow(v: Flow) returns (updated: bool)
      requires InStep() && IDsApart(flows) && v.head.id != ""
      modifies this`flows, this`store, this`known, this`level
      ensures InStep() && IDsApart(flows)
      ensures var at := FirstFlow(old(flows), v);
              && (updated <==> && at.Some?
                               && (EqualFold(old(flows)[at.value].head.name, v.head.name) || !NameClashes(old(flows), v)))
              && (if updated then IsReplaced(old(flows), at.value, v, flows) else flows == old(flows))
              && (updated ==>
                    LosesOnlyUnread(old(level), old(known), refusing, old(store), store, old(flows)[at.value].head.boardID, v.head.boardID,
                                    Entries({}, {old(flows)[at.value]}), Entries({}, {flows[at.value]})))
      ensures AllNameNothing(old(flows)) && NamesNothing(v) ==> AllNameNothing(flows)
      ensures !updated ==> store == old(store) && known == old(known) && level == old(level)
    {
      var at := FindSameFlow(v);
      if at.None? {
        return false;
      }
      var i, e := at.value, flows[at.value];
      if !EqualFold(e.head.name, v.head.name) {
        var clash := FindClash(v);
        if clash {
          return false;
        }
      }
      ReplaceFlow(i, v.(head := v.head.(id := e.head.id)));
      return true;
    }

    method ReplaceFlow(i: nat, f: Flow)
      requires InStep() && i < |flows|
      modifies this`flows, this`store, this`known, this`level
      ensures InStep() && flows == old(flows)[i := f]
      ensures LosesOnlyUnread(old(level), old(known), refusing, old(store), store, old(flows)[i].head.boardID, f.head.boardID,
                              Entries({}, {old(flows)[i]}), Entries({}, {f}))
    {
      ghost var flows0, store0, level0, known0 := flows, store, level, known;
      var was := flows[i].head.boardID;
      flows := flows[i := f];
      SaveBoards(was, f.head.boardID);
      forall b | b != was && b != f.head.boardID ensures OwnFlows(flows, b) == OwnFlows(flows0, b) {
        FlowReplacedElsewhere(flows0, i, f, b);
      }
      ReplaceFlowIsEdit(columns, flows0, i, f);
      EditKeepsStep(columns, flows0, store0, level0, known0, was, f.head.boardID, Entries({}, {flows0[i]}), Entries({}, {f}));
    }

    // RemoveFlow: by id, whichever board has it.
    method RemoveFlow(boardID: string, flowID: string) returns (removed: bool)
      requires InStep() && IDsApart(flows)
      modifies this`flows, this`store, this`known, this`level
      ensures InStep() && IDsApart(flows)
      ensures var at := FirstFlow(old(flows), FlowTarget(boardID, flowID));
              && removed == at.Some?
              && flows == (if removed then old(flows)[..at.value] + old(flows)[at.value + 1..] else old(flows))
              && (removed ==> LosesOnlyUnread(old(level), old(known), refusing, old(store), store, old(flows)[at.value].head.boardID, boardID,
                                              Entries({}, {old(flows)[at.value]}), Entries({}, {})))
      ensures AllNameNothing(old(flows)) ==> AllNameNothing(flows)
      ensures !removed ==> store == old(store) && known == old(known) && level == old(level)
    {
      var at := FindSameFlow(FlowTarget(boardID, flowID));
      if at.None? {
        return false;
      }
      DropKeepsRoutes(flows, at.value);
      TakeFlowOut(at.value, boardID);
      return true;
    }

    method TakeFlowOut(i: nat, boardID: string)
      requires InStep() && i < |flows|
      modifies this`flows, this`store, this`known, this`level
      ensures InStep() && flows == old(flows)[..i] + old(flows)[i + 1..]
      ensures LosesOnlyUnread(old(level), old(known), refusing, old(store), store, old(flows)[i].head.boardID, boardID,
                              Entries({}, {old(flows)[i]}), Entries({}, {}))
    {
      ghost var flows0, store0, level0, known0 := flows, store, level, known;
      var was := flows[i].head.boardID;
      flows := flows[..i] + flows[i + 1..];
      SaveBoards(was, boardID);
      forall b | b != was && b != boardID ensures OwnFlows(flows, b) == OwnFlows(flows0, b) {
        FlowDroppedElsewhere(flows0, i, b);
      }
      DropFlowIsEdit(columns, flows0, i);
      EditKeepsStep(columns, flows0, store0, level0, known0, was, boardID, Entries({}, {flows0[i]}), Entries({}, {}));
    }

    // What the board said, taken into the registry or remembered as held back.
    method TakeIn(boardID: string, said: Automation, m: Machine, mint: nat -> Mint)
      modifies this`columns, this`flows, this`unadopted
      ensures Reading(columns, Held(boardID).columns) ==
              Adopt(ColumnRules(m, boardID), Reading(old(columns), []), said.columns, mint)
      ensures Reading(flows, Held(boardID).flows) ==
              Adopt(RouteRules(m, boardID), Reading(old(flows), []), said.flows, mint)
      ensures forall b :: b != boardID ==>
                (b in unadopted <==> b in old(unadopted)) && HeldFor(unadopted, b) == HeldFor(old(unadopted), b)
    {
      var unusableColumns := AdoptColumns(boardID, said.columns, m, mint);
      var unusableFlows := AdoptFlows(boardID, said.flows, m, mint);
      RememberUnadopted(boardID, Automation(unusableColumns, unusableFlows));
    }
  }

  // One turn of reading: what is held back grows at its end and has no say in what
  // is registered.
  lemma Advance<T>(r: Rules<T>, was: Reading<T>, alone: Reading<T>, entries: seq<T>, mint: nat -> Mint, i: nat)
    requires i < |entries| && alone == AdoptOne(r, Reading(was.registry, []), entries[i], mint(i))
    ensures Adopt(r, was, entries, mint, i) ==
            Adopt(r, Reading(alone.registry, was.held + alone.held), entries, mint, i + 1)
  {
    assert was.held + [] == was.held;
    var left := r.left(r.prepare(entries[i]));
    assert [] + [left] == [left];
  }

  // ---- a board never shrinks ---------------------------------------------------------

  // Another board's columns never answer for this one's; only an entry of no board
  // can.
  lemma OtherBoardsColumnsAreSilent(m: Machine, boardID: string, columns: seq<Column>, said: seq<Column>, mint: nat -> Mint)
    requires boardID != "" && forall i :: 0 <= i < |columns| ==> columns[i].boardID != ""
    ensures NoStrangerAnswers(ColumnRules(m, boardID), columns, said, mint)
  {
    forall k | 0 <= k < |said| {
      ColumnIsWelcomed(m, boardID, columns, said[k], mint(k));
    }
  }

  lemma ColumnIsWelcomed(m: Machine, boardID: string, columns: seq<Column>, c: Column, mint: Mint)
    requires boardID != "" && forall i :: 0 <= i < |columns| ==> columns[i].boardID != ""
    ensures Welcomed(ColumnRules(m, boardID), columns, c, mint)
  {
    var r := ColumnRules(m, boardID);
    var v := r.valid(r.prepare(c), mint);
    if v.Some? {
      PreparedIsOwn(m, boardID, c);
      forall i | 0 <= i < |columns| ensures NoStranger(r, columns[i], v.value) {
        OtherColumnIsSilent(m, boardID, columns[i], v.value);
      }
    }
  }

  lemma OtherColumnIsSilent(m: Machine, boardID: string, e: Column, v: Column)
    requires e.boardID != "" && boardID != "" && v.boardID == boardID
    ensures NoStranger(ColumnRules(m, boardID), e, v)
  {
    MeldIsTake(m, e, v);
  }

  // Another board's routes do when they carry the same id, for ids are compared
  // without the board.
  lemma OtherBoardsRoutesAreSilent(m: Machine, boardID: string, flows: seq<Flow>, said: seq<Flow>, mint: nat -> Mint)
    requires NamesTrimmed(m) && boardID != ""
    requires forall i :: 0 <= i < |flows| ==> flows[i].head.boardID != ""
    requires forall i, k :: 0 <= i < |flows| && 0 <= k < |said| && flows[i].head.boardID != boardID ==>
               flows[i].head.id != said[k].head.id && flows[i].head.id != mint(k) && flows[i].head.id != ""
    ensures NoStrangerAnswers(RouteRules(m, boardID), flows, said, mint)
  {
    var r := RouteRules(m, boardID);
    forall k | 0 <= k < |said| ensures Welcomed(r, flows, said[k], mint(k)) {
      var p := r.prepare(said[k]);
      var v := r.valid(p, mint(k));
      if v.Some? {
        assert v.value.head.boardID == boardID && v.value.head.id in {said[k].head.id, mint(k)};
        forall i | 0 <= i < |flows| ensures NoStranger(r, flows[i], v.value) {
          MeldKeepsHead(m, flows[i], v.value);
          assert v.value.head.id != "";
        }
      }
    }
  }

  // What the board is after a reading, in terms of what it was.
  ghost predicate StillThere(m: Machine, boardID: string, said: Automation, after: Automation, mint: nat -> Mint) {
    && ColumnsStillThere(m, boardID, said.columns, after.columns)
    && FlowsStillThere(m, boardID, said.flows, mint, after.flows)
  }

  ghost predicate ColumnStillThere(m: Machine, boardID: string, c: Column, after: seq<Column>) {
    var p := PrepareColumn(m, boardID)(c);
    if ColumnOk(p, m.r) then exists i :: 0 <= i < |after| && SameColumn(after[i], NormColumn(p)) else p in after
  }

  ghost predicate FlowStillThere(m: Machine, boardID: string, f: Flow, mint: Mint, after: seq<Flow>) {
    var p := PrepareRoute(m, boardID)(f);
    if Acceptable(p, m.r) then exists i :: 0 <= i < |after| && SameRoute(after[i], Normal(p, mint)) else Left(p, m.r) in after
  }

  lemma {:induction false} OwnHas<T(!new)>(r: Rules<T>, es: seq<T>, e: T)
    requires e in es && r.own(e)
    ensures e in Own(r, es)
  {
    if es[0] != e {
      OwnHas(r, es[1..], e);
    }
  }

  lemma SurvivorIsOnTheBoard<T(!new)>(r: Rules<T>, o: Reading<T>, c: T, m: Mint)
    requires MeldingKeeps(r) && Survives(r, o, c, m)
    ensures var p := r.prepare(c);
            if r.valid(p, m).None? then r.left(p) in WriteBack(r, o)
            else exists i :: 0 <= i < |WriteBack(r, o)| && r.same(WriteBack(r, o)[i], r.valid(p, m).value)
  {
    var v := r.valid(r.prepare(c), m);
    if v.Some? {
      var i :| 0 <= i < |o.registry| && r.own(o.registry[i]) && r.stands(o.registry[i], v.value);
      OwnHas(r, o.registry, o.registry[i]);
      assert o.registry[i] in WriteBack(r, o);
    }
  }

  lemma ColumnIsOnTheBoard(m: Machine, boardID: string, cs: Reading<Column>, c: Column, mint: Mint)
    requires Survives(ColumnRules(m, boardID), cs, c, mint)
    ensures ColumnStillThere(m, boardID, c, WriteBack(ColumnRules(m, boardID), cs))
  {
    ColumnsMeldKeeps(m, boardID);
    SurvivorIsOnTheBoard(ColumnRules(m, boardID), cs, c, mint);
  }

  lemma FlowIsOnTheBoard(m: Machine, boardID: string, fs: Reading<Flow>, f: Flow, mint: Mint)
    requires Survives(RouteRules(m, boardID), fs, f, mint)
    ensures FlowStillThere(m, boardID, f, mint, WriteBack(RouteRules(m, boardID), fs))
  {
    RoutesMeldKeeps(m, boardID);
    SurvivorIsOnTheBoard(RouteRules(m, boardID), fs, f, mint);
  }

  ghost predicate ColumnsStillThere(m: Machine, boardID: string, said: seq<Column>, after: seq<Column>) {
    forall k :: 0 <= k < |said| ==> ColumnStillThere(m, boardID, said[k], after)
  }

  ghost predicate FlowsStillThere(m: Machine, boardID: string, said: seq<Flow>, mint: nat -> Mint, after: seq<Flow>) {
    forall k {:trigger FlowStillThere(m, boardID, said[k], mint(k), after)} ::
      0 <= k < |said| ==> FlowStillThere(m, boardID, said[k], mint(k), after)
  }

  lemma ColumnsAreOnTheBoard(m: Machine, boardID: string, cs: Reading<Column>, said: seq<Column>, mint: nat -> Mint)
    requires SurviveAll(ColumnRules(m, boardID), cs, said, mint)
    ensures ColumnsStillThere(m, boardID, said, WriteBack(ColumnRules(m, boardID), cs))
  {
    forall k | 0 <= k < |said| ensures ColumnStillThere(m, boardID, said[k], WriteBack(ColumnRules(m, boardID), cs)) {
      assert Survives(ColumnRules(m, boardID), cs, said[k], mint(k));
      ColumnIsOnTheBoard(m, boardID, cs, said[k], mint(k));
    }
  }

  lemma FlowsAreOnTheBoard(m: Machine, boardID: string, fs: Reading<Flow>, said: seq<Flow>, mint: nat -> Mint)
    requires SurviveAll(RouteRules(m, boardID), fs, said, mint)
    ensures FlowsStillThere(m, boardID, said, mint, WriteBack(RouteRules(m, boardID), fs))
  {
    forall k | 0 <= k < |said| ensures FlowStillThere(m, boardID, said[k], mint(k), WriteBack(RouteRules(m, boardID), fs)) {
      assert Survives(RouteRules(m, boardID), fs, said[k], mint(k));
      FlowIsOnTheBoard(m, boardID, fs, said[k], mint(k));
    }
  }

  lemma ColumnsSurvive(m: Machine, boardID: string, columns: seq<Column>, said: seq<Column>, mint: nat -> Mint)
    requires NamesTrimmed(m) && NoStrangerAnswers(ColumnRules(m, boardID), columns, said, mint)
    ensures SurviveAll(ColumnRules(m, boardID), Adopt(ColumnRules(m, boardID), Reading(columns, []), said, mint), said, mint)
  {
    ColumnsAreLawful(m, boardID);
    ReadingNeverShrinks(ColumnRules(m, boardID), columns, said, mint);
  }

  lemma RoutesSurvive(m: Machine, boardID: string, flows: seq<Flow>, said: seq<Flow>, mint: nat -> Mint)
    requires NamesTrimmed(m) && NoStrangerAnswers(RouteRules(m, boardID), flows, said, mint)
    ensures SurviveAll(RouteRules(m, boardID), Adopt(RouteRules(m, boardID), Reading(flows, []), said, mint), said, mint)
  {
    RoutesAreLawful(m, boardID);
    ReadingNeverShrinks(RouteRules(m, boardID), flows, said, mint);
  }

  // Each entry the board had does on it what it said, or what the one that answered for
  // it did.
  ghost predicate AllAccountedFor(m: Machine, boardID: string, columns: seq<Column>, flows: seq<Flow>, said: Automation,
                                  mint: nat -> Mint, after: Automation)
  {
    && ColumnsAccountedFor(m, boardID, columns, said.columns, mint, after.columns)
    && RoutesAccountedFor(m, boardID, flows, said.flows, mint, after.flows)
  }

  ghost predicate ColumnsAccountedFor(m: Machine, boardID: string, columns: seq<Column>, said: seq<Column>, mint: nat -> Mint,
                                      after: seq<Column>)
  {
    forall k: nat :: k < |said| ==>
      IsColumnAccountedFor(m, boardID, said[k], Until(ColumnRules(m, boardID), columns, said, mint, k).registry, after)
  }

  ghost predicate RoutesAccountedFor(m: Machine, boardID: string, flows: seq<Flow>, said: seq<Flow>, mint: nat -> Mint,
                                     after: seq<Flow>)
  {
    forall k: nat :: k < |said| ==>
      IsRouteAccountedFor(m, boardID, said[k], mint(k), Until(RouteRules(m, boardID), flows, said, mint, k).registry, after)
  }

  lemma AllColumnsAccountedFor(m: Machine, boardID: string, columns: seq<Column>, said: seq<Column>, mint: nat -> Mint,
                               cs: Reading<Column>)
    requires NamesTrimmed(m) && NoStrangerAnswers(ColumnRules(m, boardID), columns, said, mint)
    requires cs == Adopt(ColumnRules(m, boardID), Reading(columns, []), said, mint)
    ensures ColumnsAccountedFor(m, boardID, columns, said, mint, OwnColumns(cs.registry, boardID) + cs.held)
  {
    forall k: nat | k < |said| {
      ColumnsAreAccountedFor(m, boardID, columns, said, mint, k, Until(ColumnRules(m, boardID), columns, said, mint, k).registry, cs);
    }
  }

  lemma AllRoutesAccountedFor(m: Machine, boardID: string, flows: seq<Flow>, said: seq<Flow>, mint: nat -> Mint, fs: Reading<Flow>)
    requires NamesTrimmed(m) && NoStrangerAnswers(RouteRules(m, boardID), flows, said, mint)
    requires fs == Adopt(RouteRules(m, boardID), Reading(flows, []), said, mint)
    ensures RoutesAccountedFor(m, boardID, flows, said, mint, OwnFlows(fs.registry, boardID) + fs.held)
  {
    forall k: nat | k < |said| {
      RoutesAreAccountedFor(m, boardID, flows, said, mint, k, Until(RouteRules(m, boardID), flows, said, mint, k).registry, fs);
    }
  }

  // Reading a board never shrinks it: every column and route it carried is still on
  // it, held back as it could be bound, or answered for; and does what it said, or what
  // the one that answered for it did.
  lemma ReadingABoardLosesNothing(m: Machine, boardID: string, columns: seq<Column>, flows: seq<Flow>, said: Automation,
                                  mint: nat -> Mint, cs: Reading<Column>, fs: Reading<Flow>)
    requires NamesTrimmed(m)
    requires NoStrangerAnswers(ColumnRules(m, boardID), columns, said.columns, mint)
    requires NoStrangerAnswers(RouteRules(m, boardID), flows, said.flows, mint)
    requires cs == Adopt(ColumnRules(m, boardID), Reading(columns, []), said.columns, mint)
    requires fs == Adopt(RouteRules(m, boardID), Reading(flows, []), said.flows, mint)
    ensures StillThere(m, boardID, said, Written(cs.registry, fs.registry, Automation(cs.held, fs.held), boardID), mint)
    ensures AllAccountedFor(m, boardID, columns, flows, said, mint,
                            Written(cs.registry, fs.registry, Automation(cs.held, fs.held), boardID))
  {
    AllColumnsAccountedFor(m, boardID, columns, said.columns, mint, cs);
    AllRoutesAccountedFor(m, boardID, flows, said.flows, mint, fs);
    ColumnsSurvive(m, boardID, columns, said.columns, mint);
    ColumnsAreOnTheBoard(m, boardID, cs, said.columns, mint);
    RoutesSurvive(m, boardID, flows, said.flows, mint);
    FlowsAreOnTheBoard(m, boardID, fs, said.flows, mint);
    OwnColumnsIsOwn(m, cs.registry, boardID);
    OwnFlowsIsOwn(m, fs.registry, boardID);
  }

  // ---- when a board does shrink --------------------------------------------------------

  // Somebody of this board answers for the route, or nobody at all does.
  predicate RouteIsSafe(boardID: string, es: seq<Flow>, v: Flow, first: Option<nat>)
    requires first.Some? ==> first.value < |es|
  {
    || first.None? || es[first.value].head.boardID == boardID
    || exists k :: 0 <= k < |es| && es[k].head.boardID == boardID && SameRoute(es[k], v)
  }

  lemma RouteStandsExactlyWhen(m: Machine, boardID: string, es: seq<Flow>, v: Flow)
    requires v.head.boardID == boardID && SameRoute(v, v)
    ensures var r := RouteRules(m, boardID);
            Represented(r, Register(r, es, v), v) <==> RouteIsSafe(boardID, es, v, FirstSame(r, es, v))
  {
    var r := RouteRules(m, boardID);
    RoutesMeldKeeps(m, boardID);
    RepresentedExactlyWhen(r, es, v);
    var i := FirstSame(r, es, v);
    if i.Some? {
      MeldKeepsHead(m, es[i.value], v);
    }
  }

  // A route survives exactly when it is refused and held back, or nothing registered
  // answers for it, or the first that does is this board's, or another of this board
  // does.
  lemma RouteSurvivesExactlyWhen(m: Machine, boardID: string, es: seq<Flow>, f: Flow, mint: Mint)
    ensures var r := RouteRules(m, boardID);
            var p := PrepareRoute(m, boardID)(f);
            Survives(r, AdoptOne(r, Reading(es, []), f, mint), f, mint) <==>
            !Acceptable(p, m.r) || RouteIsSafe(boardID, es, Normal(p, mint), FirstSame(r, es, Normal(p, mint)))
  {
    var r := RouteRules(m, boardID);
    var p := PrepareRoute(m, boardID)(f);
    if Acceptable(p, m.r) {
      var v := Normal(p, mint);
      assert r.valid(r.prepare(f), mint) == Some(v);
      assert v.head.boardID == boardID && v.head.id != "";
      RouteStandsExactlyWhen(m, boardID, es, v);
    }
  }

  // So a copy of a board that kept its routes' ids loses them the first time it is
  // read: the original answers for them, and neither the registry nor what is held
  // back has them for the copy.
  lemma CopiedRouteIsLost(m: Machine, boardID: string, e: Flow, f: Flow, mint: nat -> Mint)
    requires e.head.boardID != boardID && e.head.id == f.head.id && Trim(f.head.id) != ""
    requires Acceptable(PrepareRoute(m, boardID)(f), m.r)
    ensures var fs := Adopt(RouteRules(m, boardID), Reading([e], []), [f], mint);
            Written([], fs.registry, Automation([], fs.held), boardID).flows == []
  {
    var r := RouteRules(m, boardID);
    var v := Normal(PrepareRoute(m, boardID)(f), mint(0));
    assert f.head.id != "" && v.head.id == f.head.id;
    assert FirstSame(r, [e], v) == Some(0);
    MeldKeepsHead(m, e, v);
    var e' := r.meld(e, v);
    assert [e][0 := e'] == [e'];
    assert AdoptOne(r, Reading([e], []), f, mint(0)) == Reading([e'], []);
    assert Adopt(r, Reading([e'], []), [f], mint, 1) == Reading([e'], []);
    assert OwnFlows([e'], boardID) == [];
  }

  // A board that could not be read is marked as read all the same. The first edit of
  // it leaves it with that edit and nothing else, and nothing reads it again.
  method UnreadBoardIsWrittenOver(said: Automation, c: Column, m: Machine, mint: nat -> Mint)
    returns (r: Registry, saved: Option<Column>, again: bool)
    requires ColumnOk(c, m.r) && c.boardID != ""
    ensures saved.Some? && !again && r.store == map[c.boardID := Automation([saved.value], [])]
  {
    r := new Registry(map[c.boardID := said]);
    var _ := r.SeedFromBoard(c.boardID, m, mint, false);
    saved := EditUnread(r, c, m);
    again := r.SeedFromBoard(c.boardID, m, mint, true);
  }

  method EditUnread(r: Registry, c: Column, m: Machine) returns (saved: Option<Column>)
    requires r.InStep() && r.columns == [] && r.flows == [] && r.unadopted == map[] && r.store.Keys == {c.boardID}
    requires r.known == {} && r.refusing == {}
    requires ColumnOk(c, m.r) && c.boardID != ""
    modifies r
    ensures saved.Some? && r.store == map[c.boardID := Automation([saved.value], [])]
    ensures r.unadopted == map[] && r.seeded == old(r.seeded)
  {
    ghost var store, level := r.store, r.level;
    saved := r.SaveColumn(c, m);
    PutFirst(saved.value);
    WrittenOver(level, store, r.store, r.level, r.known, saved.value);
  }

  lemma PutFirst(v: Column)
    ensures PutColumn([], v) == [v] && BoardOf([], v) == v.boardID
  {
  }

  lemma WrittenOver(level: set<string>, store: map<string, Automation>, store': map<string, Automation>,
                    level': set<string>, known': set<string>, v: Column)
    requires v.boardID != "" && store.Keys == {v.boardID}
    requires v.boardID in level' && StepOf([v], [], map[], store', level', known')
    requires LosesOnlyUnread(level, {}, {}, store, store', v.boardID, v.boardID, ReplacedBy([], v), Entries({v}, {}))
    ensures store' == map[v.boardID := Automation([v], [])]
  {
    assert OwnColumns([v], v.boardID) == [v] + OwnColumns([], v.boardID);
    assert Written([v], [], Automation([], []), v.boardID) == Automation([v], []);
    assert store'[v.boardID] == Automation([v], []);
    forall x | x in store' ensures x == v.boardID {
    }
  }

  // ---- reading twice ----------------------------------------------------------------

  predicate Elsewhere(boardID: string, other: string) {
    other != "" && other != boardID
  }

  lemma ColumnsElsewhereAreSilent(m: Machine, boardID: string, columns: seq<Column>, said: seq<Column>, mint: nat -> Mint)
    requires boardID != "" && forall i :: 0 <= i < |columns| ==> Elsewhere(boardID, columns[i].boardID)
    ensures NoAnswers(ColumnRules(m, boardID), columns, said, mint)
  {
    forall k | 0 <= k < |said| {
      ColumnElsewhereIsSilent(m, boardID, columns, said[k], mint(k));
    }
  }

  lemma ColumnElsewhereIsSilent(m: Machine, boardID: string, columns: seq<Column>, c: Column, mint: Mint)
    requires boardID != "" && forall i :: 0 <= i < |columns| ==> Elsewhere(boardID, columns[i].boardID)
    ensures Quiet(ColumnRules(m, boardID), columns, c, mint)
  {
    PreparedIsOwn(m, boardID, c);
  }

  // The registry's routes are all other boards', under ids none of this board's has
  // or will be given.
  ghost predicate RoutesElsewhere(boardID: string, flows: seq<Flow>, said: seq<Flow>, mint: nat -> Mint) {
    forall i :: 0 <= i < |flows| ==>
      && Elsewhere(boardID, flows[i].head.boardID) && flows[i].head.id != ""
      && forall k :: 0 <= k < |said| ==> flows[i].head.id != said[k].head.id && flows[i].head.id != mint(k)
  }

  lemma RoutesElsewhereAreSilent(m: Machine, boardID: string, flows: seq<Flow>, said: seq<Flow>, mint: nat -> Mint)
    requires boardID != "" && RoutesElsewhere(boardID, flows, said, mint)
    ensures NoAnswers(RouteRules(m, boardID), flows, said, mint)
  {
    var r := RouteRules(m, boardID);
    forall k | 0 <= k < |said| ensures Quiet(r, flows, said[k], mint(k)) {
      var p := r.prepare(said[k]);
      if Acceptable(p, m.r) {
        var v := Normal(p, mint(k));
        assert v.head.boardID == boardID && v.head.id in {said[k].head.id, mint(k)};
        forall i | 0 <= i < |flows| ensures !SameRoute(flows[i], v) {
          assert Elsewhere(boardID, flows[i].head.boardID) && flows[i].head.id != v.head.id;
        }
      }
    }
  }

  lemma ColumnsReadTwice(m: Machine, boardID: string, columns: seq<Column>, said: seq<Column>, mint: nat -> Mint,
                         again: nat -> Mint, cs: Reading<Column>)
    requires NamesTrimmed(m) && boardID != "" && forall i :: 0 <= i < |columns| ==> Elsewhere(boardID, columns[i].boardID)
    requires cs == Adopt(ColumnRules(m, boardID), Reading(columns, []), said, mint)
    ensures Adopt(ColumnRules(m, boardID), Reading(cs.registry, []), WriteBack(ColumnRules(m, boardID), cs), again) == cs
  {
    var r := ColumnRules(m, boardID);
    ColumnsElsewhereAreSilent(m, boardID, columns, said, mint);
    ColumnsAreLawful(m, boardID);
    ReadingTwiceIsReadingOnce(r, columns, said, mint, again);
  }

  lemma RoutesReadTwice(m: Machine, boardID: string, flows: seq<Flow>, said: seq<Flow>, mint: nat -> Mint,
                        again: nat -> Mint, fs: Reading<Flow>)
    requires NamesTrimmed(m) && boardID != "" && RoutesElsewhere(boardID, flows, said, mint)
    requires fs == Adopt(RouteRules(m, boardID), Reading(flows, []), said, mint)
    ensures Adopt(RouteRules(m, boardID), Reading(fs.registry, []), WriteBack(RouteRules(m, boardID), fs), again) == fs
  {
    var r := RouteRules(m, boardID);
    RoutesElsewhereAreSilent(m, boardID, flows, said, mint);
    RoutesAreLawful(m, boardID);
    ReadingTwiceIsReadingOnce(r, flows, said, mint, again);
  }

  // Reading is idempotent: with nothing of the board registered at first, reading
  // the board as the first reading wrote it leaves registry, board and what is held
  // back exactly as they are.
  lemma ReadingABoardTwice(m: Machine, boardID: string, columns: seq<Column>, flows: seq<Flow>, said: Automation,
                           mint: nat -> Mint, again: nat -> Mint, cs: Reading<Column>, fs: Reading<Flow>)
    requires NamesTrimmed(m) && boardID != ""
    requires forall i :: 0 <= i < |columns| ==> Elsewhere(boardID, columns[i].boardID)
    requires RoutesElsewhere(boardID, flows, said.flows, mint)
    requires cs == Adopt(ColumnRules(m, boardID), Reading(columns, []), said.columns, mint)
    requires fs == Adopt(RouteRules(m, boardID), Reading(flows, []), said.flows, mint)
    ensures var board := Written(cs.registry, fs.registry, Automation(cs.held, fs.held), boardID);
            && Adopt(ColumnRules(m, boardID), Reading(cs.registry, []), board.columns, again) == cs
            && Adopt(RouteRules(m, boardID), Reading(fs.registry, []), board.flows, again) == fs
  {
    OwnColumnsIsOwn(m, cs.registry, boardID);
    OwnFlowsIsOwn(m, fs.registry, boardID);
    ColumnsReadTwice(m, boardID, columns, said.columns, mint, again, cs);
    RoutesReadTwice(m, boardID, flows, said.flows, mint, again, fs);
  }
}
