/** What of the registry is one board's own, and what therefore is written to it
    (internal/acp/boardseed.go). */
module Ownership {
  import opened Text
  import opened Flows
  import opened Columns
  import opened Binding
  import opened Adoption
  import opened BoardSeed

  // What a board carries of its own; also what is held back of it here.
  datatype Automation = Automation(columns: seq<Column>, flows: seq<Flow>)

  // What the registry is written to the board as.
  function Written(columns: seq<Column>, flows: seq<Flow>, held: Automation, boardID: string): Automation {
    Automation(OwnColumns(columns, boardID) + held.columns, OwnFlows(flows, boardID) + held.flows)
  }

  function OwnColumns(columns: seq<Column>, boardID: string): seq<Column> {
    if columns == [] then []
    else (if columns[0].boardID == boardID then [columns[0]] else []) + OwnColumns(columns[1..], boardID)
  }

  function OwnFlows(flows: seq<Flow>, boardID: string): seq<Flow> {
    if flows == [] then []
    else (if flows[0].head.boardID == boardID then [flows[0]] else []) + OwnFlows(flows[1..], boardID)
  }

  lemma {:induction false} OwnColumnsIsOwn(m: Machine, columns: seq<Column>, boardID: string)
    ensures OwnColumns(columns, boardID) == Own(ColumnRules(m, boardID), columns)
  {
    if columns != [] {
      OwnColumnsIsOwn(m, columns[1..], boardID);
    }
  }

  lemma {:induction false} OwnFlowsIsOwn(m: Machine, flows: seq<Flow>, boardID: string)
    ensures OwnFlows(flows, boardID) == Own(RouteRules(m, boardID), flows)
  {
    if flows != [] {
      OwnFlowsIsOwn(m, flows[1..], boardID);
    }
  }

  // ---- what an edit leaves to the others --------------------------------------------

  lemma {:induction false} OwnColumnsSplit(s: seq<Column>, t: seq<Column>, boardID: string)
    ensures OwnColumns(s + t, boardID) == OwnColumns(s, boardID) + OwnColumns(t, boardID)
  {
    if s == [] {
      assert s + t == t;
    } else {
      assert (s + t)[0] == s[0] && (s + t)[1..] == s[1..] + t;
      OwnColumnsSplit(s[1..], t, boardID);
    }
  }

  lemma {:induction false} OwnFlowsSplit(s: seq<Flow>, t: seq<Flow>, boardID: string)
    ensures OwnFlows(s + t, boardID) == OwnFlows(s, boardID) + OwnFlows(t, boardID)
  {
    if s == [] {
      assert s + t == t;
    } else {
      assert (s + t)[0] == s[0] && (s + t)[1..] == s[1..] + t;
      OwnFlowsSplit(s[1..], t, boardID);
    }
  }

  // A column put in another's place is nothing to a board neither belongs to.
  lemma ColumnReplacedElsewhere(columns: seq<Column>, i: nat, c: Column, boardID: string)
    requires i < |columns| && (c == columns[i] || (c.boardID != boardID && columns[i].boardID != boardID))
    ensures OwnColumns(columns[i := c], boardID) == OwnColumns(columns, boardID)
  {
    assert columns == columns[..i] + ([columns[i]] + columns[i + 1..]);
    assert columns[i := c] == columns[..i] + ([c] + columns[i + 1..]);
    OwnColumnsSplit(columns[..i], [columns[i]] + columns[i + 1..], boardID);
    OwnColumnsSplit(columns[..i], [c] + columns[i + 1..], boardID);
    OwnColumnsSplit([columns[i]], columns[i + 1..], boardID);
    OwnColumnsSplit([c], columns[i + 1..], boardID);
  }

  lemma FlowReplacedElsewhere(flows: seq<Flow>, i: nat, f: Flow, boardID: string)
    requires i < |flows| && (f == flows[i] || (f.head.boardID != boardID && flows[i].head.boardID != boardID))
    ensures OwnFlows(flows[i := f], boardID) == OwnFlows(flows, boardID)
  {
    assert flows == flows[..i] + ([flows[i]] + flows[i + 1..]);
    assert flows[i := f] == flows[..i] + ([f] + flows[i + 1..]);
    OwnFlowsSplit(flows[..i], [flows[i]] + flows[i + 1..], boardID);
    OwnFlowsSplit(flows[..i], [f] + flows[i + 1..], boardID);
    OwnFlowsSplit([flows[i]], flows[i + 1..], boardID);
    OwnFlowsSplit([f], flows[i + 1..], boardID);
  }

  lemma ColumnAddedElsewhere(columns: seq<Column>, c: Column, boardID: string)
    requires c.boardID != boardID
    ensures OwnColumns(columns + [c], boardID) == OwnColumns(columns, boardID)
  {
    OwnColumnsSplit(columns, [c], boardID);
  }

  lemma FlowAddedElsewhere(flows: seq<Flow>, f: Flow, boardID: string)
    requires f.head.boardID != boardID
    ensures OwnFlows(flows + [f], boardID) == OwnFlows(flows, boardID)
  {
    OwnFlowsSplit(flows, [f], boardID);
  }

  lemma ColumnDroppedElsewhere(columns: seq<Column>, i: nat, boardID: string)
    requires i < |columns| && columns[i].boardID != boardID
    ensures OwnColumns(columns[..i] + columns[i + 1..], boardID) == OwnColumns(columns, boardID)
  {
    assert columns == columns[..i] + ([columns[i]] + columns[i + 1..]);
    OwnColumnsSplit(columns[..i], [columns[i]] + columns[i + 1..], boardID);
    OwnColumnsSplit([columns[i]], columns[i + 1..], boardID);
    OwnColumnsSplit(columns[..i], columns[i + 1..], boardID);
  }

  lemma FlowDroppedElsewhere(flows: seq<Flow>, i: nat, boardID: string)
    requires i < |flows| && flows[i].head.boardID != boardID
    ensures OwnFlows(flows[..i] + flows[i + 1..], boardID) == OwnFlows(flows, boardID)
  {
    assert flows == flows[..i] + ([flows[i]] + flows[i + 1..]);
    OwnFlowsSplit(flows[..i], [flows[i]] + flows[i + 1..], boardID);
    OwnFlowsSplit([flows[i]], flows[i + 1..], boardID);
    OwnFlowsSplit(flows[..i], flows[i + 1..], boardID);
  }

  // ---- what a reading leaves to the others -------------------------------------------

  lemma ColumnRegisteredElsewhere(m: Machine, boardID: string, columns: seq<Column>, v: Column, other: string)
    requires boardID != "" && other != "" && other != boardID && v.boardID == boardID
    ensures OwnColumns(Register(ColumnRules(m, boardID), columns, v), other) == OwnColumns(columns, other)
  {
    var r := ColumnRules(m, boardID);
    var at := FirstSame(r, columns, v);
    if at.None? {
      ColumnAddedElsewhere(columns, v, other);
    } else {
      var e := columns[at.value];
      MeldIsTake(m, e, v);
      assert SameColumn(e, v);
      ColumnReplacedElsewhere(columns, at.value, MeldColumn(m)(e, v), other);
    }
  }

  lemma PreparedIsOwn(m: Machine, boardID: string, c: Column)
    ensures NormColumn(PrepareColumn(m, boardID)(c)).boardID == boardID
  {
  }

  lemma {:induction false} ColumnsReadElsewhere(m: Machine, boardID: string, was: Reading<Column>, said: seq<Column>,
                                                mint: nat -> Mint, k: nat, other: string)
    requires boardID != "" && other != "" && other != boardID && k <= |said|
    ensures OwnColumns(Adopt(ColumnRules(m, boardID), was, said, mint, k).registry, other) == OwnColumns(was.registry, other)
    decreases |said| - k
  {
    var r := ColumnRules(m, boardID);
    if k < |said| {
      var v := r.valid(r.prepare(said[k]), mint(k));
      if v.Some? {
        PreparedIsOwn(m, boardID, said[k]);
        ColumnRegisteredElsewhere(m, boardID, was.registry, v.value, other);
      }
      ColumnsReadElsewhere(m, boardID, AdoptOne(r, was, said[k], mint(k)), said, mint, k + 1, other);
    }
  }

  // Routes are told apart without the board, so reading one board may touch
  // another's route; what it does there is bind, and a route that names nothing any
  // more is bound.
  predicate NamesNothing(f: Flow) {
    && f.head.workdirName == ""
    && forall i :: 0 <= i < |f.nodes| ==>
         f.nodes[i].agentNames == [] && f.nodes[i].agentName == "" && f.nodes[i].deployName == ""
  }

  predicate AllNameNothing(flows: seq<Flow>) {
    forall i :: 0 <= i < |flows| ==> NamesNothing(flows[i])
  }

  lemma MeldLeavesBound(m: Machine, e: Flow, v: Flow)
    requires NamesNothing(e)
    ensures MeldRoute(m)(e, v) == e
  {
    assert Trim("") == "";
    forall i | 0 <= i < |e.nodes| ensures BindNodeRefs(e.nodes[i], m) == e.nodes[i] {
      NothingToBindHere(e.nodes[i], m);
    }
    assert BindNodes(e.nodes, m) == e.nodes;
  }

  lemma AcceptedNamesNothing(m: Machine, boardID: string, f: Flow, mint: Mint)
    requires Acceptable(PrepareRoute(m, boardID)(f), m.r)
    ensures NamesNothing(Normal(PrepareRoute(m, boardID)(f), mint))
  {
  }

  lemma FlowRegisteredElsewhere(m: Machine, boardID: string, flows: seq<Flow>, v: Flow, other: string)
    requires AllNameNothing(flows) && NamesNothing(v) && v.head.boardID == boardID && other != boardID
    ensures var flows' := Register(RouteRules(m, boardID), flows, v);
            OwnFlows(flows', other) == OwnFlows(flows, other) && AllNameNothing(flows')
  {
    var r := RouteRules(m, boardID);
    var at := FirstSame(r, flows, v);
    if at.None? {
      FlowAddedElsewhere(flows, v, other);
    } else {
      MeldLeavesBound(m, flows[at.value], v);
      assert flows[at.value := flows[at.value]] == flows;
    }
  }

  lemma {:induction false} FlowsReadElsewhere(m: Machine, boardID: string, was: Reading<Flow>, said: seq<Flow>,
                                              mint: nat -> Mint, k: nat, other: string)
    requires AllNameNothing(was.registry) && other != boardID && k <= |said|
    ensures var flows' := Adopt(RouteRules(m, boardID), was, said, mint, k).registry;
            OwnFlows(flows', other) == OwnFlows(was.registry, other) && AllNameNothing(flows')
    decreases |said| - k
  {
    var r := RouteRules(m, boardID);
    if k < |said| {
      var v := r.valid(r.prepare(said[k]), mint(k));
      if v.Some? {
        AcceptedNamesNothing(m, boardID, said[k], mint(k));
        FlowRegisteredElsewhere(m, boardID, was.registry, v.value, other);
      }
      FlowsReadElsewhere(m, boardID, AdoptOne(r, was, said[k], mint(k)), said, mint, k + 1, other);
    }
  }

  // Reading one board leaves what the registry says of every other as it was.
  lemma ReadingLeavesTheOthers(m: Machine, boardID: string, columns: seq<Column>, flows: seq<Flow>, said: Automation,
                               mint: nat -> Mint, cs: Reading<Column>, fs: Reading<Flow>)
    requires boardID != "" && AllNameNothing(flows)
    requires cs == Adopt(ColumnRules(m, boardID), Reading(columns, []), said.columns, mint)
    requires fs == Adopt(RouteRules(m, boardID), Reading(flows, []), said.flows, mint)
    ensures AllNameNothing(fs.registry) && OthersSame(columns, flows, cs.registry, fs.registry, boardID)
  {
    FlowsReadElsewhere(m, boardID, Reading(flows, []), said.flows, mint, 0, "");
    forall other | other != "" && other != boardID
      ensures OwnColumns(cs.registry, other) == OwnColumns(columns, other)
      ensures OwnFlows(fs.registry, other) == OwnFlows(flows, other)
    {
      ColumnsReadElsewhere(m, boardID, Reading(columns, []), said.columns, mint, 0, other);
      FlowsReadElsewhere(m, boardID, Reading(flows, []), said.flows, mint, 0, other);
    }
  }

  // ---- edits ---------------------------------------------------------------------

  function FirstColumn(columns: seq<Column>, c: Column, from: nat := 0): (i: Option<nat>)
    requires from <= |columns|
    ensures i.Some? ==> from <= i.value < |columns| && SameColumn(columns[i.value], c)
                        && forall k :: from <= k < i.value ==> !SameColumn(columns[k], c)
    ensures i.None? ==> forall k :: from <= k < |columns| ==> !SameColumn(columns[k], c)
    decreases |columns| - from
  {
    if from == |columns| then None
    else if SameColumn(columns[from], c) then Some(from)
    else FirstColumn(columns, c, from + 1)
  }

  function FirstFlow(flows: seq<Flow>, f: Flow, from: nat := 0): (i: Option<nat>)
    requires from <= |flows|
    ensures i.Some? ==> from <= i.value < |flows| && SameFlow(flows[i.value], f)
                        && forall k :: from <= k < i.value ==> !SameFlow(flows[k], f)
    ensures i.None? ==> forall k :: from <= k < |flows| ==> !SameFlow(flows[k], f)
    decreases |flows| - from
  {
    if from == |flows| then None
    else if SameFlow(flows[from], f) then Some(from)
    else FirstFlow(flows, f, from + 1)
  }

  // One column put in the registry, or taken out.
  function PutColumn(columns: seq<Column>, c: Column): seq<Column> {
    var i := FirstColumn(columns, c);
    if i.None? then columns + [c] else columns[i.value := c]
  }

  // It takes the place of the first that is the same column, else comes last.
  lemma PutIsInPlace(columns: seq<Column>, c: Column)
    ensures var now := PutColumn(columns, c);
            && |now| == |columns| + (if exists i :: 0 <= i < |columns| && SameColumn(columns[i], c) then 0 else 1)
            && (|now| > |columns| ==> now[|columns|] == c)
            && forall i :: 0 <= i < |columns| ==>
                 now[i] == if SameColumn(columns[i], c) && (forall k :: 0 <= k < i ==> !SameColumn(columns[k], c)) then c else columns[i]
  {
  }

  lemma PutColumnElsewhere(columns: seq<Column>, c: Column, other: string)
    requires c.boardID != other
    requires FirstColumn(columns, c).Some? ==> columns[FirstColumn(columns, c).value].boardID != other
    ensures OwnColumns(PutColumn(columns, c), other) == OwnColumns(columns, other)
  {
    var i := FirstColumn(columns, c);
    if i.None? {
      ColumnAddedElsewhere(columns, c, other);
    } else {
      ColumnReplacedElsewhere(columns, i.value, c, other);
    }
  }

  // A route's new name clashes with a route that is not the one being edited.
  predicate NameClashes(flows: seq<Flow>, f: Flow) {
    exists i :: 0 <= i < |flows| && !SameFlow(flows[i], f) && NameTaken(flows[i], f)
  }

  // ---- registry and boards in step ---------------------------------------------------

  function HeldFor(unadopted: map<string, Automation>, boardID: string): Automation {
    if boardID in unadopted then unadopted[boardID] else Automation([], [])
  }

  // A board says what the registry says of it.
  predicate Agree(columns: seq<Column>, flows: seq<Flow>, unadopted: map<string, Automation>,
                  store: map<string, Automation>, boardID: string)
  {
    && boardID != "" && boardID in store
    && store[boardID] == Written(columns, flows, HeldFor(unadopted, boardID), boardID)
  }

  ghost predicate OthersSame(columns: seq<Column>, flows: seq<Flow>, columns': seq<Column>, flows': seq<Flow>,
                             boardID: string)
  {
    forall other :: other != "" && other != boardID ==>
      OwnColumns(columns', other) == OwnColumns(columns, other) && OwnFlows(flows', other) == OwnFlows(flows, other)
  }

  lemma SameAgreesStill(columns: seq<Column>, flows: seq<Flow>, unadopted: map<string, Automation>,
                        store: map<string, Automation>,
                        columns': seq<Column>, flows': seq<Flow>, unadopted': map<string, Automation>, boardID: string,
                        now: Automation, other: string)
    requires OthersSame(columns, flows, columns', flows', boardID) && other != boardID
    requires HeldFor(unadopted', other) == HeldFor(unadopted, other) && Agree(columns, flows, unadopted, store, other)
    ensures Agree(columns', flows', unadopted', store[boardID := now], other)
  {
  }

  // Every board that took its last write says what the registry says of it, and of
  // those neither read nor edited the registry has nothing.
  ghost predicate StepOf(columns: seq<Column>, flows: seq<Flow>, unadopted: map<string, Automation>,
                         store: map<string, Automation>, level: set<string>, known: set<string>)
  {
    && level <= known
    && (forall b :: b in level ==> Agree(columns, flows, unadopted, store, b)) && Unheard(columns, flows, unadopted, known)
  }

  // A board written what the registry says of it, if it takes that.
  function WrittenTo(columns: seq<Column>, flows: seq<Flow>, unadopted: map<string, Automation>,
                     store: map<string, Automation>, boardID: string, refusing: set<string>): map<string, Automation>
  {
    if boardID == "" || boardID in refusing then store
    else store[boardID := Written(columns, flows, HeldFor(unadopted, boardID), boardID)]
  }

  // The boards that are level after two were written to, as far as they took it.
  function LevelAfter(level: set<string>, a: string, b: string, refusing: set<string>): set<string> {
    (level - {a, b}) + ({a, b} - {""} - refusing)
  }

  // So a reading keeps registry and boards in step.
  lemma ReadingKeepsStep(m: Machine, boardID: string, columns: seq<Column>, flows: seq<Flow>, unadopted: map<string, Automation>,
                         store: map<string, Automation>, said: Automation, mint: nat -> Mint,
                         cs: Reading<Column>, fs: Reading<Flow>, unadopted': map<string, Automation>, level: set<string>, known: set<string>, refusing: set<string>)
    requires boardID != "" && AllNameNothing(flows) && StepOf(columns, flows, unadopted, store, level, known)
    requires cs == Adopt(ColumnRules(m, boardID), Reading(columns, []), said.columns, mint)
    requires fs == Adopt(RouteRules(m, boardID), Reading(flows, []), said.flows, mint)
    requires forall b :: b != boardID ==>
               (b in unadopted' <==> b in unadopted) && HeldFor(unadopted', b) == HeldFor(unadopted, b)
    ensures AllNameNothing(fs.registry)
    ensures StepOf(cs.registry, fs.registry, unadopted',
                   WrittenTo(cs.registry, fs.registry, unadopted', store, boardID, refusing),
                   LevelAfter(level, boardID, boardID, refusing), known + {boardID})
  {
    ReadingLeavesTheOthers(m, boardID, columns, flows, said, mint, cs, fs);
    StepStays(columns, flows, unadopted, store, cs.registry, fs.registry, unadopted', boardID, level, known, refusing);
  }

  lemma StepStays(columns: seq<Column>, flows: seq<Flow>, unadopted: map<string, Automation>, store: map<string, Automation>,
                  columns': seq<Column>, flows': seq<Flow>, unadopted': map<string, Automation>, boardID: string,
                  level: set<string>, known: set<string>, refusing: set<string>)
    requires boardID != "" && StepOf(columns, flows, unadopted, store, level, known)
    requires OthersSame(columns, flows, columns', flows', boardID)
    requires forall b :: b != boardID ==>
               (b in unadopted' <==> b in unadopted) && HeldFor(unadopted', b) == HeldFor(unadopted, b)
    ensures StepOf(columns', flows', unadopted', WrittenTo(columns', flows', unadopted', store, boardID, refusing),
                   LevelAfter(level, boardID, boardID, refusing), known + {boardID})
  {
    LevelStays(columns, flows, unadopted, store, columns', flows', unadopted', boardID, level, known, refusing);
    ReadingStaysUnheard(columns, flows, unadopted, known, columns', flows', unadopted', boardID);
  }

  lemma LevelStays(columns: seq<Column>, flows: seq<Flow>, unadopted: map<string, Automation>, store: map<string, Automation>,
                   columns': seq<Column>, flows': seq<Flow>, unadopted': map<string, Automation>, boardID: string,
                   level: set<string>, known: set<string>, refusing: set<string>)
    requires boardID != "" && StepOf(columns, flows, unadopted, store, level, known)
    requires OthersSame(columns, flows, columns', flows', boardID)
    requires forall b :: b != boardID ==> HeldFor(unadopted', b) == HeldFor(unadopted, b)
    ensures var store' := WrittenTo(columns', flows', unadopted', store, boardID, refusing);
            forall b :: b in LevelAfter(level, boardID, boardID, refusing) ==> Agree(columns', flows', unadopted', store', b)
  {
    var now := Written(columns', flows', HeldFor(unadopted', boardID), boardID);
    var store' := WrittenTo(columns', flows', unadopted', store, boardID, refusing);
    forall b | b in LevelAfter(level, boardID, boardID, refusing) ensures Agree(columns', flows', unadopted', store', b) {
      if b != boardID {
        SameAgreesStill(columns, flows, unadopted, store, columns', flows', unadopted', boardID, now, b);
      }
    }
  }

  // ---- what an edit writes, and what it writes over ------------------------------------

  lemma {:induction false} OwnColumnIff(columns: seq<Column>, boardID: string, c: Column)
    ensures c in OwnColumns(columns, boardID) <==> c in columns && c.boardID == boardID
  {
    if columns != [] {
      OwnColumnIff(columns[1..], boardID, c);
    }
  }

  lemma {:induction false} OwnFlowIff(flows: seq<Flow>, boardID: string, f: Flow)
    ensures f in OwnFlows(flows, boardID) <==> f in flows && f.head.boardID == boardID
  {
    if flows != [] {
      OwnFlowIff(flows[1..], boardID, f);
    }
  }

  // Some columns and routes: those an edit takes out of the registry, or puts in.
  datatype Entries = Entries(columns: set<Column>, flows: set<Flow>)

  function Of(e: Entries, boardID: string): Entries {
    Entries(set c | c in e.columns && c.boardID == boardID, set f | f in e.flows && f.head.boardID == boardID)
  }

  function SaidBy(store: map<string, Automation>, boardID: string): Automation {
    if boardID in store then store[boardID] else Automation([], [])
  }

  // Everything a board said is on it still, but for what was taken out.
  ghost predicate KeptBut(before: Automation, after: Automation, gone: Entries) {
    && (forall c :: c in before.columns ==> c in after.columns || c in gone.columns)
    && (forall f :: f in before.flows ==> f in after.flows || f in gone.flows)
  }

  ghost predicate CarriedOnly(before: Automation, put: Entries) {
    (forall c :: c in before.columns ==> c in put.columns) && (forall f :: f in before.flows ==> f in put.flows)
  }

  // The registry after an edit: what was there but for what was taken out, and what
  // was put in.
  ghost predicate IsEdit(columns: seq<Column>, flows: seq<Flow>, columns': seq<Column>, flows': seq<Flow>,
                         gone: Entries, put: Entries)
  {
    && (forall c :: c in columns ==> c in columns' || c in gone.columns)
    && (forall c :: c in columns' ==> c in columns || c in put.columns)
    && (forall c :: c in put.columns ==> c in columns') && (forall c :: c in gone.columns ==> c in columns)
    && (forall f :: f in flows ==> f in flows' || f in gone.flows)
    && (forall f :: f in flows' ==> f in flows || f in put.flows)
    && (forall f :: f in put.flows ==> f in flows') && (forall f :: f in gone.flows ==> f in flows)
  }

  // The registry has nothing of a board nobody has read or written.
  ghost predicate Unheard(columns: seq<Column>, flows: seq<Flow>, unadopted: map<string, Automation>, known: set<string>) {
    forall b :: b != "" && b !in known ==> NothingOf(columns, flows, unadopted, b)
  }

  predicate NothingOf(columns: seq<Column>, flows: seq<Flow>, unadopted: map<string, Automation>, boardID: string) {
    OwnColumns(columns, boardID) == [] && OwnFlows(flows, boardID) == [] && boardID !in unadopted
  }

  // An edit that writes two boards leaves the others alone, and those that refuse the
  // write. Of each that takes it, it keeps all that it does not mean to change exactly
  // when the board has been read and was level with the registry, or said nothing else.
  ghost predicate LosesOnlyUnread(level: set<string>, known: set<string>, refusing: set<string>,
                                  store: map<string, Automation>, store': map<string, Automation>,
                                  a: string, b: string, gone: Entries, put: Entries)
  {
    forall x :: if IsWritten(x, a, b, refusing) then
                  && x in store'
                  && (x in level || x !in known ==> KeepsExactlyWhen(level, SaidBy(store, x), store'[x], x, gone, put))
                else (x in store <==> x in store') && SaidBy(store, x) == SaidBy(store', x)
  }

  predicate IsWritten(x: string, a: string, b: string, refusing: set<string>) {
    x != "" && (x == a || x == b) && x !in refusing
  }

  ghost predicate KeepsExactlyWhen(level: set<string>, before: Automation, after: Automation, x: string,
                                   gone: Entries, put: Entries)
  {
    KeptBut(before, after, Of(gone, x)) <==> x in level || CarriedOnly(before, Of(put, x))
  }

  lemma ReadIsKept(columns: seq<Column>, flows: seq<Flow>, columns': seq<Column>, flows': seq<Flow>, held: Automation,
                   boardID: string, gone: Entries, put: Entries)
    requires IsEdit(columns, flows, columns', flows', gone, put)
    ensures KeptBut(Written(columns, flows, held, boardID), Written(columns', flows', held, boardID), Of(gone, boardID))
  {
    var before, after := Written(columns, flows, held, boardID), Written(columns', flows', held, boardID);
    forall c | c in before.columns ensures c in after.columns || c in Of(gone, boardID).columns {
      OwnColumnIff(columns, boardID, c);
      OwnColumnIff(columns', boardID, c);
    }
    forall f | f in before.flows ensures f in after.flows || f in Of(gone, boardID).flows {
      OwnFlowIff(flows, boardID, f);
      OwnFlowIff(flows', boardID, f);
    }
  }

  // A board nobody read is written what the edit put in, and nothing else.
  lemma UnreadIsWrittenOver(columns: seq<Column>, flows: seq<Flow>, columns': seq<Column>, flows': seq<Flow>, boardID: string,
                            gone: Entries, put: Entries)
    requires IsEdit(columns, flows, columns', flows', gone, put)
    requires OwnColumns(columns, boardID) == [] && OwnFlows(flows, boardID) == []
    ensures var after := Written(columns', flows', Automation([], []), boardID);
            && (forall c :: c in after.columns <==> c in Of(put, boardID).columns)
            && (forall f :: f in after.flows <==> f in Of(put, boardID).flows)
    ensures Of(gone, boardID) == Entries({}, {})
  {
    var after := Written(columns', flows', Automation([], []), boardID);
    forall c ensures c in after.columns <==> c in Of(put, boardID).columns
             ensures c !in Of(gone, boardID).columns {
      OwnColumnIff(columns, boardID, c);
      OwnColumnIff(columns', boardID, c);
    }
    forall f ensures f in after.flows <==> f in Of(put, boardID).flows
             ensures f !in Of(gone, boardID).flows {
      OwnFlowIff(flows, boardID, f);
      OwnFlowIff(flows', boardID, f);
    }
  }

  lemma KeepsWhenRead(columns: seq<Column>, flows: seq<Flow>, unadopted: map<string, Automation>, level: set<string>,
                      known: set<string>, store: map<string, Automation>, columns': seq<Column>, flows': seq<Flow>, x: string,
                      gone: Entries, put: Entries)
    requires IsEdit(columns, flows, columns', flows', gone, put) && x != "" && (x in level || x !in known)
    requires StepOf(columns, flows, unadopted, store, level, known)
    ensures KeepsExactlyWhen(level, SaidBy(store, x), Written(columns', flows', HeldFor(unadopted, x), x), x, gone, put)
  {
    if x in level {
      ReadIsKept(columns, flows, columns', flows', HeldFor(unadopted, x), x, gone, put);
    } else {
      assert NothingOf(columns, flows, unadopted, x);
      UnreadIsWrittenOver(columns, flows, columns', flows', x, gone, put);
    }
  }

  // What an edit with its two boards written comes to.
  ghost predicate BothWritten(columns: seq<Column>, flows: seq<Flow>, unadopted: map<string, Automation>,
                              store: map<string, Automation>, store': map<string, Automation>, a: string, b: string,
                              refusing: set<string>)
  {
    forall x :: if IsWritten(x, a, b, refusing) then Agree(columns, flows, unadopted, store', x)
                else (x in store <==> x in store') && SaidBy(store, x) == SaidBy(store', x)
  }

  lemma TwoAreWritten(columns: seq<Column>, flows: seq<Flow>, unadopted: map<string, Automation>,
                      store: map<string, Automation>, a: string, b: string, refusing: set<string>)
    ensures var once := WrittenTo(columns, flows, unadopted, store, a, refusing);
            var twice := if b != a then WrittenTo(columns, flows, unadopted, once, b, refusing) else once;
            BothWritten(columns, flows, unadopted, store, twice, a, b, refusing)
  {
  }

  lemma EditLosesOnlyUnread(columns: seq<Column>, flows: seq<Flow>, unadopted: map<string, Automation>, level: set<string>,
                            known: set<string>, store: map<string, Automation>, columns': seq<Column>, flows': seq<Flow>,
                            store': map<string, Automation>, a: string, b: string, refusing: set<string>,
                            gone: Entries, put: Entries)
    requires IsEdit(columns, flows, columns', flows', gone, put)
    requires StepOf(columns, flows, unadopted, store, level, known)
    requires BothWritten(columns', flows', unadopted, store, store', a, b, refusing)
    ensures LosesOnlyUnread(level, known, refusing, store, store', a, b, gone, put)
  {
    forall x | IsWritten(x, a, b, refusing)
      ensures x in store'
      ensures x in level || x !in known ==> KeepsExactlyWhen(level, SaidBy(store, x), store'[x], x, gone, put)
    {
      if x in level || x !in known {
        KeepsWhenRead(columns, flows, unadopted, level, known, store, columns', flows', x, gone, put);
      }
    }
  }

  ghost predicate PutsOnlyOn(put: Entries, a: string, b: string) {
    (forall c :: c in put.columns ==> c.boardID in {a, b}) && (forall f :: f in put.flows ==> f.head.boardID in {a, b})
  }

  lemma NoneOrSome<T>(s: seq<T>)
    ensures s == [] || exists x :: x in s
  {
    if s != [] {
      assert s[0] in s;
    }
  }

  lemma EditStaysUnheard(columns: seq<Column>, flows: seq<Flow>, unadopted: map<string, Automation>, known: set<string>,
                         columns': seq<Column>, flows': seq<Flow>, a: string, b: string, gone: Entries, put: Entries)
    requires IsEdit(columns, flows, columns', flows', gone, put) && PutsOnlyOn(put, a, b)
    requires Unheard(columns, flows, unadopted, known)
    ensures Unheard(columns', flows', unadopted, known + {a, b})
  {
    forall x | x != "" && x !in known + {a, b} ensures NothingOf(columns', flows', unadopted, x) {
      assert NothingOf(columns, flows, unadopted, x);
      UnreadIsWrittenOver(columns, flows, columns', flows', x, gone, put);
      var after := Written(columns', flows', Automation([], []), x);
      NoneOrSome(after.columns);
      NoneOrSome(after.flows);
    }
  }

  // So does a reading.
  lemma ReadingStaysUnheard(columns: seq<Column>, flows: seq<Flow>, unadopted: map<string, Automation>, known: set<string>,
                            columns': seq<Column>, flows': seq<Flow>, unadopted': map<string, Automation>, boardID: string)
    requires OthersSame(columns, flows, columns', flows', boardID)
    requires forall b :: b != boardID ==> (b in unadopted <==> b in unadopted')
    requires Unheard(columns, flows, unadopted, known)
    ensures Unheard(columns', flows', unadopted', known + {boardID})
  {
    forall x | x != "" && x !in known + {boardID} ensures NothingOf(columns', flows', unadopted', x) {
      assert NothingOf(columns, flows, unadopted, x);
    }
  }

  // The edits of the registry, as such.
  lemma PutIsEdit(columns: seq<Column>, flows: seq<Flow>, c: Column)
    ensures IsEdit(columns, flows, PutColumn(columns, c), flows, ReplacedBy(columns, c), Entries({c}, {}))
  {
    var columns' := PutColumn(columns, c);
    var i := FirstColumn(columns, c);
    var at := if i.None? then |columns| else i.value;
    assert columns'[at] == c;
    forall o | o in columns ensures o in columns' || o in ReplacedBy(columns, c).columns {
      var k :| 0 <= k < |columns| && columns[k] == o;
      assert k != at ==> columns'[k] == o;
    }
  }

  // The column a new one takes the place of, if any.
  function ReplacedBy(columns: seq<Column>, c: Column): Entries {
    var i := FirstColumn(columns, c);
    Entries(if i.None? then {} else {columns[i.value]}, {})
  }

  lemma DropIsEdit(columns: seq<Column>, flows: seq<Flow>, i: nat)
    requires i < |columns|
    ensures IsEdit(columns, flows, columns[..i] + columns[i + 1..], flows, Entries({columns[i]}, {}), Entries({}, {}))
  {
    var columns' := columns[..i] + columns[i + 1..];
    forall c | c in columns ensures c in columns' || c == columns[i] {
      var k :| 0 <= k < |columns| && columns[k] == c;
      if k != i {
        assert columns'[if k < i then k else k - 1] == c;
      }
    }
  }

  lemma AddFlowIsEdit(columns: seq<Column>, flows: seq<Flow>, f: Flow)
    ensures IsEdit(columns, flows, columns, flows + [f], Entries({}, {}), Entries({}, {f}))
  {
  }

  lemma ReplaceFlowIsEdit(columns: seq<Column>, flows: seq<Flow>, i: nat, f: Flow)
    requires i < |flows|
    ensures IsEdit(columns, flows, columns, flows[i := f], Entries({}, {flows[i]}), Entries({}, {f}))
  {
    var flows' := flows[i := f];
    assert flows'[i] == f;
    forall o | o in flows ensures o in flows' || o == flows[i] {
      var k :| 0 <= k < |flows| && flows[k] == o;
      assert k != i ==> flows'[k] == o;
    }
  }

  lemma DropFlowIsEdit(columns: seq<Column>, flows: seq<Flow>, i: nat)
    requires i < |flows|
    ensures IsEdit(columns, flows, columns, flows[..i] + flows[i + 1..], Entries({}, {flows[i]}), Entries({}, {}))
  {
    var flows' := flows[..i] + flows[i + 1..];
    forall f | f in flows ensures f in flows' || f == flows[i] {
      var k :| 0 <= k < |flows| && flows[k] == f;
      if k != i {
        assert flows'[if k < i then k else k - 1] == f;
      }
    }
  }

  // ---- routes by id -------------------------------------------------------------------

  // Every route has an id, and no two the same.
  predicate IDsApart(flows: seq<Flow>) {
    && (forall i :: 0 <= i < |flows| ==> flows[i].head.id != "")
    && (forall i, j :: 0 <= i < j < |flows| ==> flows[i].head.id != flows[j].head.id)
  }

  lemma AcceptedHasAnID(f: Flow, mint: Mint)
    ensures Normal(f, mint).head.id != ""
  {
  }

  // Reading never gives two routes one id.
  lemma {:induction false} ReadingKeepsIDsApart(m: Machine, boardID: string, was: Reading<Flow>, said: seq<Flow>,
                                                mint: nat -> Mint, k: nat)
    requires IDsApart(was.registry) && k <= |said|
    ensures IDsApart(Adopt(RouteRules(m, boardID), was, said, mint, k).registry)
    decreases |said| - k
  {
    var r := RouteRules(m, boardID);
    if k < |said| {
      var p := r.prepare(said[k]);
      var next := AdoptOne(r, was, said[k], mint(k));
      if Acceptable(p, m.r) {
        AcceptedHasAnID(p, mint(k));
        RegisterKeepsIDsApart(m, boardID, was.registry, Normal(p, mint(k)));
      }
      ReadingKeepsIDsApart(m, boardID, next, said, mint, k + 1);
    }
  }

  lemma RegisterKeepsIDsApart(m: Machine, boardID: string, flows: seq<Flow>, v: Flow)
    requires IDsApart(flows) && v.head.id != ""
    ensures IDsApart(Register(RouteRules(m, boardID), flows, v))
  {
    var r := RouteRules(m, boardID);
    var at := FirstSame(r, flows, v);
    if at.None? {
      forall i | 0 <= i < |flows| ensures flows[i].head.id != v.head.id {
        assert !SameRoute(flows[i], v);
      }
    } else {
      MeldKeepsHead(m, flows[at.value], v);
    }
  }

  // An edit that carries no id is given a new one before it is looked up, so it is
  // about no route there is.
  lemma EditWithoutAnIDFindsNothing(flows: seq<Flow>, f: Flow, mint: Mint)
    requires IDsApart(flows) && Trim(f.head.id) == "" && forall i :: 0 <= i < |flows| ==> flows[i].head.id != mint
    ensures FirstFlow(flows, Normal(f, mint)).None?
  {
    forall i | 0 <= i < |flows| ensures !SameFlow(flows[i], Normal(f, mint)) {
    }
  }
}
