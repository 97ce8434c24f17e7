/** Who may start, and who waits: the columns' limits, one session per ordinary
    folder, and the queue of cards whose stage was full (internal/acp/manager.go,
    stagequeue.go). Starts, releases and drains come one at a time and the table of
    columns stands still; whether a path is an ordinary folder is a fact about it. */
module Admission {
  import opened Text
  import opened Agents

  datatype Column = Column(boardID: string, optionID: string, action: string, crew: seq<string>, maxRunning: nat)

  // What a start that names no column runs under.
  const NOWHERE := Column("", "", "", [], 0)

  function Key(c: Column): string {
    c.boardID + "|" + c.optionID
  }

  datatype Session = Session(card: string, column: string, folder: string, deploy: bool, agent: string)

  datatype Waiting = Waiting(card: string, key: string, flowID: string, nodeID: string)

  datatype Settings = Settings(
    columns: seq<Column>, agents: seq<Agent>, fallback: Option<Agent>, plain: string -> bool)

  datatype Request = Request(
    card: string, persons: Persons, column: Column, crew: seq<string>, deploy: bool, test: bool)

  // What the rest of the machine answers while a session is being started: the
  // folder it resolves to, whether what it deploys or tests resolves, whether the
  // network and a browser do, whether a folder worked in by branch is free, whether
  // the record could be stored, and the id it gets.
  datatype World = World(
    folder: Option<string>, ready: bool, network: bool, browser: bool, unheld: bool, stored: bool, id: string)

  datatype Outcome = Started(agent: string) | Busy | Taken | FolderBusy | Failed

  datatype Office = Office(active: map<string, Session>, byCard: map<string, string>, queue: seq<Waiting>)

  // ---- starting -----------------------------------------------------------------

  function InColumn(active: map<string, Session>, key: string): set<string> {
    set id | id in active && active[id].column == key
  }

  function BusyNames(active: map<string, Session>): set<string> {
    set id | id in active :: Fold(active[id].agent)
  }

  predicate InUse(active: map<string, Session>, folder: string) {
    exists id :: id in active && active[id].folder == folder
  }

  function Crew(r: Request): seq<string> {
    if r.crew != [] then r.crew else r.column.crew
  }

  // startSession, once it is known whether a person took the card and who would
  // work it.
  function Admit(plain: string -> bool, active: map<string, Session>, r: Request, w: World,
                 taken: bool, worker: Worker): Outcome
  {
    if !r.deploy && !r.test && taken then Taken
    else if w.folder.None? || !w.ready || (r.deploy && plain(w.folder.value)) then Failed
    else if worker.Nobody? then Failed
    else if worker.AllBusy? then Busy
    else if r.column.maxRunning > 0 && |InColumn(active, Key(r.column))| >= r.column.maxRunning then Busy
    else if !w.network || (r.test && !w.browser) then Failed
    else if !r.deploy && plain(w.folder.value) && InUse(active, w.folder.value) then FolderBusy
    else if !r.deploy && !plain(w.folder.value) && !w.unheld then FolderBusy
    else if !w.stored then Failed
    else Started(worker.agent.name)
  }

  function Attempt(s: Settings, active: map<string, Session>, r: Request, w: World): Outcome {
    Admit(s.plain, active, r, w, TakenByPerson(r.persons.names, s.agents),
          ResolveWorker(r.persons, Crew(r), s.agents, BusyNames(active), s.fallback))
  }

  // A session that started is live, and it is the card's own unless it is a deploy
  // beside one that is alive.
  function Enter(o: Office, r: Request, w: World, agent: string): Office
    requires w.folder.Some?
  {
    var session := Session(r.card, Key(r.column), w.folder.value, r.deploy, agent);
    o.(active := o.active[w.id := session],
       byCard := if r.card in o.byCard && r.deploy then o.byCard else o.byCard[r.card := w.id])
  }

  function After(o: Office, r: Request, w: World, outcome: Outcome): Office
    requires outcome.Started? ==> w.folder.Some?
  {
    if outcome.Started? then Enter(o, r, w, outcome.agent) else o
  }

  function Release(o: Office, id: string): Office
    requires id in o.active
  {
    var card := o.active[id].card;
    o.(active := o.active - {id},
       byCard := if card in o.byCard && o.byCard[card] == id then o.byCard - {card} else o.byCard)
  }

  // ---- the queue ------------------------------------------------------------------

  predicate Queued(q: seq<Waiting>, card: string) {
    exists i :: 0 <= i < |q| && q[i].card == card
  }

  function Enqueue(q: seq<Waiting>, w: Waiting): seq<Waiting> {
    if Queued(q, w.card) then q else q + [w]
  }

  function Dequeue(q: seq<Waiting>, card: string): seq<Waiting> {
    if q == [] then []
    else (if q[0].card == card then [] else [q[0]]) + Dequeue(q[1..], card)
  }

  function NextQueued(q: seq<Waiting>, key: string): (w: Option<Waiting>)
    ensures w.Some? ==> w.value in q && w.value.key == key
    ensures w.None? ==> forall i :: 0 <= i < |q| ==> q[i].key != key
  {
    if q == [] then None
    else if q[0].key == key then Some(q[0])
    else NextQueued(q[1..], key)
  }

  function ColumnByKey(columns: seq<Column>, key: string): (c: Option<Column>)
    ensures c.Some? ==> c.value in columns && Key(c.value) == key
    ensures c.None? <==> forall i :: 0 <= i < |columns| ==> Key(columns[i]) != key
  {
    if columns == [] then None
    else if Key(columns[0]) == key then Some(columns[0])
    else ColumnByKey(columns[1..], key)
  }

  // What the waiting card's route says about its stage, when the route and the
  // stage are still there.
  datatype Stage = Stage(action: string, crew: seq<string>)

  datatype Left = Stays | Dropped | NothingToRun | Began | TakenOver | CouldNot

  function StageAction(c: Column, stage: Option<Stage>): string {
    if stage.Some? && stage.value.action != "" then stage.value.action else c.action
  }

  function DrainRequest(card: string, persons: Persons, c: Column, stage: Option<Stage>): Request {
    var action := StageAction(c, stage);
    Request(card, persons, c, if stage.Some? then stage.value.crew else [], action == "deploy", action == "test")
  }

  // What becomes of the card that has waited longest for a column. persons is
  // absent when the card could not be read.
  function Fate(s: Settings, o: Office, q: Waiting, persons: Option<Persons>, stage: Option<Stage>, w: World): Left {
    var c := ColumnByKey(s.columns, q.key);
    if c.None? then Dropped
    else if persons.None? then Stays
    else if StageAction(c.value, stage) in {"none", ""} then NothingToRun
    else
      match Attempt(s, o.active, DrainRequest(q.card, persons.value, c.value, stage), w)
      case Busy => Stays
      case Started(_) => Began
      case Taken => TakenOver
      case _ => CouldNot
  }

  function Drain(s: Settings, o: Office, key: string, persons: Option<Persons>, stage: Option<Stage>, w: World): Office {
    var next := NextQueued(o.queue, key);
    if next.None? then o
    else
      var q := next.value;
      var fate := Fate(s, o, q, persons, stage, w);
      var o' := if fate.Stays? then o else o.(queue := Dequeue(o.queue, q.card));
      if fate.Began? then
        var r := DrainRequest(q.card, persons.value, ColumnByKey(s.columns, key).value, stage);
        After(o', r, w, Attempt(s, o.active, r, w))
      else o'
  }

  // ---- runs ---------------------------------------------------------------------

  datatype Event =
    | Arrive(r: Request, w: World, flowID: string, nodeID: string)   // a stage: start, or wait if it is full
    | Direct(r: Request, w: World)                                   // the deploy button
    | Released(id: string)
    | Leave(card: string)                                            // moved away from where it waited
    | Drained(key: string, persons: Option<Persons>, stage: Option<Stage>, w: World)

  predicate MayHappen(s: Settings, o: Office, e: Event) {
    match e
    case Arrive(r, w, _, _) => w.id !in o.active && (r.column == NOWHERE || r.column in s.columns)
    case Direct(r, w) => w.id !in o.active && r.column == NOWHERE
    case Released(id) => id in o.active
    case Leave(_) => true
    case Drained(_, _, _, w) => w.id !in o.active
  }

  function Step(s: Settings, o: Office, e: Event): Office
    requires MayHappen(s, o, e)
  {
    match e
    case Arrive(r, w, flowID, nodeID) =>
      var outcome := Attempt(s, o.active, r, w);
      if outcome.Busy? then o.(queue := Enqueue(o.queue, Waiting(r.card, Key(r.column), flowID, nodeID)))
      else After(o, r, w, outcome)
    case Direct(r, w) => After(o, r, w, Attempt(s, o.active, r, w))
    case Released(id) => Release(o, id)
    case Leave(card) => o.(queue := Dequeue(o.queue, card))
    case Drained(key, persons, stage, w) => Drain(s, o, key, persons, stage, w)
  }

  ghost predicate Follows(s: Settings, o: Office, e: Event, o': Office) {
    MayHappen(s, o, e) && o' == Step(s, o, e)
  }

  ghost predicate Run(s: Settings, states: seq<Office>, events: seq<Event>) {
    && |states| == |events| + 1
    && states[0] == Office(map[], map[], [])
    && forall i :: 0 <= i < |events| ==> Follows(s, states[i], events[i], states[i + 1])
  }

  // ---- what every run keeps ----------------------------------------------------------

  // One table entry to a key, and no limit on having no column.
  predicate KeysApart(columns: seq<Column>) {
    var all := columns + [NOWHERE];
    forall c, d :: c in all && d in all && Key(c) == Key(d) ==> c.maxRunning == d.maxRunning
  }

  predicate WithinLimits(s: Settings, active: map<string, Session>) {
    forall c :: c in s.columns && c.maxRunning > 0 ==> |InColumn(active, Key(c))| <= c.maxRunning
  }

  predicate FoldersApart(s: Settings, active: map<string, Session>) {
    forall a, b ::
      a in active && b in active && a != b && !active[a].deploy && !active[b].deploy && active[a].folder == active[b].folder
      ==> !s.plain(active[a].folder)
  }

  predicate CardsOwn(o: Office) {
    forall card :: card in o.byCard ==> o.byCard[card] in o.active && o.active[o.byCard[card]].card == card
  }

  predicate OnceEach(q: seq<Waiting>) {
    forall i, j :: 0 <= i < j < |q| ==> q[i].card != q[j].card
  }

  ghost predicate Inv(s: Settings, o: Office) {
    WithinLimits(s, o.active) && FoldersApart(s, o.active) && CardsOwn(o) && OnceEach(o.queue)
  }

  lemma OneMoreInColumn(active: map<string, Session>, id: string, session: Session, key: string)
    requires id !in active
    ensures |InColumn(active[id := session], key)| == |InColumn(active, key)| + if session.column == key then 1 else 0
  {
    var active' := active[id := session];
    if session.column == key {
      assert InColumn(active', key) == InColumn(active, key) + {id};
    } else {
      assert InColumn(active', key) == InColumn(active, key);
    }
  }

  lemma OneLessInColumn(active: map<string, Session>, id: string, key: string)
    ensures |InColumn(active - {id}, key)| <= |InColumn(active, key)|
  {
    assert InColumn(active - {id}, key) == InColumn(active, key) - {id};
  }

  lemma AdmittedKeepsLimits(s: Settings, o: Office, r: Request, w: World, taken: bool, worker: Worker)
    requires KeysApart(s.columns) && WithinLimits(s, o.active)
    requires r.column in s.columns || r.column == NOWHERE
    requires w.id !in o.active && Admit(s.plain, o.active, r, w, taken, worker).Started?
    ensures WithinLimits(s, Enter(o, r, w, worker.agent.name).active)
  {
    var session := Session(r.card, Key(r.column), w.folder.value, r.deploy, worker.agent.name);
    forall c | c in s.columns && c.maxRunning > 0
      ensures |InColumn(o.active[w.id := session], Key(c))| <= c.maxRunning
    {
      OneMoreInColumn(o.active, w.id, session, Key(c));
    }
  }

  lemma AdmittedKeepsInv(s: Settings, o: Office, r: Request, w: World, taken: bool, worker: Worker)
    requires KeysApart(s.columns) && Inv(s, o)
    requires r.column in s.columns || r.column == NOWHERE
    requires w.id !in o.active && Admit(s.plain, o.active, r, w, taken, worker).Started?
    ensures Inv(s, Enter(o, r, w, worker.agent.name))
  {
    AdmittedKeepsLimits(s, o, r, w, taken, worker);
  }

  lemma AttemptKeepsInv(s: Settings, o: Office, r: Request, w: World)
    requires KeysApart(s.columns) && Inv(s, o)
    requires r.column in s.columns || r.column == NOWHERE
    requires w.id !in o.active
    ensures Inv(s, After(o, r, w, Attempt(s, o.active, r, w)))
  {
    var taken := TakenByPerson(r.persons.names, s.agents);
    var worker := ResolveWorker(r.persons, Crew(r), s.agents, BusyNames(o.active), s.fallback);
    if Admit(s.plain, o.active, r, w, taken, worker).Started? {
      AdmittedKeepsInv(s, o, r, w, taken, worker);
    }
  }

  lemma ReleaseKeepsInv(s: Settings, o: Office, id: string)
    requires Inv(s, o) && id in o.active
    ensures Inv(s, Release(o, id))
  {
    forall c | c in s.columns && c.maxRunning > 0
      ensures |InColumn(o.active - {id}, Key(c))| <= c.maxRunning
    {
      OneLessInColumn(o.active, id, Key(c));
    }
  }

  lemma {:induction false} DequeueRemoves(q: seq<Waiting>, card: string)
    ensures forall w :: w in Dequeue(q, card) <==> w in q && w.card != card
    ensures OnceEach(q) ==> OnceEach(Dequeue(q, card))
  {
    if q != [] {
      var rest := q[1..];
      DequeueRemoves(rest, card);
      assert q == [q[0]] + rest;
      var q' := Dequeue(rest, card);
      if OnceEach(q) {
        assert OnceEach(rest);
        forall j | 0 <= j < |q'| ensures q[0].card != q'[j].card {
          assert q'[j] in rest;
        }
      }
    }
  }

  lemma StepKeepsInv(s: Settings, o: Office, e: Event)
    requires KeysApart(s.columns) && Inv(s, o) && MayHappen(s, o, e)
    ensures Inv(s, Step(s, o, e))
  {
    match e
    case Arrive(r, w, flowID, nodeID) =>
      AttemptKeepsInv(s, o, r, w);
    case Direct(r, w) =>
      AttemptKeepsInv(s, o, r, w);
    case Released(id) =>
      ReleaseKeepsInv(s, o, id);
    case Leave(card) =>
      DequeueRemoves(o.queue, card);
    case Drained(key, persons, stage, w) =>
      var next := NextQueued(o.queue, key);
      if next.Some? {
        var q := next.value;
        DequeueRemoves(o.queue, q.card);
        var o' := o.(queue := Dequeue(o.queue, q.card));
        if Fate(s, o, q, persons, stage, w).Began? {
          AttemptKeepsInv(s, o', DrainRequest(q.card, persons.value, ColumnByKey(s.columns, key).value, stage), w);
        }
      }
  }

  lemma {:induction false} EveryRunKeepsInv(s: Settings, states: seq<Office>, events: seq<Event>, n: nat)
    requires KeysApart(s.columns) && Run(s, states, events) && n <= |events|
    ensures Inv(s, states[n])
  {
    if n > 0 {
      EveryRunKeepsInv(s, states, events, n - 1);
      assert Follows(s, states[n - 1], events[n - 1], states[n]);
      NextKeepsInv(s, states[n - 1], events[n - 1], states[n]);
    }
  }

  lemma NextKeepsInv(s: Settings, o: Office, e: Event, o': Office)
    requires KeysApart(s.columns) && Inv(s, o) && Follows(s, o, e, o')
    ensures Inv(s, o')
  {
    StepKeepsInv(s, o, e);
  }

  // ---- leaving the queue -----------------------------------------------------------------

  // Whether the column a card waits for is one the machine has settings for.
  predicate Configured(s: Settings, key: string) {
    exists i :: 0 <= i < |s.columns| && Key(s.columns[i]) == key
  }

  lemma DrainTouchesOne(s: Settings, o: Office, key: string, persons: Option<Persons>, stage: Option<Stage>, w: World)
    ensures var next := NextQueued(o.queue, key);
            Drain(s, o, key, persons, stage, w).queue ==
            if next.None? || Fate(s, o, next.value, persons, stage, w).Stays? then o.queue
            else Dequeue(o.queue, next.value.card)
  {
  }

  lemma DequeueSpares(q: seq<Waiting>, card: string, other: string)
    requires Queued(q, other) && card != other
    ensures Queued(Dequeue(q, card), other)
  {
    DequeueRemoves(q, card);
    var i :| 0 <= i < |q| && q[i].card == other;
    assert q[i] in Dequeue(q, card);
  }

  lemma DequeueForgets(q: seq<Waiting>, card: string)
    ensures !Queued(Dequeue(q, card), card)
  {
    DequeueRemoves(q, card);
  }

  // What a fate means for the sessions.
  lemma FateIsWhatHappened(s: Settings, o: Office, key: string, persons: Option<Persons>, stage: Option<Stage>, w: World)
    requires NextQueued(o.queue, key).Some?
    ensures var q := NextQueued(o.queue, key).value;
            var o' := Drain(s, o, key, persons, stage, w);
            match Fate(s, o, q, persons, stage, w)
            case Dropped => !Configured(s, key) && o'.active == o.active
            case Began => w.id in o'.active && o'.active[w.id].card == q.card && o'.active[w.id].column == key
            case Stays => o' == o
            case _ => Configured(s, key) && o'.active == o.active
  {
  }

  // A drain takes at most one card, the one that has waited longest for the column,
  // and never for nothing: it started, somebody took it, it could not start, or
  // there was nothing to run; or its column is not configured at all.
  lemma LeavesForAReason(s: Settings, o: Office, key: string, persons: Option<Persons>, stage: Option<Stage>, w: World,
                         card: string)
    requires Queued(o.queue, card)
    ensures var o' := Drain(s, o, key, persons, stage, w);
            var next := NextQueued(o.queue, key);
            if Queued(o'.queue, card) then
              next.Some? && next.value.card == card ==> Fate(s, o, next.value, persons, stage, w).Stays?
            else
              && next.Some? && next.value.card == card
              && match Fate(s, o, next.value, persons, stage, w)
                 case Dropped => !Configured(s, key) && o'.active == o.active
                 case Began => w.id in o'.active && o'.active[w.id].card == card && o'.active[w.id].column == key
                 case Stays => false
                 case _ => Configured(s, key) && o'.active == o.active
  {
    DrainTouchesOne(s, o, key, persons, stage, w);
    var next := NextQueued(o.queue, key);
    if next.Some? {
      FateIsWhatHappened(s, o, key, persons, stage, w);
      DequeueForgets(o.queue, next.value.card);
      if card != next.value.card {
        DequeueSpares(o.queue, next.value.card, card);
      }
    }
  }

  // So a card never vanishes from the queue exactly when every key in it is
  // configured.
  lemma DroppedOnlyUnconfigured(s: Settings, o: Office, q: Waiting, persons: Option<Persons>, stage: Option<Stage>, w: World)
    ensures Fate(s, o, q, persons, stage, w).Dropped? <==> !Configured(s, q.key)
  {
  }

  predicate AllConfigured(s: Settings, q: seq<Waiting>) {
    forall i :: 0 <= i < |q| ==> Configured(s, q[i].key)
  }

  lemma DequeueStaysConfigured(s: Settings, q: seq<Waiting>, card: string)
    requires AllConfigured(s, q)
    ensures AllConfigured(s, Dequeue(q, card))
  {
    DequeueRemoves(q, card);
    var q' := Dequeue(q, card);
    forall i | 0 <= i < |q'| ensures Configured(s, q'[i].key) {
      assert q'[i] in q;
    }
  }

  lemma StepStaysConfigured(s: Settings, o: Office, e: Event)
    requires MayHappen(s, o, e) && AllConfigured(s, o.queue) && (e.Arrive? ==> e.r.column in s.columns)
    ensures AllConfigured(s, Step(s, o, e).queue)
  {
    match e
    case Arrive(r, _, _, _) =>
      var i :| 0 <= i < |s.columns| && s.columns[i] == r.column;
      assert Configured(s, Key(r.column));
    case Leave(card) =>
      DequeueStaysConfigured(s, o.queue, card);
    case Drained(key, persons, stage, w) =>
      DrainTouchesOne(s, o, key, persons, stage, w);
      if NextQueued(o.queue, key).Some? {
        DequeueStaysConfigured(s, o.queue, NextQueued(o.queue, key).value.card);
      }
    case _ =>
  }

  // Arrivals at configured columns put nothing else in the queue, whatever happens.
  lemma {:induction false} QueueStaysConfigured(s: Settings, states: seq<Office>, events: seq<Event>, n: nat)
    requires Run(s, states, events) && n <= |events|
    requires forall i :: 0 <= i < |events| && events[i].Arrive? ==> events[i].r.column in s.columns
    ensures AllConfigured(s, states[n].queue)
  {
    if n > 0 {
      QueueStaysConfigured(s, states, events, n - 1);
      assert Follows(s, states[n - 1], events[n - 1], states[n]);
      StepStaysConfigured(s, states[n - 1], events[n - 1]);
    }
  }

  // But a stage may have a crew of its own and stand on a column nobody configured.
  // When its crew is busy the card is queued under no column's key, and the next
  // place that frees there throws it out of the queue without starting it.
  lemma UnconfiguredStageIsDropped(s: Settings, o: Office, r: Request, w: World, flowID: string, nodeID: string,
                                   persons: Option<Persons>, stage: Option<Stage>, w': World)
    requires Inv(s, o) && !Configured(s, Key(NOWHERE)) && r.column == NOWHERE
    requires w.id !in o.active && Attempt(s, o.active, r, w).Busy? && !Queued(o.queue, r.card)
    requires NextQueued(o.queue, Key(NOWHERE)).None?
    ensures var queued := Step(s, o, Arrive(r, w, flowID, nodeID));
            && Queued(queued.queue, r.card)
            && Drain(s, queued, Key(NOWHERE), persons, stage, w') == o
  {
    var q := Waiting(r.card, Key(NOWHERE), flowID, nodeID);
    var queue' := o.queue + [q];
    assert queue'[|o.queue|] == q;
    FirstOfItsKey(o.queue, q);
    DequeueLast(o.queue, q);
    assert Office(o.active, o.byCard, o.queue) == o;
  }

  lemma {:induction false} FirstOfItsKey(q: seq<Waiting>, w: Waiting)
    requires NextQueued(q, w.key).None?
    ensures NextQueued(q + [w], w.key) == Some(w)
  {
    if q != [] {
      assert (q + [w])[1..] == q[1..] + [w];
      FirstOfItsKey(q[1..], w);
    }
  }

  lemma {:induction false} DequeueLast(q: seq<Waiting>, w: Waiting)
    requires !Queued(q, w.card)
    ensures Dequeue(q + [w], w.card) == q
  {
    if q == [] {
      assert [w][1..] == [];
    } else {
      var rest := q[1..];
      assert (q + [w])[1..] == rest + [w];
      assert forall i :: 0 <= i < |rest| ==> rest[i] == q[i + 1];
      DequeueLast(rest, w);
    }
  }

  // ---- nobody is overtaken --------------------------------------------------------------

  predicate Ahead(q: seq<Waiting>, a: string, b: string) {
    exists i, j :: 0 <= i < j < |q| && q[i].card == a && q[j].card == b
  }

  predicate WaitsFor(q: seq<Waiting>, a: string, key: string) {
    exists i :: 0 <= i < |q| && q[i].card == a && q[i].key == key
  }

  lemma {:induction false} DequeueKeepsOrder(q: seq<Waiting>, card: string, a: string, b: string)
    requires Ahead(q, a, b) && a != card && b != card
    ensures Ahead(Dequeue(q, card), a, b)
  {
    var rest := q[1..];
    var i, j :| 0 <= i < j < |q| && q[i].card == a && q[j].card == b;
    assert rest[j - 1] == q[j];
    var head := if q[0].card == card then [] else [q[0]];
    assert Dequeue(q, card) == head + Dequeue(rest, card);
    if i == 0 {
      DequeueSpares(rest, card, b);
      AheadOfAll(q[0], Dequeue(rest, card), b);
    } else {
      assert rest[i - 1] == q[i];
      DequeueKeepsOrder(rest, card, a, b);
      AheadStill(head, Dequeue(rest, card), a, b);
    }
  }

  lemma AheadOfAll(w: Waiting, q: seq<Waiting>, b: string)
    requires Queued(q, b)
    ensures Ahead([w] + q, w.card, b)
  {
    var k :| 0 <= k < |q| && q[k].card == b;
    assert ([w] + q)[0].card == w.card && ([w] + q)[k + 1].card == b;
  }

  lemma AheadStill(p: seq<Waiting>, q: seq<Waiting>, a: string, b: string)
    requires Ahead(q, a, b)
    ensures Ahead(p + q, a, b)
  {
    var i, j :| 0 <= i < j < |q| && q[i].card == a && q[j].card == b;
    assert (p + q)[|p| + i].card == a && (p + q)[|p| + j].card == b;
  }

  lemma {:induction false} FirstIsNotBehind(q: seq<Waiting>, a: string, b: string, key: string)
    requires OnceEach(q) && Ahead(q, a, b) && WaitsFor(q, a, key)
    ensures NextQueued(q, key).Some? && NextQueued(q, key).value.card != b
  {
    var i, j :| 0 <= i < j < |q| && q[i].card == a && q[j].card == b;
    if q[0].key != key {
      var rest := q[1..];
      assert rest[i - 1] == q[i] && rest[j - 1] == q[j];
      FirstIsNotBehind(rest, a, b, key);
    }
  }

  lemma StepKeepsOrder(s: Settings, o: Office, e: Event, a: string, b: string)
    requires MayHappen(s, o, e) && OnceEach(o.queue)
    requires Queued(o.queue, b) ==> Ahead(o.queue, a, b)
    requires Queued(o.queue, a) && Queued(Step(s, o, e).queue, a)
    ensures Queued(Step(s, o, e).queue, b) && a != b ==> Ahead(Step(s, o, e).queue, a, b)
  {
    var o' := Step(s, o, e);
    if Queued(o'.queue, b) && a != b {
      match e
      case Arrive(r, w, flowID, nodeID) =>
        var i :| 0 <= i < |o.queue| && o.queue[i].card == a;
        if !Queued(o.queue, b) {
          assert o'.queue[i].card == a && o'.queue[|o.queue|].card == b;
        } else {
          var i', j' :| 0 <= i' < j' < |o.queue| && o.queue[i'].card == a && o.queue[j'].card == b;
          assert o'.queue[i'].card == a && o'.queue[j'].card == b;
        }
      case Leave(card) =>
        Survives(o.queue, card, a, b);
      case Drained(key, _, _, _) =>
        if o'.queue != o.queue {
          Survives(o.queue, NextQueued(o.queue, key).value.card, a, b);
        }
      case _ =>
    }
  }

  lemma Survives(q: seq<Waiting>, card: string, a: string, b: string)
    requires Queued(q, b) ==> Ahead(q, a, b)
    requires Queued(Dequeue(q, card), a) && Queued(Dequeue(q, card), b)
    ensures Ahead(Dequeue(q, card), a, b)
  {
    DequeueRemoves(q, card);
    var q' := Dequeue(q, card);
    var i :| 0 <= i < |q'| && q'[i].card == a;
    var j :| 0 <= j < |q'| && q'[j].card == b;
    assert q'[i] in q && q'[j] in q;
    var k :| 0 <= k < |q| && q[k] == q'[j];
    DequeueKeepsOrder(q, card, a, b);
  }

  lemma DrainSparesThoseBehind(s: Settings, o: Office, e: Event, a: string, b: string)
    requires e.Drained? && OnceEach(o.queue) && WaitsFor(o.queue, a, e.key)
    requires Queued(o.queue, b) && Ahead(o.queue, a, b)
    ensures Queued(Drain(s, o, e.key, e.persons, e.stage, e.w).queue, b)
  {
    FirstIsNotBehind(o.queue, a, b, e.key);
    DrainTouchesOne(s, o, e.key, e.persons, e.stage, e.w);
    DequeueSpares(o.queue, NextQueued(o.queue, e.key).value.card, b);
  }

  lemma {:induction false} OrderIsKept(s: Settings, states: seq<Office>, events: seq<Event>, from: nat, n: nat,
                                       a: string, b: string)
    requires KeysApart(s.columns) && Run(s, states, events) && from <= n <= |events| && a != b
    requires forall i :: from <= i <= n ==> Queued(states[i].queue, a)
    requires !Queued(states[from].queue, b) || Ahead(states[from].queue, a, b)
    ensures Queued(states[n].queue, b) ==> Ahead(states[n].queue, a, b)
  {
    if n > from {
      OrderIsKept(s, states, events, from, n - 1, a, b);
      EveryRunKeepsInv(s, states, events, n - 1);
      assert Follows(s, states[n - 1], events[n - 1], states[n]);
      NextKeepsOrder(s, states[n - 1], events[n - 1], states[n], a, b);
    }
  }

  lemma NextKeepsOrder(s: Settings, o: Office, e: Event, o': Office, a: string, b: string)
    requires Follows(s, o, e, o') && OnceEach(o.queue) && a != b
    requires Queued(o.queue, b) ==> Ahead(o.queue, a, b)
    requires Queued(o.queue, a) && Queued(o'.queue, a)
    ensures Queued(o'.queue, b) ==> Ahead(o'.queue, a, b)
  {
    StepKeepsOrder(s, o, e, a, b);
  }

  // While a card waits for a column, nobody who came to the queue after it gets in
  // front of it, and no drain of that column takes one of them.
  lemma NobodyIsOvertaken(s: Settings, states: seq<Office>, events: seq<Event>, from: nat, n: nat,
                          a: string, b: string, key: string)
    requires KeysApart(s.columns) && Run(s, states, events) && from <= n < |events| && a != b
    requires forall i :: from <= i <= n ==> Queued(states[i].queue, a)
    requires WaitsFor(states[n].queue, a, key)
    requires !Queued(states[from].queue, b) || Ahead(states[from].queue, a, b)
    ensures Queued(states[n].queue, b) ==> Ahead(states[n].queue, a, b)
    ensures events[n].Drained? && events[n].key == key && Queued(states[n].queue, b) ==> Queued(states[n + 1].queue, b)
  {
    OrderIsKept(s, states, events, from, n, a, b);
    if events[n].Drained? && events[n].key == key && Queued(states[n].queue, b) {
      EveryRunKeepsInv(s, states, events, n);
      assert Follows(s, states[n], events[n], states[n + 1]);
      DrainSparesThoseBehind(s, states[n], events[n], a, b);
    }
  }

  // ---- each outcome, exactly ----------------------------------------------------------

  // Work for an agent, on a card somebody who is no agent took.
  predicate IsVetoed(s: Settings, r: Request) {
    !r.deploy && !r.test && NamesAPerson(r.persons.names, s.agents)
  }

  // The card names no folder, or what it would deploy or test is not there, or a deploy
  // has no repository to push from.
  predicate LacksItsPlace(s: Settings, r: Request, w: World) {
    w.folder.None? || !w.ready || (r.deploy && s.plain(w.folder.value))
  }

  function WorkerOf(s: Settings, active: map<string, Session>, r: Request): Worker {
    ResolveWorker(r.persons, if r.crew == [] then r.column.crew else r.crew, s.agents,
                  set id | id in active :: Fold(active[id].agent), s.fallback)
  }

  // As many live sessions of the column as it may have.
  predicate IsFull(active: map<string, Session>, c: Column) {
    c.maxRunning > 0 && |set id | id in active && active[id].column == c.boardID + "|" + c.optionID| >= c.maxRunning
  }

  predicate LacksItsMeans(r: Request, w: World) {
    !w.network || (r.test && !w.browser)
  }

  // An ordinary folder somebody works in, or a repository whose folder another card
  // has; a deploy touches neither.
  predicate IsHeld(s: Settings, active: map<string, Session>, r: Request, w: World)
    requires w.folder.Some?
  {
    !r.deploy && if s.plain(w.folder.value) then exists id :: id in active && active[id].folder == w.folder.value
                 else !w.unheld
  }

  // What a start comes to, by what stands against it, the first of these that does.
  ghost predicate ComesTo(s: Settings, active: map<string, Session>, r: Request, w: World, o: Outcome) {
    var worker := WorkerOf(s, active, r);
    if IsVetoed(s, r) then o == Taken
    else if LacksItsPlace(s, r, w) || worker.Nobody? then o == Failed
    else if worker.AllBusy? || IsFull(active, r.column) then o == Busy
    else if LacksItsMeans(r, w) then o == Failed
    else if IsHeld(s, active, r, w) then o == FolderBusy
    else if !w.stored then o == Failed
    else worker.Works? && o == Started(worker.agent.name)
  }

  lemma OutcomeIsExact(s: Settings, active: map<string, Session>, r: Request, w: World)
    ensures ComesTo(s, active, r, w, Attempt(s, active, r, w))
  {
    TakenExactlyWhen(r.persons.names, s.agents);
    assert BusyNames(active) == set id | id in active :: Fold(active[id].agent);
    assert InColumn(active, Key(r.column)) ==
           set id | id in active && active[id].column == r.column.boardID + "|" + r.column.optionID;
  }

  // What a start leaves: the session it started, and whose session the card's is.
  ghost predicate IsEntered(o: Office, r: Request, w: World, agent: string, o': Office) {
    && w.folder.Some? && o'.queue == o.queue
    && o'.active.Keys == o.active.Keys + {w.id} && (forall id :: id in o.active && id != w.id ==> o'.active[id] == o.active[id])
    && (var session := o'.active[w.id];
        && session.card == r.card && session.column == r.column.boardID + "|" + r.column.optionID
        && session.folder == w.folder.value && session.deploy == r.deploy && session.agent == agent)
    && (forall card :: card != r.card ==>
          (card in o.byCard <==> card in o'.byCard) && (card in o.byCard ==> o'.byCard[card] == o.byCard[card]))
    && r.card in o'.byCard
    && o'.byCard[r.card] == (if r.deploy && r.card in o.byCard then o.byCard[r.card] else w.id)
  }

  lemma EnteredIsExact(o: Office, r: Request, w: World, agent: string)
    requires w.folder.Some?
    ensures IsEntered(o, r, w, agent, Enter(o, r, w, agent))
  {
  }

  // ---- and what is asked for a card from the queue -------------------------------------

  // The row that has waited longest for the column.
  predicate IsNext(q: seq<Waiting>, key: string, i: nat) {
    i < |q| && q[i].key == key && forall k :: 0 <= k < i ==> q[k].key != key
  }

  lemma {:induction false} NextIsFirst(q: seq<Waiting>, key: string)
    ensures forall i: nat :: IsNext(q, key, i) ==> NextQueued(q, key) == Some(q[i])
    ensures NextQueued(q, key).None? <==> forall i :: 0 <= i < |q| ==> q[i].key != key
  {
    if q != [] {
      var rest := q[1..];
      NextIsFirst(rest, key);
      assert forall i :: 0 < i < |q| ==> q[i] == rest[i - 1];
      forall i: nat | IsNext(q, key, i) && i > 0 ensures IsNext(rest, key, i - 1) && rest[i - 1] == q[i] {
        assert forall k :: 0 <= k < i - 1 ==> rest[k] == q[k + 1];
      }
    }
  }

  // The card's start is its stage's where the stage says, else the column's.
  lemma QueuedRequestIs(card: string, persons: Persons, c: Column, stage: Option<Stage>)
    ensures var r := DrainRequest(card, persons, c, stage);
            var action := if stage.Some? && stage.value.action != "" then stage.value.action else c.action;
            && r.card == card && r.persons == persons && r.column == c
            && (r.deploy <==> action == "deploy") && (r.test <==> action == "test")
            && (if r.crew == [] then r.column.crew else r.crew) ==
               (if stage.Some? && stage.value.crew != [] then stage.value.crew else c.crew)
  {
  }

  // What becomes of a waiting card, by what its start comes to.
  predicate IsFateOf(outcome: Outcome, fate: Left) {
    && (outcome == Busy <==> fate == Stays) && (outcome.Started? <==> fate == Began)
    && (outcome == Taken <==> fate == TakenOver)
    && (outcome == FolderBusy || outcome == Failed <==> fate == CouldNot)
  }

  lemma FateFollows(s: Settings, o: Office, q: Waiting, persons: Persons, stage: Option<Stage>, w: World, c: Column)
    requires ColumnByKey(s.columns, q.key) == Some(c) && StageAction(c, stage) !in {"none", ""}
    ensures IsFateOf(Attempt(s, o.active, DrainRequest(q.card, persons, c, stage), w), Fate(s, o, q, Some(persons), stage, w))
  {
  }

  lemma FateIsExact(s: Settings, o: Office, q: Waiting, persons: Option<Persons>, stage: Option<Stage>, w: World, i: nat)
    requires i < |s.columns| && s.columns[i].boardID + "|" + s.columns[i].optionID == q.key
    requires forall k :: 0 <= k < i ==> s.columns[k].boardID + "|" + s.columns[k].optionID != q.key
    ensures var fate := Fate(s, o, q, persons, stage, w);
            var action := if stage.Some? && stage.value.action != "" then stage.value.action else s.columns[i].action;
            if persons.None? then fate == Stays
            else if action == "" || action == "none" then fate == NothingToRun
            else exists outcome {:trigger IsFateOf(outcome, fate)} ::
                   && ComesTo(s, o.active, DrainRequest(q.card, persons.value, s.columns[i], stage), w, outcome)
                   && IsFateOf(outcome, fate)
  {
    KeyIsFirst(s.columns, q.key, i);
    var c := s.columns[i];
    if persons.Some? && StageAction(c, stage) !in {"none", ""} {
      OutcomeIsExact(s, o.active, DrainRequest(q.card, persons.value, c, stage), w);
      FateFollows(s, o, q, persons.value, stage, w, c);
    }
  }

  lemma {:induction false} KeyIsFirst(columns: seq<Column>, key: string, i: nat)
    requires i < |columns| && columns[i].boardID + "|" + columns[i].optionID == key
    requires forall k :: 0 <= k < i ==> columns[k].boardID + "|" + columns[k].optionID != key
    ensures ColumnByKey(columns, key) == Some(columns[i])
  {
    if i > 0 {
      var rest := columns[1..];
      assert rest[i - 1] == columns[i] && forall k :: 0 <= k < i - 1 ==> rest[k] == columns[k + 1];
      KeyIsFirst(rest, key, i - 1);
    }
  }

  // ---- nobody's own card is worked -------------------------------------------------------

  // What was asked for, by an event that may start a session.
  function AskedFor(s: Settings, o: Office, e: Event): Option<Request> {
    match e
    case Arrive(r, _, _, _) => Some(r)
    case Direct(r, _) => Some(r)
    case Drained(key, persons, stage, _) =>
      var next, c := NextQueued(o.queue, key), ColumnByKey(s.columns, key);
      if next.Some? && persons.Some? && c.Some? then Some(DrainRequest(next.value.card, persons.value, c.value, stage)) else None
    case _ => None
  }

  // The session a start let in, which was asked for and not refused.
  ghost predicate LetIn(s: Settings, o: Office, r: Request, w: World, o': Office, id: string) {
    && Attempt(s, o.active, r, w).Started? && id in o'.active
    && o'.active[id].card == r.card && o'.active[id].deploy == r.deploy
  }

  lemma EnteredIsLetIn(s: Settings, o: Office, r: Request, w: World, o': Office, id: string)
    requires w.id !in o.active && id !in o.active && id in o'.active
    requires Attempt(s, o.active, r, w).Started? ==> w.folder.Some?
    requires o'.active == After(o, r, w, Attempt(s, o.active, r, w)).active
    ensures LetIn(s, o, r, w, o', id)
  {
  }

  lemma StartedIsFolder(s: Settings, active: map<string, Session>, r: Request, w: World)
    ensures Attempt(s, active, r, w).Started? ==> w.folder.Some?
    ensures Attempt(s, active, r, w).Started? ==> r.deploy || r.test || !TakenByPerson(r.persons.names, s.agents)
  {
  }

  lemma DrainLetsIn(s: Settings, o: Office, key: string, persons: Option<Persons>, stage: Option<Stage>, w: World, id: string)
    requires w.id !in o.active && id !in o.active && id in Drain(s, o, key, persons, stage, w).active
    ensures var asked := AskedFor(s, o, Drained(key, persons, stage, w));
            asked.Some? && LetIn(s, o, asked.value, w, Drain(s, o, key, persons, stage, w), id)
  {
    var next := NextQueued(o.queue, key);
    var c := ColumnByKey(s.columns, key);
    if next.Some? && persons.Some? && c.Some? {
      var r := DrainRequest(next.value.card, persons.value, c.value, stage);
      StartedIsFolder(s, o.active, r, w);
      EnteredIsLetIn(s, o, r, w, Drain(s, o, key, persons, stage, w), id);
    }
  }

  lemma StepLetsIn(s: Settings, o: Office, e: Event, id: string)
    requires MayHappen(s, o, e) && id !in o.active && id in Step(s, o, e).active
    ensures AskedFor(s, o, e).Some? && exists w :: LetIn(s, o, AskedFor(s, o, e).value, w, Step(s, o, e), id)
  {
    match e
    case Arrive(r, w, _, _) =>
      StartedIsFolder(s, o.active, r, w);
      EnteredIsLetIn(s, o, r, w, Step(s, o, e), id);
    case Direct(r, w) =>
      StartedIsFolder(s, o.active, r, w);
      EnteredIsLetIn(s, o, r, w, Step(s, o, e), id);
    case Drained(key, persons, stage, w) =>
      DrainLetsIn(s, o, key, persons, stage, w, id);
    case Released(_) =>
    case Leave(_) =>
  }

  // Over every run, whatever session appears was asked for by the event at which it
  // does; and it is a deploy, or a test, or its card names an agent or nobody.
  lemma NobodysOwnCardIsWorked(s: Settings, states: seq<Office>, events: seq<Event>, k: nat, id: string)
    requires Run(s, states, events) && k < |events| && id in states[k + 1].active && id !in states[k].active
    ensures var asked := AskedFor(s, states[k], events[k]);
            && asked.Some? && states[k + 1].active[id].card == asked.value.card
            && states[k + 1].active[id].deploy == asked.value.deploy
            && (asked.value.deploy || asked.value.test || !NamesAPerson(asked.value.persons.names, s.agents))
  {
    assert Follows(s, states[k], events[k], states[k + 1]);
    StepLetsIn(s, states[k], events[k], id);
    var r := AskedFor(s, states[k], events[k]).value;
    var w :| LetIn(s, states[k], r, w, states[k + 1], id);
    StartedIsFolder(s, states[k].active, r, w);
    TakenExactlyWhen(r.persons.names, s.agents);
  }

  // ---- the manager ------------------------------------------------------------------

  class Manager {
    const settings: Settings
    var active: map<string, Session>
    var byCard: map<string, string>
    var queue: seq<Waiting>

    constructor (settings: Settings)
      ensures this.settings == settings && Now() == Office(map[], map[], [])
    {
      this.settings := settings;
      active, byCard, queue := map[], map[], [];
    }

    function Now(): Office
      reads this
    {
      Office(active, byCard, queue)
    }

    method RunningInColumn(key: string) returns (n: nat)
      ensures n == |InColumn(active, key)|
    {
      n := 0;
      var left := active.Keys;
      ghost var seen: set<string> := {};
      while left != {}
        invariant left <= active.Keys && seen <= active.Keys - left
        invariant forall id :: id in active.Keys - left ==> (id in seen <==> active[id].column == key)
        invariant n == |seen|
        decreases |left|
      {
        var id :| id in left;
        left := left - {id};
        if active[id].column == key {
          n := n + 1;
          seen := seen + {id};
        }
      }
      assert seen == InColumn(active, key);
    }

    method FolderInUse(folder: string) returns (used: bool)
      ensures used == InUse(active, folder)
    {
      var left := active.Keys;
      while left != {}
        invariant left <= active.Keys
        invariant forall id :: id in active.Keys - left ==> active[id].folder != folder
        decreases |left|
      {
        var id :| id in left;
        if active[id].folder == folder {
          return true;
        }
        left := left - {id};
      }
      return false;
    }

    // The first member of a crew with no live session.
    method FreeAgent(crew: seq<Agent>) returns (a: Option<Agent>)
      ensures a == FirstFree(crew, BusyNames(active))
    {
      var busy: set<string> := {};
      var left := active.Keys;
      while left != {}
        invariant left <= active.Keys
        invariant busy == set id | id in active.Keys - left :: Fold(active[id].agent)
        decreases |left|
      {
        var id :| id in left;
        busy := busy + {Fold(active[id].agent)};
        left := left - {id};
      }
      assert busy == BusyNames(active);
      for i := 0 to |crew|
        invariant FirstFree(crew, busy) == FirstFree(crew[i..], busy)
      {
        assert crew[i..][0] == crew[i] && crew[i..][1..] == crew[i + 1..];
        if Fold(crew[i].name) !in busy {
          return Some(crew[i]);
        }
      }
      return None;
    }

    method ResolveSessionAgent(persons: Persons, roster: seq<string>) returns (worker: Worker)
      ensures worker == ResolveWorker(persons, roster, settings.agents, BusyNames(active), settings.fallback)
    {
      var agents := settings.agents;
      var crew := if roster == [] then agents else CrewMembers(roster, agents);
      if roster != [] && crew == [] {
        return Nobody;
      }
      var chosen := Assignee(persons, crew);
      if chosen.Some? {
        return Works(chosen.value);
      }
      if roster != [] {
        var free := FreeAgent(crew);
        return if free.Some? then Works(free.value) else AllBusy;
      }
      if |agents| == 1 {
        return Works(agents[0]);
      }
      if |agents| > 1 || settings.fallback.None? {
        return Nobody;
      }
      return Works(settings.fallback.value);
    }

    method StartSession(r: Request, w: World) returns (outcome: Outcome)
      requires w.id !in active
      modifies this`active, this`byCard
      ensures outcome == old(Attempt(settings, active, r, w))
      ensures Now() == After(old(Now()), r, w, outcome)
      ensures ComesTo(settings, old(active), r, w, outcome)
      ensures if outcome.Started? then IsEntered(old(Now()), r, w, outcome.agent, Now()) else Now() == old(Now())
    {
      OutcomeIsExact(settings, active, r, w);
      if w.folder.Some? && Attempt(settings, active, r, w).Started? {
        EnteredIsExact(Now(), r, w, Attempt(settings, active, r, w).agent);
      }
      if !r.deploy && !r.test {
        var who := HumanAssignee(r.persons, settings.agents);
        if who != "" {
          return Taken;
        }
      }
      if w.folder.None? || !w.ready || (r.deploy && settings.plain(w.folder.value)) {
        return Failed;
      }
      var folder := w.folder.value;
      var worker := ResolveSessionAgent(r.persons, Crew(r));
      if worker.Nobody? {
        return Failed;
      }
      if worker.AllBusy? {
        return Busy;
      }
      if r.column.maxRunning > 0 {
        var running := RunningInColumn(Key(r.column));
        if running >= r.column.maxRunning {
          return Busy;
        }
      }
      if !w.network || (r.test && !w.browser) {
        return Failed;
      }
      if settings.plain(folder) && !r.deploy {
        var used := FolderInUse(folder);
        if used {
          return FolderBusy;
        }
      }
      if !settings.plain(folder) && !r.deploy && !w.unheld {
        return FolderBusy;
      }
      if !w.stored {
        return Failed;
      }
      active := active[w.id := Session(r.card, Key(r.column), folder, r.deploy, worker.agent.name)];
      if r.card !in byCard || !r.deploy {
        byCard := byCard[r.card := w.id];
      }
      return Started(worker.agent.name);
    }

    method ReleaseSession(id: string)
      requires id in active
      modifies this`active, this`byCard
      ensures Now() == Release(old(Now()), id)
      ensures active.Keys == old(active).Keys - {id} && queue == old(queue)
      ensures forall i :: i in active ==> active[i] == old(active)[i]
      ensures forall card :: card in byCard <==>
                card in old(byCard) && !(card == old(active)[id].card && old(byCard)[card] == id)
      ensures forall card :: card in byCard ==> byCard[card] == old(byCard)[card]
    {
      var card := active[id].card;
      active := active - {id};
      if card in byCard && byCard[card] == id {
        byCard := byCard - {card};
      }
    }

    method EnqueueStage(w: Waiting) returns (added: bool)
      modifies this`queue
      ensures queue == Enqueue(old(queue), w) && added == !old(Queued(queue, w.card))
    {
      for i := 0 to |queue|
        invariant forall j :: 0 <= j < i ==> queue[j].card != w.card
        invariant queue == old(queue)
      {
        if queue[i].card == w.card {
          return false;
        }
      }
      queue := queue + [w];
      return true;
    }

    method DequeueStage(card: string)
      modifies this`queue
      ensures queue == Dequeue(old(queue), card)
    {
      queue := Dequeue(queue, card);
    }

    // The queued card's own start: it keeps its turn only if it was told to wait.
    method StartQueued(q: Waiting, r: Request, w: World)
      requires w.id !in active
      modifies this
      ensures var outcome := old(Attempt(settings, active, r, w));
              Now() == if outcome.Busy? then old(Now())
                       else After(old(Now()).(queue := Dequeue(old(queue), q.card)), r, w, outcome)
    {
      var outcome := StartSession(r, w);
      if !outcome.Busy? {
        DequeueStage(q.card);
      }
    }

    // drainColumn, as far as the queue and the sessions go.
    method DrainColumn(key: string, persons: Option<Persons>, stage: Option<Stage>, w: World)
      requires w.id !in active
      modifies this
      ensures Now() == Drain(settings, old(Now()), key, persons, stage, w)
    {
      var next := NextQueued(queue, key);
      if next.None? {
        return;
      }
      var q := next.value;
      var column := ColumnByKey(settings.columns, key);
      if column.None? {
        DequeueStage(q.card);
        return;
      }
      if persons.None? {
        return;
      }
      var action := if stage.Some? && stage.value.action != "" then stage.value.action else column.value.action;
      if action == "none" || action == "" {
        DequeueStage(q.card);
        return;
      }
      var crew := if stage.Some? && stage.value.crew != [] then stage.value.crew else [];
      var r := Request(q.card, persons.value, column.value, crew, action == "deploy", action == "test");
      ghost var before := Now();
      StartQueued(q, r, w);
      DrainStarts(settings, before, key, persons.value, stage, w, r);
    }
  }

  lemma DrainStarts(s: Settings, o: Office, key: string, persons: Persons, stage: Option<Stage>, w: World, r: Request)
    requires NextQueued(o.queue, key).Some? && ColumnByKey(s.columns, key).Some?
    requires var c := ColumnByKey(s.columns, key).value;
             && StageAction(c, stage) !in {"none", ""}
             && r == DrainRequest(NextQueued(o.queue, key).value.card, persons, c, stage)
    ensures var outcome := Attempt(s, o.active, r, w);
            var q := NextQueued(o.queue, key).value;
            Drain(s, o, key, Some(persons), stage, w) ==
            if outcome.Busy? then o else After(o.(queue := Dequeue(o.queue, q.card)), r, w, outcome)
  {
  }
}
