/** Who comes back for a card that waits. The queue of a column is looked at once
    after each session of that column, and at no other time (internal/acp/session.go,
    stagequeue.go). */
module Stranding {
  import opened Text
  import opened Agents
  import opened Admission

  // due: the columns whose sessions have ended and whose queue is about to be looked
  // at.
  datatype Hall = Hall(o: Office, due: multiset<string>)

  function DueAfter(h: Hall, e: Event): multiset<string>
    requires e.Released? ==> e.id in h.o.active
  {
    match e
    case Released(id) => h.due + multiset{h.o.active[id].column}
    case Drained(key, _, _, _) => h.due - multiset{key}
    case _ => h.due
  }

  ghost predicate Goes(s: Settings, h: Hall, e: Event, h': Hall) {
    Follows(s, h.o, e, h'.o) && (e.Drained? ==> e.key in h.due) && h'.due == DueAfter(h, e)
  }

  ghost predicate HallRun(s: Settings, halls: seq<Hall>, events: seq<Event>) {
    && |halls| == |events| + 1
    && halls[0] == Hall(Office(map[], map[], []), multiset{})
    && forall i :: 0 <= i < |events| ==> Goes(s, halls[i], events[i], halls[i + 1])
  }

  function Offices(halls: seq<Hall>): (r: seq<Office>)
    ensures |r| == |halls| && forall i :: 0 <= i < |halls| ==> r[i] == halls[i].o
  {
    seq(|halls|, i requires 0 <= i < |halls| => halls[i].o)
  }

  lemma HallRunIsARun(s: Settings, halls: seq<Hall>, events: seq<Event>, n: nat)
    requires KeysApart(s.columns) && HallRun(s, halls, events) && n <= |events|
    ensures Run(s, Offices(halls), events) && Inv(s, halls[n].o)
  {
    var states := Offices(halls);
    forall i | 0 <= i < |events| ensures Follows(s, states[i], events[i], states[i + 1]) {
      assert Goes(s, halls[i], events[i], halls[i + 1]);
    }
    EveryRunKeepsInv(s, states, events, n);
  }

  lemma QueueOnceEach(s: Settings, halls: seq<Hall>, events: seq<Event>, n: nat)
    requires KeysApart(s.columns) && HallRun(s, halls, events) && n <= |events|
    ensures OnceEach(halls[n].o.queue)
  {
    HallRunIsARun(s, halls, events, n);
  }

  // ---- somebody will come ---------------------------------------------------------

  predicate Live(o: Office, key: string) {
    InColumn(o.active, key) != {}
  }

  predicate Waited(q: seq<Waiting>, key: string) {
    NextQueued(q, key).Some?
  }

  // If anybody waits for the column, its queue will be looked at.
  predicate Attended(h: Hall, key: string) {
    Waited(h.o.queue, key) ==> Live(h.o, key) || key in h.due
  }

  // The queue still holds somebody for the column after the one who was looked at.
  predicate LeavesOne(s: Settings, o: Office, e: Event)
    requires e.Drained?
  {
    var next := NextQueued(o.queue, e.key);
    && next.Some?
    && var fate := Fate(s, o, next.value, e.persons, e.stage, e.w);
       && !fate.Began?
       && (fate.Stays? || Waited(Dequeue(o.queue, next.value.card), e.key))
  }

  // The steps after which nobody will: a card begins to wait for a column with no
  // session of its own, or the last look starts nobody there and leaves somebody.
  predicate Abandons(s: Settings, h: Hall, e: Event, key: string) {
    match e
    case Arrive(r, w, _, _) =>
      && Key(r.column) == key && Attempt(s, h.o.active, r, w).Busy? && !Queued(h.o.queue, r.card)
      && !Live(h.o, key) && key !in h.due
    case Drained(k, _, _, _) =>
      k == key && !Live(h.o, key) && key !in h.due - multiset{key} && LeavesOne(s, h.o, e)
    case _ => false
  }

  lemma {:induction false} WaitedIff(q: seq<Waiting>, key: string)
    ensures Waited(q, key) <==> exists w :: w in q && w.key == key
  {
    if q != [] && q[0].key != key {
      WaitedIff(q[1..], key);
    }
  }

  lemma DequeueWaits(q: seq<Waiting>, card: string, key: string)
    ensures Waited(Dequeue(q, card), key) ==> Waited(q, key)
  {
    DequeueRemoves(q, card);
    WaitedIff(q, key);
    WaitedIff(Dequeue(q, card), key);
  }

  lemma EnqueueWaits(q: seq<Waiting>, w: Waiting, key: string)
    ensures Waited(Enqueue(q, w), key) <==> Waited(q, key) || (w.key == key && !Queued(q, w.card))
  {
    WaitedIff(q, key);
    WaitedIff(Enqueue(q, w), key);
    if !Queued(q, w.card) {
      assert (q + [w])[|q|] == w;
    }
  }

  lemma EnterLives(active: map<string, Session>, id: string, session: Session, key: string)
    requires id !in active
    ensures InColumn(active[id := session], key) != {} <==> InColumn(active, key) != {} || session.column == key
  {
    OneMoreInColumn(active, id, session, key);
    if session.column == key {
      assert id in InColumn(active[id := session], key);
    } else {
      assert InColumn(active[id := session], key) == InColumn(active, key);
    }
  }

  lemma StartLives(s: Settings, o: Office, r: Request, w: World, key: string)
    requires w.id !in o.active
    ensures var outcome := Attempt(s, o.active, r, w);
            Live(After(o, r, w, outcome), key) <==> Live(o, key) || (outcome.Started? && Key(r.column) == key)
  {
    var outcome := Attempt(s, o.active, r, w);
    if outcome.Started? {
      EnterLives(o.active, w.id, Session(r.card, Key(r.column), w.folder.value, r.deploy, outcome.agent), key);
    }
  }

  // A column whose queue will be looked at stays so over a step exactly when the
  // step does not abandon it.
  lemma StaysAttendedExactlyWhen(s: Settings, h: Hall, e: Event, h': Hall, key: string)
    requires Goes(s, h, e, h') && Attended(h, key)
    ensures Attended(h', key) <==> !Abandons(s, h, e, key)
  {
    match e
    case Arrive(r, w, flowID, nodeID) =>
      StartLives(s, h.o, r, w, key);
      EnqueueWaits(h.o.queue, Waiting(r.card, Key(r.column), flowID, nodeID), key);
    case Direct(r, w) =>
      StartLives(s, h.o, r, w, key);
    case Released(id) =>
      var active := h.o.active;
      if active[id].column != key {
        assert InColumn(active - {id}, key) == InColumn(active, key);
      }
    case Leave(card) =>
      DequeueWaits(h.o.queue, card, key);
    case Drained(k, persons, stage, w) =>
      DrainAttends(s, h, e, h', key);
  }

  lemma DrainAttends(s: Settings, h: Hall, e: Event, h': Hall, key: string)
    requires Goes(s, h, e, h') && Attended(h, key) && e.Drained?
    ensures Attended(h', key) <==> !Abandons(s, h, e, key)
  {
    var next := NextQueued(h.o.queue, e.key);
    DrainTouchesOne(s, h.o, e.key, e.persons, e.stage, e.w);
    DrainLives(s, h.o, e, key);
    if next.Some? {
      DequeueWaits(h.o.queue, next.value.card, key);
    }
  }

  lemma DrainLives(s: Settings, o: Office, e: Event, key: string)
    requires e.Drained? && e.w.id !in o.active
    ensures var next := NextQueued(o.queue, e.key);
            Live(Drain(s, o, e.key, e.persons, e.stage, e.w), key) <==>
            Live(o, key) || (e.key == key && next.Some? && Fate(s, o, next.value, e.persons, e.stage, e.w).Began?)
  {
    var next := NextQueued(o.queue, e.key);
    if next.Some? && Fate(s, o, next.value, e.persons, e.stage, e.w).Began? {
      var q := next.value;
      var r := DrainRequest(q.card, e.persons.value, ColumnByKey(s.columns, e.key).value, e.stage);
      StartLives(s, o.(queue := Dequeue(o.queue, q.card)), r, e.w, key);
    }
  }

  // Over any run, then, every waiting card has somebody to come for it while no step
  // abandons its column.
  lemma {:induction false} RunStaysAttended(s: Settings, halls: seq<Hall>, events: seq<Event>, n: nat, key: string)
    requires HallRun(s, halls, events) && n <= |events|
    requires forall i :: 0 <= i < n ==> !Abandons(s, halls[i], events[i], key)
    ensures Attended(halls[n], key)
  {
    if n > 0 {
      RunStaysAttended(s, halls, events, n - 1, key);
      assert Goes(s, halls[n - 1], events[n - 1], halls[n]);
      StaysAttendedExactlyWhen(s, halls[n - 1], events[n - 1], halls[n], key);
    }
  }

  // A card refused for the column's limit finds a session of it; one that finds none
  // was refused for its crew, every member of which is busy in another column.
  lemma RefusedByLimitOrCrew(s: Settings, active: map<string, Session>, r: Request, w: World)
    requires Attempt(s, active, r, w).Busy? && InColumn(active, Key(r.column)) == {}
    ensures Crew(r) != [] && CrewMembers(Crew(r), s.agents) != []
    ensures forall a :: a in CrewMembers(Crew(r), s.agents) ==> BusyElsewhere(active, Key(r.column), a)
  {
    var busy := BusyNames(active);
    assert ResolveWorker(r.persons, Crew(r), s.agents, busy, s.fallback).AllBusy?;
    CrewDecides(r.persons, Crew(r), s.agents, busy, s.fallback);
    forall a | a in CrewMembers(Crew(r), s.agents) ensures BusyElsewhere(active, Key(r.column), a) {
      var id :| id in active && Fold(active[id].agent) == Fold(a.name);
      assert active[id].column == Key(r.column) ==> id in InColumn(active, Key(r.column));
    }
  }

  ghost predicate BusyElsewhere(active: map<string, Session>, key: string, a: Agent) {
    exists id :: id in active && Fold(active[id].agent) == Fold(a.name) && active[id].column != key
  }

  // ---- nobody will come --------------------------------------------------------------

  // A session of the column starts otherwise than from its queue.
  predicate StartsIn(s: Settings, o: Office, e: Event, key: string) {
    (e.Arrive? || e.Direct?) && Key(e.r.column) == key && Attempt(s, o.active, e.r, e.w).Started?
  }

  predicate Undisturbed(s: Settings, o: Office, e: Event, card: string, key: string) {
    !StartsIn(s, o, e, key) && e != Leave(card)
  }

  predicate Neglected(h: Hall, card: string, key: string) {
    WaitsFor(h.o.queue, card, key) && !Live(h.o, key) && key !in h.due
  }

  lemma NeglectedStep(s: Settings, h: Hall, e: Event, h': Hall, card: string, key: string)
    requires Goes(s, h, e, h') && OnceEach(h.o.queue) && Neglected(h, card, key)
    requires Undisturbed(s, h.o, e, card, key)
    ensures Neglected(h', card, key)
  {
    match e
    case Arrive(r, w, flowID, nodeID) =>
      StartLives(s, h.o, r, w, key);
      EnqueueSpares(h.o.queue, Waiting(r.card, Key(r.column), flowID, nodeID), card, key);
    case Direct(r, w) =>
      StartLives(s, h.o, r, w, key);
    case Released(id) =>
      assert h.o.active[id].column == key ==> id in InColumn(h.o.active, key);
      assert InColumn(h.o.active - {id}, key) == InColumn(h.o.active, key);
    case Leave(other) =>
      DequeueSparesOther(h.o.queue, other, card, key);
    case Drained(k, persons, stage, w) =>
      DrainTouchesOne(s, h.o, k, persons, stage, w);
      DrainLives(s, h.o, e, key);
      OtherColumnsCard(h.o.queue, k, card, key);
  }

  lemma EnqueueSpares(q: seq<Waiting>, w: Waiting, card: string, key: string)
    requires WaitsFor(q, card, key)
    ensures WaitsFor(Enqueue(q, w), card, key)
  {
    var i :| 0 <= i < |q| && q[i].card == card && q[i].key == key;
    assert Enqueue(q, w)[i] == q[i];
  }

  lemma DequeueSparesOther(q: seq<Waiting>, other: string, card: string, key: string)
    requires WaitsFor(q, card, key) && other != card
    ensures WaitsFor(Dequeue(q, other), card, key)
  {
    var i :| 0 <= i < |q| && q[i].card == card && q[i].key == key;
    DequeueRemoves(q, other);
    assert q[i] in Dequeue(q, other);
  }

  lemma OtherColumnsCard(q: seq<Waiting>, k: string, card: string, key: string)
    requires WaitsFor(q, card, key) && OnceEach(q) && k != key
    ensures NextQueued(q, k).Some? ==> WaitsFor(Dequeue(q, NextQueued(q, k).value.card), card, key)
  {
    if NextQueued(q, k).Some? {
      var other := NextQueued(q, k).value;
      var i :| 0 <= i < |q| && q[i].card == card && q[i].key == key;
      var j :| 0 <= j < |q| && q[j] == other;
      assert i != j;
      DequeueSparesOther(q, other.card, card, key);
    }
  }

  // A card waiting for a column with no session, nobody due to look, stays there over
  // any run, however idle its crew: until a session of that very column starts, or
  // the card is moved away.
  lemma {:induction false} NobodyComes(s: Settings, halls: seq<Hall>, events: seq<Event>, from: nat, n: nat,
                                       card: string, key: string)
    requires KeysApart(s.columns) && HallRun(s, halls, events) && from <= n <= |events|
    requires Neglected(halls[from], card, key)
    requires forall i :: from <= i < n ==> Undisturbed(s, halls[i].o, events[i], card, key)
    ensures Neglected(halls[n], card, key)
  {
    if n > from {
      NobodyComes(s, halls, events, from, n - 1, card, key);
      NeglectedAt(s, halls, events, n - 1, card, key);
    }
  }

  lemma NeglectedAt(s: Settings, halls: seq<Hall>, events: seq<Event>, k: nat, card: string, key: string)
    requires KeysApart(s.columns) && HallRun(s, halls, events) && k < |events|
    requires Neglected(halls[k], card, key) && Undisturbed(s, halls[k].o, events[k], card, key)
    ensures Neglected(halls[k + 1], card, key)
  {
    QueueOnceEach(s, halls, events, k);
    NeglectedStep(s, halls[k], events[k], halls[k + 1], card, key);
  }

  // ---- and how a card gets there -----------------------------------------------------

  lemma OneMoreHall(s: Settings, halls: seq<Hall>, events: seq<Event>, e: Event, h: Hall)
    requires HallRun(s, halls, events) && Goes(s, halls[|events|], e, h)
    ensures HallRun(s, halls + [h], events + [e])
  {
  }

  // One agent works two columns. While it works a card of the first, a card comes to
  // the second and waits; the first card's session ends; the agent is idle, nobody
  // is due to look, and the card waits on.
  lemma CrewOfTwoColumnsStrands(s: Settings, a: Column, b: Column, agent: Agent, folder: string, w: World, w': World,
                                flowID: string, nodeID: string)
    returns (halls: seq<Hall>, events: seq<Event>)
    requires s.agents == [agent] && agent.id == Trim(agent.id) != ""
    requires a in s.columns && b in s.columns && Key(a) != Key(b)
    requires a.crew == [agent.id] && b.crew == [agent.id]
    requires w == World(Some(folder), true, true, true, true, true, "first")
    requires w' == w.(id := "second")
    ensures HallRun(s, halls, events) && |events| == 4
    ensures halls[4].o.active == map[] && Neglected(halls[4], "two", Key(b))
    ensures Attempt(s, halls[4].o.active, Asking("two", b), w') == Started(agent.name)
  {
    var ra, rb := Asking("one", a), Asking("two", b);
    OneMemberCrew(agent);
    WorksOrBusy(s, map[], ra, w, agent);
    WorksOrBusy(s, map[], rb, w', agent);
    var h0 := Hall(Office(map[], map[], []), multiset{});
    var session := Session("one", Key(a), folder, false, agent.name);
    var h1 := Hall(Office(map["first" := session], map["one" := "first"], []), multiset{});
    WorksOrBusy(s, h1.o.active, rb, w', agent);
    var q := Waiting("two", Key(b), flowID, nodeID);
    var h2 := h1.(o := h1.o.(queue := [q]));
    var h3 := Hall(Office(map[], map[], [q]), multiset{Key(a)});
    var h4 := Hall(h3.o, multiset{});
    halls, events := [h0], [];
    assert h1.o.active == h0.o.active["first" := session] && h1.o.byCard == h0.o.byCard["one" := "first"];
    halls, events := Then(s, halls, events, Arrive(ra, w, flowID, nodeID), h1);
    halls, events := Then(s, halls, events, Arrive(rb, w', flowID, nodeID), h2);
    assert h2.o.active - {"first"} == map[] && h2.o.byCard - {"one"} == map[];
    halls, events := Then(s, halls, events, Released("first"), h3);
    halls, events := Then(s, halls, events, Drained(Key(a), None, None, w'), h4);
    assert h4.o.queue[0] == q;
  }

  function Asking(card: string, c: Column): Request {
    Request(card, Persons([], []), c, [], false, false)
  }

  lemma Then(s: Settings, halls: seq<Hall>, events: seq<Event>, e: Event, h: Hall)
    returns (halls': seq<Hall>, events': seq<Event>)
    requires HallRun(s, halls, events) && Goes(s, halls[|events|], e, h)
    ensures HallRun(s, halls', events') && halls' == halls + [h] && events' == events + [e]
  {
    OneMoreHall(s, halls, events, e, h);
    halls', events' := halls + [h], events + [e];
  }

  lemma OneMemberCrew(agent: Agent)
    requires agent.id == Trim(agent.id) != ""
    ensures CrewMembers([agent.id], [agent]) == [agent]
  {
    assert [agent.id][1..] == [];
    assert AgentByID([agent], agent.id) == Some(agent);
  }

  lemma WorksOrBusy(s: Settings, active: map<string, Session>, r: Request, w: World, agent: Agent)
    requires s.agents == [agent] && CrewMembers([agent.id], [agent]) == [agent]
    requires r == Asking(r.card, r.column) && r.column.crew == [agent.id]
    requires w.folder.Some? && w.ready && w.network && w.unheld && w.stored
    ensures active == map[] ==> Attempt(s, active, r, w) == Started(agent.name)
    ensures Fold(agent.name) in BusyNames(active) ==> Attempt(s, active, r, w) == Busy
  {
    assert Assignee(r.persons, [agent]).None?;
    assert FirstFree([agent], BusyNames(active)) == if Fold(agent.name) in BusyNames(active) then None else Some(agent);
    assert !TakenByPerson([], s.agents);
    assert active == map[] ==> InColumn(active, Key(r.column)) == {} && BusyNames(active) == {};
  }
}
