/** Where a card stands and where it waits. A card dragged to another stage keeps its
    place in the queue it was in, and is queued nowhere else; only leaving a column
    for one that runs nothing, off any route, takes it out (internal/acp/trigger.go,
    flowengine.go, store.go). */
module Straying {
  import opened Text
  import opened Agents
  import opened Admission
  import Stranding

  // A stage of a route on its column, or a column alone.
  datatype Place = Place(key: string, flowID: string, nodeID: string)

  datatype Floor = Floor(o: Office, stands: map<string, Place>)

  datatype Move =
    | Enters(r: Request, w: World, place: Place)   // it runs something: start, or wait
    | Rests(card: string, place: Place)            // nothing is started there, on a route or off it
    | Leaves(card: string, place: Place)           // off any route, from a column that runs something to one that does not
    | Meanwhile(e: Event)                          // nobody moves

  predicate CanMove(s: Settings, f: Floor, m: Move) {
    match m
    case Enters(r, w, place) => place.key == Key(r.column) && MayHappen(s, f.o, Arrive(r, w, place.flowID, place.nodeID))
    case Meanwhile(e) => !e.Arrive? && !e.Leave? && MayHappen(s, f.o, e)
    case _ => true
  }

  function Moved(s: Settings, f: Floor, m: Move): Floor
    requires CanMove(s, f, m)
  {
    match m
    case Enters(r, w, place) =>
      Floor(Step(s, f.o, Arrive(r, w, place.flowID, place.nodeID)), f.stands[r.card := place])
    case Rests(card, place) => f.(stands := f.stands[card := place])
    case Leaves(card, place) => Floor(f.o.(queue := Dequeue(f.o.queue, card)), f.stands[card := place])
    case Meanwhile(e) => f.(o := Step(s, f.o, e))
  }

  function PlaceOf(q: Waiting): Place {
    Place(q.key, q.flowID, q.nodeID)
  }

  predicate StandsThere(f: Floor, q: Waiting) {
    q.card in f.stands && f.stands[q.card] == PlaceOf(q)
  }

  // The card waits, if it does, for the stage it stands on.
  predicate WaitsWhereItStands(f: Floor, card: string) {
    forall q :: q in f.o.queue && q.card == card ==> StandsThere(f, q)
  }

  // A move that leaves the card waiting for the stage it has left.
  predicate Strays(f: Floor, m: Move, card: string) {
    match m
    case Enters(r, _, place) => r.card == card && Queued(f.o.queue, card) && card in f.stands && f.stands[card] != place
    case Rests(c, place) => c == card && Queued(f.o.queue, card) && card in f.stands && f.stands[card] != place
    case _ => false
  }

  lemma QueuedIsIn(q: seq<Waiting>, card: string)
    ensures Queued(q, card) <==> exists w :: w in q && w.card == card
  {
    if Queued(q, card) {
      var i :| 0 <= i < |q| && q[i].card == card;
      assert q[i] in q;
    }
  }

  // What a step that moves nobody leaves in the queue was there.
  lemma NobodyJoins(s: Settings, o: Office, e: Event)
    requires MayHappen(s, o, e) && !e.Arrive?
    ensures forall q :: q in Step(s, o, e).queue ==> q in o.queue
  {
    match e
    case Leave(card) => DequeueRemoves(o.queue, card);
    case Drained(key, persons, stage, w) =>
      DrainTouchesOne(s, o, key, persons, stage, w);
      if NextQueued(o.queue, key).Some? {
        DequeueRemoves(o.queue, NextQueued(o.queue, key).value.card);
      }
    case _ =>
  }

  // A card that waits where it stands goes on doing so over a step exactly when the
  // step does not make it stray.
  lemma StaysExactlyWhen(s: Settings, f: Floor, m: Move, card: string)
    requires CanMove(s, f, m) && WaitsWhereItStands(f, card)
    ensures WaitsWhereItStands(Moved(s, f, m), card) <==> !Strays(f, m, card)
  {
    var f' := Moved(s, f, m);
    QueuedIsIn(f.o.queue, card);
    match m
    case Enters(r, w, place) =>
      EntersExactly(s, f, r, w, place, card);
    case Rests(c, place) =>
    case Leaves(c, place) =>
      DequeueRemoves(f.o.queue, c);
    case Meanwhile(e) =>
      NobodyJoins(s, f.o, e);
  }

  lemma EntersExactly(s: Settings, f: Floor, r: Request, w: World, place: Place, card: string)
    requires CanMove(s, f, Enters(r, w, place)) && WaitsWhereItStands(f, card)
    ensures WaitsWhereItStands(Moved(s, f, Enters(r, w, place)), card) <==> !Strays(f, Enters(r, w, place), card)
  {
    var q := Waiting(r.card, Key(r.column), place.flowID, place.nodeID);
    var f' := Moved(s, f, Enters(r, w, place));
    QueuedIsIn(f.o.queue, card);
    assert PlaceOf(q) == place;
    assert f'.o.queue == f.o.queue || (f'.o.queue == f.o.queue + [q] && !Queued(f.o.queue, r.card));
  }

  // ---- over runs --------------------------------------------------------------------

  ghost predicate Goes(s: Settings, f: Floor, m: Move, f': Floor) {
    CanMove(s, f, m) && f' == Moved(s, f, m)
  }

  ghost predicate FloorRun(s: Settings, floors: seq<Floor>, moves: seq<Move>) {
    && |floors| == |moves| + 1
    && floors[0] == Floor(Office(map[], map[], []), map[])
    && forall i :: 0 <= i < |moves| ==> Goes(s, floors[i], moves[i], floors[i + 1])
  }

  lemma {:induction false} RunStays(s: Settings, floors: seq<Floor>, moves: seq<Move>, n: nat, card: string)
    requires FloorRun(s, floors, moves) && n <= |moves|
    requires forall i :: 0 <= i < n ==> !Strays(floors[i], moves[i], card)
    ensures WaitsWhereItStands(floors[n], card)
  {
    if n > 0 {
      RunStays(s, floors, moves, n - 1, card);
      assert Goes(s, floors[n - 1], moves[n - 1], floors[n]);
      StaysExactlyWhen(s, floors[n - 1], moves[n - 1], card);
    }
  }

  // The card a look at the queue starts, when it starts one.
  function StartedBy(s: Settings, o: Office, e: Event): Option<Waiting>
    requires e.Drained?
  {
    var next := NextQueued(o.queue, e.key);
    if next.Some? && Fate(s, o, next.value, e.persons, e.stage, e.w).Began? then next else None
  }

  // So a card that was started from the queue, and had not strayed, is worked at the
  // stage it stands on.
  lemma QueuedStartIsTheStages(s: Settings, floors: seq<Floor>, moves: seq<Move>, n: nat, e: Event)
    requires FloorRun(s, floors, moves) && n < |moves| && moves[n] == Meanwhile(e) && e.Drained?
    requires var q := StartedBy(s, floors[n].o, e);
             q.Some? && forall i :: 0 <= i < n ==> !Strays(floors[i], moves[i], q.value.card)
    ensures var q := StartedBy(s, floors[n].o, e).value;
            && StandsThere(floors[n], q)
            && e.w.id in floors[n + 1].o.active && floors[n + 1].o.active[e.w.id].card == q.card
            && floors[n + 1].o.active[e.w.id].column == floors[n + 1].stands[q.card].key
  {
    var q := StartedBy(s, floors[n].o, e).value;
    RunStays(s, floors, moves, n, q.card);
    assert Goes(s, floors[n], moves[n], floors[n + 1]);
    FateIsWhatHappened(s, floors[n].o, e.key, e.persons, e.stage, e.w);
  }

  // ---- a card that strays ---------------------------------------------------------------

  lemma OneMoreFloor(s: Settings, floors: seq<Floor>, moves: seq<Move>, m: Move)
    returns (floors': seq<Floor>, moves': seq<Move>)
    requires FloorRun(s, floors, moves) && CanMove(s, floors[|moves|], m)
    ensures FloorRun(s, floors', moves') && floors' == floors + [Moved(s, floors[|moves|], m)] && moves' == moves + [m]
  {
    floors', moves' := floors + [Moved(s, floors[|moves|], m)], moves + [m];
  }

  // A card waits for a stage on column a, is dragged to another of its route, and is
  // started on column a all the same when the place there comes free.
  lemma DraggedCardIsStartedWhereItWas(s: Settings, a: Column, agent: Agent, folder: string, w: World, w': World,
                                       here: Place, there: Place)
    returns (floors: seq<Floor>, moves: seq<Move>)
    requires s.agents == [agent] && agent.id == Trim(agent.id) != "" && s.columns == [a] && a.crew == [agent.id]
    requires a.action == "agent" && here.key == Key(a) && there != here
    requires w == World(Some(folder), true, true, true, true, true, "first") && w' == w.(id := "second")
    ensures FloorRun(s, floors, moves) && |moves| == 5 && moves[2] == Rests("two", there)
    ensures "two" in floors[5].stands && floors[5].stands["two"] == there
    ensures "second" in floors[5].o.active && floors[5].o.active["second"].card == "two"
    ensures floors[5].o.active["second"].column == Key(a)
  {
    floors, moves := OneWorksOneWaits(s, a, agent, folder, w, w', here);
    var q := Waiting("two", Key(a), here.flowID, here.nodeID);
    floors, moves := OneMoreFloor(s, floors, moves, Rests("two", there));
    floors, moves := OneMoreFloor(s, floors, moves, Meanwhile(Released("first")));
    assert floors[4].o == Office(map[], map[], [q]);
    floors, moves := StartedFromTheQueue(s, a, agent, q, w', floors, moves);
  }

  lemma OneWorksOneWaits(s: Settings, a: Column, agent: Agent, folder: string, w: World, w': World, here: Place)
    returns (floors: seq<Floor>, moves: seq<Move>)
    requires s.agents == [agent] && agent.id == Trim(agent.id) != "" && s.columns == [a] && a.crew == [agent.id]
    requires here.key == Key(a)
    requires w == World(Some(folder), true, true, true, true, true, "first") && w' == w.(id := "second")
    ensures FloorRun(s, floors, moves) && |moves| == 2 && floors[2].stands == map["one" := here, "two" := here]
    ensures floors[2].o == Office(map["first" := Session("one", Key(a), folder, false, agent.name)], map["one" := "first"],
                                  [Waiting("two", Key(a), here.flowID, here.nodeID)])
  {
    var ra, rb := Stranding.Asking("one", a), Stranding.Asking("two", a);
    Stranding.OneMemberCrew(agent);
    var session := Session("one", Key(a), folder, false, agent.name);
    Stranding.WorksOrBusy(s, map[], ra, w, agent);
    var active := map["first" := session];
    assert Fold(active["first"].agent) in BusyNames(active);
    Stranding.WorksOrBusy(s, active, rb, w', agent);
    floors, moves := [Floor(Office(map[], map[], []), map[])], [];
    floors, moves := OneMoreFloor(s, floors, moves, Enters(ra, w, here));
    assert floors[1].o == Office(active, map["one" := "first"], []);
    floors, moves := OneMoreFloor(s, floors, moves, Enters(rb, w', here));
  }

  lemma StartedFromTheQueue(s: Settings, a: Column, agent: Agent, q: Waiting, w: World, floors: seq<Floor>, moves: seq<Move>)
    returns (floors': seq<Floor>, moves': seq<Move>)
    requires s.agents == [agent] && agent.id == Trim(agent.id) != "" && s.columns == [a] && a.crew == [agent.id]
    requires a.action == "agent" && q.key == Key(a)
    requires w.folder.Some? && w.ready && w.network && w.unheld && w.stored
    requires FloorRun(s, floors, moves) && floors[|moves|].o == Office(map[], map[], [q])
    ensures FloorRun(s, floors', moves') && moves <= moves' && |moves'| == |moves| + 1 && floors <= floors'
    ensures floors'[|moves'|].stands == floors[|moves|].stands && w.id in floors'[|moves'|].o.active
    ensures floors'[|moves'|].o.active[w.id].card == q.card && floors'[|moves'|].o.active[w.id].column == Key(a)
  {
    Stranding.OneMemberCrew(agent);
    var r := Stranding.Asking(q.card, a);
    Stranding.WorksOrBusy(s, map[], r, w, agent);
    FirstWaiting(q);
    FromTheQueue(s, a, q);
    assert DrainRequest(q.card, Persons([], []), a, None) == r;
    floors', moves' := OneMoreFloor(s, floors, moves, Meanwhile(Drained(Key(a), Some(Persons([], [])), None, w)));
    FateIsWhatHappened(s, floors[|moves|].o, Key(a), Some(Persons([], [])), None, w);
  }

  lemma FirstWaiting(q: Waiting)
    ensures NextQueued([q], q.key) == Some(q)
  {
  }

  lemma FromTheQueue(s: Settings, a: Column, q: Waiting)
    requires s.columns == [a] && q.key == Key(a) && a.action == "agent"
    ensures ColumnByKey(s.columns, q.key) == Some(a) && StageAction(a, None) == "agent"
  {
  }
}
