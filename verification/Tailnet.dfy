/** The switch that publishes the board on a tailnet: nodes come up in the
    background while the settings change, and a generation number tells a node
    that is no longer wanted (tsnetdoor.go). A start-up, and the door it opens, is
    known by the generation it was started under. */
module Tailnet {
  import opened Text

  datatype Startup = Bringing | Up | Stale

  // What is left to do of a call into the controller, lock section by section.
  datatype Call =
    | Closing(door: Option<nat>, next: Option<bool>)   // stop() has let go of the lock
    | Setting(enable: bool)                            // update() is about to store its settings
    | Starting                                         // about to enter start()

  datatype State = State(
    generation: nat,
    door: Option<nat>,
    enabled: bool,                  // settings.Enabled
    built: bool,                    // the front door has handed over its builder
    startups: map<nat, Startup>,    // goroutines of start() still running
    calls: map<nat, Call>,          // calls in progress, by caller
    open: set<nat>)                 // doors that are serving

  datatype Event =
    | Publish(t: nat)
    | Update(t: nat, next: bool)    // its stop() section
    | Close(t: nat)                 // the same section, on the way out
    | CloseDoor(t: nat)
    | Settle(t: nat)
    | Start(t: nat)
    | Opens(g: nat)
    | Fails(g: nat)
    | Check(g: nat)
    | Shut(g: nat)

  function Initial(enabled: bool): State {
    State(0, None, enabled, false, map[], map[], {})
  }

  function Done(calls: map<nat, Call>, t: nat): map<nat, Call> {
    calls - {t}
  }

  function Step(s: State, e: Event): Option<State> {
    match e
    case Publish(t) =>
      if t in s.calls then None
      else Some(s.(built := true, calls := if s.enabled then s.calls[t := Starting] else s.calls))
    case Update(t, next) =>
      if t in s.calls then None
      else Some(s.(generation := s.generation + 1, door := None, calls := s.calls[t := Closing(s.door, Some(next))]))
    case Close(t) =>
      if t in s.calls then None
      else Some(s.(generation := s.generation + 1, door := None, calls := s.calls[t := Closing(s.door, None)]))
    case CloseDoor(t) =>
      if t !in s.calls || !s.calls[t].Closing? then None
      else
        var c := s.calls[t];
        Some(s.(open := if c.door.Some? then s.open - {c.door.value} else s.open,
                calls := if c.next.Some? then s.calls[t := Setting(c.next.value)] else Done(s.calls, t)))
    case Settle(t) =>
      if t !in s.calls || !s.calls[t].Setting? then None
      else
        var next := s.calls[t].enable;
        Some(s.(enabled := next, calls := if next && s.built then s.calls[t := Starting] else Done(s.calls, t)))
    case Start(t) =>
      if t !in s.calls || !s.calls[t].Starting? then None
      else
        var g := s.generation + 1;
        Some(s.(generation := g, calls := Done(s.calls, t),
                startups := if s.built then s.startups[g := Bringing] else s.startups))
    case Opens(g) =>
      if g !in s.startups || !s.startups[g].Bringing? then None
      else Some(s.(startups := s.startups[g := Up], open := s.open + {g}))
    case Fails(g) =>
      if g !in s.startups || !s.startups[g].Bringing? then None
      else Some(s.(startups := s.startups - {g}))
    case Check(g) =>
      if g !in s.startups || !s.startups[g].Up? then None
      else if g == s.generation then Some(s.(door := Some(g), startups := s.startups - {g}))
      else Some(s.(startups := s.startups[g := Stale]))
    case Shut(g) =>
      if g !in s.startups || !s.startups[g].Stale? then None
      else Some(s.(startups := s.startups - {g}, open := s.open - {g}))
  }

  // Every open door has somebody who will close it: the controller holds it, or a
  // start-up or a stop() has it in hand.
  ghost predicate InHand(s: State, d: nat) {
    || s.door == Some(d)
    || (d in s.startups && !s.startups[d].Bringing?)
    || exists t :: t in s.calls && s.calls[t].Closing? && s.calls[t].door == Some(d)
  }

  ghost predicate Inv(s: State) {
    && (forall g :: g in s.startups ==> g <= s.generation)
    && (forall d :: d in s.open ==> d <= s.generation)
    && (s.door.Some? ==> s.door.value == s.generation && s.generation !in s.startups)
    && (forall d :: d in s.open ==> InHand(s, d))
  }

  // The one step that can go wrong: start() bumps the generation without looking
  // at the door, so a door held then would be overwritten by the next one.
  predicate StartsClean(s: State, e: Event) {
    e.Start? ==> s.door.None?
  }

  lemma StepKeepsInv(s: State, e: Event)
    requires Inv(s) && Step(s, e).Some? && StartsClean(s, e)
    ensures Inv(Step(s, e).value)
  {
    var s' := Step(s, e).value;
    forall d | d in s'.open ensures InHand(s', d) {
      if d in s.open && !(s.door == Some(d)) && !(d in s.startups && !s.startups[d].Bringing?) {
        var t :| t in s.calls && s.calls[t].Closing? && s.calls[t].door == Some(d);
        assert t in s'.calls;
      } else if (e.Update? || e.Close?) && s.door == Some(d) {
        assert s'.calls[e.t].door == Some(d);
      }
    }
  }

  // ---- settings changes one at a time ------------------------------------------

  // A call begins only when no other is in progress, and the front door is handed
  // over once.
  predicate Serial(s: State, e: Event) {
    && (e.Publish? || e.Update? || e.Close? ==> s.calls == map[])
    && (e.Publish? ==> !s.built)
  }

  ghost predicate SerialInv(s: State) {
    && Inv(s)
    && (forall t, u :: t in s.calls && u in s.calls ==> t == u)
    && (!s.built ==> s.startups == map[] && s.door.None?)
    && (forall t :: t in s.calls && s.calls[t].Starting? ==> s.enabled)
    && ((exists t :: t in s.calls) || !s.enabled ==> s.door.None? && s.generation !in s.startups)
  }

  lemma SerialStep(s: State, e: Event)
    requires SerialInv(s) && Step(s, e).Some? && Serial(s, e)
    ensures StartsClean(s, e) && SerialInv(Step(s, e).value)
  {
    StepKeepsInv(s, e);
    var s' := Step(s, e).value;
    if e.Publish? {
      assert forall t :: t in s'.calls ==> t == e.t;
    } else if e.Update? || e.Close? {
      assert s'.calls.Keys == {e.t};
    }
  }

  ghost predicate Follows(s: State, e: Event, s': State) {
    Step(s, e) == Some(s') && Serial(s, e)
  }

  ghost predicate IsRun(states: seq<State>, events: seq<Event>) {
    && |states| == |events| + 1
    && (exists enabled :: states[0] == Initial(enabled))
    && forall i :: 0 <= i < |events| ==> Follows(states[i], events[i], states[i + 1])
  }

  lemma {:induction false} RunKeepsSerialInv(states: seq<State>, events: seq<Event>)
    requires IsRun(states, events)
    ensures SerialInv(states[|events|])
  {
    if events != [] {
      var n := |events| - 1;
      RunKeepsSerialInv(states[..n + 1], events[..n]);
      assert Follows(states[n], events[n], states[n + 1]);
      SerialStep(states[n], events[n]);
    }
  }

  // Whatever the interleaving of start-ups with settings changes made one at a
  // time: the door held is of the current generation, every other open door is in
  // the hands of something about to check or close it, and once nothing is in
  // progress no other door is open, and none at all with the switch off.
  lemma AtMostOneDoor(states: seq<State>, events: seq<Event>)
    requires IsRun(states, events)
    ensures var s := states[|events|];
            && (s.door.Some? ==> s.door.value == s.generation)
            && (forall d :: d in s.open ==> InHand(s, d))
            && (s.startups == map[] && s.calls == map[] ==>
                  (forall d :: d in s.open ==> s.door == Some(d)) && (!s.enabled ==> s.open == {}))
  {
    RunKeepsSerialInv(states, events);
  }

  // ---- what was asked for comes about -----------------------------------------------

  // The switch as it was last set.
  function SwitchedOn(events: seq<Event>, atFirst: bool): bool {
    if events == [] then atFirst
    else
      var n := |events| - 1;
      if events[n].Update? then events[n].next else SwitchedOn(events[..n], atFirst)
  }

  predicate IsPublished(events: seq<Event>) {
    events != [] && (var n := |events| - 1; events[n].Publish? || IsPublished(events[..n]))
  }

  // Nothing has been asked for since it was closed on the way out.
  predicate IsClosed(events: seq<Event>) {
    events != [] &&
    (var n := |events| - 1;
     if events[n].Publish? || events[n].Update? then false else events[n].Close? || IsClosed(events[..n]))
  }

  predicate HasFailed(events: seq<Event>, g: nat) {
    events != [] && (var n := |events| - 1; events[n] == Fails(g) || HasFailed(events[..n], g))
  }

  predicate NobodyCalls(s: State) {
    forall t :: t !in s.calls
  }

  // What is told by how things stand part-way: the switch by the settings, or by the call
  // that is about to store them; and the door by the start-up it was asked of.
  ghost predicate SwitchTold(on: bool, s: State) {
    && (NobodyCalls(s) ==> s.enabled == on)
    && forall t :: t in s.calls ==>
         match s.calls[t]
         case Setting(next) => next == on
         case Closing(_, Some(next)) => next == on
         case Closing(_, None) => s.enabled == on
         case Starting => s.enabled == on
  }

  ghost predicate CallsTold(closed: bool, s: State) {
    && (forall t :: t in s.calls && s.calls[t].Starting? ==> s.built)
    && forall t :: t in s.calls ==> (closed <==> s.calls[t].Closing? && s.calls[t].next.None?)
  }

  ghost predicate DoorTold(closed: bool, failed: bool, s: State) {
    && (failed ==> s.door.None? && s.generation !in s.startups)
    && (s.generation in s.startups ==> !s.startups[s.generation].Stale?)
    && (NobodyCalls(s) && (closed || !s.built) ==> s.door.None? && s.generation !in s.startups)
    && (NobodyCalls(s) && s.enabled && s.built && !closed ==> s.door.Some? || s.generation in s.startups || failed)
  }

  ghost predicate NoneFailedYet(events: seq<Event>, s: State) {
    forall g: nat :: HasFailed(events, g) ==> g <= s.generation
  }

  ghost predicate Told(events: seq<Event>, atFirst: bool, s: State) {
    && SwitchTold(SwitchedOn(events, atFirst), s) && (s.built <==> IsPublished(events))
    && CallsTold(IsClosed(events), s) && DoorTold(IsClosed(events), HasFailed(events, s.generation), s)
    && NoneFailedYet(events, s)
  }

  // Who is in the middle of a call after a step.
  lemma CallsAfter(s: State, e: Event)
    requires SerialInv(s) && Step(s, e).Some? && Serial(s, e)
    ensures var s' := Step(s, e).value;
            match e
            case Publish(t) => NobodyCalls(s) && (t in s'.calls <==> s.enabled)
            case Update(t, _) => t in s'.calls
            case Close(t) => t in s'.calls
            case CloseDoor(t) => t in s.calls && (t in s'.calls <==> s.calls[t].next.Some?)
            case Settle(t) => t in s.calls && (t in s'.calls <==> s.calls[t].enable && s.built)
            case Start(t) => t in s.calls && t !in s'.calls
            case _ => s'.calls == s.calls
  {
  }

  lemma SwitchStillTold(on: bool, s: State, e: Event)
    requires SerialInv(s) && SwitchTold(on, s) && Step(s, e).Some? && Serial(s, e)
    ensures SwitchTold(if e.Update? then e.next else on, Step(s, e).value)
  {
    CallsAfter(s, e);
  }

  lemma CallsStillTold(closed: bool, s: State, e: Event)
    requires SerialInv(s) && CallsTold(closed, s) && Step(s, e).Some? && Serial(s, e)
    ensures CallsTold(if e.Publish? || e.Update? then false else e.Close? || closed, Step(s, e).value)
  {
  }

  lemma DoorStillTold(closed: bool, failed: bool, s: State, e: Event)
    requires SerialInv(s) && CallsTold(closed, s) && DoorTold(closed, failed, s) && Step(s, e).Some? && Serial(s, e)
    ensures var s' := Step(s, e).value;
            DoorTold(if e.Publish? || e.Update? then false else e.Close? || closed,
                     s'.generation == s.generation && (failed || e == Fails(s.generation)), s')
  {
    CallsAfter(s, e);
  }

  lemma FailuresStillTold(events: seq<Event>, s: State, s': State)
    requires events != [] && NoneFailedYet(events[..|events| - 1], s) && SerialInv(s) && Follows(s, events[|events| - 1], s')
    ensures NoneFailedYet(events, s')
    ensures var e, g := events[|events| - 1], s.generation;
            HasFailed(events, s'.generation) <==>
            s'.generation == g && (HasFailed(events[..|events| - 1], g) || e == Fails(g))
  {
  }

  lemma {:induction false} RunTells(states: seq<State>, events: seq<Event>)
    requires IsRun(states, events)
    ensures Told(events, states[0].enabled, states[|events|]) && SerialInv(states[|events|])
  {
    RunKeepsSerialInv(states, events);
    if events != [] {
      var n := |events| - 1;
      var s, e := states[n], events[n];
      RunTells(states[..n + 1], events[..n]);
      assert Follows(s, e, states[n + 1]);
      SwitchStillTold(SwitchedOn(events[..n], states[0].enabled), s, e);
      CallsStillTold(IsClosed(events[..n]), s, e);
      DoorStillTold(IsClosed(events[..n]), HasFailed(events[..n], s.generation), s, e);
      FailuresStillTold(events, s, states[n + 1]);
    }
  }

  // With settings changed one at a time, and once nothing is in progress: the door of the
  // last start-up is open, and it alone, exactly when the switch was last turned on and
  // the front door is there, that start-up did not fail, and nobody has closed it all
  // since; and otherwise none is.
  lemma WhatWasAskedComesAbout(states: seq<State>, events: seq<Event>)
    requires IsRun(states, events) && states[|events|].startups == map[] && states[|events|].calls == map[]
    ensures var s := states[|events|];
            && s.enabled == SwitchedOn(events, states[0].enabled)
            && s.open == (if s.enabled && IsPublished(events) && !IsClosed(events) && !HasFailed(events, s.generation)
                          then {s.generation} else {})
            && s.door == (if s.open == {} then None else Some(s.generation))
  {
    RunTells(states, events);
    AtMostOneDoor(states, events);
    var s := states[|events|];
    SerialRunIsARun(states, events);
    AnyRunIsOneHanded(states, events);
  }

  lemma SerialRunIsARun(states: seq<State>, events: seq<Event>)
    requires IsRun(states, events)
    ensures IsAnyRun(states, events)
  {
    forall i | 0 <= i < |events| ensures Goes(states[i], events[i], states[i + 1]) {
      assert Follows(states[i], events[i], states[i + 1]);
    }
  }

  // And nothing is stuck: every call and every start-up in progress can take its next step.
  lemma EveryoneCanGoOn(s: State)
    ensures forall t :: t in s.calls ==> Step(s, NextOf(t, s.calls[t])).Some?
    ensures forall g :: g in s.startups ==>
              && Step(s, match s.startups[g] case Bringing => Opens(g) case Up => Check(g) case Stale => Shut(g)).Some?
              && (s.startups[g].Bringing? ==> Step(s, Fails(g)).Some?)
  {
  }

  function NextOf(t: nat, c: Call): Event {
    match c
    case Closing(_, _) => CloseDoor(t)
    case Setting(_) => Settle(t)
    case Starting => Start(t)
  }

  // ---- calls that overlap as they like --------------------------------------------

  ghost predicate IsAnyRun(states: seq<State>, events: seq<Event>) {
    && |states| == |events| + 1
    && (exists enabled :: states[0] == Initial(enabled))
    && forall i :: 0 <= i < |events| ==> Goes(states[i], events[i], states[i + 1])
  }

  predicate Goes(s: State, e: Event, s': State) {
    Step(s, e) == Some(s')
  }

  // What holds however calls overlap: a door is in one hand at most, and whoever has
  // it in hand has it open.
  ghost predicate OneHand(s: State) {
    DoorsAreOpen(s) && CallsApart(s)
  }

  ghost predicate DoorsAreOpen(s: State) {
    && (forall g :: g in s.startups ==> s.built && g <= s.generation && (g in s.open <==> !s.startups[g].Bringing?))
    && (forall d :: d in s.open ==> d <= s.generation)
    && (s.door.Some? ==> s.built && s.door.value in s.open && s.door.value !in s.startups)
  }

  ghost predicate CallsApart(s: State) {
    && (forall t :: t in s.calls && Holds(s.calls[t]) ==>
          var d := s.calls[t].door.value; d in s.open && d !in s.startups && s.door != Some(d))
    && (forall t, u :: t in s.calls && u in s.calls && t != u && Holds(s.calls[t]) && Holds(s.calls[u]) ==>
          s.calls[t].door != s.calls[u].door)
  }

  predicate Holds(c: Call) {
    c.Closing? && c.door.Some?
  }

  lemma StepKeepsOneHand(s: State, e: Event)
    requires OneHand(s) && Step(s, e).Some?
    ensures OneHand(Step(s, e).value)
  {
    StepKeepsDoorsOpen(s, e);
    StepKeepsCallsApart(s, e);
  }

  lemma StepKeepsDoorsOpen(s: State, e: Event)
    requires OneHand(s) && Step(s, e).Some?
    ensures DoorsAreOpen(Step(s, e).value)
  {
  }

  lemma StepKeepsCallsApart(s: State, e: Event)
    requires OneHand(s) && Step(s, e).Some?
    ensures CallsApart(Step(s, e).value)
  {
  }

  lemma {:induction false} AnyRunIsOneHanded(states: seq<State>, events: seq<Event>)
    requires IsAnyRun(states, events)
    ensures OneHand(states[|events|])
  {
    if events != [] {
      var n := |events| - 1;
      AnyRunIsOneHanded(states[..n + 1], events[..n]);
      assert Goes(states[n], events[n], states[n + 1]);
      StepKeepsOneHand(states[n], events[n]);
    }
  }

  lemma PartOfARun(states: seq<State>, events: seq<Event>, n: nat)
    requires IsAnyRun(states, events) && n <= |events|
    ensures IsAnyRun(states[..n + 1], events[..n]) && OneHand(states[n])
  {
    AnyRunIsOneHanded(states[..n + 1], events[..n]);
  }

  // A start-up that has been overtaken is never published, however long it takes and
  // whatever else goes on.
  lemma {:induction false} StaleIsNeverPublished(states: seq<State>, events: seq<Event>, from: nat, g: nat, till: nat)
    requires IsAnyRun(states, events) && from <= till <= |events|
    requires g in states[from].startups && g != states[from].generation
    ensures g < states[till].generation && states[till].door != Some(g)
    decreases till
  {
    PartOfARun(states, events, till);
    if till > from {
      StaleIsNeverPublished(states, events, from, g, till - 1);
      assert Goes(states[till - 1], events[till - 1], states[till]);
    }
  }

  // ---- doors that are lost ----------------------------------------------------------

  // Open, and nobody will ever close it.
  ghost predicate Lost(s: State, d: nat) {
    d in s.open && !InHand(s, d)
  }

  // A node is published while another door is held.
  predicate Overwrites(s: State, e: Event) {
    e.Check? && e.g == s.generation && s.door.Some?
  }

  lemma StepLoses(s: State, e: Event, d: nat)
    requires OneHand(s) && Step(s, e).Some?
    ensures Lost(Step(s, e).value, d) <==> Lost(s, d) || (Overwrites(s, e) && s.door == Some(d))
  {
    var s' := Step(s, e).value;
    assert d in s'.open <==> (d in s.open && !Closes(s, e, d)) || e == Opens(d);
    if e.Update? || e.Close? {
      StopHands(s, e, d);
    } else if e.CloseDoor? {
      CloseHands(s, e, d);
    } else {
      assert forall t :: t in s.calls && s.calls[t].Closing? ==> t in s'.calls && s'.calls[t] == s.calls[t];
      assert forall t :: t in s'.calls && s'.calls[t].Closing? ==> t in s.calls && s'.calls[t] == s.calls[t];
    }
  }

  predicate Closes(s: State, e: Event, d: nat) {
    || (e.CloseDoor? && e.t in s.calls && Holds(s.calls[e.t]) && s.calls[e.t].door == Some(d))
    || (e == Shut(d) && d in s.startups && s.startups[d].Stale?)
  }

  lemma StopHands(s: State, e: Event, d: nat)
    requires OneHand(s) && Step(s, e).Some? && (e.Update? || e.Close?)
    ensures Lost(Step(s, e).value, d) <==> Lost(s, d)
  {
    var s' := Step(s, e).value;
    assert s'.calls[e.t].door == s.door && forall t :: t in s.calls ==> t in s'.calls && s'.calls[t] == s.calls[t];
  }

  lemma CloseHands(s: State, e: Event, d: nat)
    requires OneHand(s) && Step(s, e).Some? && e.CloseDoor?
    ensures Lost(Step(s, e).value, d) <==> Lost(s, d)
  {
    var s' := Step(s, e).value;
    assert forall t :: t in s.calls && t != e.t ==> t in s'.calls && s'.calls[t] == s.calls[t];
    assert forall t :: t in s'.calls && s'.calls[t].Closing? ==> t in s.calls && s'.calls[t] == s.calls[t];
  }

  // A run loses a door exactly when, at some step, a node is published over it; and
  // what is lost stays lost.
  lemma {:induction false} LostExactlyWhen(states: seq<State>, events: seq<Event>, d: nat)
    requires IsAnyRun(states, events)
    ensures Lost(states[|events|], d) <==>
            exists k :: 0 <= k < |events| && Overwrites(states[k], events[k]) && states[k].door == Some(d)
    decreases |events|
  {
    if events != [] {
      var n := |events| - 1;
      PartOfARun(states, events, n);
      LostExactlyWhen(states[..n + 1], events[..n], d);
      assert Goes(states[n], events[n], states[n + 1]);
      StepLoses(states[n], events[n], d);
      if Lost(states[n], d) {
        var k :| 0 <= k < n && Overwrites(states[..n + 1][k], events[..n][k]) && states[..n + 1][k].door == Some(d);
        assert Overwrites(states[k], events[k]) && states[k].door == Some(d);
      }
      if k :| 0 <= k < |events| && Overwrites(states[k], events[k]) && states[k].door == Some(d) {
        assert k < n ==> Overwrites(states[..n + 1][k], events[..n][k]) && states[..n + 1][k].door == Some(d);
      }
    }
  }

  // No run whose every start() finds no door held loses any.
  lemma {:induction false} CleanRunsLoseNothing(states: seq<State>, events: seq<Event>)
    requires IsAnyRun(states, events)
    requires forall i :: 0 <= i < |events| ==> StartsClean(states[i], events[i])
    ensures Inv(states[|events|]) && forall d :: !Lost(states[|events|], d)
    decreases |events|
  {
    if events != [] {
      var n := |events| - 1;
      forall i | 0 <= i < n ensures StartsClean(states[..n + 1][i], events[..n][i]) {
        assert StartsClean(states[i], events[i]);
      }
      PartOfARun(states, events, n);
      CleanRunsLoseNothing(states[..n + 1], events[..n]);
      assert StartsClean(states[n], events[n]) && Goes(states[n], events[n], states[n + 1]);
      StepKeepsInv(states[n], events[n]);
    }
  }

  // And every run that comes to a start() with a door held can go on to lose it, by
  // the node it starts coming up; no continuation of that closes it.
  lemma StartOverADoorLosesIt(states: seq<State>, events: seq<Event>, t: nat)
    returns (states': seq<State>, events': seq<Event>)
    requires IsAnyRun(states, events)
    requires var s := states[|events|]; s.door.Some? && t in s.calls && s.calls[t].Starting?
    ensures IsAnyRun(states', events') && events <= events' && events'[|events|..] ==
            [Start(t), Opens(states[|events|].generation + 1), Check(states[|events|].generation + 1)]
    ensures Lost(states'[|events'|], states[|events|].door.value)
  {
    var s, n := states[|events|], |events|;
    var g, d := s.generation + 1, s.door.value;
    AnyRunIsOneHanded(states, events);
    var s1 := Step(s, Start(t)).value;
    var s2 := Step(s1, Opens(g)).value;
    var s3 := Step(s2, Check(g)).value;
    states', events' := states + [s1, s2, s3], events + [Start(t), Opens(g), Check(g)];
    assert states'[n] == s && states'[n + 1] == s1 && states'[n + 2] == s2 && states'[n + 3] == s3;
    forall i | 0 <= i < |events'| ensures Goes(states'[i], events'[i], states'[i + 1]) {
      assert i < n ==> states'[i] == states[i] && states'[i + 1] == states[i + 1] && events'[i] == events[i];
    }
    assert states'[0] == states[0];
    assert Overwrites(states'[n + 2], events'[n + 2]) && states'[n + 2].door == Some(d);
    LostExactlyWhen(states', events', d);
  }

  lemma LostForGood(states: seq<State>, events: seq<Event>, from: nat, d: nat)
    requires IsAnyRun(states, events) && from <= |events| && Lost(states[from], d)
    ensures Lost(states[|events|], d)
  {
    PartOfARun(states, events, from);
    LostExactlyWhen(states[..from + 1], events[..from], d);
    var k :| 0 <= k < from && Overwrites(states[..from + 1][k], events[..from][k]) && states[..from + 1][k].door == Some(d);
    assert Overwrites(states[k], events[k]) && states[k].door == Some(d);
    LostExactlyWhen(states, events, d);
  }

  // Such a state is reached when two calls overlap: the front door is handed over
  // while the switch is being turned on.
  lemma OverlapLosesADoor()
    ensures var events := [Update(0, true), CloseDoor(0), Publish(1), Settle(0), Start(0), Opens(2), Check(2)];
            exists states: seq<State> ::
              && IsAnyRun(states, events)
              && states[7].door == Some(2) && 2 in states[7].open
              && 1 in states[7].calls && states[7].calls[1].Starting? && states[7].built
  {
    var events := [Update(0, true), CloseDoor(0), Publish(1), Settle(0), Start(0), Opens(2), Check(2)];
    var s0, s1, s2, s3, s4 := BothAboutToStart();
    var s5, s6, s7 := OneStarted(s4);
    var states := [s0, s1, s2, s3, s4, s5, s6, s7];
    assert IsAnyRun(states, events);
  }

  lemma BothAboutToStart() returns (s0: State, s1: State, s2: State, s3: State, s4: State)
    ensures s0 == Initial(true) && Goes(s0, Update(0, true), s1) && Goes(s1, CloseDoor(0), s2)
    ensures Goes(s2, Publish(1), s3) && Goes(s3, Settle(0), s4)
    ensures s4 == State(1, None, true, true, map[], map[0 := Starting, 1 := Starting], {})
  {
    s0 := Initial(true);
    s1 := s0.(generation := 1, calls := map[0 := Closing(None, Some(true))]);
    s2 := s1.(calls := map[0 := Setting(true)]);
    s3 := s2.(built := true, calls := map[0 := Setting(true), 1 := Starting]);
    s4 := s3.(calls := map[0 := Starting, 1 := Starting]);
    assert s1.calls[0 := Setting(true)] == s2.calls;
    assert s3.calls[0 := Starting] == s4.calls;
  }

  lemma OneStarted(s4: State) returns (s5: State, s6: State, s7: State)
    requires s4 == State(1, None, true, true, map[], map[0 := Starting, 1 := Starting], {})
    ensures Goes(s4, Start(0), s5) && Goes(s5, Opens(2), s6) && Goes(s6, Check(2), s7)
    ensures s7 == State(2, Some(2), true, true, map[], map[1 := Starting], {2})
  {
    s5 := s4.(generation := 2, calls := map[1 := Starting], startups := map[2 := Bringing]);
    s6 := s5.(startups := map[2 := Up], open := {2});
    s7 := s6.(door := Some(2), startups := map[]);
    assert s4.calls - {0} == s5.calls;
    assert s5.startups[2 := Up] == s6.startups && s5.open + {2} == s6.open;
    assert s6.startups - {2} == map[];
  }

  // ---- the controller -----------------------------------------------------------

  class Controller {
    var generation: nat
    var door: Option<nat>
    var enabled: bool
    var built: bool
    // The goroutines and callers around it, and the doors in the world.
    ghost var startups: map<nat, Startup>
    ghost var calls: map<nat, Call>
    ghost var open: set<nat>

    ghost function View(): State
      reads this
    {
      State(generation, door, enabled, built, startups, calls, open)
    }

    constructor (enabled: bool)
      ensures View() == Initial(enabled)
    {
      generation, door, this.enabled, built := 0, None, enabled, false;
      startups, calls, open := map[], map[], {};
    }

    // publish, up to start(): whether it goes on to start a node.
    method Publish(ghost t: nat) returns (starts: bool)
      requires t !in calls
      modifies this
      ensures Some(View()) == Step(old(View()), Event.Publish(t))
      ensures built && (starts <==> enabled) && generation == old(generation) && door == old(door) && enabled == old(enabled)
      ensures starts == (t in calls)
    {
      built := true;
      starts := enabled;
      if starts {
        calls := calls[t := Starting];
      }
    }

    // stop, up to the door it has to close.
    method Stop(ghost t: nat, ghost next: Option<bool>) returns (taken: Option<nat>)
      requires t !in calls
      modifies this
      ensures Some(View()) == Step(old(View()), if next.Some? then Update(t, next.value) else Close(t))
      ensures taken == old(door)
      ensures generation == old(generation) + 1 && door == None && enabled == old(enabled) && built == old(built)
    {
      generation := generation + 1;
      taken := door;
      door := None;
      calls := calls[t := Closing(taken, next)];
    }

    // The part of update between stop() and start().
    method Settle(ghost t: nat, next: bool) returns (starts: bool)
      requires t in calls && calls[t] == Setting(next)
      modifies this
      ensures Some(View()) == Step(old(View()), Event.Settle(t))
      ensures enabled == next && (starts <==> next && built)
      ensures generation == old(generation) && door == old(door) && built == old(built)
      ensures starts == (t in calls)
    {
      enabled := next;
      starts := next && built;
      calls := if starts then calls[t := Starting] else Done(calls, t);
    }

    // start, up to the goroutine: the generation that goroutine belongs to.
    method Start(ghost t: nat) returns (mine: nat, spawned: bool)
      requires t in calls && calls[t].Starting?
      modifies this
      ensures Some(View()) == Step(old(View()), Event.Start(t))
      ensures mine == generation && spawned == built
      ensures generation == old(generation) + 1 && door == old(door) && enabled == old(enabled) && built == old(built)
    {
      generation := generation + 1;
      mine := generation;
      calls := Done(calls, t);
      spawned := built;
      if spawned {
        startups := startups[mine := Bringing];
      }
    }

    // The goroutine's section once its node is up: publish the door, or say it has
    // to be closed.
    method Check(mine: nat) returns (stale: bool)
      requires mine in startups && startups[mine].Up?
      modifies this
      ensures Some(View()) == Step(old(View()), Event.Check(mine))
      ensures stale == (mine in startups)
      ensures stale <==> generation != mine
      ensures door == (if stale then old(door) else Some(mine)) && generation == old(generation)
    {
      stale := generation != mine;
      if stale {
        startups := startups[mine := Stale];
      } else {
        door := Some(mine);
        startups := startups - {mine};
      }
    }
  }
}
