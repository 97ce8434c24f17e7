/** Which stage a report reaches: the waiting stages, by the terminal each talks in
    (internal/acp/stageterminal.go). A stage that adopts the conversation its card
    already had shares the terminal of the stage before it. */
module StageWaits {
  import opened Text

  // A stage begins to wait in a terminal, or its own deferred call takes the
  // terminal's entry away.
  datatype WaitEvent = Await(terminal: string, stage: nat) | Forget(terminal: string, stage: nat)

  // Whom a report from that terminal reaches.
  function Hearer(log: seq<WaitEvent>, terminal: string): Option<nat> {
    if log == [] then None
    else
      var e := log[|log| - 1];
      if e.terminal != terminal then Hearer(log[..|log| - 1], terminal)
      else if e.Await? then Some(e.stage)
      else None
  }

  // The stage is waiting there, by its own account: since event i, and it has not
  // finished.
  predicate WaitsSince(log: seq<WaitEvent>, terminal: string, stage: nat, i: nat) {
    && i < |log| && log[i] == Await(terminal, stage)
    && forall j :: i < j < |log| ==> log[j].terminal == terminal ==> log[j].stage != stage
  }

  predicate LeftAlone(log: seq<WaitEvent>, terminal: string, i: nat) {
    forall j :: i < j < |log| ==> log[j].terminal != terminal
  }

  lemma {:induction false} HearerIsLast(log: seq<WaitEvent>, terminal: string, stage: nat)
    ensures Hearer(log, terminal) == Some(stage) <==>
            exists i :: 0 <= i < |log| && log[i] == Await(terminal, stage) && LeftAlone(log, terminal, i)
  {
    if log != [] {
      var last := |log| - 1;
      var before := log[..last];
      HearerIsLast(before, terminal, stage);
      if log[last].terminal != terminal && Hearer(before, terminal) == Some(stage) {
        var i :| 0 <= i < |before| && before[i] == Await(terminal, stage) && LeftAlone(before, terminal, i);
        assert log[i] == before[i] && LeftAlone(log, terminal, i);
      } else if log[last].terminal == terminal {
        assert log[last] == Await(terminal, stage) ==> LeftAlone(log, terminal, last);
      } else if i :| 0 <= i < |log| && log[i] == Await(terminal, stage) && LeftAlone(log, terminal, i) {
        assert before[i] == log[i] && LeftAlone(before, terminal, i);
      }
    }
  }

  // A waiting stage hears the report exactly when no other stage has begun or ended
  // in its terminal since it began.
  lemma WaitingStageHearsExactlyWhen(log: seq<WaitEvent>, terminal: string, stage: nat, i: nat)
    requires WaitsSince(log, terminal, stage, i)
    ensures Hearer(log, terminal) == Some(stage) <==> LeftAlone(log, terminal, i)
  {
    HearerIsLast(log, terminal, stage);
    if k :| 0 <= k < |log| && log[k] == Await(terminal, stage) && LeftAlone(log, terminal, k) {
      assert k <= i;
    }
  }

  class Desk {
    var waits: map<string, nat>
    ghost var log: seq<WaitEvent>

    ghost predicate Valid()
      reads this
    {
      forall t :: Hearer(log, t) == if t in waits then Some(waits[t]) else None
    }

    constructor ()
      ensures Valid() && log == []
    {
      waits, log := map[], [];
    }

    // awaitStage.
    method AwaitStage(terminal: string, stage: nat)
      requires Valid()
      modifies this
      ensures Valid() && log == old(log) + [Await(terminal, stage)]
    {
      waits := waits[terminal := stage];
      log := log + [Await(terminal, stage)];
      assert log[..|log| - 1] == old(log);
    }

    // forgetStage, as a stage's own deferred call: whoever's the entry is, it goes.
    method ForgetStage(terminal: string, ghost stage: nat)
      requires Valid()
      modifies this
      ensures Valid() && log == old(log) + [Forget(terminal, stage)]
    {
      waits := waits - {terminal};
      log := log + [Forget(terminal, stage)];
      assert log[..|log| - 1] == old(log);
    }

    // The look-up of finish_work.
    method Find(terminal: string) returns (stage: Option<nat>)
      requires Valid()
      ensures stage == Hearer(log, terminal)
    {
      stage := if terminal in waits then Some(waits[terminal]) else None;
    }
  }

  // A second stage in the same terminal takes the first one's place, and the first
  // one's end takes the second's entry: it waits, and nobody hears a report.
  method SecondStageIsUnheard(terminal: string) returns (desk: Desk, first: Option<nat>, second: Option<nat>)
    ensures WaitsSince(desk.log, terminal, 2, 1) && first == Some(2) && second == None
  {
    desk := new Desk();
    desk.AwaitStage(terminal, 1);
    desk.AwaitStage(terminal, 2);
    first := desk.Find(terminal);
    desk.ForgetStage(terminal, 1);
    second := desk.Find(terminal);
  }
}
