/** What a session ends as, told by the events of its run alone
    (internal/acp/session.go, manager.go). */
module SessionEnds {
  import opened Text
  import opened Session

  // ---- what happened, and in which order -----------------------------------------------

  // e happened, and b after it.
  ghost predicate Before(es: seq<Event>, e: Event, b: Event) {
    es != [] && (var n := |es| - 1; Before(es[..n], e, b) || (es[n] == b && e in es[..n]))
  }

  // e happened when since had happened and until had not.
  ghost predicate Between(es: seq<Event>, since: Event, e: Event, until: Event) {
    es != [] &&
    (var n := |es| - 1;
     Between(es[..n], since, e, until) || (es[n] == e && since in es[..n] && until !in es[..n]))
  }

  // The last cancellation pressed before the outcome was checked came in the turn, or
  // when nothing had been asked yet, or when a canceller had finished the session.
  ghost predicate LastPressCounts(es: seq<Event>) {
    es != [] &&
    (var n := |es| - 1;
     if es[n] == CancelPressed && LookCancelled !in es[..n] then
       SlotTaken in es[..n] || Ask !in es[..n] || EnderFinishes in es[..n]
     else LastPressCounts(es[..n]))
  }

  // The folder could not be prepared, or nothing could be connected to.
  ghost predicate BrokeDown(es: seq<Event>) {
    Prepared(Some(Failed)) in es || Connected(false) in es
  }

  // The application was closing, or the folder busy or dirty.
  ghost predicate WasPutOff(es: seq<Event>) {
    Before(es, AppCloses, Root) || Prepared(Some(Cancelled)) in es || SlotRefused in es
  }

  // The turn was stopped, and the outcome's check could see it.
  ghost predicate WasStopped(es: seq<Event>) {
    LastPressCounts(es) || PromptEnds(false, true) in es || Between(es, SlotTaken, Marks, LookCancelled)
  }

  // ---- the same, kept up event by event --------------------------------------------------

  datatype Story = Story(
    seen: set<Event>,
    closingAtStart: bool,
    closingAtLook: bool,
    endedFirst: bool,
    endedInTurn: bool,
    markedInTime: bool,
    lastCounts: bool)

  function Opening(): Story {
    Story({}, false, false, false, false, false, false)
  }

  function Told(s: Story, e: Event): Story {
    Story(
      s.seen + {e},
      s.closingAtStart || (e == Root && AppCloses in s.seen),
      s.closingAtLook || (e == LookRoot && AppCloses in s.seen),
      s.endedFirst || (e == Ends && EnderFinishes in s.seen),
      s.endedInTurn || (e == EnderFinishes && SlotTaken in s.seen && Finishes !in s.seen),
      s.markedInTime || (e == Marks && SlotTaken in s.seen && LookCancelled !in s.seen),
      if e == CancelPressed && LookCancelled !in s.seen then
        SlotTaken in s.seen || Ask !in s.seen || EnderFinishes in s.seen
      else s.lastCounts)
  }

  ghost predicate Tells(es: seq<Event>, s: Story) {
    && (forall e :: e in s.seen <==> e in es)
    && (s.closingAtStart <==> Before(es, AppCloses, Root))
    && (s.closingAtLook <==> Before(es, AppCloses, LookRoot))
    && (s.endedFirst <==> Before(es, EnderFinishes, Ends))
    && (s.endedInTurn <==> Between(es, SlotTaken, EnderFinishes, Finishes))
    && (s.markedInTime <==> Between(es, SlotTaken, Marks, LookCancelled))
    && (s.lastCounts <==> LastPressCounts(es))
  }

  lemma TellsOn(es: seq<Event>, s: Story)
    requires es != [] && Tells(es[..|es| - 1], s)
    ensures Tells(es, Told(s, es[|es| - 1]))
  {
    assert es == es[..|es| - 1] + [es[|es| - 1]];
  }

  // ---- what the run's state says of it ---------------------------------------------------

  predicate IsOut(w: World) {
    w.at.Releasing? || w.at.Over?
  }

  predicate IsEarly(w: World) {
    w.at.Begin? || w.at.Preparing? || w.at.Connecting? || w.at.WaitingForSlot?
  }

  predicate Broke(s: Story) {
    Prepared(Some(Failed)) in s.seen || Connected(false) in s.seen
  }

  predicate PutOff(s: Story) {
    s.closingAtStart || Prepared(Some(Cancelled)) in s.seen || SlotRefused in s.seen
  }

  predicate FlagsTell(s: Story, w: World) {
    && (w.closing <==> AppCloses in s.seen)
    && (w.began <==> SlotTaken in s.seen)
    && (w.heard.None? <==> LookCancelled !in s.seen)
  }

  // A session whose turn never began.
  predicate NoTurnTells(s: Story, w: World) {
    && (!w.began ==>
          && (Ends in s.seen <==> IsOut(w))
          && (Broke(s) <==> w.at == Ending(Failed) || (IsOut(w) && !PutOff(s)))
          && (PutOff(s) ==> w.at == Ending(Cancelled) || w.at.CheckRoot? || w.at.Tail? || IsOut(w))
          && (w.at == Ending(Cancelled) || w.at.CheckRoot? || w.at.Tail? ==> PutOff(s)))
  }

  predicate NoTurnEnds(s: Story, w: World) {
    && (!w.began ==>
          && (!IsOut(w) ==> if EnderFinishes in s.seen then w.f.status == Cancelled else !w.f.status.Terminal())
          && (s.endedFirst ==> IsOut(w))
          && (IsOut(w) ==> w.f.status == if Broke(s) && !s.endedFirst then Failed else Cancelled))
  }

  // Before the turn, what a cancellation finds.
  predicate WorkTells(s: Story, w: World) {
    && (w.asks > 0 ==> Ask in s.seen)
    && (!w.began && !IsOut(w) ==> (w.f.status.Working() <==> Ask in s.seen && EnderFinishes !in s.seen))
  }

  predicate StopTells(s: Story, w: World) {
    && (w.began || !IsOut(w) ==> (CancelHeard(w.cancels) <==> s.lastCounts))
    && (w.stopped <==> PromptEnds(false, true) in s.seen || s.markedInTime)
  }

  // The turn, once it began.
  predicate LookTells(s: Story, w: World) {
    && (IsEarly(w) || w.at.Prompting? || w.at.CheckRoot? ==> !s.closingAtLook)
    && (w.heard.Some? || w.at.CheckCancelled? ==> !s.closingAtLook)
    && (w.began && w.heard.None? && (w.at.Tail? || w.at.Ending? || IsOut(w)) ==> s.closingAtLook)
  }

  predicate TurnTells(s: Story, w: World) {
    !s.closingAtLook ==> (w.ended <==> s.endedInTurn)
  }

  predicate FinishTells(s: Story, w: World) {
    && (IsEarly(w) || InItsTurn(w) ==> Finishes !in s.seen)
    && (w.heard.Some? && !w.at.Finishing? ==> Finishes in s.seen)
  }

  predicate ErrorTells(s: Story, w: World) {
    && (PromptEnds(true, false) in s.seen ==> w.began && !w.at.Prompting?)
    && (w.began && (w.at.CheckRoot? || w.at.CheckCancelled?) ==> (w.at.failed <==> PromptEnds(true, false) in s.seen))
    && (w.heard.Some? ==> (w.failed <==> PromptEnds(true, false) in s.seen))
  }

  ghost predicate VerdictTells(s: Story, w: World) {
    && (forall v :: w.f.outcome == Some(v) <==> Reported(Some(v)) in s.seen)
    && (w.at.Reporting? ==> w.f.outcome.None?)
  }

  ghost predicate StateTells(s: Story, w: World) {
    && FlagsTell(s, w) && NoTurnTells(s, w) && NoTurnEnds(s, w) && WorkTells(s, w)
    && StopTells(s, w) && LookTells(s, w) && TurnTells(s, w) && FinishTells(s, w)
    && ErrorTells(s, w) && VerdictTells(s, w)
  }

  // ---- every step keeps what it says -----------------------------------------------------

  lemma OthersKeepFlags(s: Story, w: World, e: Event)
    requires FlagsTell(s, w) && PlaceInv(w) && Step(w, e).Some?
    requires FromOutside(e)
    ensures FlagsTell(Told(s, e), Step(w, e).value)
  {
  }

  lemma StartKeepsFlags(s: Story, w: World, e: Event)
    requires FlagsTell(s, w) && PlaceInv(w) && Step(w, e).Some?
    requires !FromOutside(e) && !FromTheEnd(e)
    ensures FlagsTell(Told(s, e), Step(w, e).value)
  {
  }

  lemma EndKeepsFlags(s: Story, w: World, e: Event)
    requires FlagsTell(s, w) && PlaceInv(w) && Step(w, e).Some?
    requires FromTheEnd(e)
    ensures FlagsTell(Told(s, e), Step(w, e).value)
  {
  }

  lemma FlagsGoOn(s: Story, w: World, e: Event)
    requires FlagsTell(s, w) && PlaceInv(w) && Step(w, e).Some?
    ensures FlagsTell(Told(s, e), Step(w, e).value)
  {
    if FromOutside(e) {
      OthersKeepFlags(s, w, e);
    } else if FromTheEnd(e) {
      EndKeepsFlags(s, w, e);
    } else {
      StartKeepsFlags(s, w, e);
    }
  }

  lemma OthersKeepNoTurn(s: Story, w: World, e: Event)
    requires PlaceInv(w) && EndInv(w) && FlagsTell(s, w) && NoTurnTells(s, w) && Step(w, e).Some?
    requires FromOutside(e)
    ensures NoTurnTells(Told(s, e), Step(w, e).value)
  {
  }

  lemma StartKeepsNoTurn(s: Story, w: World, e: Event)
    requires PlaceInv(w) && EndInv(w) && FlagsTell(s, w) && NoTurnTells(s, w) && Step(w, e).Some?
    requires !FromOutside(e) && !FromTheEnd(e)
    ensures NoTurnTells(Told(s, e), Step(w, e).value)
  {
  }

  lemma EndKeepsNoTurn(s: Story, w: World, e: Event)
    requires PlaceInv(w) && EndInv(w) && FlagsTell(s, w) && NoTurnTells(s, w) && Step(w, e).Some?
    requires FromTheEnd(e)
    ensures NoTurnTells(Told(s, e), Step(w, e).value)
  {
  }

  lemma NoTurnGoesOn(s: Story, w: World, e: Event)
    requires PlaceInv(w) && EndInv(w) && FlagsTell(s, w) && NoTurnTells(s, w) && Step(w, e).Some?
    ensures NoTurnTells(Told(s, e), Step(w, e).value)
  {
    if FromOutside(e) {
      OthersKeepNoTurn(s, w, e);
    } else if FromTheEnd(e) {
      EndKeepsNoTurn(s, w, e);
    } else {
      StartKeepsNoTurn(s, w, e);
    }
  }

  lemma OthersKeepNoTurnEnds(s: Story, w: World, e: Event)
    requires PlaceInv(w) && EndInv(w) && FlagsTell(s, w) && NoTurnTells(s, w) && NoTurnEnds(s, w) && Step(w, e).Some?
    requires FromOutside(e)
    ensures NoTurnEnds(Told(s, e), Step(w, e).value)
  {
  }

  lemma StartKeepsNoTurnEnds(s: Story, w: World, e: Event)
    requires PlaceInv(w) && EndInv(w) && FlagsTell(s, w) && NoTurnTells(s, w) && NoTurnEnds(s, w) && Step(w, e).Some?
    requires !FromOutside(e) && !FromTheEnd(e)
    ensures NoTurnEnds(Told(s, e), Step(w, e).value)
  {
  }

  lemma EndKeepsNoTurnEnds(s: Story, w: World, e: Event)
    requires PlaceInv(w) && EndInv(w) && FlagsTell(s, w) && NoTurnTells(s, w) && NoTurnEnds(s, w) && Step(w, e).Some?
    requires FromTheEnd(e)
    ensures NoTurnEnds(Told(s, e), Step(w, e).value)
  {
  }

  lemma NoTurnEndsGoOn(s: Story, w: World, e: Event)
    requires PlaceInv(w) && EndInv(w) && FlagsTell(s, w) && NoTurnTells(s, w) && NoTurnEnds(s, w) && Step(w, e).Some?
    ensures NoTurnEnds(Told(s, e), Step(w, e).value)
  {
    if FromOutside(e) {
      OthersKeepNoTurnEnds(s, w, e);
    } else if FromTheEnd(e) {
      EndKeepsNoTurnEnds(s, w, e);
    } else {
      StartKeepsNoTurnEnds(s, w, e);
    }
  }

  lemma WorkGoesOn(s: Story, w: World, e: Event)
    requires PlaceInv(w) && EndInv(w) && FlagsTell(s, w) && NoTurnEnds(s, w) && WorkTells(s, w) && Step(w, e).Some?
    ensures WorkTells(Told(s, e), Step(w, e).value)
  {
  }

  lemma OthersKeepStop(s: Story, w: World, e: Event)
    requires FlagsInv(w) && PlaceInv(w) && EndInv(w) && FlagsTell(s, w) && WorkTells(s, w) && StopTells(s, w) && Step(w, e).Some?
    requires FromOutside(e)
    ensures StopTells(Told(s, e), Step(w, e).value)
  {
    if e.CancelPressed? {
      HeardGrows(w.cancels, Cancellation(!w.began, w.f.status.Working()));
    }
  }

  lemma StartKeepsStop(s: Story, w: World, e: Event)
    requires FlagsInv(w) && PlaceInv(w) && EndInv(w) && FlagsTell(s, w) && WorkTells(s, w) && StopTells(s, w) && Step(w, e).Some?
    requires !FromOutside(e) && !FromTheEnd(e)
    ensures StopTells(Told(s, e), Step(w, e).value)
  {
  }

  lemma EndKeepsStop(s: Story, w: World, e: Event)
    requires FlagsInv(w) && PlaceInv(w) && EndInv(w) && FlagsTell(s, w) && WorkTells(s, w) && StopTells(s, w) && Step(w, e).Some?
    requires FromTheEnd(e)
    ensures StopTells(Told(s, e), Step(w, e).value)
  {
  }

  lemma StopGoesOn(s: Story, w: World, e: Event)
    requires FlagsInv(w) && PlaceInv(w) && EndInv(w) && FlagsTell(s, w) && WorkTells(s, w) && StopTells(s, w) && Step(w, e).Some?
    ensures StopTells(Told(s, e), Step(w, e).value)
  {
    if FromOutside(e) {
      OthersKeepStop(s, w, e);
    } else if FromTheEnd(e) {
      EndKeepsStop(s, w, e);
    } else {
      StartKeepsStop(s, w, e);
    }
  }

  lemma LookGoesOn(s: Story, w: World, e: Event)
    requires PlaceInv(w) && EndInv(w) && FlagsTell(s, w) && LookTells(s, w) && Step(w, e).Some?
    ensures LookTells(Told(s, e), Step(w, e).value)
  {
  }

  lemma OthersKeepFinish(s: Story, w: World, e: Event)
    requires PlaceInv(w) && FlagsTell(s, w) && FinishTells(s, w) && Step(w, e).Some?
    requires FromOutside(e)
    ensures FinishTells(Told(s, e), Step(w, e).value)
  {
  }

  lemma StartKeepsFinish(s: Story, w: World, e: Event)
    requires PlaceInv(w) && FlagsTell(s, w) && FinishTells(s, w) && Step(w, e).Some?
    requires !FromOutside(e) && !FromTheEnd(e)
    ensures FinishTells(Told(s, e), Step(w, e).value)
  {
  }

  lemma EndKeepsFinish(s: Story, w: World, e: Event)
    requires PlaceInv(w) && FlagsTell(s, w) && FinishTells(s, w) && Step(w, e).Some?
    requires FromTheEnd(e)
    ensures FinishTells(Told(s, e), Step(w, e).value)
  {
  }

  lemma FinishGoesOn(s: Story, w: World, e: Event)
    requires PlaceInv(w) && FlagsTell(s, w) && FinishTells(s, w) && Step(w, e).Some?
    ensures FinishTells(Told(s, e), Step(w, e).value)
  {
    if FromOutside(e) {
      OthersKeepFinish(s, w, e);
    } else if FromTheEnd(e) {
      EndKeepsFinish(s, w, e);
    } else {
      StartKeepsFinish(s, w, e);
    }
  }

  lemma OthersKeepTurn(s: Story, w: World, e: Event)
    requires PlaceInv(w) && FlagsTell(s, w) && LookTells(s, w) && FinishTells(s, w) && TurnTells(s, w) && Step(w, e).Some?
    requires FromOutside(e)
    ensures TurnTells(Told(s, e), Step(w, e).value)
  {
  }

  lemma StartKeepsTurn(s: Story, w: World, e: Event)
    requires PlaceInv(w) && FlagsTell(s, w) && LookTells(s, w) && FinishTells(s, w) && TurnTells(s, w) && Step(w, e).Some?
    requires !FromOutside(e) && !FromTheEnd(e)
    ensures TurnTells(Told(s, e), Step(w, e).value)
  {
  }

  lemma EndKeepsTurn(s: Story, w: World, e: Event)
    requires PlaceInv(w) && FlagsTell(s, w) && LookTells(s, w) && FinishTells(s, w) && TurnTells(s, w) && Step(w, e).Some?
    requires FromTheEnd(e)
    ensures TurnTells(Told(s, e), Step(w, e).value)
  {
  }

  lemma TurnGoesOn(s: Story, w: World, e: Event)
    requires PlaceInv(w) && FlagsTell(s, w) && LookTells(s, w) && FinishTells(s, w) && TurnTells(s, w) && Step(w, e).Some?
    ensures TurnTells(Told(s, e), Step(w, e).value)
  {
    if FromOutside(e) {
      OthersKeepTurn(s, w, e);
    } else if FromTheEnd(e) {
      EndKeepsTurn(s, w, e);
    } else {
      StartKeepsTurn(s, w, e);
    }
  }

  lemma OthersKeepError(s: Story, w: World, e: Event)
    requires PlaceInv(w) && ErrorTells(s, w) && Step(w, e).Some?
    requires FromOutside(e)
    ensures ErrorTells(Told(s, e), Step(w, e).value)
  {
  }

  lemma StartKeepsError(s: Story, w: World, e: Event)
    requires PlaceInv(w) && ErrorTells(s, w) && Step(w, e).Some?
    requires !FromOutside(e) && !FromTheEnd(e)
    ensures ErrorTells(Told(s, e), Step(w, e).value)
  {
  }

  lemma EndKeepsError(s: Story, w: World, e: Event)
    requires PlaceInv(w) && ErrorTells(s, w) && Step(w, e).Some?
    requires FromTheEnd(e)
    ensures ErrorTells(Told(s, e), Step(w, e).value)
  {
  }

  lemma ErrorGoesOn(s: Story, w: World, e: Event)
    requires PlaceInv(w) && ErrorTells(s, w) && Step(w, e).Some?
    ensures ErrorTells(Told(s, e), Step(w, e).value)
  {
    if FromOutside(e) {
      OthersKeepError(s, w, e);
    } else if FromTheEnd(e) {
      EndKeepsError(s, w, e);
    } else {
      StartKeepsError(s, w, e);
    }
  }

  lemma VerdictGoesOn(s: Story, w: World, e: Event)
    requires PlaceInv(w) && EndInv(w) && VerdictTells(s, w) && Step(w, e).Some?
    ensures VerdictTells(Told(s, e), Step(w, e).value)
  {
  }

  lemma {:induction false} RunTells(es: seq<Event>) returns (s: Story)
    requires Run(es).Some?
    ensures Tells(es, s) && StateTells(s, Run(es).value)
  {
    if es == [] {
      s := Opening();
    } else {
      var front, e := es[..|es| - 1], es[|es| - 1];
      var before := RunTells(front);
      var w := Run(front).value;
      RunKeepsInv(front);
      s := Told(before, e);
      TellsOn(es, before);
      FlagsGoOn(before, w, e);
      NoTurnGoesOn(before, w, e);
      NoTurnEndsGoOn(before, w, e);
      WorkGoesOn(before, w, e);
      StopGoesOn(before, w, e);
      LookGoesOn(before, w, e);
      FinishGoesOn(before, w, e);
      TurnGoesOn(before, w, e);
      ErrorGoesOn(before, w, e);
      VerdictGoesOn(before, w, e);
    }
  }

  // ---- what a session ends as ------------------------------------------------------------

  // A session over without its turn failed, and says so to its route, exactly when the
  // folder could not be prepared or nothing could be connected to, and no canceller
  // finished it first. Else it is cancelled and says nothing; and it broke down unless
  // the application was closing or the folder was busy or dirty.
  lemma EndsWithoutItsTurn(es: seq<Event>)
    requires Run(es).Some? && Run(es).value.at.Over? && SlotTaken !in es
    ensures var w := Run(es).value;
            if BrokeDown(es) && !Before(es, EnderFinishes, Ends)
            then w.f.status == Failed && w.at.event == Some(Failure)
            else w.f.status == Cancelled && w.at.event == None
    ensures BrokeDown(es) <==> !WasPutOff(es)
    ensures Run(es).value.f.status == Cancelled <==> WasPutOff(es) || Before(es, EnderFinishes, Ends)
  {
    RunKeepsInv(es);
    var s := RunTells(es);
  }

  // A session over after its turn is cancelled, and says nothing, when the application
  // was closing by the time its outcome was looked at, or it was stopped in time. Else
  // it is cancelled when a canceller finished it in the turn, failed when the turn
  // ended in an error, and done otherwise; and what it says is its own verdict if it
  // gave one, else what it ended as.
  lemma EndsAfterItsTurn(es: seq<Event>)
    requires Run(es).Some? && Run(es).value.at.Over? && SlotTaken in es
    ensures var w := Run(es).value;
            if Before(es, AppCloses, LookRoot) || WasStopped(es)
            then w.f.status == Cancelled && w.at.event == None
            else
              && w.f.status == (if Between(es, SlotTaken, EnderFinishes, Finishes) then Cancelled
                                else if PromptEnds(true, false) in es then Failed else Done)
              && (forall v :: Reported(Some(v)) in es ==> w.at.event == Some(v))
              && ((forall v :: Reported(Some(v)) !in es) ==>
                    w.at.event == match w.f.status case Done => Some(Success) case Failed => Some(Failure) case _ => None)
  {
    RunKeepsInv(es);
    var s := RunTells(es);
  }

  // ---- what can happen next ----------------------------------------------------------------

  // A session that is not over can always go on: its turn waits for no event from outside.
  lemma RunnerGoesOn(w: World) returns (e: Event)
    requires !w.at.Over?
    ensures !FromOutside(e) && Step(w, e).Some?
  {
    match w.at
    case Begin => e := Root;
    case Preparing => e := Prepared(None);
    case Connecting => e := Connected(true);
    case WaitingForSlot => e := SlotTaken;
    case Prompting => e := PromptEnds(false, false);
    case CheckRoot(_) => e := LookRoot;
    case CheckCancelled(_) => e := LookCancelled;
    case Finishing(_, _) => e := Finishes;
    case Reporting => e := Reported(None);
    case Tail => e := TailLook;
    case Ending(_) => e := Ends;
    case Releasing => e := Released;
  }

  // A deadline that passes can mark the turn, a canceller with no turn to interrupt can
  // finish the session, and what the agent asks can be answered.
  lemma WhatIsBegunCanEnd(w: World)
    ensures Step(w, DeadlinePasses).Some? ==> Step(Step(w, DeadlinePasses).value, Marks).Some?
    ensures Step(w, Ask).Some? ==> Step(Step(w, Ask).value, Answered).Some?
    ensures !(w.f.hasTurn && w.f.status in {Running, WaitingPermission}) ==>
              Step(Step(w, CancelPressed).value, EnderFinishes).Some?
  {
    if !(w.f.hasTurn && w.f.status in {Running, WaitingPermission}) {
      EnderCanFollow(w);
    }
  }

  lemma EnderCanFollow(w: World)
    requires !(w.f.hasTurn && w.f.status in {Running, WaitingPermission})
    ensures Step(Step(w, CancelPressed).value, EnderFinishes).Some?
  {
  }
}
