/** The life of an agent session spoken to over the protocol: a runner goroutine,
    people cancelling it and the agent asking for permission share a few fields
    under one lock (internal/acp/session.go, manager.go, question.go). */
module Session {
  import opened Text

  datatype Status = Queued | Running | WaitingPermission | Done | Failed | Cancelled {
    predicate Terminal() {
      Done? || Failed? || Cancelled?
    }

    predicate Working() {
      Running? || WaitingPermission?
    }
  }

  // What a stage of a route moves on.
  datatype Trigger = Success | Failure | Blocked

  // ---- the sections under the session's lock --------------------------------------

  datatype Flags = Flags(
    status: Status,
    cancelSent: bool,
    cancelPending: bool,
    hasTurn: bool,                  // turnCancel is set
    outcome: Option<Trigger>)

  // CancelSessionForCard. The caller then cancels the turn's context or, with no
  // turn to interrupt, goes on to finish the session.
  function CancelSection(f: Flags): Flags {
    f.(cancelSent := true, cancelPending := !f.status.Working())
  }

  predicate InterruptsTurn(f: Flags) {
    f.hasTurn && f.status.Working()
  }

  // runTurn, once it has a slot: it does not look at the status it overwrites.
  function TurnSection(f: Flags): Flags {
    f.(status := Running, cancelSent := f.cancelPending, cancelPending := false, hasTurn := true)
  }

  function FinishSection(f: Flags, status: Status): Flags {
    if f.status.Terminal() then f else f.(status := status)
  }

  function SetStatusSection(f: Flags, status: Status): Flags {
    if f.status.Terminal() then f else f.(status := status)
  }

  // The event a finished session hands to its stage.
  function FlowOutcome(f: Flags): Option<Trigger> {
    if f.outcome.Some? then f.outcome
    else match f.status
      case Done => Some(Success)
      case Failed => Some(Failure)
      case _ => None
  }

  class AgentSession {
    var status: Status
    var cancelSent: bool
    var cancelPending: bool
    var hasTurn: bool
    var outcome: Option<Trigger>

    function View(): Flags
      reads this
    {
      Flags(status, cancelSent, cancelPending, hasTurn, outcome)
    }

    constructor ()
      ensures View() == Fresh()
    {
      status, cancelSent, cancelPending, hasTurn, outcome := Queued, false, false, false, None;
    }

    method Cancel() returns (interrupt: bool)
      modifies this
      ensures View() == CancelSection(old(View())) && interrupt == InterruptsTurn(old(View()))
      ensures cancelSent && (cancelPending <==> status != Running && status != WaitingPermission)
      ensures interrupt <==> hasTurn && (status == Running || status == WaitingPermission)
      ensures status == old(status) && hasTurn == old(hasTurn) && outcome == old(outcome)
    {
      cancelSent := true;
      var running := status == Running || status == WaitingPermission;
      cancelPending := !running;
      interrupt := hasTurn && running;
    }

    method BeginTurn() returns (pending: bool)
      modifies this
      ensures View() == TurnSection(old(View())) && pending == old(cancelPending)
      ensures status == Running && hasTurn && !cancelPending && cancelSent == pending && outcome == old(outcome)
    {
      hasTurn := true;
      pending := cancelPending;
      cancelPending := false;
      cancelSent := pending;
      status := Running;
    }

    method Finish(to: Status)
      modifies this`status
      ensures View() == FinishSection(old(View()), to)
      ensures status == if old(status) in {Done, Failed, Cancelled} then old(status) else to
    {
      if status.Terminal() {
        return;
      }
      status := to;
    }

    method SetStatus(to: Status)
      modifies this`status
      ensures View() == SetStatusSection(old(View()), to)
      ensures status == if old(status) in {Done, Failed, Cancelled} then old(status) else to
    {
      if status.Terminal() {
        return;
      }
      status := to;
    }

    method HandOver() returns (event: Option<Trigger>)
      ensures event == FlowOutcome(View())
      ensures event == None <==> outcome.None? && status != Done && status != Failed
      ensures outcome.Some? ==> event == outcome
      ensures event != None && outcome.None? ==> event == Some(if status == Done then Success else Failure)
    {
      if outcome.Some? {
        return outcome;
      }
      match status {
        case Done => return Some(Success);
        case Failed => return Some(Failure);
        case _ => return None;
      }
    }
  }

  function Fresh(): Flags {
    Flags(Queued, false, false, false, None)
  }

  // ---- the goroutines around them ---------------------------------------------------

  // Where the runner is. failed says the turn ended in an error.
  datatype At =
    | Begin
    | Preparing
    | Connecting
    | WaitingForSlot
    | Prompting
    | CheckRoot(failed: bool)          // commentFirstTurn: is the application closing?
    | CheckCancelled(failed: bool)     // was the session cancelled?
    | Finishing(to: Status, reports: bool)
    | Reporting                        // a deploy's record, a test's verdict
    | Tail                             // runCardTask: is the application closing?
    | Ending(to: Status)
    | Releasing
    | Over(event: Option<Trigger>)

  // One cancellation, as it found the session.
  datatype Cancellation = Cancellation(beforeTurn: bool, foundWorking: bool)

  datatype World = World(
    f: Flags,
    at: At,
    closing: bool,                     // the application's context is done
    enders: nat,                       // cancellers about to finish the session
    asks: nat,                         // permission questions being answered
    began: bool,                       // the turn's section has run
    marking: bool,                     // the turn's context is done, and its AfterFunc has yet to run
    // what happened, for stating what should follow
    cancels: seq<Cancellation>,        // sections that ran before the outcome was checked
    asked: bool,                       // the agent asked before its turn began
    stopped: bool,                     // the turn was marked stopped in time: a deadline, or the agent's own word
    heard: Option<bool>,               // what the outcome check read
    ended: bool,                       // a canceller finished the session in its turn, before the runner did
    failed: bool)                      // with an error from the turn

  datatype Event =
    | CancelPressed | EnderFinishes | Ask | Answered | DeadlinePasses | Marks | AppCloses
    | Root | Prepared(err: Option<Status>) | Connected(ok: bool) | SlotTaken | SlotRefused
    | PromptEnds(failed: bool, agentStopped: bool)
    | LookRoot | LookCancelled | Finishes | Reported(verdict: Option<Trigger>) | TailLook | Ends | Released

  function Initial(): World {
    World(Fresh(), Begin, false, 0, 0, false, false, [], false, false, None, false, false)
  }

  predicate Unchecked(w: World) {
    w.heard.None?
  }

  // The turn has begun, and the runner has not finished the session.
  predicate InItsTurn(w: World) {
    w.began && (w.at.Prompting? || w.at.CheckRoot? || w.at.CheckCancelled? || w.at.Finishing?)
  }

  function Step(w: World, e: Event): Option<World> {
    match e
    case CancelPressed =>
      var c := Cancellation(!w.began, w.f.status.Working());
      Some(w.(f := CancelSection(w.f),
              enders := if InterruptsTurn(w.f) then w.enders else w.enders + 1,
              cancels := if Unchecked(w) then w.cancels + [c] else w.cancels))
    case EnderFinishes =>
      if w.enders == 0 then None
      else Some(w.(f := FinishSection(w.f, Cancelled), enders := w.enders - 1, ended := w.ended || InItsTurn(w)))
    case Ask =>
      // The agent can ask from the moment there is a connection to ask over.
      if w.at != Connecting && w.at != WaitingForSlot && w.at != Prompting then None
      else Some(w.(f := SetStatusSection(w.f, WaitingPermission), asks := w.asks + 1, asked := w.asked || !w.began))
    case Answered =>
      if w.asks == 0 then None else Some(w.(f := SetStatusSection(w.f, Running), asks := w.asks - 1))
    case DeadlinePasses =>
      // The turn's context is done: its AfterFunc is started, and runs when it runs.
      if w.at != Prompting then None else Some(w.(marking := true))
    case Marks =>
      if !w.marking then None
      else Some(w.(f := w.f.(cancelSent := true), marking := false, stopped := w.stopped || Unchecked(w)))
    case AppCloses =>
      Some(w.(closing := true))
    case Root =>
      if w.at != Begin then None
      else Some(w.(at := if w.closing then Ending(Cancelled) else Preparing))
    case Prepared(err) =>
      if w.at != Preparing || (err.Some? && err.value != Cancelled && err.value != Failed) then None
      else Some(w.(at := if err.Some? then Ending(err.value) else Connecting))
    case Connected(ok) =>
      if w.at != Connecting then None
      else Some(w.(at := if ok then WaitingForSlot else Ending(Failed)))
    case SlotTaken =>
      if w.at != WaitingForSlot then None
      else Some(w.(f := TurnSection(w.f), at := Prompting, began := true))
    case SlotRefused =>
      if w.at != WaitingForSlot || !w.closing then None else Some(w.(at := CheckRoot(true)))
    case PromptEnds(failed, agentStopped) =>
      if w.at != Prompting || (failed && agentStopped) then None
      else Some(w.(f := if agentStopped then w.f.(cancelSent := true) else w.f,
                   stopped := w.stopped || agentStopped, at := CheckRoot(failed)))
    case LookRoot =>
      if !w.at.CheckRoot? then None
      else Some(w.(at := if w.closing then Tail else CheckCancelled(w.at.failed)))
    case LookCancelled =>
      if !w.at.CheckCancelled? then None
      else
        var to := if w.f.cancelSent then Cancelled else if w.at.failed then Failed else Done;
        Some(w.(at := Finishing(to, !w.f.cancelSent), heard := Some(w.f.cancelSent), failed := w.at.failed))
    case Finishes =>
      if !w.at.Finishing? then None
      else Some(w.(f := FinishSection(w.f, w.at.to), at := if w.at.reports then Reporting else Tail))
    case Reported(verdict) =>
      if w.at != Reporting then None
      else Some(w.(f := if verdict.Some? then w.f.(outcome := verdict) else w.f, at := Tail))
    case TailLook =>
      if w.at != Tail then None
      else Some(w.(at := if w.closing then Ending(Cancelled) else Releasing))
    case Ends =>
      if !w.at.Ending? then None else Some(w.(f := FinishSection(w.f, w.at.to), at := Releasing))
    case Released =>
      if w.at != Releasing then None else Some(w.(at := Over(FlowOutcome(w.f))))
  }

  function Run(es: seq<Event>): Option<World> {
    if es == [] then Some(Initial())
    else
      var before := Run(es[..|es| - 1]);
      if before.None? then None else Step(before.value, es[|es| - 1])
  }

  // The cancellations that count: one after the turn began always does, and of
  // those before it only the last, when it found the session not yet working.
  function CancelHeard(cs: seq<Cancellation>): bool {
    if cs == [] then false
    else
      var c := cs[|cs| - 1];
      !c.beforeTurn || !c.foundWorking
  }

  ghost predicate FlagsInv(w: World) {
    && (w.began <==> w.f.hasTurn)
    && (!w.began ==> w.heard.None? && !w.stopped && !w.marking)
    && (w.heard.None? && !w.began ==> w.f.cancelPending == CancelHeard(w.cancels))
    && (w.heard.None? && w.began ==> w.f.cancelSent == (CancelHeard(w.cancels) || w.stopped))
    && (w.heard.Some? ==> w.heard.value == (CancelHeard(w.cancels) || w.stopped))
    && (!w.began ==> forall c :: c in w.cancels ==> c.beforeTurn)
    && (!w.asked && !w.began ==> w.asks == 0 && !w.f.status.Working() && forall c :: c in w.cancels ==> !c.foundWorking)
    && (!w.asked ==> forall c :: c in w.cancels && c.beforeTurn ==> !c.foundWorking)
  }

  ghost predicate PlaceInv(w: World) {
    && (w.at.Begin? || w.at.Preparing? || w.at.Connecting? || w.at.WaitingForSlot? ==> !w.began && w.heard.None?)
    && (w.at.Prompting? || w.at.CheckCancelled? ==> w.began && w.heard.None?)
    && (w.at.CheckRoot? ==> w.heard.None? && (w.began || w.closing))
    && (w.at.Finishing? ==> w.heard == Some(!w.at.reports))
    && (w.at.Finishing? ==> w.at.to == (if w.heard.value then Cancelled else if w.failed then Failed else Done))
    && (w.at.Reporting? ==> w.heard == Some(false))
    && (w.at.Ending? ==> w.at.to == Cancelled || w.at.to == Failed)
    && (w.heard.None? || w.at.Finishing? ==> w.f.outcome.None?)
    && (w.heard.Some? ==> w.began)
  }

  ghost predicate EndInv(w: World) {
    && (w.heard != Some(false) || w.at.Finishing? ==> w.f.outcome.None?)
    && (w.heard.None? || w.at.Finishing? ==>
          w.at.Releasing? || w.at.Over? || w.f.status.Cancelled? || !w.f.status.Terminal())
    && ((w.heard.Some? && !w.at.Finishing?) || w.at.Releasing? || w.at.Over? ==> w.f.status.Terminal())
    && (w.heard == Some(true) || (w.heard.None? && w.began) ==> w.f.status.Terminal() ==> w.f.status == Cancelled)
    && (w.at.Tail? && w.heard.None? ==> w.closing)
    && (w.at.Ending? && (w.began || w.heard.Some?) ==> w.at.to == Cancelled)
    && (w.at.Over? ==> w.at.event == FlowOutcome(w.f))
  }

  // Nobody has cancelled the turn so far.
  ghost predicate QuietInv(w: World) {
    w.cancels == [] ==>
      && (w.heard.None? ==> w.enders == 0)
      && (w.heard.None? && w.began && !w.at.Releasing? && !w.at.Over? ==> w.f.status.Working())
      && (w.at.Finishing? ==> w.enders == 0 && w.f.status.Working())
      && (w.heard == Some(false) && !w.at.Finishing? ==> w.f.status == if w.failed then Failed else Done)
  }

  // Who finished the session first.
  ghost predicate EndedInv(w: World) {
    && (!w.began ==> !w.ended)
    && (InItsTurn(w) ==> (w.ended <==> w.f.status.Terminal()))
    && (w.heard == Some(false) && !w.at.Finishing? ==> w.f.status == EndStatus(w))
  }

  function EndStatus(w: World): Status {
    if w.ended then Cancelled else if w.failed then Failed else Done
  }

  ghost predicate Inv(w: World) {
    FlagsInv(w) && PlaceInv(w) && EndInv(w) && QuietInv(w) && EndedInv(w)
  }

  lemma {:induction false} HeardGrows(cs: seq<Cancellation>, c: Cancellation)
    ensures CancelHeard(cs + [c]) == (!c.beforeTurn || !c.foundWorking)
  {
  }

  // Everybody but the runner.
  predicate FromOutside(e: Event) {
    e.CancelPressed? || e.EnderFinishes? || e.Ask? || e.Answered? || e.DeadlinePasses? || e.Marks? || e.AppCloses?
  }

  // The runner once its turn is over.
  predicate FromTheEnd(e: Event) {
    e.LookCancelled? || e.Finishes? || e.Reported? || e.TailLook? || e.Ends? || e.Released?
  }

  lemma OthersKeepFlags(w: World, e: Event)
    requires FlagsInv(w) && PlaceInv(w) && Step(w, e).Some? && FromOutside(e)
    ensures FlagsInv(Step(w, e).value)
  {
    if e.CancelPressed? {
      HeardGrows(w.cancels, Cancellation(!w.began, w.f.status.Working()));
    }
  }

  lemma RunnerStartsKeepFlags(w: World, e: Event)
    requires FlagsInv(w) && PlaceInv(w) && Step(w, e).Some? && !FromOutside(e) && !FromTheEnd(e)
    ensures FlagsInv(Step(w, e).value)
  {
  }

  lemma CheckKeepsFlags(w: World, e: Event)
    requires FlagsInv(w) && PlaceInv(w) && Step(w, e).Some? && e.LookCancelled?
    ensures FlagsInv(Step(w, e).value)
  {
  }

  lemma RunnerEndsKeepFlags(w: World, e: Event)
    requires FlagsInv(w) && PlaceInv(w) && Step(w, e).Some? && FromTheEnd(e) && !e.LookCancelled?
    ensures FlagsInv(Step(w, e).value)
  {
  }

  lemma StepKeepsFlags(w: World, e: Event)
    requires FlagsInv(w) && PlaceInv(w) && Step(w, e).Some?
    ensures FlagsInv(Step(w, e).value)
  {
    if FromOutside(e) {
      OthersKeepFlags(w, e);
    } else if e.LookCancelled? {
      CheckKeepsFlags(w, e);
    } else if FromTheEnd(e) {
      RunnerEndsKeepFlags(w, e);
    } else {
      RunnerStartsKeepFlags(w, e);
    }
  }

  lemma OthersKeepPlace(w: World, e: Event)
    requires FlagsInv(w) && PlaceInv(w) && Step(w, e).Some? && FromOutside(e)
    ensures PlaceInv(Step(w, e).value)
  {
  }

  lemma RunnerStartsKeepPlace(w: World, e: Event)
    requires FlagsInv(w) && PlaceInv(w) && Step(w, e).Some? && !FromOutside(e) && !FromTheEnd(e)
    ensures PlaceInv(Step(w, e).value)
  {
  }

  lemma RunnerEndsKeepPlace(w: World, e: Event)
    requires FlagsInv(w) && PlaceInv(w) && Step(w, e).Some? && FromTheEnd(e)
    ensures PlaceInv(Step(w, e).value)
  {
  }

  lemma StepKeepsPlace(w: World, e: Event)
    requires FlagsInv(w) && PlaceInv(w) && Step(w, e).Some?
    ensures PlaceInv(Step(w, e).value)
  {
    if FromOutside(e) {
      OthersKeepPlace(w, e);
    } else if FromTheEnd(e) {
      RunnerEndsKeepPlace(w, e);
    } else {
      RunnerStartsKeepPlace(w, e);
    }
  }

  lemma OthersKeepEnd(w: World, e: Event)
    requires FlagsInv(w) && PlaceInv(w) && EndInv(w) && Step(w, e).Some? && FromOutside(e)
    ensures EndInv(Step(w, e).value)
  {
  }

  lemma RunnerStartsKeepEnd(w: World, e: Event)
    requires FlagsInv(w) && PlaceInv(w) && EndInv(w) && Step(w, e).Some? && !FromOutside(e) && !FromTheEnd(e)
    ensures EndInv(Step(w, e).value)
  {
  }

  lemma CheckKeepsEnd(w: World, e: Event)
    requires FlagsInv(w) && PlaceInv(w) && EndInv(w) && Step(w, e).Some? && (e.LookCancelled? || e.Finishes?)
    ensures EndInv(Step(w, e).value)
  {
  }

  lemma RunnerEndsKeepEnd(w: World, e: Event)
    requires FlagsInv(w) && PlaceInv(w) && EndInv(w) && Step(w, e).Some?
    requires FromTheEnd(e) && !e.LookCancelled? && !e.Finishes?
    ensures EndInv(Step(w, e).value)
  {
  }

  lemma StepKeepsEnd(w: World, e: Event)
    requires FlagsInv(w) && PlaceInv(w) && EndInv(w) && Step(w, e).Some?
    ensures EndInv(Step(w, e).value)
  {
    if FromOutside(e) {
      OthersKeepEnd(w, e);
    } else {
      if e.LookCancelled? || e.Finishes? {
        CheckKeepsEnd(w, e);
      } else if FromTheEnd(e) {
        RunnerEndsKeepEnd(w, e);
      } else {
        RunnerStartsKeepEnd(w, e);
      }
    }
  }

  lemma StepKeepsQuiet(w: World, e: Event)
    requires Inv(w) && Step(w, e).Some?
    ensures QuietInv(Step(w, e).value)
  {
  }

  lemma OthersKeepEnded(w: World, e: Event)
    requires PlaceInv(w) && EndInv(w) && EndedInv(w) && Step(w, e).Some? && FromOutside(e)
    ensures EndedInv(Step(w, e).value)
  {
  }

  lemma RunnerStartsKeepEnded(w: World, e: Event)
    requires PlaceInv(w) && EndInv(w) && EndedInv(w) && Step(w, e).Some? && !FromOutside(e) && !FromTheEnd(e)
    ensures EndedInv(Step(w, e).value)
  {
  }

  lemma CheckKeepsEnded(w: World, e: Event)
    requires PlaceInv(w) && EndInv(w) && EndedInv(w) && Step(w, e).Some? && (e.LookCancelled? || e.Finishes?)
    ensures EndedInv(Step(w, e).value)
  {
  }

  lemma RunnerEndsKeepEnded(w: World, e: Event)
    requires PlaceInv(w) && EndInv(w) && EndedInv(w) && Step(w, e).Some?
    requires FromTheEnd(e) && !e.LookCancelled? && !e.Finishes?
    ensures EndedInv(Step(w, e).value)
  {
  }

  lemma StepKeepsEnded(w: World, e: Event)
    requires PlaceInv(w) && EndInv(w) && EndedInv(w) && Step(w, e).Some?
    ensures EndedInv(Step(w, e).value)
  {
    if FromOutside(e) {
      OthersKeepEnded(w, e);
    } else if e.LookCancelled? || e.Finishes? {
      CheckKeepsEnded(w, e);
    } else if FromTheEnd(e) {
      RunnerEndsKeepEnded(w, e);
    } else {
      RunnerStartsKeepEnded(w, e);
    }
  }

  lemma {:induction false} RunKeepsInv(es: seq<Event>)
    requires Run(es).Some?
    ensures Inv(Run(es).value)
  {
    if es != [] {
      var front, e := es[..|es| - 1], es[|es| - 1];
      RunKeepsInv(front);
      var w := Run(front).value;
      StepKeepsFlags(w, e);
      StepKeepsPlace(w, e);
      StepKeepsEnd(w, e);
      StepKeepsQuiet(w, e);
      StepKeepsEnded(w, e);
    }
  }

  // ---- what follows --------------------------------------------------------------

  ghost predicate Reachable(w: World) {
    exists es :: Run(es) == Some(w)
  }

  lemma ReachableIsInv(w: World)
    requires Reachable(w)
    ensures Inv(w)
  {
    var es :| Run(es) == Some(w);
    RunKeepsInv(es);
  }

  // Over every interleaving, a session that got as far as its turn ends cancelled
  // and hands its route nothing when the application closed first or its
  // cancellation was heard; and it is heard exactly when the turn was stopped, or
  // a cancellation came after the turn began, or the last one before it found the
  // session not yet working.
  lemma HeardCancellationWins(w: World)
    requires Reachable(w) && w.at.Over? && w.began
    ensures w.heard.Some? ==> w.heard.value == (CancelHeard(w.cancels) || w.stopped)
    ensures w.heard != Some(false) ==> w.f.status == Cancelled && w.at.event == None
  {
    ReachableIsInv(w);
  }

  // An agent that asks for nothing before its turn cannot make a cancellation be
  // lost: if anybody cancelled before the outcome was checked, it holds.
  lemma CancellationHolds(w: World)
    requires Reachable(w) && w.at.Over? && w.began
    requires w.cancels != [] && !w.asked
    ensures w.f.status == Cancelled && w.at.event == None
  {
    ReachableIsInv(w);
    assert w.cancels[|w.cancels| - 1] in w.cancels;
  }

  // When the outcome check read no cancellation, the session is cancelled exactly when
  // a canceller finished it in its turn, before the runner did; else it ends as its
  // turn did. Either way its own verdict, if it gave one, goes to its route.
  lemma UnheardEndsByWhoeverWasFirst(w: World)
    requires Reachable(w) && w.at.Over? && w.heard == Some(false)
    ensures w.f.status == if w.ended then Cancelled else if w.failed then Failed else Done
    ensures w.at.event == if w.f.outcome.Some? then w.f.outcome
                          else if w.ended then None else Some(if w.failed then Failure else Success)
    ensures w.ended ==> w.asked && w.cancels != []
  {
    ReachableIsInv(w);
    if !w.asked {
      UnaskedIsHeard(w);
    }
  }

  lemma UnaskedIsHeard(w: World)
    requires FlagsInv(w) && !w.asked
    ensures w.cancels != [] ==> CancelHeard(w.cancels)
  {
    if w.cancels != [] {
      assert w.cancels[|w.cancels| - 1] in w.cancels;
    }
  }

  // And with no cancellation at all the session ends as its turn did.
  lemma UncancelledEndsAsItsTurnDid(w: World)
    requires Reachable(w) && w.at.Over?
    requires w.cancels == [] && w.heard == Some(false)
    ensures w.f.status == if w.failed then Failed else Done
    ensures w.at.event == if w.f.outcome.Some? then w.f.outcome else Some(if w.failed then Failure else Success)
  {
    ReachableIsInv(w);
  }

  // A cancellation can be lost. The agent asks for permission before its turn has
  // begun, which makes the session look as if it were working; the cancellation
  // then leaves nothing pending, and the turn starts by forgetting it was sent.
  lemma CancellationCanBeLost() returns (w: World)
    ensures Reachable(w) && w.cancels != [] && w.at == Over(Some(Success)) && w.f.status == Done
  {
    var before := LostByTheTurn();
    w := Extend(before, TailLook);
    w := Extend(w, Released);
  }

  // Up to the slot: asked for permission, cancelled, answered.
  lemma AskedWhileWaiting() returns (w: World)
    ensures Reachable(w)
    ensures w == Initial().(at := WaitingForSlot, f := SetStatusSection(Initial().f, WaitingPermission), asks := 1,
                            asked := true)
  {
    w := Initial();
    assert Run([]) == Some(w);
    w := Extend(w, Root);
    w := Extend(w, Prepared(None));
    w := Extend(w, Connected(true));
    w := Extend(w, Ask);
  }

  lemma LostBeforeTheTurn() returns (w: World)
    ensures Reachable(w)
    ensures w.at == WaitingForSlot && !w.closing && w.heard.None? && w.cancels != []
    ensures w.f == Flags(Cancelled, true, false, false, None)
  {
    w := AskedWhileWaiting();
    w := Extend(w, CancelPressed);
    w := Extend(w, EnderFinishes);
    w := Extend(w, Answered);
  }

  // Through the turn, to an outcome check that reads no cancellation.
  lemma LostAtTheCheck() returns (w: World)
    ensures Reachable(w)
    ensures w.at == Finishing(Done, true) && !w.closing && w.cancels != []
    ensures w.f.status == Running && w.f.outcome.None?
  {
    w := LostBeforeTheTurn();
    w := Extend(w, SlotTaken);
    w := Extend(w, PromptEnds(false, false));
    w := Extend(w, LookRoot);
    w := Extend(w, LookCancelled);
  }

  lemma LostByTheTurn() returns (w: World)
    ensures Reachable(w)
    ensures w.at == Tail && !w.closing && w.cancels != []
    ensures w.f.status == Done && w.f.outcome.None?
  {
    w := LostAtTheCheck();
    w := Extend(w, Finishes);
    w := Extend(w, Reported(None));
  }

  // And a session can end cancelled and send its card on all the same: the canceller
  // finishes it in its turn, and the turn's own verdict comes after.
  lemma CancelledAndMovedOn(verdict: Trigger) returns (w: World)
    ensures Reachable(w) && w.at == Over(Some(verdict)) && w.f.status == Cancelled && w.heard == Some(false)
  {
    w := EndedAndReported(verdict);
    w := Extend(w, TailLook);
    w := Extend(w, Released);
  }

  lemma EndedAndReported(verdict: Trigger) returns (w: World)
    ensures Reachable(w)
    ensures w.at == Tail && !w.closing && w.heard == Some(false)
    ensures w.f.status == Cancelled && w.f.outcome == Some(verdict)
  {
    w := EndedInItsTurn();
    w := Extend(w, Finishes);
    w := Extend(w, Reported(Some(verdict)));
  }

  lemma EndedInItsTurn() returns (w: World)
    ensures Reachable(w)
    ensures w.at == Finishing(Done, true) && !w.closing && w.heard == Some(false)
    ensures w.f.status == Cancelled && w.f.outcome.None?
  {
    w := CancelledWhileAsking();
    w := Extend(w, EnderFinishes);
    w := Extend(w, PromptEnds(false, false));
    w := Extend(w, LookRoot);
    w := Extend(w, LookCancelled);
  }

  lemma CancelledWhileAsking() returns (w: World)
    ensures Reachable(w)
    ensures w.at == Prompting && !w.closing && w.heard.None? && w.enders == 1 && !w.f.cancelSent
    ensures w.f.status == Running && w.f.outcome.None?
  {
    w := AskedWhileWaiting();
    w := Extend(w, CancelPressed);
    w := Extend(w, SlotTaken);
  }

  lemma Extend(w: World, e: Event) returns (w': World)
    requires Reachable(w) && Step(w, e).Some?
    ensures Step(w, e) == Some(w') && Reachable(w')
  {
    w' := Step(w, e).value;
    var es :| Run(es) == Some(w);
    assert (es + [e])[..|es|] == es;
    assert Run(es + [e]) == Some(w');
  }
}
