/** One asker, any number of callers, and a channel of one slot between them: the
    shape both a question put to a person (question.go) and a stage's report
    (stageterminal.go) have. The asker's entry in a table is found by callers
    under a lock; the send, the receive and the removal are separate steps, so a
    caller may hold the channel after the entry is gone. */
module Rendezvous {
  import opened Text

  // What the asker's select came to.
  datatype Phase<T> = Waiting | Took(value: T) | Withdrew

  datatype Talk<T> = Talk(
    registered: bool,              // the entry is in the table
    phase: Phase<T>,
    buffer: Option<T>,             // the channel's slot
    holders: set<nat>,             // callers that found the entry and have not sent yet
    accepted: seq<(nat, T)>,       // sends that succeeded, in order
    refused: set<nat>)             // callers told their value was not wanted

  datatype Event<T> =
    | LookUp(who: nat)
    | Send(who: nat, value: T)
    | GiveUp(who: nat)             // found the entry, and never got as far as sending
    | Receive
    | Withdraw
    | Forget

  function Opened<T>(): Talk<T> {
    Talk(true, Waiting, None, {}, [], {})
  }

  predicate Known<T>(t: Talk<T>, who: nat) {
    who in t.holders || who in t.refused || exists i :: 0 <= i < |t.accepted| && t.accepted[i].0 == who
  }

  // One step, or None when it cannot happen. A select with several ready cases
  // takes any of them, so Withdraw is possible with the slot full.
  function Step<T>(t: Talk<T>, e: Event<T>): Option<Talk<T>> {
    match e
    case LookUp(who) =>
      if Known(t, who) then None
      else if t.registered then Some(t.(holders := t.holders + {who}))
      else Some(t.(refused := t.refused + {who}))
    case Send(who, value) =>
      if who !in t.holders then None
      else if t.buffer.None? then
        Some(t.(holders := t.holders - {who}, buffer := Some(value), accepted := t.accepted + [(who, value)]))
      else Some(t.(holders := t.holders - {who}, refused := t.refused + {who}))
    case GiveUp(who) =>
      if who in t.holders then Some(t.(holders := t.holders - {who}, refused := t.refused + {who})) else None
    case Receive =>
      if t.phase == Waiting && t.buffer.Some? then Some(t.(phase := Took(t.buffer.value), buffer := None)) else None
    case Withdraw =>
      if t.phase == Waiting then Some(t.(phase := Withdrew)) else None
    case Forget =>
      if t.phase != Waiting && t.registered then Some(t.(registered := false)) else None
  }

  function Run<T>(t: Talk<T>, es: seq<Event<T>>): Option<Talk<T>> {
    if es == [] then Some(t)
    else
      var before := Run(t, es[..|es| - 1]);
      if before.None? then None else Step(before.value, es[|es| - 1])
  }

  function Values<T>(accepted: seq<(nat, T)>): (values: seq<T>)
    ensures |values| == |accepted|
  {
    seq(|accepted|, i requires 0 <= i < |accepted| => accepted[i].1)
  }

  // Every accepted value is the one the asker took or the one still in the slot,
  // in that order.
  ghost predicate Inv<T>(t: Talk<T>) {
    && (t.registered || t.phase != Waiting)
    && Values(t.accepted) ==
       (if t.phase.Took? then [t.phase.value] else []) + (if t.buffer.Some? then [t.buffer.value] else [])
  }

  lemma StepKeepsInv<T>(t: Talk<T>, e: Event<T>)
    requires Inv(t) && Step(t, e).Some?
    ensures Inv(Step(t, e).value)
  {
    if e.Send? {
      assert Values(t.accepted + [(e.who, e.value)]) == Values(t.accepted) + [e.value];
    }
  }

  lemma {:induction false} RunKeepsInv<T>(es: seq<Event<T>>)
    requires Run(Opened<T>(), es).Some?
    ensures Inv(Run(Opened<T>(), es).value)
  {
    if es != [] {
      RunKeepsInv(es[..|es| - 1]);
      StepKeepsInv(Run(Opened<T>(), es[..|es| - 1]).value, es[|es| - 1]);
    }
  }

  function Lost<T>(t: Talk<T>): int {
    |t.accepted| - if t.phase.Took? then 1 else 0
  }

  // Over every interleaving: what the asker acts on is the first value anybody
  // got accepted, and at most one accepted value is never acted on.
  lemma FirstAcceptedWins<T>(es: seq<Event<T>>)
    requires Run(Opened<T>(), es).Some?
    ensures var t := Run(Opened<T>(), es).value;
            && (t.phase.Took? ==> t.accepted != [] && t.phase.value == t.accepted[0].1)
            && 0 <= Lost(t) <= 1
            && (Lost(t) == 1 <==> t.buffer.Some?)
  {
    var t := Run(Opened<T>(), es).value;
    RunKeepsInv(es);
    if t.phase.Took? {
      assert Values(t.accepted)[0] == t.phase.value;
    }
  }

  // A run in two halves.
  lemma {:induction false} RunSplits<T>(t: Talk<T>, es: seq<Event<T>>, fs: seq<Event<T>>)
    requires Run(t, es).Some?
    ensures Run(t, es + fs) == Run(Run(t, es).value, fs)
  {
    if fs == [] {
      assert es + fs == es;
    } else {
      var front := fs[..|fs| - 1];
      RunSplits(t, es, front);
      assert (es + fs)[..|es + fs| - 1] == es + front;
    }
  }

  // What was decided stays decided, and what was accepted stays accepted.
  lemma {:induction false} DecidedOnce<T>(t: Talk<T>, es: seq<Event<T>>)
    requires Run(t, es).Some?
    ensures var u := Run(t, es).value;
            && t.accepted <= u.accepted
            && (t.phase != Waiting ==> u.phase == t.phase)
            && (!t.registered ==> !u.registered)
  {
    if es != [] {
      DecidedOnce(t, es[..|es| - 1]);
    }
  }

  // A caller that begins once the entry is gone is refused, whatever happens next.
  lemma {:induction false} LateCallerIsRefused<T>(t: Talk<T>, es: seq<Event<T>>, who: nat)
    requires !t.registered && !Known(t, who) && Run(t, es).Some?
    ensures var u := Run(t, es).value;
            && !u.registered
            && who !in u.holders
            && (forall i :: 0 <= i < |u.accepted| ==> u.accepted[i].0 != who)
            && (LookUp(who) in es ==> who in u.refused)
  {
    if es != [] {
      var front := es[..|es| - 1];
      LateCallerIsRefused(t, front, who);
      assert es == front + [es[|es| - 1]];
    }
  }

  // The bound on what is lost is met: two callers find the entry, the asker takes
  // the first value, and the second send still succeeds.
  lemma OneCanBeLost<T>(first: T, second: T)
    ensures var es := [LookUp(0), LookUp(1), Send(0, first), Receive, Send(1, second), Forget];
            Run(Opened<T>(), es).Some? && Lost(Run(Opened<T>(), es).value) == 1
  {
    var es := [LookUp(0), LookUp(1), Send(0, first), Receive, Send(1, second), Forget];
    var t0 := Opened<T>();
    Unroll(t0, es, 5);
    Unroll(t0, es, 4);
    Unroll(t0, es, 3);
    Unroll(t0, es, 2);
    Unroll(t0, es, 1);
    Unroll(t0, es, 0);
    assert es[..6] == es && es[..0] == [];
  }

  lemma Unroll<T>(t: Talk<T>, es: seq<Event<T>>, n: nat)
    requires n < |es|
    ensures Run(t, es[..n + 1]) ==
            if Run(t, es[..n]).None? then None else Step(Run(t, es[..n]).value, es[n])
  {
    assert es[..n + 1][..n] == es[..n];
  }
}
