/** A question an agent put to the person whose card it works
    (internal/acp/question.go). */
module Questions {
  import opened Text
  import opened Rendezvous

  datatype Answer = Answer(optionID: string, text: string, declined: bool)

  const REFUSAL := Answer("", "", true)

  // What the asker returns once its select is over.
  function Reply(t: Talk<Answer>): Answer
    requires t.phase != Waiting
  {
    if t.phase.Took? then t.phase.value else REFUSAL
  }

  // Every section taken under questionsMu, and the sends and receives between
  // them. A question's id is its own (a fresh UUID), and names its channel.
  class Manager {
    var questions: set<string>              // ids in the table
    var talks: map<string, Talk<Answer>>    // every channel ever made

    ghost predicate Valid()
      reads this
    {
      forall id :: id in questions <==> id in talks && talks[id].registered
    }

    constructor ()
      ensures Valid() && talks == map[]
    {
      questions, talks := {}, map[];
    }

    method Register(id: string)
      requires Valid() && id !in talks
      modifies this
      ensures Valid() && talks == old(talks)[id := Opened()]
    {
      questions := questions + {id};
      talks := talks[id := Opened()];
    }

    // The first half of AnswerQuestion: is there such a question?
    method Find(id: string, who: nat) returns (found: bool)
      requires Valid() && id in talks && !Known(talks[id], who)
      modifies this`talks
      ensures Valid() && id in talks && found == (id in questions)
      ensures Some(talks[id]) == Step(old(talks[id]), LookUp(who))
      ensures talks == old(talks)[id := talks[id]]
    {
      found := id in questions;
      var t := talks[id];
      talks := talks[id := if found then t.(holders := t.holders + {who}) else t.(refused := t.refused + {who})];
    }

    // The second half: offer the answer to the channel, without waiting.
    method Offer(id: string, who: nat, ans: Answer) returns (ok: bool)
      requires Valid() && id in talks && who in talks[id].holders
      modifies this`talks
      ensures Valid() && id in talks && ok == old(talks[id]).buffer.None?
      ensures Some(talks[id]) == Step(old(talks[id]), Send(who, ans))
      ensures talks == old(talks)[id := talks[id]]
    {
      var t := talks[id];
      ok := t.buffer.None?;
      if ok {
        t := t.(buffer := Some(ans), accepted := t.accepted + [(who, ans)]);
      } else {
        t := t.(refused := t.refused + {who});
      }
      talks := talks[id := t.(holders := t.holders - {who})];
    }

    // The asker's select. withdrawn says its own context, or the application's,
    // is over; with an answer in the slot too, either may be taken (answerFirst).
    method Await(id: string, withdrawn: bool, answerFirst: bool) returns (answer: Answer)
      requires Valid() && id in talks && talks[id].phase == Waiting
      requires withdrawn || talks[id].buffer.Some?
      modifies this`talks
      ensures Valid() && id in talks && talks[id].phase != Waiting && answer == Reply(talks[id])
      ensures Some(talks[id]) == Step(old(talks[id]), Receive) || Some(talks[id]) == Step(old(talks[id]), Withdraw)
      ensures !withdrawn ==> talks[id].phase.Took?
      ensures old(talks[id]).buffer.None? ==> talks[id].phase.Withdrew?
      ensures talks == old(talks)[id := talks[id]]
    {
      var t := talks[id];
      if t.buffer.Some? && (!withdrawn || answerFirst) {
        answer := t.buffer.value;
        talks := talks[id := t.(phase := Took(answer), buffer := None)];
      } else {
        answer := REFUSAL;
        talks := talks[id := t.(phase := Withdrew)];
      }
    }

    method Forget(id: string)
      requires Valid() && id in questions && talks[id].phase != Waiting
      modifies this
      ensures Valid() && id in talks && id !in questions
      ensures Some(talks[id]) == Step(old(talks[id]), Event.Forget)
      ensures talks == old(talks)[id := talks[id]]
    {
      questions := questions - {id};
      talks := talks[id := talks[id].(registered := false)];
    }
  }

  // A question's whole life, once it has been taken off the table: exactly one
  // reply was acted on, the first answer anybody got accepted or a refusal, no
  // later step changes it, and nobody who starts answering now is accepted.
  lemma OneReply(es: seq<Event<Answer>>, later: seq<Event<Answer>>, who: nat)
    requires Run(Opened<Answer>(), es).Some?
    requires !Run(Opened<Answer>(), es).value.registered
    requires Run(Opened<Answer>(), es + later).Some?
    requires !Known(Run(Opened<Answer>(), es).value, who)
    ensures var t := Run(Opened<Answer>(), es).value;
            var u := Run(Opened<Answer>(), es + later).value;
            && t.phase != Waiting && u.phase != Waiting
            && Reply(u) == Reply(t)
            && (if t.phase.Took? then t.accepted != [] && Reply(t) == t.accepted[0].1 else Reply(t) == REFUSAL)
            && 0 <= Lost(u) <= 1
            && (forall i :: 0 <= i < |u.accepted| ==> u.accepted[i].0 != who)
            && (LookUp(who) in later ==> who in u.refused)
  {
    var t := Run(Opened<Answer>(), es).value;
    RunKeepsInv(es);
    FirstAcceptedWins(es);
    FirstAcceptedWins(es + later);
    RunSplits(Opened<Answer>(), es, later);
    DecidedOnce(t, later);
    LateCallerIsRefused(t, later, who);
  }
}
