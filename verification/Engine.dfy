/** The route engine: what happens to one card when a person drags it, when its
    stage ends, when an event arrives, and when a stage will not start
    (internal/acp/flowengine.go, cardflow.go). One engine step at a time; claims
    of the idempotency window are kept for as long as the window lasts. */
module Engine {
  import opened Text
  import opened Flows
  import opened Routing

  datatype Position = Position(flowID: string, nodeID: string, visited: seq<string>)

  datatype Record = Record(flowID: string, from: string, to: string, on: string)

  // Why an automatic transition was taken: the route as it then was, and the card
  // as it was then read.
  datatype Reason = Reason(flow: Flow, asked: Asked)

  datatype StartResult = Started | Busy | Taken | FolderNotFree | Refused

  // The world's answers, by the moment they are asked for.
  datatype Env = Env(
    moves: nat -> bool,                          // the board moved the card
    cards: nat -> Option<map<string, string>>,   // the card, when it can be read
    starts: nat -> StartResult,
    columnAction: string -> string)              // what a column's own settings say to do

  type Key = (string, string)                    // a stage and an event

  // Every claim a cascade can make names an edge of some route.
  function Universe(flows: map<string, Flow>): set<Key> {
    set id, i | id in flows && 0 <= i < |flows[id].edges| :: (flows[id].edges[i].from, flows[id].edges[i].on)
  }

  ghost predicate RoutesOk(flows: map<string, Flow>) {
    forall id {:trigger RouteOk(flows, id)} :: id in flows ==> RouteOk(flows, id)
  }

  ghost predicate RouteOk(flows: map<string, Flow>, id: string)
    requires id in flows
  {
    flows[id].head.id == id && RouteInvariant(flows[id])
  }

  function NodeByColumn(nodes: seq<FlowNode>, column: string): (n: Option<FlowNode>)
    ensures n.Some? ==> n.value in nodes && EqualFold(n.value.column, Trim(column)) && Trim(column) != ""
    ensures n.None? ==> Trim(column) == "" || forall i :: 0 <= i < |nodes| ==> !EqualFold(nodes[i].column, Trim(column))
  {
    if nodes == [] || Trim(column) == "" then None
    else if EqualFold(nodes[0].column, Trim(column)) then Some(nodes[0])
    else NodeByColumn(nodes[1..], column)
  }

  // The stage an event leads a card to, if the card can be read and its route has
  // somewhere to send it.
  function Destination(flows: map<string, Flow>, p: Option<Position>, card: Option<map<string, string>>,
                       on: string, said: string): Option<FlowNode>
  {
    if p.None? || p.value.flowID !in flows || card.None? then None
    else
      var flow := flows[p.value.flowID];
      if Node(flow.nodes, p.value.nodeID).None? then None
      else
        var e := Choice(flow.edges, p.value.nodeID, on, Asked(card.value, said));
        if e.None? then None else Node(flow.nodes, e.value.to)
  }

  // ---- the journal --------------------------------------------------------------

  // A walk: each entry starts where the one before it ended, or starts afresh
  // because the card had left its route.
  predicate IsWalk(j: seq<Record>) {
    && (j != [] ==> j[0].from == "")
    && forall i :: 0 < i < |j| ==> j[i].from == j[i - 1].to || j[i].from == ""
  }

  // Every automatic entry is the transition its route chose, for the card as read.
  ghost predicate Explained(j: seq<Record>, why: seq<Option<Reason>>) {
    |why| == |j| && forall i {:trigger IsExplained(j, why, i)} :: 0 <= i < |j| ==> IsExplained(j, why, i)
  }

  ghost predicate IsExplained(j: seq<Record>, why: seq<Option<Reason>>, i: nat)
    requires i < |j| == |why|
  {
    j[i].on != "" ==> why[i].Some? && Follows(j[i], why[i].value)
  }

  lemma ExplainedOneMore(j: seq<Record>, why: seq<Option<Reason>>, r: Record, reason: Option<Reason>)
    requires Explained(j, why) && (r.on != "" ==> reason.Some? && Follows(r, reason.value))
    ensures Explained(j + [r], why + [reason])
  {
    forall i | 0 <= i < |j| + 1 ensures IsExplained(j + [r], why + [reason], i) {
      if i < |j| {
        assert IsExplained(j, why, i);
      }
    }
  }

  predicate Follows(r: Record, why: Reason) {
    var e := Choice(why.flow.edges, r.from, r.on, why.asked);
    why.flow.head.id == r.flowID && e.Some? && e.value.to == r.to
  }

  // The stages the journal left, from an entry on.
  function LeftSince(j: seq<Record>, k: nat): set<string> {
    set i | k <= i < |j| && j[i].from != "" :: j[i].from
  }

  // The card's position is where the journal ends, and what it carries of its
  // history is the stages left since it last came onto a route (entry trip).
  ghost predicate Located(p: Option<Position>, j: seq<Record>, trip: nat) {
    p.Some? ==>
      && trip < |j| && j[trip].from == ""
      && (forall i :: trip < i < |j| ==> j[i].from != "")
      && j[|j| - 1].to == p.value.nodeID && j[|j| - 1].flowID == p.value.flowID
      && (set v | v in p.value.visited) == LeftSince(j, trip)
      && forall a, b :: 0 <= a < b < |p.value.visited| ==> p.value.visited[a] != p.value.visited[b]
  }

  // enterNode's record of a card coming to a stage.
  function Arrive(p: Option<Position>, flowID: string, nodeID: string): Position {
    if p.None? then Position(flowID, nodeID, [])
    else
      var from, visited := p.value.nodeID, p.value.visited;
      Position(flowID, nodeID, if from != "" && from !in visited then visited + [from] else visited)
  }

  function ArrivalRecord(p: Option<Position>, flowID: string, nodeID: string, on: string): Record {
    Record(flowID, if p.Some? then p.value.nodeID else "", nodeID, on)
  }

  lemma ArrivalIsLocated(p: Option<Position>, j: seq<Record>, trip: nat, flowID: string, nodeID: string, on: string)
    requires IsWalk(j) && Located(p, j, trip) && (p.Some? ==> p.value.nodeID != "")
    ensures var j' := j + [ArrivalRecord(p, flowID, nodeID, on)];
            && IsWalk(j')
            && Located(Some(Arrive(p, flowID, nodeID)), j', if p.Some? then trip else |j|)
  {
    var r := ArrivalRecord(p, flowID, nodeID, on);
    var j' := j + [r];
    if p.Some? {
      LeftGrows(j, r, trip);
    } else {
      assert LeftSince(j', |j|) == {};
    }
  }

  lemma LeftGrows(j: seq<Record>, r: Record, k: nat)
    requires k <= |j| && r.from != ""
    ensures LeftSince(j + [r], k) == LeftSince(j, k) + {r.from}
  {
    var j' := j + [r];
    forall s | s in LeftSince(j, k) + {r.from} ensures s in LeftSince(j', k) {
      if s == r.from {
        assert j'[|j|].from == s;
      } else {
        var i :| k <= i < |j| && j[i].from != "" && j[i].from == s;
        assert j'[i].from == s;
      }
    }
  }

  // A chain of stages that would not start: each leaves by its failure edge, no
  // stage twice, and every step made a claim of its own.
  ghost predicate Cascaded(j: seq<Record>, from: nat, gained: set<Key>) {
    && (forall i :: from <= i < |j| ==> j[i].on == FAILURE && (j[i].from, FAILURE) in gained)
    && (forall i, k :: from <= i < k < |j| ==> j[i].from != j[k].from)
  }

  lemma CascadeGains(j: seq<Record>, from: nat, less: set<Key>, more: set<Key>)
    requires Cascaded(j, from, less) && less <= more
    ensures Cascaded(j, from, more)
  {
  }

  lemma CascadeStarts(j: seq<Record>, from: nat, gained: set<Key>, key: Key)
    requires Cascaded(j, from + 1, gained - {key}) && key in gained
    requires |j| > from ==> (j[from].from, j[from].on) == key && j[from].on == FAILURE
    ensures Cascaded(j, from, gained)
  {
    forall i, k | from <= i < k < |j| ensures j[i].from != j[k].from {
      if i == from {
        assert j[k].on == FAILURE && (j[k].from, FAILURE) != key;
      }
    }
  }

  // Everything that is true of a card's history between engine steps.
  ghost predicate HistoryOk(flows: map<string, Flow>, p: Option<Position>, j: seq<Record>,
                            why: seq<Option<Reason>>, trip: nat)
  {
    && RoutesOk(flows)
    && IsWalk(j) && Explained(j, why)
    && Located(p, j, trip)
    && (p.Some? ==> p.value.nodeID != "")
  }

  // So a cascade is never longer than the claims that were still to be made.
  lemma {:induction false} CascadeIsBounded(j: seq<Record>, from: nat, gained: set<Key>)
    requires Cascaded(j, from, gained) && from <= |j|
    ensures |j| - from <= |gained|
    decreases |j| - from
  {
    if from < |j| {
      var key := (j[from].from, FAILURE);
      CascadeIsBounded(j, from + 1, gained - {key});
    }
  }

  // ---- what a step leaves --------------------------------------------------------------

  predicate IsStageOf(flow: Flow, node: string) {
    exists k :: 0 <= k < |flow.nodes| && flow.nodes[k].id == node
  }

  // Nothing says why an event leads nowhere: the card is off any route, or cannot be
  // read, or nobody waits to hear of such an event.
  predicate KeepsQuiet(env: Env, flows: map<string, Flow>, p: Option<Position>, at: nat, on: string) {
    || p.None? || p.value.flowID !in flows
    || (var flow := flows[p.value.flowID];
        && IsStageOf(flow, p.value.nodeID)
        && if HasEdge(flow.edges, p.value.nodeID, on) then env.cards(at).None? || IsVCSTrigger(on)
           else IsVCSTrigger(on) || on == "card.changed")
  }

  // The card stands where its journal ends.
  predicate StandsAtTheEnd(p: Option<Position>, j: seq<Record>) {
    p.Some? && j != [] && p.value.nodeID == j[|j| - 1].to && p.value.flowID == j[|j| - 1].flowID
  }

  // The place a card has come to: the stage of the route, with the one it left, if it
  // left one, among those it has been through.
  predicate HasComeTo(was: Option<Position>, now: Option<Position>, flowID: string, nodeID: string) {
    && now.Some? && now.value.flowID == flowID && now.value.nodeID == nodeID
    && (was.None? ==> now.value.visited == [])
    && (was.Some? ==>
          now.value.visited == was.value.visited +
            (if was.value.nodeID == "" || was.value.nodeID in was.value.visited then [] else [was.value.nodeID]))
  }

  lemma ArrivalIsComing(was: Option<Position>, flowID: string, nodeID: string)
    ensures HasComeTo(was, Some(Arrive(was, flowID, nodeID)), flowID, nodeID)
  {
  }

  // What a stage's start, asked for then, leaves of why the card is stuck and whether it
  // waits for a place.
  predicate IsStarted(env: Env, stalled: Option<string>, queued: bool, node: FlowNode, at: nat, wasQueued: bool) {
    var action := if node.action != "" then node.action else env.columnAction(node.optionID);
    if action in {"agent", "deploy", "test"} then
      && (queued <==> wasQueued || env.starts(at) == Busy)
      && (stalled.None? <==> env.starts(at) == Started || env.starts(at) == Busy)
      && (env.starts(at) == Taken || env.starts(at) == FolderNotFree ==> stalled == Some(node.id))
    else stalled.None? && queued == wasQueued
  }

  // Where an event that arrives at this moment would send the card.
  function Leads(env: Env, flows: map<string, Flow>, p: Option<Position>, at: nat, on: string, said: string): Option<string> {
    var next := Destination(flows, p, env.cards(at), on, said);
    if next.None? then None else Some(next.value.id)
  }

  // And whether it moves the card on.
  predicate WouldAdvance(env: Env, flows: map<string, Flow>, p: Option<Position>, claimed: set<Key>, at: nat,
                         on: string, said: string)
  {
    Leads(env, flows, p, at, on, said).Some? && p.Some? && (p.value.nodeID, on) !in claimed && env.moves(at + 1)
  }

  // Where the card is stuck after an event that did not move it: on the stage the
  // board would not move it to; else where it was stuck, else on its own, if anybody
  // waits to hear of such an event.
  function StuckOn(env: Env, flows: map<string, Flow>, p: Option<Position>, claimed: set<Key>, stalled: Option<string>,
                   at: nat, on: string, said: string): Option<string>
  {
    var next := Leads(env, flows, p, at, on, said);
    if next.Some? then
      if p.Some? && (p.value.nodeID, on) in claimed then stalled else next
    else if KeepsQuiet(env, flows, p, at, on) || stalled.Some? || p.None? then stalled
    else Some(p.value.nodeID)
  }

  // The journal grew from the stage the card was on, on a claim of its own, and
  // whatever followed was a cascade of further failures.
  ghost predicate HasLeft(j: seq<Record>, from: Option<Position>, at: nat, on: string, gained: set<Key>) {
    && from.Some? && at < |j| && j[at].from == from.value.nodeID && j[at].on == on
    && (from.value.nodeID, on) in gained
    && Cascaded(j, at + 1, gained - {(from.value.nodeID, on)})
  }

  // The stage the card has come to in the end was started, or runs nothing.
  ghost predicate LastIsStarted(env: Env, flows: map<string, Flow>, p: Option<Position>, stalled: Option<string>, queued: bool,
                                since: nat, wasQueued: bool)
  {
    p.Some? && p.value.flowID in flows &&
    exists node: FlowNode, at {:trigger IsStarted(env, stalled, queued, node, at, wasQueued)} ::
      && node in flows[p.value.flowID].nodes && node.id == p.value.nodeID && since <= at
      && IsStarted(env, stalled, queued, node, at, wasQueued)
  }

  lemma StillLast(env: Env, flows: map<string, Flow>, p: Option<Position>, stalled: Option<string>, queued: bool,
                  since: nat, before: nat, wasQueued: bool)
    requires LastIsStarted(env, flows, p, stalled, queued, since, wasQueued) && before <= since
    ensures LastIsStarted(env, flows, p, stalled, queued, before, wasQueued)
  {
    var node: FlowNode, at :|
      && node in flows[p.value.flowID].nodes && node.id == p.value.nodeID && since <= at
      && IsStarted(env, stalled, queued, node, at, wasQueued);
  }

  lemma ItsOwnIsLast(env: Env, flows: map<string, Flow>, p: Option<Position>, stalled: Option<string>, queued: bool,
                     node: FlowNode, at: nat, since: nat, wasQueued: bool)
    requires p.Some? && p.value.flowID in flows && node in flows[p.value.flowID].nodes && node.id == p.value.nodeID
    requires since <= at && IsStarted(env, stalled, queued, node, at, wasQueued)
    ensures LastIsStarted(env, flows, p, stalled, queued, since, wasQueued)
  {
  }

  // ---- the card on its route -------------------------------------------------------

  class CardRoute {
    const env: Env
    var flows: map<string, Flow>
    var tick: nat
    var position: Option<Position>
    var journal: seq<Record>
    var claimed: set<Key>          // unexpired claims
    var stalled: Option<string>    // the stage the card is stuck on, when the machinery knows
    var queued: bool               // waiting for a place in its column
    ghost var why: seq<Option<Reason>>
    ghost var trip: nat

    ghost predicate Valid()
      reads this
    {
      HistoryOk(flows, position, journal, why, trip)
    }

    constructor (env: Env, flows: map<string, Flow>)
      requires RoutesOk(flows)
      ensures Valid() && this.flows == flows && position.None? && journal == [] && claimed == {}
    {
      this.env, this.flows := env, flows;
      tick, position, journal, claimed, stalled, queued := 0, None, [], {}, None, false;
      why, trip := [], 0;
    }

    // The card is now on this stage: move it if the engine is what advances it,
    // remember the place, write it down, and run the stage.
    method EnterNode(flow: Flow, node: FlowNode, move: bool, on: string, ghost asked: Asked)
      requires Valid() && flow.head.id in flows && flows[flow.head.id] == flow && node in flow.nodes
      requires on != "" ==> position.Some? && Follows(ArrivalRecord(position, flow.head.id, node.id, on), Reason(flow, asked))
      modifies this
      ensures Valid() && flows == old(flows) && old(journal) <= journal
      ensures old(claimed) <= claimed <= old(claimed) + Universe(flows)
      ensures |journal| > |old(journal)| <==> !move || env.moves(old(tick))
      ensures |journal| == |old(journal)| ==> position == old(position) && stalled == Some(node.id)
      ensures |journal| == |old(journal)| ==> queued == old(queued)
      ensures |journal| > |old(journal)| ==>
                && journal[|old(journal)|] == ArrivalRecord(old(position), flow.head.id, node.id, on)
                && StandsAtTheEnd(position, journal) && LastIsStarted(env, flows, position, stalled, queued, old(tick), old(queued))
      ensures |journal| == |old(journal)| + 1 ==> HasComeTo(old(position), position, flow.head.id, node.id)
      ensures Cascaded(journal, |old(journal)| + 1, claimed - old(claimed))
      ensures tick >= old(tick)
      decreases Universe(flows) - claimed, 4
    {
      if move {
        var moved := env.moves(tick);
        tick := tick + 1;
        if !moved {
          stalled := Some(node.id);
          return;
        }
      }
      TakeUp(flow, node, on, asked);
    }

    // The rest of it, once the card is there.
    method TakeUp(flow: Flow, node: FlowNode, on: string, ghost asked: Asked)
      requires Valid() && flow.head.id in flows && flows[flow.head.id] == flow && node in flow.nodes
      requires on != "" ==> position.Some? && Follows(ArrivalRecord(position, flow.head.id, node.id, on), Reason(flow, asked))
      modifies this
      ensures Valid() && flows == old(flows) && old(journal) <= journal && |journal| > |old(journal)|
      ensures old(claimed) <= claimed <= old(claimed) + Universe(flows)
      ensures journal[|old(journal)|] == ArrivalRecord(old(position), flow.head.id, node.id, on)
      ensures StandsAtTheEnd(position, journal) && LastIsStarted(env, flows, position, stalled, queued, old(tick), old(queued))
      ensures |journal| == |old(journal)| + 1 ==> HasComeTo(old(position), position, flow.head.id, node.id)
      ensures Cascaded(journal, |old(journal)| + 1, claimed - old(claimed))
      ensures tick >= old(tick)
      decreases Universe(flows) - claimed, 3
    {
      Arrived(flow, node, on, asked);
      RunNodeAction(flow, node);
    }

    // Remember the place, and say why.
    method Arrived(flow: Flow, node: FlowNode, on: string, ghost asked: Asked)
      requires Valid() && flow.head.id in flows && flows[flow.head.id] == flow && node in flow.nodes
      requires on != "" ==> position.Some? && Follows(ArrivalRecord(position, flow.head.id, node.id, on), Reason(flow, asked))
      modifies this`position, this`journal, this`why, this`trip, this`stalled
      ensures Valid() && position == Some(Arrive(old(position), flow.head.id, node.id)) && stalled.None?
      ensures flows == old(flows) && claimed == old(claimed) && tick == old(tick) && queued == old(queued)
      ensures journal == old(journal) + [ArrivalRecord(old(position), flow.head.id, node.id, on)]
      ensures HasComeTo(old(position), position, flow.head.id, node.id)
    {
      ArrivalIsComing(position, flow.head.id, node.id);
      ArrivalIsLocated(position, journal, trip, flow.head.id, node.id, on);
      assert RouteOk(flows, flow.head.id);
      StageIsNamed(flow, node);
      ExplainedOneMore(journal, why, ArrivalRecord(position, flow.head.id, node.id, on),
                       if on != "" then Some(Reason(flow, asked)) else None);
      var arrival := Arrive(position, flow.head.id, node.id);
      why := why + [if on != "" then Some(Reason(flow, asked)) else None];
      trip := if position.Some? then trip else |journal|;
      journal := journal + [ArrivalRecord(position, flow.head.id, node.id, on)];
      position := Some(arrival);
      stalled := None;
    }

    // The stage's own action, else its column's.
    predicate Runs(node: FlowNode) {
      var action := if node.action != "" then node.action else env.columnAction(node.optionID);
      action == "agent" || action == "deploy" || action == "test"
    }

    // Start whatever the stage does. One that cannot start counts as failed.
    method RunNodeAction(flow: Flow, node: FlowNode)
      requires Valid() && flow.head.id in flows && flows[flow.head.id] == flow && node in flow.nodes
      requires StandsAtTheEnd(position, journal) && position.value.flowID == flow.head.id && position.value.nodeID == node.id
      requires stalled.None?
      modifies this
      ensures Valid() && flows == old(flows) && old(journal) <= journal
      ensures StandsAtTheEnd(position, journal) && LastIsStarted(env, flows, position, stalled, queued, old(tick), old(queued))
      ensures old(claimed) <= claimed <= old(claimed) + Universe(flows)
      ensures Cascaded(journal, |old(journal)|, claimed - old(claimed))
      ensures |journal| > |old(journal)| <==>
                Runs(node) && env.starts(old(tick)) == Refused && old(WouldAdvance(env, flows, position, claimed, tick + 1, FAILURE, ""))
      ensures |journal| == |old(journal)| ==> position == old(position)
      ensures |journal| == |old(journal)| ==> IsStarted(env, stalled, queued, node, old(tick), old(queued))
      ensures tick >= old(tick)
      decreases Universe(flows) - claimed, 2
    {
      var refused := StartStage(node);
      if refused {
        ghost var asked := tick;
        AdvanceFlow(FAILURE, "");
        if |journal| > |old(journal)| {
          CascadeStarts(journal, |old(journal)|, claimed - old(claimed), (journal[|old(journal)|].from, FAILURE));
          StillLast(env, flows, position, stalled, queued, asked, old(tick), old(queued));
        } else {
          ItsOwnIsLast(env, flows, position, stalled, queued, node, old(tick), old(tick), old(queued));
        }
      } else {
        ItsOwnIsLast(env, flows, position, stalled, queued, node, old(tick), old(tick), old(queued));
      }
    }

    // The part of it that asks for a session.
    method StartStage(node: FlowNode) returns (refused: bool)
      modifies this`tick, this`stalled, this`queued
      ensures refused == (Runs(node) && env.starts(old(tick)) == Refused)
      ensures if !Runs(node) then stalled == old(stalled) && queued == old(queued) && tick == old(tick)
              else
                var result := env.starts(old(tick));
                && tick == old(tick) + 1
                && queued == (old(queued) || result == Busy)
                && stalled == (if result in {Started, Busy} then None else Some(node.id))
    {
      if !Runs(node) {
        return false;
      }
      var result := env.starts(tick);
      tick := tick + 1;
      match result {
        case Started =>
          stalled := None;
        case Busy =>
          queued := true;
          stalled := None;
        case _ =>
          stalled := Some(node.id);
      }
      return result == Refused;
    }

    // Move the card along the edge an event matches, if it matches one.
    method AdvanceFlow(on: string, said: string)
      requires Valid() && on != ""
      modifies this
      ensures Valid() && flows == old(flows) && old(journal) <= journal
      ensures old(claimed) <= claimed <= old(claimed) + Universe(flows)
      ensures |journal| > |old(journal)| <==> old(WouldAdvance(env, flows, position, claimed, tick, on, said))
      ensures |journal| == |old(journal)| ==> position == old(position)
      ensures |journal| > |old(journal)| ==>
                && Some(journal[|old(journal)|].to) == old(Leads(env, flows, position, tick, on, said))
                && HasLeft(journal, old(position), |old(journal)|, on, claimed - old(claimed))
                && StandsAtTheEnd(position, journal) && LastIsStarted(env, flows, position, stalled, queued, old(tick), old(queued))
      ensures |journal| == |old(journal)| + 1 ==>
                HasComeTo(old(position), position, old(position).value.flowID, journal[|old(journal)|].to)
      ensures |journal| == |old(journal)| ==> queued == old(queued) && stalled == old(StuckOn(env, flows, position, claimed, stalled, tick, on, said))
      ensures tick >= old(tick)
      decreases Universe(flows) - claimed, 1
    {
      var flow, next, asked := Decide(on, said);
      if next.Some? {
        MoveOn(flow, next.value, on, asked);
      }
    }

    // One event moves a card once: the transition is claimed before it is made.
    method MoveOn(flow: Flow, next: FlowNode, on: string, ghost asked: Asked)
      requires Valid() && on != "" && position.Some?
      requires flow.head.id in flows && flows[flow.head.id] == flow && next in flow.nodes
      requires HasEdge(flow.edges, position.value.nodeID, on)
      requires Follows(ArrivalRecord(position, flow.head.id, next.id, on), Reason(flow, asked))
      modifies this
      ensures Valid() && flows == old(flows) && old(journal) <= journal
      ensures old(claimed) <= claimed <= old(claimed) + Universe(flows)
      ensures |journal| > |old(journal)| <==> (old(position).value.nodeID, on) !in old(claimed) && env.moves(old(tick))
      ensures |journal| == |old(journal)| ==> position == old(position)
      ensures |journal| > |old(journal)| ==>
                && journal[|old(journal)|].to == next.id && HasLeft(journal, old(position), |old(journal)|, on, claimed - old(claimed))
                && StandsAtTheEnd(position, journal) && LastIsStarted(env, flows, position, stalled, queued, old(tick), old(queued))
      ensures |journal| == |old(journal)| + 1 ==> HasComeTo(old(position), position, flow.head.id, next.id)
      ensures |journal| == |old(journal)| ==>
                && queued == old(queued)
                && stalled == if (old(position).value.nodeID, on) in old(claimed) then old(stalled) else Some(next.id)
      ensures tick >= old(tick)
      decreases Universe(flows) - claimed, 0
    {
      var key: Key := (position.value.nodeID, on);
      if key in claimed {
        return;
      }
      KeyIsInUniverse(flows, flow, position.value.nodeID, on);
      claimed := claimed + {key};
      ghost var after := claimed;
      EnterNode(flow, next, true, on, asked);
      CascadeGains(journal, |old(journal)| + 1, claimed - after, claimed - old(claimed) - {key});
    }

    // Which stage the event leads to: the card is read before the edge is chosen.
    method Decide(on: string, said: string) returns (flow: Flow, next: Option<FlowNode>, asked: Asked)
      requires Valid() && on != ""
      modifies this`tick, this`stalled
      ensures Valid() && tick >= old(tick)
      ensures stalled == if next.Some? || old(KeepsQuiet(env, flows, position, tick, on)) || old(stalled).Some? then old(stalled)
                         else Some(position.value.nodeID)
      ensures next == Destination(flows, position, env.cards(old(tick)), on, said)
      ensures next.Some? ==> tick == old(tick) + 1
      ensures next.Some? ==>
                && position.Some? && position.value.flowID in flows && flows[position.value.flowID] == flow
                && flow.head.id == position.value.flowID
                && HasEdge(flow.edges, position.value.nodeID, on)
                && next.value in flow.nodes
                && Follows(ArrivalRecord(position, flow.head.id, next.value.id, on), Reason(flow, asked))
    {
      asked, next := Asked(map[], said), None;
      var listens;
      flow, listens := Listen(on);
      if !listens {
        DestinationNeedsAnEdge(flows, position, env.cards(tick), on, said);
        return;
      }
      var props := env.cards(tick);
      tick := tick + 1;
      if props.None? {
        return;
      }
      asked := Asked(props.value, said);
      assert RouteOk(flows, position.value.flowID);
      next := Chosen(flow, position.value.nodeID, on, asked);
      if next.None? && !IsVCSTrigger(on) {
        StallSoftly(position.value.nodeID);
      }
    }

    // The stage the route answers with.
    method Chosen(flow: Flow, node: string, on: string, asked: Asked) returns (next: Option<FlowNode>)
      ensures next == var e := Choice(flow.edges, node, on, asked); if e.None? then None else Node(flow.nodes, e.value.to)
      ensures next.Some? ==>
                next.value in flow.nodes && Follows(Record(flow.head.id, node, next.value.id, on), Reason(flow, asked))
    {
      ChoiceIsAnEdge(flow, node, on, asked);
      var cond;
      next, cond := Next(flow, node, on, asked);
    }

    // Whether the card's stage is there and has a transition for the event.
    method Listen(on: string) returns (flow: Flow, listens: bool)
      requires Valid()
      modifies this`stalled
      ensures Valid()
      ensures listens <==>
                && position.Some? && position.value.flowID in flows && IsStageOf(flows[position.value.flowID], position.value.nodeID)
                && HasEdge(flows[position.value.flowID].edges, position.value.nodeID, on)
      ensures listens ==> flow == flows[position.value.flowID] && stalled == old(stalled)
      ensures !listens ==>
                stalled == if old(KeepsQuiet(env, flows, position, tick, on)) || old(stalled).Some? then old(stalled)
                           else Some(position.value.nodeID)
    {
      flow, listens := Flow(FlowHead("", "", "", "", "", ""), [], []), false;
      if position.None? || position.value.flowID !in flows {
        return;
      }
      flow := flows[position.value.flowID];
      var node := Node(flow.nodes, position.value.nodeID);
      if node.None? {
        StallSoftly(position.value.nodeID);
        return;
      }
      listens := FindEdge(flow, node.value.id, on);
      if !listens && !IsVCSTrigger(on) && on != CARD_CHANGED {
        StallSoftly(node.value.id);
      }
    }

    // A reason already there is kept.
    method StallSoftly(node: string)
      modifies this`stalled
      ensures stalled == if old(stalled).Some? then old(stalled) else Some(node)
    {
      if stalled.None? {
        stalled := Some(node);
      }
    }

    // handleFlowMove: a person dragged the card. flow is the route the card
    // resolves to, onRoute whether the property that changed is the route's own,
    // first whether this drag has not been seen already.
    method HandleFlowMove(flow: Option<Flow>, onRoute: bool, to: string, from: string, first: bool) returns (handled: bool)
      requires Valid()
      requires flow.Some? ==> flow.value.head.id in flows && flows[flow.value.head.id] == flow.value
      modifies this
      ensures Valid() && flows == old(flows) && old(journal) <= journal
      ensures handled == (flow.Some? && onRoute)
      ensures !handled ==> position == old(position) && journal == old(journal)
      ensures handled && NodeByColumn(flow.value.nodes, to).None? ==>
                && journal == old(journal)
                && position == (if NodeByColumn(flow.value.nodes, from).Some? then None else old(position))
      ensures handled && first && NodeByColumn(flow.value.nodes, to).Some? ==>
                && |journal| > |old(journal)|
                && journal[|old(journal)|] ==
                   ArrivalRecord(old(position), flow.value.head.id, NodeByColumn(flow.value.nodes, to).value.id, "")
                && StandsAtTheEnd(position, journal) && LastIsStarted(env, flows, position, stalled, queued, old(tick), old(queued))
      ensures |journal| == |old(journal)| + 1 ==>
                HasComeTo(old(position), position, flow.value.head.id, journal[|old(journal)|].to)
      ensures position.None? && old(position).Some? ==>
                && handled && journal == old(journal) && NodeByColumn(flow.value.nodes, to).None?
                && NodeByColumn(flow.value.nodes, from).Some? && stalled.None?
      ensures |journal| == |old(journal)| ==>
                && queued == old(queued)
                && (position == old(position) && (!handled || NodeByColumn(flow.value.nodes, to).Some?) ==> stalled == old(stalled))
      ensures handled && NodeByColumn(flow.value.nodes, to).None? && NodeByColumn(flow.value.nodes, from).None? ==>
                stalled == old(stalled)
      ensures handled && !first && NodeByColumn(flow.value.nodes, to).Some? ==>
                position == old(position) && journal == old(journal)
    {
      if flow.None? || !onRoute {
        return false;
      }
      var node := NodeByColumn(flow.value.nodes, to);
      if node.None? {
        if NodeByColumn(flow.value.nodes, from).Some? {
          position := None;
          stalled := None;
        }
        return true;
      }
      if !first {
        return true;
      }
      EnterNode(flow.value, node.value, false, "", Asked(map[], ""));
      return true;
    }

    // handleCardChanged: an option chosen on the card, when its stage waits for
    // that property.
    method HandleCardChanged(property: string, value: string) returns (handled: bool)
      requires Valid()
      modifies this
      ensures Valid() && old(journal) <= journal
      ensures handled <==> value != "" && WaitsForProperty(old(position), old(flows), property)
      ensures !handled ==> position == old(position) && journal == old(journal)
      ensures handled ==>
                && (|journal| > |old(journal)| <==> old(WouldAdvance(env, flows, position, claimed, tick, CARD_CHANGED, "")))
                && (|journal| == |old(journal)| ==> position == old(position))
                && (|journal| > |old(journal)| ==>
                      && Some(journal[|old(journal)|].to) == old(Leads(env, flows, position, tick, CARD_CHANGED, ""))
                      && HasLeft(journal, old(position), |old(journal)|, CARD_CHANGED, claimed - old(claimed))
                      && StandsAtTheEnd(position, journal) && LastIsStarted(env, flows, position, stalled, queued, old(tick), old(queued)))
                && (|journal| == |old(journal)| + 1 ==>
                      HasComeTo(old(position), position, old(position).value.flowID, journal[|old(journal)|].to))
                && (|journal| == |old(journal)| ==>
                      queued == old(queued) && stalled == old(StuckOn(env, flows, position, claimed, stalled, tick, CARD_CHANGED, "")))
      ensures !handled ==> queued == old(queued) && stalled == old(stalled)
      ensures old(position).Some? ==> position.Some?
    {
      if value == "" || position.None? || position.value.flowID !in flows {
        return false;
      }
      var es := flows[position.value.flowID].edges;
      var watched := false;
      for i := 0 to |es|
        invariant watched == exists k :: 0 <= k < i && AsksAbout(es[k], position.value.nodeID, property)
      {
        var e := es[i];
        if e.from == position.value.nodeID && e.on == CARD_CHANGED && e.cond.Some? && EqualFold(e.cond.value.property, property) {
          watched := true;
          break;
        }
      }
      if !watched {
        return false;
      }
      AdvanceFlow(CARD_CHANGED, "");
      return true;
    }

    // Between engine steps: the registry is edited, claims expire.
    method Meanwhile(flows': map<string, Flow>, kept: set<Key>)
      requires Valid() && RoutesOk(flows') && kept <= claimed
      modifies this`flows, this`claimed
      ensures Valid() && flows == flows' && claimed == kept
    {
      flows, claimed := flows', kept;
    }

    // CardFlowFor's marks: the stages shown as done.
    method DoneStages() returns (done: set<string>)
      requires Valid() && position.Some?
      ensures done == Shown(position.value.visited, journal) - {position.value.nodeID}
      ensures LeftSince(journal, trip) != {} || LeftSince(journal, 0) == {} ==>
                done == LeftSince(journal, trip) - {position.value.nodeID}
      ensures LeftSince(journal, trip) == {} || EarlierLeftAgain(journal, trip) ==>
                done == LeftSince(journal, 0) - {position.value.nodeID}
    {
      var visited := set v | v in position.value.visited;
      if visited == {} {
        visited := set i | 0 <= i < |journal| && journal[i].from != "" :: journal[i].from;
        assert visited == LeftSince(journal, 0);
      }
      ShownIsThisTrips(position.value, journal, trip);
      BothWaysAgree(position.value, journal, trip);
      done := visited - {position.value.nodeID};
    }
  }

  // The transition is the stage's answer to an option of that property.
  ghost predicate AsksAbout(e: FlowEdge, node: string, property: string) {
    Leaves(e, node, CARD_CHANGED) && e.cond.Some? && EqualFold(e.cond.value.property, property)
  }

  ghost predicate WaitsForProperty(position: Option<Position>, flows: map<string, Flow>, property: string) {
    && position.Some? && position.value.flowID in flows
    && var es := flows[position.value.flowID].edges;
       exists i :: 0 <= i < |es| && AsksAbout(es[i], position.value.nodeID, property)
  }

  lemma DestinationNeedsAnEdge(flows: map<string, Flow>, p: Option<Position>, card: Option<map<string, string>>,
                               on: string, said: string)
    ensures Destination(flows, p, card, on, said).Some? ==>
              p.Some? && p.value.flowID in flows && HasEdge(flows[p.value.flowID].edges, p.value.nodeID, on)
  {
    if p.Some? && p.value.flowID in flows && card.Some? {
      ChoiceIsAnEdge(flows[p.value.flowID], p.value.nodeID, on, Asked(card.value, said));
    }
  }

  ghost predicate IsTakenTo(flow: Flow, node: string, on: string, asked: Asked, dest: string) {
    exists i :: 0 <= i < |flow.edges| && IsTaken(flow.edges, node, on, asked, i) && flow.edges[i].to == dest
  }

  // It is the stage of the transition the event takes; and there is none when it takes
  // none, or to no stage, or the card cannot be read, or its stage or its route is gone.
  lemma DestinationIsExact(flows: map<string, Flow>, p: Option<Position>, card: Option<map<string, string>>,
                           on: string, said: string)
    ensures var next := Destination(flows, p, card, on, said);
            if p.Some? && p.value.flowID in flows && card.Some? && IsStageOf(flows[p.value.flowID], p.value.nodeID) then
              var flow, asked := flows[p.value.flowID], Asked(card.value, said);
              && (next.Some? ==> next.value in flow.nodes && IsTakenTo(flow, p.value.nodeID, on, asked, next.value.id))
              && (next.None? ==> forall n :: n in flow.nodes ==> !IsTakenTo(flow, p.value.nodeID, on, asked, n.id))
            else next.None?
  {
    if p.Some? && p.value.flowID in flows && card.Some? {
      TakenIsChosen(flows[p.value.flowID].edges, p.value.nodeID, on, Asked(card.value, said));
    }
  }

  lemma StageIsNamed(flow: Flow, node: FlowNode)
    requires RouteInvariant(flow) && node in flow.nodes
    ensures node.id != ""
  {
    var i :| 0 <= i < |flow.nodes| && flow.nodes[i] == node;
  }

  lemma KeyIsInUniverse(flows: map<string, Flow>, flow: Flow, node: string, on: string)
    requires flow.head.id in flows && flows[flow.head.id] == flow && HasEdge(flow.edges, node, on)
    ensures (node, on) in Universe(flows)
  {
    var i :| 0 <= i < |flow.edges| && Leaves(flow.edges[i], node, on);
    assert (flow.edges[i].from, flow.edges[i].on) == (node, on);
  }

  // What the card carries of its history, or, when it carries nothing, what the
  // whole journal says.
  function Shown(visited: seq<string>, j: seq<Record>): set<string> {
    if visited == [] then LeftSince(j, 0) else set v | v in visited
  }

  // What was left on an earlier trip was left again on this one.
  predicate EarlierLeftAgain(j: seq<Record>, trip: nat) {
    forall i :: 0 <= i < trip && i < |j| && j[i].from != "" ==> j[i].from in LeftSince(j, trip)
  }

  lemma LaterIsAmongAll(j: seq<Record>, trip: nat)
    ensures LeftSince(j, trip) <= LeftSince(j, 0)
  {
  }

  // The visited list and the journal say the same exactly when every stage left on
  // an earlier trip was left again on this one.
  lemma BothWaysAgree(p: Position, j: seq<Record>, trip: nat)
    requires Located(Some(p), j, trip)
    ensures (set v | v in p.visited) == LeftSince(j, 0) <==> EarlierLeftAgain(j, trip)
    ensures trip == 0 ==> (set v | v in p.visited) == LeftSince(j, 0)
  {
    LaterIsAmongAll(j, trip);
    forall i | 0 <= i < trip && j[i].from != "" ensures j[i].from in LeftSince(j, 0) {
    }
    if EarlierLeftAgain(j, trip) {
      forall s | s in LeftSince(j, 0) ensures s in LeftSince(j, trip) {
        var i :| 0 <= i < |j| && j[i].from != "" && j[i].from == s;
      }
    }
  }

  // Of the two, what is shown is the stages of this trip exactly when the card has
  // left one on it, or never left any.
  lemma ShownIsThisTrips(p: Position, j: seq<Record>, trip: nat)
    requires Located(Some(p), j, trip)
    ensures Shown(p.visited, j) == LeftSince(j, trip) <==> LeftSince(j, trip) != {} || LeftSince(j, 0) == {}
    ensures Shown(p.visited, j) == LeftSince(j, 0) <==> LeftSince(j, trip) == {} || EarlierLeftAgain(j, trip)
  {
    BothWaysAgree(p, j, trip);
    if p.visited != [] {
      assert p.visited[0] in LeftSince(j, trip);
    }
  }

  // A card that goes from a to b, leaves its route, and comes back to c and then d:
  // it carries c alone, and the journal says a as well.
  lemma ComingBackForgets(flowID: string, a: string, b: string, c: string, d: string)
    returns (p: Position, j: seq<Record>)
    requires a != "" && b != "" && c != "" && d != "" && a != c
    ensures IsWalk(j) && Located(Some(p), j, 2) && |j| == 4
    ensures (set v | v in p.visited) == {c} && LeftSince(j, 0) == {a, c}
  {
    var p1 := Arrive(None, flowID, a);
    var j1 := [] + [ArrivalRecord(None, flowID, a, "")];
    ArrivalIsLocated(None, [], 0, flowID, a, "");
    var j2 := j1 + [ArrivalRecord(Some(p1), flowID, b, "")];
    ArrivalIsLocated(Some(p1), j1, 0, flowID, b, "");
    var p3 := Arrive(None, flowID, c);
    var j3 := j2 + [ArrivalRecord(None, flowID, c, "")];
    ArrivalIsLocated(None, j2, 0, flowID, c, "");
    p := Arrive(Some(p3), flowID, d);
    j := j3 + [ArrivalRecord(Some(p3), flowID, d, "")];
    ArrivalIsLocated(Some(p3), j3, 2, flowID, d, "");
    assert j[1].from == a && j[3].from == c && j[0].from == "" && j[2].from == "";
    assert p.visited == [c];
  }
}
