/** Where an event sends a card: among a stage's transitions, the first whose
    condition the card meets, else the one that asks nothing
    (internal/acp/flows.go). */
module Routing {
  import opened Text
  import opened Flows

  // What a condition is asked about: the card's properties by folded name, and
  // the words the stage's agent signed off with.
  datatype Asked = Asked(props: map<string, string>, said: string)

  predicate Contains(haystack: string, needle: string) {
    Index(haystack, needle) != -1
  }

  predicate Holds(c: EdgeCond, a: Asked) {
    if c.commentContains != "" then Contains(Fold(a.said), Fold(c.commentContains))
    else
      var name := Fold(Trim(c.property));
      var got := if name in a.props then a.props[name] else "";
      EqualFold(Trim(got), Trim(c.value))
  }

  predicate Leaves(e: FlowEdge, node: string, on: string) {
    e.from == node && e.on == on
  }

  // A conditional transition the event takes.
  predicate Fires(e: FlowEdge, node: string, on: string, a: Asked) {
    Leaves(e, node, on) && e.cond.Some? && Holds(e.cond.value, a)
  }

  predicate IsFallback(e: FlowEdge, node: string, on: string) {
    Leaves(e, node, on) && e.cond.None?
  }

  function FirstFiring(es: seq<FlowEdge>, node: string, on: string, a: Asked): Option<FlowEdge> {
    if es == [] then None
    else if Fires(es[0], node, on, a) then Some(es[0])
    else FirstFiring(es[1..], node, on, a)
  }

  function FirstFallback(es: seq<FlowEdge>, node: string, on: string): Option<FlowEdge> {
    if es == [] then None
    else if IsFallback(es[0], node, on) then Some(es[0])
    else FirstFallback(es[1..], node, on)
  }

  // The transition an event takes.
  function Choice(es: seq<FlowEdge>, node: string, on: string, a: Asked): Option<FlowEdge> {
    var firing := FirstFiring(es, node, on, a);
    if firing.Some? then firing else FirstFallback(es, node, on)
  }

  function Node(nodes: seq<FlowNode>, id: string): (n: Option<FlowNode>)
    ensures n.Some? <==> exists i :: 0 <= i < |nodes| && nodes[i].id == id
    ensures n.Some? ==> n.value in nodes && n.value.id == id
  {
    if nodes == [] then None
    else if nodes[0].id == id then Some(nodes[0])
    else Node(nodes[1..], id)
  }

  // ---- the loops ------------------------------------------------------------------

  // FlowEntry.Next: the stage the event leads to and the condition that led there.
  method Next(f: Flow, node: string, on: string, a: Asked) returns (next: Option<FlowNode>, cond: Option<EdgeCond>)
    ensures var e := Choice(f.edges, node, on, a);
            if e.None? then next.None? && cond.None?
            else next == Node(f.nodes, e.value.to) && cond == e.value.cond
    ensures forall i :: 0 <= i < |f.edges| && IsTaken(f.edges, node, on, a, i) ==>
              && cond == f.edges[i].cond
              && (next.Some? <==> exists k :: 0 <= k < |f.nodes| && f.nodes[k].id == f.edges[i].to)
              && (next.Some? ==> next.value in f.nodes && next.value.id == f.edges[i].to)
    ensures (forall i :: 0 <= i < |f.edges| ==> !IsTaken(f.edges, node, on, a, i)) ==> next.None? && cond.None?
  {
    TakenIsChosen(f.edges, node, on, a);
    var fallback: Option<FlowEdge> := None;
    for i := 0 to |f.edges|
      invariant FirstFiring(f.edges, node, on, a) == FirstFiring(f.edges[i..], node, on, a)
      invariant FirstFallback(f.edges, node, on) ==
                if fallback.Some? then fallback else FirstFallback(f.edges[i..], node, on)
      invariant fallback.Some? ==> fallback.value.cond.None?
    {
      var e := f.edges[i];
      assert f.edges[i..][0] == e && f.edges[i..][1..] == f.edges[i + 1..];
      if e.from != node || e.on != on {
        continue;
      }
      if e.cond.None? {
        if fallback.None? {
          fallback := Some(e);
        }
        continue;
      }
      if Holds(e.cond.value, a) {
        return Node(f.nodes, e.to), e.cond;
      }
    }
    if fallback.Some? {
      return Node(f.nodes, fallback.value.to), None;
    }
    return None, None;
  }

  predicate HasEdge(es: seq<FlowEdge>, node: string, on: string) {
    exists i :: 0 <= i < |es| && Leaves(es[i], node, on)
  }

  method FindEdge(f: Flow, node: string, on: string) returns (found: bool)
    ensures found <==> HasEdge(f.edges, node, on)
  {
    for i := 0 to |f.edges|
      invariant forall j :: 0 <= j < i ==> !Leaves(f.edges[j], node, on)
    {
      if f.edges[i].from == node && f.edges[i].on == on {
        return true;
      }
    }
    return false;
  }

  // FlowEntry.WaitsFor: the triggers somebody has to poll for on a stage's behalf.
  method WaitsFor(f: Flow, node: string) returns (out: seq<string>)
    ensures forall on :: on in out <==> IsVCSTrigger(on) && HasEdge(f.edges, node, on)
  {
    out := [];
    for i := 0 to |f.edges|
      invariant forall on :: on in out <==>
                  IsVCSTrigger(on) && exists j :: 0 <= j < i && Leaves(f.edges[j], node, on)
    {
      if f.edges[i].from == node && IsVCSTrigger(f.edges[i].on) {
        out := out + [f.edges[i].on];
      }
    }
  }

  // ---- what a condition asks --------------------------------------------------------

  // The words are said at that place, in whatever case.
  predicate SaidAt(said: string, words: string, at: nat) {
    at + |words| <= |said| && forall k :: 0 <= k < |words| ==> Lower(said[at + k]) == Lower(words[k])
  }

  // The card has that value under that name, whatever the case and the blanks around
  // either; what it has nothing under is blank.
  predicate HasValue(props: map<string, string>, name: string, value: string) {
    var folded := Fold(Trim(name));
    (folded in props ==> EqualFold(Trim(props[folded]), Trim(value))) && (folded !in props ==> Trim(value) == "")
  }

  // A condition about words is met by their being said, any other by the card's value.
  ghost predicate IsMet(c: EdgeCond, a: Asked) {
    if c.commentContains != "" then exists at :: SaidAt(a.said, c.commentContains, at)
    else HasValue(a.props, c.property, c.value)
  }

  lemma SaidIsOccurring(said: string, words: string, at: nat)
    ensures SaidAt(said, words, at) <==> OccursAt(Fold(said), Fold(words), at)
  {
    if at + |words| <= |said| {
      var there := Fold(said)[at..at + |words|];
      forall k | 0 <= k < |words| ensures there[k] == Lower(said[at + k]) && Fold(words)[k] == Lower(words[k]) {
      }
      assert there == Fold(words) <==> forall k :: 0 <= k < |words| ==> there[k] == Fold(words)[k];
    }
  }

  lemma HoldsExactlyWhenMet(c: EdgeCond, a: Asked)
    ensures Holds(c, a) <==> IsMet(c, a)
  {
    var said, words := Fold(a.said), Fold(c.commentContains);
    forall at: nat ensures SaidAt(a.said, c.commentContains, at) <==> OccursAt(said, words, at) {
      SaidIsOccurring(a.said, c.commentContains, at);
    }
    if at: nat :| OccursAt(said, words, at) {
      IndexIsLeftmost(said, words, 0, at);
    }
    assert Trim("") == "" && |Fold(Trim(c.value))| == |Trim(c.value)| && |Fold("")| == 0;
  }

  // ---- which transition is taken ------------------------------------------------------

  // A conditional transition of the stage and event whose condition is met.
  ghost predicate Answers(e: FlowEdge, node: string, on: string, a: Asked) {
    e.from == node && e.on == on && e.cond.Some? && IsMet(e.cond.value, a)
  }

  // The first of them; or, when there is none, the first that asks nothing.
  ghost predicate IsTaken(es: seq<FlowEdge>, node: string, on: string, a: Asked, i: nat)
    requires i < |es|
  {
    && es[i].from == node && es[i].on == on
    && if es[i].cond.Some? then Answers(es[i], node, on, a) && forall j :: 0 <= j < i ==> !Answers(es[j], node, on, a)
       else
         && (forall j :: 0 <= j < |es| ==> !Answers(es[j], node, on, a))
         && (forall j :: 0 <= j < i ==> es[j].from != node || es[j].on != on || es[j].cond.Some?)
  }

  lemma FiresExactlyWhenAnswers(e: FlowEdge, node: string, on: string, a: Asked)
    ensures Fires(e, node, on, a) <==> Answers(e, node, on, a)
  {
    if e.cond.Some? {
      HoldsExactlyWhenMet(e.cond.value, a);
    }
  }

  lemma {:induction false} FallbackIsFirst(es: seq<FlowEdge>, node: string, on: string)
    ensures var u := FirstFallback(es, node, on);
            u.Some? ==> exists i :: 0 <= i < |es| && es[i] == u.value && IsFallback(es[i], node, on)
                                    && forall j :: 0 <= j < i ==> !IsFallback(es[j], node, on)
  {
    if es != [] && !IsFallback(es[0], node, on) && FirstFallback(es, node, on).Some? {
      var rest := es[1..];
      FallbackIsFirst(rest, node, on);
      var i :| 0 <= i < |rest| && rest[i] == FirstFallback(rest, node, on).value && IsFallback(rest[i], node, on)
            && forall j :: 0 <= j < i ==> !IsFallback(rest[j], node, on);
      assert es[i + 1] == rest[i];
      forall j | 0 <= j < i + 1 ensures !IsFallback(es[j], node, on) {
        assert j > 0 ==> es[j] == rest[j - 1];
      }
    }
  }

  // The choice is the transition taken, and there is one exactly when one is taken.
  lemma TakenIsChosen(es: seq<FlowEdge>, node: string, on: string, a: Asked)
    ensures forall i :: 0 <= i < |es| && IsTaken(es, node, on, a, i) ==> Choice(es, node, on, a) == Some(es[i])
    ensures Choice(es, node, on, a).Some? ==> exists i :: 0 <= i < |es| && IsTaken(es, node, on, a, i)
  {
    ChoiceIsFirst(es, node, on, a);
    FallbackIsFirst(es, node, on);
    forall i | 0 <= i < |es| ensures Fires(es[i], node, on, a) <==> Answers(es[i], node, on, a) {
      FiresExactlyWhenAnswers(es[i], node, on, a);
    }
    ChosenIsTaken(es, node, on, a);
  }

  lemma ChosenIsTaken(es: seq<FlowEdge>, node: string, on: string, a: Asked)
    requires forall i :: 0 <= i < |es| ==> (Fires(es[i], node, on, a) <==> Answers(es[i], node, on, a))
    ensures Choice(es, node, on, a).Some? ==>
              exists i :: 0 <= i < |es| && IsTaken(es, node, on, a, i) && es[i] == Choice(es, node, on, a).value
  {
    ChoiceIsFirst(es, node, on, a);
    FallbackIsFirst(es, node, on);
    var firing, fallback := FirstFiring(es, node, on, a), FirstFallback(es, node, on);
    if firing.Some? {
      var i :| 0 <= i < |es| && es[i] == firing.value && Fires(es[i], node, on, a)
            && forall j :: 0 <= j < i ==> !Fires(es[j], node, on, a);
      assert IsTaken(es, node, on, a, i);
    } else if fallback.Some? {
      var i :| 0 <= i < |es| && es[i] == fallback.value && IsFallback(es[i], node, on)
            && forall j :: 0 <= j < i ==> !IsFallback(es[j], node, on);
      forall j | 0 <= j < i ensures es[j].from != node || es[j].on != on || es[j].cond.Some? {
        assert !IsFallback(es[j], node, on);
      }
      assert IsTaken(es, node, on, a, i);
    }
  }

  // A card whose value is another than the one asked, or that has none, never takes
  // that transition.
  lemma AnotherValueIsNotTaken(es: seq<FlowEdge>, node: string, on: string, a: Asked, i: nat)
    requires i < |es| && es[i].cond.Some? && es[i].cond.value.commentContains == ""
    requires var name := Fold(Trim(es[i].cond.value.property));
             Fold(Trim(if name in a.props then a.props[name] else "")) != Fold(Trim(es[i].cond.value.value))
    ensures !IsTaken(es, node, on, a, i)
  {
    assert Trim("") == "";
  }

  // The property is asked about by no transition of the stage and event.
  predicate NobodyAsks(es: seq<FlowEdge>, node: string, on: string, name: string) {
    forall i :: 0 <= i < |es| && es[i].from == node && es[i].on == on && es[i].cond.Some? ==>
      es[i].cond.value.commentContains != "" || Fold(Trim(es[i].cond.value.property)) != name
  }

  // Changing it changes nothing.
  lemma OtherPropertiesDoNotMatter(es: seq<FlowEdge>, node: string, on: string, a: Asked, name: string, value: string)
    requires NobodyAsks(es, node, on, name)
    ensures Choice(es, node, on, a.(props := a.props[name := value])) == Choice(es, node, on, a)
  {
    OthersFireTheSame(es, node, on, a, name, value);
  }

  lemma {:induction false} OthersFireTheSame(es: seq<FlowEdge>, node: string, on: string, a: Asked, name: string, value: string)
    requires NobodyAsks(es, node, on, name)
    ensures FirstFiring(es, node, on, a.(props := a.props[name := value])) == FirstFiring(es, node, on, a)
  {
    var a' := a.(props := a.props[name := value]);
    if es != [] {
      assert forall i :: 0 <= i < |es| - 1 ==> es[1..][i] == es[i + 1];
      OthersFireTheSame(es[1..], node, on, a, name, value);
      assert es[0].cond.Some? && Leaves(es[0], node, on) ==> Holds(es[0].cond.value, a') == Holds(es[0].cond.value, a);
    }
  }

  // ---- what the choice means -----------------------------------------------------------

  // Exactly: a firing transition none before it fires, or, when nothing fires,
  // the first that asks nothing.
  lemma {:induction false} ChoiceIsFirst(es: seq<FlowEdge>, node: string, on: string, a: Asked)
    ensures var e := FirstFiring(es, node, on, a);
            if e.Some? then
              exists i :: 0 <= i < |es| && es[i] == e.value && Fires(es[i], node, on, a)
                       && forall j :: 0 <= j < i ==> !Fires(es[j], node, on, a)
            else forall i :: 0 <= i < |es| ==> !Fires(es[i], node, on, a)
    ensures var u := FirstFallback(es, node, on);
            if u.Some? then u.value in es && IsFallback(u.value, node, on)
            else forall i :: 0 <= i < |es| ==> !IsFallback(es[i], node, on)
  {
    if es != [] {
      var rest := es[1..];
      ChoiceIsFirst(rest, node, on, a);
      if FirstFiring(es, node, on, a).Some? && !Fires(es[0], node, on, a) {
        var i :| 0 <= i < |rest| && rest[i] == FirstFiring(rest, node, on, a).value && Fires(rest[i], node, on, a)
              && forall j :: 0 <= j < i ==> !Fires(rest[j], node, on, a);
        assert es[i + 1] == rest[i];
        forall j | 0 <= j < i + 1 ensures !Fires(es[j], node, on, a) {
          if j > 0 { assert es[j] == rest[j - 1]; }
        }
      }
      forall i | 0 < i < |es| ensures es[i] == rest[i - 1] { }
    }
  }

  // A transition that asks nothing never decides which condition fires.
  lemma {:induction false} FallbackNeverFires(before: seq<FlowEdge>, u: FlowEdge, after: seq<FlowEdge>,
                                              node: string, on: string, a: Asked)
    requires u.cond.None?
    ensures FirstFiring(before + [u] + after, node, on, a) == FirstFiring(before + after, node, on, a)
  {
    var es := before + [u] + after;
    if before == [] {
      assert es == [u] + after && es[1..] == after && before + after == after;
    } else {
      assert es[0] == before[0] && es[1..] == before[1..] + [u] + after;
      assert (before + after)[1..] == before[1..] + after;
      FallbackNeverFires(before[1..], u, after, node, on, a);
    }
  }

  // The only fallback of an event is found wherever it stands, and one of another
  // event is passed over.
  lemma {:induction false} LoneFallback(before: seq<FlowEdge>, u: FlowEdge, after: seq<FlowEdge>, node: string, on: string)
    requires u.cond.None?
    requires Leaves(u, node, on) ==> FirstFallback(before + after, node, on).None?
    ensures FirstFallback(before + [u] + after, node, on) ==
            if Leaves(u, node, on) then Some(u) else FirstFallback(before + after, node, on)
  {
    var es := before + [u] + after;
    if before == [] {
      assert es == [u] + after && es[1..] == after && before + after == after;
    } else {
      assert es[0] == before[0] && es[1..] == before[1..] + [u] + after;
      assert (before + after)[1..] == before[1..] + after;
      LoneFallback(before[1..], u, after, node, on);
    }
  }

  lemma {:induction false} NoFallback(es: seq<FlowEdge>, node: string, on: string)
    requires forall i :: 0 <= i < |es| ==> !IsFallback(es[i], node, on)
    ensures FirstFallback(es, node, on).None?
  {
    if es != [] {
      NoFallback(es[1..], node, on);
    }
  }

  lemma OthersAreNoFallback(f: Flow, i: nat, node: string, on: string)
    requires RouteInvariant(f) && i < |f.edges| && IsFallback(f.edges[i], node, on)
    ensures FirstFallback(f.edges[..i] + f.edges[i + 1..], node, on).None?
  {
    var rest := f.edges[..i] + f.edges[i + 1..];
    forall k | 0 <= k < |rest| ensures !IsFallback(rest[k], node, on) {
      var j := if k < i then k else k + 1;
      assert rest[k] == f.edges[j];
    }
    NoFallback(rest, node, on);
  }

  // Moving the fallback of a sound route from anywhere to anywhere else in the
  // editor's list never changes where a card goes.
  lemma FallbackMayStandAnywhere(f: Flow, i: nat, before: seq<FlowEdge>, after: seq<FlowEdge>,
                                 node: string, on: string, a: Asked)
    requires RouteInvariant(f) && i < |f.edges| && f.edges[i].cond.None?
    requires before + after == f.edges[..i] + f.edges[i + 1..]
    ensures Choice(before + [f.edges[i]] + after, node, on, a) == Choice(f.edges, node, on, a)
  {
    var u := f.edges[i];
    if Leaves(u, node, on) {
      OthersAreNoFallback(f, i, node, on);
    }
    assert f.edges == f.edges[..i] + [u] + f.edges[i + 1..];
    FallbackNeverFires(f.edges[..i], u, f.edges[i + 1..], node, on, a);
    FallbackNeverFires(before, u, after, node, on, a);
    LoneFallback(f.edges[..i], u, f.edges[i + 1..], node, on);
    LoneFallback(before, u, after, node, on);
  }

  // Where a sound route has a fallback for an event, the event always leads
  // somewhere, and always to one of the route's own stages.
  lemma FallbackAlwaysLeads(f: Flow, i: nat, a: Asked)
    requires RouteInvariant(f) && i < |f.edges| && f.edges[i].cond.None?
    ensures var e := Choice(f.edges, f.edges[i].from, f.edges[i].on, a);
            e.Some? && e.value in f.edges && Node(f.nodes, e.value.to).Some?
  {
    var node, on := f.edges[i].from, f.edges[i].on;
    ChoiceIsFirst(f.edges, node, on, a);
    assert IsFallback(f.edges[i], node, on);
    var e := Choice(f.edges, node, on, a).value;
    var j :| 0 <= j < |f.edges| && f.edges[j] == e;
    assert HasStage(f, f.edges[j].to);
  }

  // Every transition taken is the stage's own, and asks nothing the card denies.
  lemma ChoiceIsAnEdge(f: Flow, node: string, on: string, a: Asked)
    ensures var e := Choice(f.edges, node, on, a);
            && (e.Some? ==> e.value in f.edges && Leaves(e.value, node, on)
                            && (e.value.cond.Some? ==> Holds(e.value.cond.value, a)))
            && (e.Some? ==> HasEdge(f.edges, node, on))
            && (e.Some? && RouteInvariant(f) ==> Node(f.nodes, e.value.to).Some?)
  {
    ChoiceIsFirst(f.edges, node, on, a);
    var e := Choice(f.edges, node, on, a);
    if e.Some? {
      var i :| 0 <= i < |f.edges| && f.edges[i] == e.value;
      assert Leaves(f.edges[i], node, on);
      assert RouteInvariant(f) ==> HasStage(f, f.edges[i].to);
    }
  }
}
