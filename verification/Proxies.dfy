/** Removing a network configuration from its registry (internal/acp/proxies.go):
    refused while an agent runs through it. */
module Proxies {
  import opened Text
  import opened Registry

  // What an agent runs through: an id, or a name written before there were ids.
  datatype ProxyRef = ProxyRef(id: string, name: string)

  // What it comes to: the application's own network, a configuration, or an error.
  datatype Network = Own | Through(p: Entry) | Missing

  function ByID(ps: seq<Entry>, id: string): (r: Option<Entry>)
    ensures r.Some? ==> r.value in ps && r.value.id == id
    ensures r.None? ==> !HasID(ps, id)
  {
    if ps == [] then None else if ps[0].id == id then Some(ps[0]) else ByID(ps[1..], id)
  }

  function ByName(ps: seq<Entry>, name: string): (r: Option<Entry>)
    ensures r.Some? ==> r.value in ps && EqualFold(Trim(r.value.name), name)
    ensures r.None? ==> forall p :: p in ps ==> !EqualFold(Trim(p.name), name)
  {
    if ps == [] then None else if EqualFold(Trim(ps[0].name), name) then Some(ps[0]) else ByName(ps[1..], name)
  }

  // usesProxy.
  predicate Uses(a: ProxyRef, p: Entry) {
    if Trim(a.id) != "" then Trim(a.id) == p.id else EqualFold(Trim(a.name), Trim(p.name))
  }

  // resolveNetworkIn, up to the checks of the settings themselves.
  function Resolve(ps: seq<Entry>, a: ProxyRef): Network {
    var known := if Trim(a.id) == "" then None else ByID(ps, Trim(a.id));
    if known.Some? then Through(known.value)
    else if Trim(a.name) == "" && Trim(a.id) == "" then Own
    else match ByName(ps, Trim(a.name))
         case Some(p) => Through(p)
         case None => Missing
  }

  // ---- what it resolves to, said outright -----------------------------------------------

  ghost predicate IsFirstWithID(ps: seq<Entry>, id: string, i: nat) {
    i < |ps| && ps[i].id == id && forall k :: 0 <= k < i ==> ps[k].id != id
  }

  ghost predicate IsFirstNamed(ps: seq<Entry>, name: string, i: nat) {
    i < |ps| && EqualFold(Trim(ps[i].name), name) && forall k :: 0 <= k < i ==> !EqualFold(Trim(ps[k].name), name)
  }

  lemma {:induction false} ByIDIsFirst(ps: seq<Entry>, id: string) returns (i: nat)
    ensures ByID(ps, id).Some? ==> IsFirstWithID(ps, id, i) && ByID(ps, id).value == ps[i]
    ensures ByID(ps, id).None? ==> forall k :: 0 <= k < |ps| ==> ps[k].id != id
  {
    i := 0;
    if ps != [] && ps[0].id != id {
      var j := ByIDIsFirst(ps[1..], id);
      i := j + 1;
    }
  }

  lemma {:induction false} ByNameIsFirst(ps: seq<Entry>, name: string) returns (i: nat)
    ensures ByName(ps, name).Some? ==> IsFirstNamed(ps, name, i) && ByName(ps, name).value == ps[i]
    ensures ByName(ps, name).None? ==> forall k :: 0 <= k < |ps| ==> !EqualFold(Trim(ps[k].name), name)
  {
    i := 0;
    if ps != [] && !EqualFold(Trim(ps[0].name), name) {
      var j := ByNameIsFirst(ps[1..], name);
      i := j + 1;
    }
  }

  // The configuration with the id it carries; else the one of its name, in any case; an
  // agent that carries neither runs through the application's own network, and one whose
  // name is nobody's through nothing.
  lemma ResolvesExactlyTo(ps: seq<Entry>, a: ProxyRef) returns (i: nat)
    ensures match Resolve(ps, a)
            case Own => Trim(a.id) == "" && Trim(a.name) == ""
            case Through(p) =>
              && (Trim(a.id) != "" || Trim(a.name) != "") && i < |ps| && p == ps[i]
              && (|| (Trim(a.id) != "" && IsFirstWithID(ps, Trim(a.id), i))
                  || ((Trim(a.id) == "" || !HasID(ps, Trim(a.id))) && IsFirstNamed(ps, Trim(a.name), i)))
            case Missing =>
              && (Trim(a.id) != "" || Trim(a.name) != "") && (Trim(a.id) == "" || !HasID(ps, Trim(a.id)))
              && forall k :: 0 <= k < |ps| ==> !EqualFold(Trim(ps[k].name), Trim(a.name))
  {
    if Trim(a.id) != "" && ByID(ps, Trim(a.id)).Some? {
      i := ByIDIsFirst(ps, Trim(a.id));
    } else {
      i := ByNameIsFirst(ps, Trim(a.name));
    }
  }

  // An id nobody has, and the name of this configuration to fall back on.
  predicate FallsBackOn(ps: seq<Entry>, a: ProxyRef, p: Entry) {
    Trim(a.id) != "" && !HasID(ps, Trim(a.id)) && EqualFold(Trim(a.name), Trim(p.name))
  }

  // A registry as it is validated: names without blanks around them, no two alike,
  // and ids of their own.
  ghost predicate Sound(ps: seq<Entry>) {
    && NamesApart(ps)
    && (forall i :: 0 <= i < |ps| ==> Trim(ps[i].name) == ps[i].name && ps[i].id != "")
    && (forall i, j :: 0 <= i < j < |ps| ==> ps[i].id != ps[j].id)
  }

  lemma ByIDIs(ps: seq<Entry>, p: Entry)
    requires Sound(ps) && p in ps
    ensures ByID(ps, p.id) == Some(p)
  {
    var i :| 0 <= i < |ps| && ps[i] == p;
    assert HasID(ps, p.id);
  }

  lemma ByNameIs(ps: seq<Entry>, p: Entry, name: string)
    requires Sound(ps) && p in ps && EqualFold(p.name, name)
    ensures ByName(ps, name) == Some(p)
  {
    var q := ByName(ps, name).value;
    var i :| 0 <= i < |ps| && ps[i] == p;
    var j :| 0 <= j < |ps| && ps[j] == q;
    var first, second := if i < j then i else j, if i < j then j else i;
    assert EqualFold(ps[first].name, ps[second].name);
  }

  lemma ByIDWithout(ps: seq<Entry>, i: nat, id: string)
    requires Sound(ps) && i < |ps|
    ensures ByID(Without(ps, i), id) == if id == ps[i].id then None else ByID(ps, id)
  {
    var rest := Without(ps, i);
    SoundWithout(ps, i);
    match ByID(rest, id)
    case Some(p) => ByIDIs(ps, p);
    case None => match ByID(ps, id)
                 case Some(p) => InWithout(ps, i, p);
                 case None =>
  }

  lemma ByNameWithout(ps: seq<Entry>, i: nat, name: string)
    requires Sound(ps) && i < |ps|
    ensures ByName(Without(ps, i), name) == if EqualFold(ps[i].name, name) then None else ByName(ps, name)
  {
    var rest := Without(ps, i);
    SoundWithout(ps, i);
    match ByName(rest, name)
    case Some(p) => ByNameIs(ps, p, name);
    case None => match ByName(ps, name)
                 case Some(p) => InWithout(ps, i, p);
                 case None =>
    if EqualFold(ps[i].name, name) {
      ByNameIs(ps, ps[i], name);
    }
  }

  lemma SoundWithout(ps: seq<Entry>, i: nat)
    requires Sound(ps) && i < |ps|
    ensures Sound(Without(ps, i)) && ps[i] !in Without(ps, i)
    ensures forall p :: p in Without(ps, i) ==> p in ps
  {
    WithoutApart(ps, i);
  }

  lemma InWithout(ps: seq<Entry>, i: nat, p: Entry)
    requires i < |ps| && p in ps
    ensures p == ps[i] || (p in Without(ps, i) && HasID(Without(ps, i), p.id))
  {
    var k :| 0 <= k < |ps| && ps[k] == p;
    if k != i {
      assert Without(ps, i)[if k < i then k else k - 1] == p;
    }
  }

  // What an agent runs through when a configuration goes: what it ran through
  // before, unless that was the configuration; and it was exactly when the agent
  // uses it, or falls back on its name.
  lemma RemovalIsSeenBy(ps: seq<Entry>, i: nat, a: ProxyRef)
    requires Sound(ps) && i < |ps|
    ensures Resolve(Without(ps, i), a) == Resolve(ps, a) <==> !Uses(a, ps[i]) && !FallsBackOn(ps, a, ps[i])
  {
    ByIDWithout(ps, i, Trim(a.id));
    ByNameWithout(ps, i, Trim(a.name));
    ByIDIs(ps, ps[i]);
    assert Fold(ps[i].name) != Fold("");
  }

  // proxyByName.
  method FindByName(ps: seq<Entry>, name: string) returns (p: Option<Entry>)
    ensures p == ByName(ps, Trim(name))
  {
    var wanted := Trim(name);
    for i := 0 to |ps|
      invariant ByName(ps, wanted) == ByName(ps[i..], wanted)
    {
      assert ps[i..][1..] == ps[i + 1..];
      if EqualFold(Trim(ps[i].name), wanted) {
        return Some(ps[i]);
      }
    }
    return None;
  }

  // ---- saving the agents --------------------------------------------------------

  // An agent, as far as its network goes.
  datatype Agent = Agent(name: string, ref: ProxyRef)

  // The configuration of exactly that name.
  function Exactly(ps: seq<Entry>, name: string): (r: Option<Entry>)
    ensures r.Some? ==> r.value in ps && r.value.name == name
    ensures r.None? ==> forall p :: p in ps ==> p.name != name
  {
    if ps == [] then None else if ps[0].name == name then Some(ps[0]) else Exactly(ps[1..], name)
  }

  // SaveAgent: the id of the configuration it names, else its own; with an id the
  // name goes.
  function SavedRef(ps: seq<Entry>, a: ProxyRef): ProxyRef {
    var named := Exactly(ps, a.name);
    var id := if named.Some? then named.value.id else a.id;
    ProxyRef(id, if id != "" then "" else a.name)
  }

  // Saved, it points at the configuration of exactly its name, if there is one, else where
  // it pointed; and a name is left on it only while it points nowhere.
  lemma SavedPointsAt(ps: seq<Entry>, a: ProxyRef)
    ensures var s := SavedRef(ps, a);
            && (if exists p :: p in ps && p.name == a.name then exists p :: p in ps && p.name == a.name && s.id == p.id
                else s.id == a.id)
            && s.name == if s.id == "" then a.name else ""
  {
  }

  // The row's key has to point at a row.
  predicate Fits(ps: seq<Entry>, a: ProxyRef) {
    SavedRef(ps, a).id == "" || HasID(ps, SavedRef(ps, a).id)
  }

  // An agent somebody could pick.
  predicate Pickable(agents: seq<Agent>, i: nat)
    requires i < |agents|
  {
    agents[i].name != "" && forall j :: 0 <= j < i ==> agents[j].name != agents[i].name
  }

  predicate FitTo(ps: seq<Entry>, agents: seq<Agent>, n: nat)
    requires n <= |agents|
  {
    forall i :: 0 <= i < n && Pickable(agents, i) ==> Fits(ps, agents[i].ref)
  }

  // The agents with the first n of them saved.
  function SavedTo(ps: seq<Entry>, agents: seq<Agent>, n: nat): (r: seq<Agent>)
    ensures |r| == |agents|
    ensures forall i :: 0 <= i < |r| ==> r[i].name == agents[i].name
  {
    seq(|agents|, i requires 0 <= i < |agents| =>
      if i < n && Pickable(agents, i) then agents[i].(ref := SavedRef(ps, agents[i].ref)) else agents[i])
  }

  // Once saved, an agent falls back on nobody's name.
  lemma SavedFallsBackOnNothing(ps: seq<Entry>, a: ProxyRef, qs: seq<Entry>, q: Entry)
    requires Trim(q.name) != ""
    ensures !FallsBackOn(qs, SavedRef(ps, a), q)
  {
    assert Trim("") == "";
    assert |Fold(Trim(q.name))| != |Fold("")|;
  }

  // Its name is one configuration's, and its id another's.
  predicate NamesAnother(ps: seq<Entry>, a: ProxyRef) {
    var named := Exactly(ps, a.name);
    Trim(a.id) != "" && HasID(ps, Trim(a.id)) && named.Some? && named.value.id != Trim(a.id)
  }

  // Saving an agent keeps what it runs through exactly when it does not: its id is
  // what counts before the save, and its name in it.
  lemma SavingKeepsTheNetwork(ps: seq<Entry>, a: ProxyRef)
    requires Sound(ps) && Fits(ps, a) && IDsTrimmed(ps)
    ensures Resolve(ps, SavedRef(ps, a)) == Resolve(ps, a) <==> !NamesAnother(ps, a)
  {
    assert Trim("") == "";
    var named := Exactly(ps, a.name);
    if named.Some? {
      var q := named.value;
      ByIDIs(ps, q);
      var i :| 0 <= i < |ps| && ps[i] == q;
      assert Trim(q.id) == q.id && Trim(q.name) == q.name;
      ByNameIs(ps, q, Trim(a.name));
      assert Resolve(ps, SavedRef(ps, a)) == Through(q);
    } else if a.id != "" {
      var i :| 0 <= i < |ps| && ps[i].id == a.id;
      assert ps[i] in ps && Trim(a.id) == a.id;
      ByIDIs(ps, ps[i]);
    }
  }

  // So an agent that points at one configuration and names another runs through the
  // first until it is saved, and through the second from then on.
  lemma TheNameWinsOnceSaved(ps: seq<Entry>, i: nat, j: nat)
    requires Sound(ps) && IDsTrimmed(ps) && i < |ps| && j < |ps| && i != j
    ensures var a := ProxyRef(ps[i].id, ps[j].name);
            && Fits(ps, a) && Resolve(ps, a) == Through(ps[i]) && Resolve(ps, SavedRef(ps, a)) == Through(ps[j])
  {
    assert Trim("") == "" && Trim(ps[j].name) == ps[j].name && Trim(ps[i].id) == ps[i].id && Trim(ps[j].id) == ps[j].id;
    OnlyItIsExactly(ps, j, ps[j].name);
    ByIDIs(ps, ps[i]);
    ByIDIs(ps, ps[j]);
    assert ps[j].id == ps[j].id && HasID(ps, ps[j].id);
  }

  // When a configuration has gone, an agent that fell back on its name cannot be
  // saved: so a removal that is saved is seen by nobody.
  lemma FellBackDoesNotFit(ps: seq<Entry>, i: nat, a: ProxyRef)
    requires Sound(ps) && IDsTrimmed(ps) && i < |ps| && FallsBackOn(ps, a, ps[i])
    ensures !Fits(Without(ps, i), a)
  {
    assert Trim(ps[i].name) == ps[i].name;
    OnlyItIsExactly(ps, i, a.name);
    IDsOfTheRest(ps, i, a.id);
    KnownIsTrimmed(ps, a.id);
  }

  // Ids as they are made: with no blanks around them.
  predicate IDsTrimmed(ps: seq<Entry>) {
    forall i :: 0 <= i < |ps| ==> Trim(ps[i].id) == ps[i].id
  }

  lemma KnownIsTrimmed(ps: seq<Entry>, id: string)
    requires IDsTrimmed(ps)
    ensures HasID(ps, id) ==> HasID(ps, Trim(id))
  {
  }

  lemma OnlyItIsExactly(ps: seq<Entry>, i: nat, name: string)
    requires Sound(ps) && i < |ps| && EqualFold(ps[i].name, Trim(name))
    ensures Exactly(Without(ps, i), name).None?
    ensures Exactly(ps, name) == if ps[i].name == name then Some(ps[i]) else None
  {
    SoundWithout(ps, i);
    ByNameIs(ps, ps[i], Trim(name));
    if Exactly(ps, name).Some? {
      ExactlyIsTrimmed(ps, name);
      ByNameIs(ps, Exactly(ps, name).value, Trim(name));
    }
    ExactlyInTheRest(ps, i, name);
  }

  lemma ExactlyIsTrimmed(ps: seq<Entry>, name: string)
    requires Sound(ps) && Exactly(ps, name).Some?
    ensures Trim(name) == name
  {
    var q := Exactly(ps, name).value;
    var k :| 0 <= k < |ps| && ps[k] == q;
    assert Trim(ps[k].name) == ps[k].name;
  }

  lemma {:induction false} NamedIsExactly(ps: seq<Entry>, q: Entry)
    requires q in ps
    ensures Exactly(ps, q.name).Some?
  {
  }

  // In the rest of the registry it is found, if at all, as in the whole.
  lemma ExactlyInTheRest(ps: seq<Entry>, i: nat, name: string)
    requires Sound(ps) && i < |ps|
    ensures var found := Exactly(Without(ps, i), name);
            found.Some? ==> found == Exactly(ps, name) && found != Some(ps[i])
  {
    SoundWithout(ps, i);
    var found := Exactly(Without(ps, i), name);
    if found.Some? {
      NamedIsExactly(ps, found.value);
      var q := Exactly(ps, name).value;
      var j :| 0 <= j < |ps| && ps[j] == found.value;
      var k :| 0 <= k < |ps| && ps[k] == q;
      SameNameSameEntry(ps, j, k);
    }
  }

  lemma IDsOfTheRest(ps: seq<Entry>, i: nat, id: string)
    requires i < |ps|
    ensures HasID(Without(ps, i), id) ==> HasID(ps, id)
  {
    var rest := Without(ps, i);
    if k :| 0 <= k < |rest| && rest[k].id == id {
      assert ps[if k < i then k else k + 1].id == id;
    }
  }

  predicate InUse(ps: seq<Entry>, agents: seq<Agent>, name: string) {
    var target := ByName(ps, Trim(name));
    target.Some? && exists k :: 0 <= k < |agents| && Uses(agents[k].ref, target.value)
  }

  class Manager {
    const proxies: Registry
    var agents: seq<Agent>

    ghost predicate Valid()
      reads this, proxies
    {
      proxies.Synced() && Sound(proxies.entries)
    }

    constructor (proxies: Registry)
      requires proxies.Synced() && Sound(proxies.entries)
      ensures Valid() && this.proxies == proxies && agents == []
    {
      this.proxies, agents := proxies, [];
    }

    // The agents' part of a save: up to the first whose key points at nothing.
    method SaveAgents() returns (saved: bool, ghost stop: nat)
      requires Valid()
      modifies this`agents
      ensures Valid() && stop <= |agents| && agents == SavedTo(proxies.entries, old(agents), stop)
      ensures saved <==> old(FitTo(proxies.entries, agents, |agents|))
      ensures saved <==> stop == |agents|
      ensures !saved ==> stop < |agents| && Pickable(old(agents), stop) && !Fits(proxies.entries, old(agents)[stop].ref)
      ensures saved ==> forall i, p ::
                0 <= i < |agents| && Pickable(agents, i) && p in proxies.entries ==>
                  !FallsBackOn(proxies.entries, agents[i].ref, p)
    {
      ghost var was, ps := agents, proxies.entries;
      var taken: set<string> := {};
      NoneSaved(ps, was);
      for i := 0 to |agents|
        invariant |agents| == |was| && agents == SavedTo(ps, was, i) && FitTo(ps, was, i) && AreGone(was, i, taken)
      {
        GoneTells(was, i, taken);
        NextSaved(ps, was, i);
        if agents[i].name == "" || agents[i].name in taken {
          continue;
        }
        taken := taken + {agents[i].name};
        var ref := SavedRef(proxies.entries, agents[i].ref);
        if ref.id != "" && !HasID(proxies.entries, ref.id) {
          return false, i;
        }
        agents := agents[i := agents[i].(ref := ref)];
      }
      saved, stop := true, |agents|;
      SavedFallNowhere(ps, was);
    }

    // The whole save, configurations first, when nothing of them has changed.
    method Save() returns (saved: bool, ghost stop: nat)
      requires Valid()
      modifies this`agents, proxies
      ensures Valid() && proxies.entries == old(proxies.entries) && proxies.table == old(proxies.table)
      ensures stop <= |agents| && agents == SavedTo(proxies.entries, old(agents), stop)
      ensures saved <==> FitTo(proxies.entries, old(agents), |old(agents)|)
      ensures saved <==> stop == |agents|
      ensures saved ==> forall i, p ::
                0 <= i < |agents| && Pickable(agents, i) && p in proxies.entries ==>
                  !FallsBackOn(proxies.entries, agents[i].ref, p)
    {
      SaveUnchanged(proxies);
      saved, stop := SaveAgents();
    }

    // AddAgent: refused when the name is taken or the network does not resolve. The
    // entry is in the registry before it is saved, and stays when that is refused.
    method AddAgent(a: Agent) returns (added: bool, saved: bool, ghost stop: nat)
      requires Valid()
      modifies this`agents, proxies
      ensures Valid() && proxies.entries == old(proxies.entries) && proxies.table == old(proxies.table)
      ensures added <==> MayJoin(proxies.entries, old(agents), Validated(a))
      ensures added ==>
                && Trim(a.name) != "" && |agents| == |old(agents)| + 1 && agents[|old(agents)|].name == Trim(a.name)
                && (forall k :: 0 <= k < |old(agents)| ==> !EqualFold(old(agents)[k].name, Trim(a.name)))
                && (!saved ==> agents[|old(agents)|].ref == ProxyRef(a.ref.id, Trim(a.ref.name)))
      ensures !added ==> agents == old(agents) && !saved
      ensures added ==> stop <= |agents| && agents == SavedTo(proxies.entries, old(agents) + [Validated(a)], stop)
      ensures added ==>
                && (saved <==> FitTo(proxies.entries, old(agents) + [Validated(a)], |old(agents)| + 1))
                && (saved <==> stop == |agents|)
    {
      var v := Validated(a);
      stop := 0;
      added := Check(v);
      if !added {
        return false, false, 0;
      }
      agents := agents + [v];
      saved, stop := Save();
    }

    method Check(v: Agent) returns (ok: bool)
      ensures ok <==> MayJoin(proxies.entries, agents, v)
    {
      if v.name == "" {
        return false;
      }
      for k := 0 to |agents|
        invariant forall j :: 0 <= j < k ==> !EqualFold(agents[j].name, v.name)
      {
        if EqualFold(agents[k].name, v.name) {
          return false;
        }
      }
      return Resolve(proxies.entries, v.ref) != Missing;
    }

    method FindUse(name: string) returns (used: bool)
      ensures used == InUse(proxies.entries, agents, name)
    {
      var target := FindByName(proxies.entries, name);
      used := false;
      for k := 0 to |agents|
        invariant used == (target.Some? && exists j :: 0 <= j < k && Uses(agents[j].ref, target.value))
      {
        if target.Some? && Uses(agents[k].ref, target.value) {
          used := true;
        }
      }
    }

    // RemoveProxy: refused while an agent uses it. When it goes, each agent runs
    // through what it ran through before, but for those that fell back on its name;
    // and with one of those the removal's own save is refused.
    method RemoveProxy(name: string) returns (removed: Option<Entry>, saved: bool, ghost stop: nat)
      requires Valid()
      modifies this`agents, proxies
      ensures Valid() && |agents| == |old(agents)| && stop <= |agents|
      ensures removed.None? <==> InUse(old(proxies.entries), old(agents), name) || NoneCalled(old(proxies.entries), name)
      ensures removed.None? ==>
                agents == old(agents) && proxies.entries == old(proxies.entries) && proxies.table == old(proxies.table)
      ensures removed.Some? ==>
                && Called(removed.value, name) && IsWithout(old(proxies.entries), proxies.entries, removed.value)
                && proxies.table.Keys == old(proxies.table).Keys - {removed.value.id}
                && agents == SavedTo(proxies.entries, old(agents), stop)
                && (saved <==> FitTo(proxies.entries, old(agents), |old(agents)|)) && (saved <==> stop == |agents|)
                && SeenExactlyBy(old(proxies.entries), proxies.entries, old(agents), removed.value)
                && (saved ==> NobodyFellBack(old(proxies.entries), old(agents), removed.value))
    {
      ghost var ps, was := proxies.entries, agents;
      saved, stop := false, 0;
      var used := FindUse(name);
      if used {
        return None, false, 0;
      }
      removed := proxies.Remove(name);
      if removed.Some? {
        ghost var i :| 0 <= i < |ps| && Called(ps[i], name) && removed.value == ps[i] && proxies.entries == Without(ps, i);
        assert IsWithout(ps, proxies.entries, removed.value);
        SoundWithout(ps, i);
        RemovalIsSeen(ps, i, was, name);
        SavedRemovalIsUnseen(ps, i, was);
        saved, stop := SaveAgents();
      }
    }
  }

  // All there were but one.
  ghost predicate IsWithout(ps: seq<Entry>, qs: seq<Entry>, p: Entry) {
    exists i :: 0 <= i < |ps| && ps[i] == p && qs == Without(ps, i)
  }

  // The names gone by.
  ghost predicate AreGone(agents: seq<Agent>, i: nat, taken: set<string>) {
    && i <= |agents|
    && (forall k :: 0 <= k < i && agents[k].name != "" ==> agents[k].name in taken)
    && (forall name :: name in taken ==> name != "" && exists k :: 0 <= k < i && agents[k].name == name)
  }

  lemma GoneTells(agents: seq<Agent>, i: nat, taken: set<string>)
    requires AreGone(agents, i, taken) && i < |agents|
    ensures (agents[i].name == "" || agents[i].name in taken) <==> !Pickable(agents, i)
    ensures Pickable(agents, i) ==> AreGone(agents, i + 1, taken + {agents[i].name})
    ensures !Pickable(agents, i) ==> AreGone(agents, i + 1, taken)
  {
    forall name | name in taken ensures exists k :: 0 <= k < i + 1 && agents[k].name == name {
      var k :| 0 <= k < i && agents[k].name == name;
    }
    assert agents[i].name == agents[i].name;
  }

  lemma NoneSaved(ps: seq<Entry>, agents: seq<Agent>)
    ensures SavedTo(ps, agents, 0) == agents
  {
  }

  lemma NextSaved(ps: seq<Entry>, agents: seq<Agent>, i: nat)
    requires i < |agents| && FitTo(ps, agents, i)
    ensures var saved := SavedTo(ps, agents, i);
            && saved[i] == agents[i]
            && SavedTo(ps, agents, i + 1) ==
               (if Pickable(agents, i) then saved[i := saved[i].(ref := SavedRef(ps, saved[i].ref))] else saved)
    ensures FitTo(ps, agents, i + 1) <==> !Pickable(agents, i) || Fits(ps, agents[i].ref)
  {
  }

  // What each agent runs through is what it was, but for exactly those that fell back
  // on the name.
  ghost predicate SeenExactlyBy(ps: seq<Entry>, qs: seq<Entry>, agents: seq<Agent>, p: Entry) {
    forall a :: a in agents ==> (Resolve(qs, a.ref) == Resolve(ps, a.ref) <==> !FallsBackOn(ps, a.ref, p))
  }

  ghost predicate NobodyFellBack(ps: seq<Entry>, agents: seq<Agent>, p: Entry) {
    IDsTrimmed(ps) ==> forall k :: 0 <= k < |agents| && Pickable(agents, k) ==> !FallsBackOn(ps, agents[k].ref, p)
  }

  // The name is nobody's, and the network resolves.
  predicate MayJoin(ps: seq<Entry>, agents: seq<Agent>, v: Agent) {
    && v.name != "" && Resolve(ps, v.ref) != Missing
    && forall k :: 0 <= k < |agents| ==> !EqualFold(agents[k].name, v.name)
  }

  function Validated(a: Agent): Agent {
    Agent(Trim(a.name), ProxyRef(a.ref.id, Trim(a.ref.name)))
  }

  lemma SavedFallNowhere(ps: seq<Entry>, was: seq<Agent>)
    requires Sound(ps)
    ensures var agents := SavedTo(ps, was, |was|);
            forall i, p :: 0 <= i < |agents| && Pickable(agents, i) && p in ps ==> !FallsBackOn(ps, agents[i].ref, p)
  {
    var agents := SavedTo(ps, was, |was|);
    forall i, p | 0 <= i < |agents| && Pickable(agents, i) && p in ps ensures !FallsBackOn(ps, agents[i].ref, p) {
      assert Pickable(was, i);
      var k :| 0 <= k < |ps| && ps[k] == p;
      assert Trim(ps[k].name) == ps[k].name && ps[k].name != "";
      SavedFallsBackOnNothing(ps, was[i].ref, ps, p);
    }
  }

  method SaveUnchanged(r: Registry)
    requires r.Synced()
    modifies r
    ensures r.Synced() && r.entries == old(r.entries) && r.table == old(r.table)
  {
    ghost var t, es := r.table, r.entries;
    InStepSettles(t, es);
    r.Save();
    OneTable(es, t, r.table);
  }

  lemma InStepSettles(t: Table, es: seq<Entry>)
    requires IsTable(t) && InStep(t, es)
    ensures Settled(t, es)
  {
    forall i, id | 0 <= i < |es| && id in t && t[id].name == es[i].name ensures es[i].id == id {
      var k := RowIsItsEntry(t, es, id);
      SameNameSameEntry(es, i, k);
    }
    SettledByID(t, es);
  }

  lemma OneTable(es: seq<Entry>, t: Table, u: Table)
    requires InStep(t, es) && InStep(u, es)
    ensures t == u
  {
    forall id | id in t ensures id in u && u[id] == t[id] {
      var k := RowIsItsEntry(t, es, id);
    }
    forall id | id in u ensures id in t {
      var k := RowIsItsEntry(u, es, id);
    }
  }

  lemma RemovalIsSeen(ps: seq<Entry>, i: nat, agents: seq<Agent>, name: string)
    requires Sound(ps) && i < |ps| && Called(ps[i], name) && !InUse(ps, agents, name)
    ensures SeenExactlyBy(ps, Without(ps, i), agents, ps[i])
  {
    CalledTrimmed(ps[i].name, name);
    ByNameIs(ps, ps[i], Trim(name));
    forall a | a in agents
      ensures Resolve(Without(ps, i), a.ref) == Resolve(ps, a.ref) <==> !FallsBackOn(ps, a.ref, ps[i])
    {
      var k :| 0 <= k < |agents| && agents[k] == a;
      assert !Uses(agents[k].ref, ps[i]);
      RemovalIsSeenBy(ps, i, a.ref);
    }
  }

  lemma SavedRemovalIsUnseen(ps: seq<Entry>, i: nat, agents: seq<Agent>)
    requires Sound(ps) && i < |ps|
    ensures FitTo(Without(ps, i), agents, |agents|) ==> NobodyFellBack(ps, agents, ps[i])
  {
    forall k | 0 <= k < |agents| && FallsBackOn(ps, agents[k].ref, ps[i]) && IDsTrimmed(ps)
      ensures !Fits(Without(ps, i), agents[k].ref)
    {
      FellBackDoesNotFit(ps, i, agents[k].ref);
    }
  }

  // An agent is added under an id nobody has and a name in another case: its network
  // resolves, but its save is refused, and it stays. The configuration it runs
  // through is then not in use, and goes, that save being refused as well; and the
  // agent runs through nothing.
  method RefusedAgentLosesItsNetwork(m: Manager, i: nat, a: Agent)
    returns (added: bool, saved: bool, removed: Option<Entry>, removalSaved: bool)
    requires m.Valid() && m.agents == [] && i < |m.proxies.entries|
    requires a.name == Trim(a.name) != "" && a.ref.name == Trim(a.ref.name)
    requires FallsBackOn(m.proxies.entries, a.ref, m.proxies.entries[i]) && IDsTrimmed(m.proxies.entries)
    requires a.ref.name != m.proxies.entries[i].name
    modifies m, m.proxies
    ensures added && !saved && removed == Some(old(m.proxies.entries)[i]) && !removalSaved
    ensures m.agents == [a]
    ensures Resolve(old(m.proxies.entries), a.ref) == Through(old(m.proxies.entries)[i])
    ensures Resolve(m.proxies.entries, a.ref) == Missing
  {
    ghost var ps := m.proxies.entries;
    var name := m.proxies.entries[i].name;
    RunsThroughIt(ps, i, a);
    ghost var stop;
    added, saved, stop := m.AddAgent(a);
    removed, removalSaved := RemoveUnderIt(m, ps, i, a, name);
  }

  lemma RunsThroughIt(ps: seq<Entry>, i: nat, a: Agent)
    requires Sound(ps) && i < |ps| && FallsBackOn(ps, a.ref, ps[i]) && IDsTrimmed(ps)
    requires a.name == Trim(a.name) != "" && a.ref.name == Trim(a.ref.name) != ps[i].name
    ensures Validated(a) == a && MayJoin(ps, [], a) && Resolve(ps, a.ref) == Through(ps[i])
    ensures [] + [a] == [a] && !FitTo(ps, [a], 1) && SavedTo(ps, [a], 0) == [a]
  {
    assert Trim(ps[i].name) == ps[i].name;
    ByNameIs(ps, ps[i], Trim(a.ref.name));
    DoesNotFit(ps, i, a.ref);
    assert [a][0] == a && Pickable([a], 0);
    NoneSaved(ps, [a]);
  }

  // The configuration goes from under it.
  lemma GoesUnderIt(ps: seq<Entry>, i: nat, a: Agent)
    requires Sound(ps) && i < |ps| && FallsBackOn(ps, a.ref, ps[i]) && IDsTrimmed(ps)
    requires a.name != "" && a.ref.name == Trim(a.ref.name)
    ensures !InUse(ps, [a], ps[i].name) && !NoneCalled(ps, ps[i].name)
    ensures var qs := Without(ps, i); !FitTo(qs, [a], 1) && Resolve(qs, a.ref) == Missing && SavedTo(qs, [a], 0) == [a]
    ensures forall qs, p :: Called(p, ps[i].name) && IsWithout(ps, qs, p) ==> p == ps[i] && qs == Without(ps, i)
  {
    assert Trim(ps[i].name) == ps[i].name && Called(ps[i], ps[i].name);
    ByNameIs(ps, ps[i], ps[i].name);
    assert HasID(ps, ps[i].id);
    FellBackDoesNotFit(ps, i, a.ref);
    assert [a][0] == a && Pickable([a], 0);
    NoneSaved(Without(ps, i), [a]);
    ByNameWithout(ps, i, a.ref.name);
    IDsOfTheRest(ps, i, a.ref.id);
    forall qs, p | Called(p, ps[i].name) && IsWithout(ps, qs, p) ensures p == ps[i] && qs == Without(ps, i) {
      var k :| 0 <= k < |ps| && ps[k] == p && qs == Without(ps, k);
      ByNameIs(ps, ps[k], ps[i].name);
      assert k == i;
    }
  }

  method RemoveUnderIt(m: Manager, ghost ps: seq<Entry>, ghost i: nat, a: Agent, name: string)
    returns (removed: Option<Entry>, saved: bool)
    requires m.Valid() && m.agents == [a] && m.proxies.entries == ps && i < |ps| && name == ps[i].name
    requires a.name != "" && a.ref.name == Trim(a.ref.name) && FallsBackOn(ps, a.ref, ps[i]) && IDsTrimmed(ps)
    modifies m, m.proxies
    ensures removed == Some(ps[i]) && !saved && m.agents == [a] && Resolve(m.proxies.entries, a.ref) == Missing
  {
    GoesUnderIt(ps, i, a);
    ghost var stop;
    removed, saved, stop := m.RemoveProxy(name);
  }

  // Blanks do not fold to anything else.
  lemma CalledTrimmed(own: string, name: string)
    requires Trim(own) == own && EqualFold(own, name)
    ensures Trim(name) == name
  {
    if name != "" {
      assert Fold(own)[0] == Fold(name)[0] && Fold(own)[|own| - 1] == Fold(name)[|name| - 1];
      assert Trimmed(name);
      TrimmedIsFixed(name);
    }
  }

  lemma DoesNotFit(ps: seq<Entry>, i: nat, a: ProxyRef)
    requires Sound(ps) && i < |ps| && FallsBackOn(ps, a, ps[i]) && IDsTrimmed(ps)
    ensures Fits(ps, a) <==> a.name == ps[i].name
  {
    assert Trim(ps[i].name) == ps[i].name;
    OnlyItIsExactly(ps, i, a.name);
    assert ps[i].id == ps[i].id && HasID(ps, ps[i].id);
    KnownIsTrimmed(ps, a.id);
  }
}
