/** The agents of this machine: how a name on the board reaches one, and who works a
    stage (internal/acp/agents.go, bindrefs.go). */
module Agents {
  import opened Text

  datatype Agent = Agent(id: string, name: string, userID: string)

  // ---- names ------------------------------------------------------------------

  // What a username can carry. Letters outside ASCII are letters.
  predicate IsWord(c: char) {
    'a' <= c <= 'z' || 'A' <= c <= 'Z' || '0' <= c <= '9' || c == '.' || c == '_' || c >= 128 as char
  }

  function Dashed(s: string): (r: string)
    ensures |r| == |s|
  {
    seq(|s|, i requires 0 <= i < |s| => if IsWord(s[i]) then s[i] else '-')
  }

  function DropDashes(s: string): (r: string)
    ensures r != [] ==> r[0] != '-'
    ensures |r| <= |s| && r == s[|s| - |r|..]
  {
    if s != [] && s[0] == '-' then DropDashes(s[1..]) else s
  }

  function CutDashes(s: string): (r: string)
    ensures r != [] ==> r[|r| - 1] != '-'
    ensures r <= s
  {
    if s != [] && s[|s| - 1] == '-' then CutDashes(s[..|s| - 1]) else s
  }

  function AgentUsername(name: string): string {
    CutDashes(DropDashes(Dashed(Fold(Trim(name)))))
  }

  predicate SameAgentName(name: string, entryName: string) {
    var name' := Trim(name);
    && name' != ""
    && (EqualFold(name', entryName)
        || (AgentUsername(name') != "" && AgentUsername(name') == AgentUsername(entryName)))
  }

  // A username as it is stored: nothing in it that folding would change.
  predicate IsUsername(s: string) {
    && (forall i :: 0 <= i < |s| ==> Folded(s[i]))
    && (s != "" ==> s[0] != '-' && s[|s| - 1] != '-')
  }

  predicate Folded(c: char) {
    (IsWord(c) || c == '-') && Lower(c) == c
  }

  lemma DashedIsFolded(s: string)
    ensures forall i :: 0 <= i < |s| ==> Folded(Dashed(Fold(s))[i])
  {
  }

  lemma UsernameIsOne(name: string)
    ensures IsUsername(AgentUsername(name))
  {
    TrimmedNameIsOne(Trim(name));
  }

  lemma TrimmedNameIsOne(s: string)
    ensures IsUsername(CutDashes(DropDashes(Dashed(Fold(s)))))
  {
    DashedIsFolded(s);
    var d := Dashed(Fold(s));
    var e := DropDashes(d);
    var r := CutDashes(e);
    forall i | 0 <= i < |r| ensures Folded(r[i]) {
      assert r[i] == e[i] == d[|d| - |e| + i];
    }
  }

  lemma UsernameIsFixed(s: string)
    requires IsUsername(s)
    ensures AgentUsername(s) == s
  {
    NoBlanksIn(s);
    FoldedIsFixed(s);
  }

  lemma FoldedIsFixed(s: string)
    requires IsUsername(s)
    ensures CutDashes(DropDashes(Dashed(Fold(s)))) == s
  {
    assert Fold(s) == s;
    assert Dashed(s) == s;
  }

  // The account an agent is provisioned under is, on the board, that agent's name.
  lemma AccountNamesItsAgent(name: string)
    requires AgentUsername(name) != ""
    ensures SameAgentName(AgentUsername(name), name)
  {
    UsernameIsOne(name);
    UsernamesMatch(AgentUsername(name), name);
  }

  lemma UsernamesMatch(account: string, name: string)
    requires IsUsername(account) && account != "" && account == AgentUsername(name)
    ensures SameAgentName(account, name)
  {
    UsernameIsFixed(account);
    NoBlanksIn(account);
  }

  lemma NoBlanksIn(account: string)
    requires IsUsername(account)
    ensures Trim(account) == account
  {
    if account != "" {
      assert Folded(account[0]) && Folded(account[|account| - 1]);
    }
    TrimmedIsFixed(account);
  }

  // ---- lookups ------------------------------------------------------------------

  function AgentByID(agents: seq<Agent>, id: string): (a: Option<Agent>)
    ensures a.Some? ==> a.value in agents && a.value.id == Trim(id) != ""
    ensures a.None? ==> Trim(id) == "" || forall i :: 0 <= i < |agents| ==> agents[i].id != Trim(id)
  {
    if agents == [] || Trim(id) == "" then None
    else if agents[0].id == Trim(id) then Some(agents[0])
    else AgentByID(agents[1..], id)
  }

  function AgentByName(agents: seq<Agent>, name: string): (a: Option<Agent>)
    ensures a.Some? ==> a.value in agents && SameAgentName(a.value.name, Trim(name))
    ensures a.None? ==> forall i :: 0 <= i < |agents| ==> !SameAgentName(agents[i].name, Trim(name))
  {
    if agents == [] then None
    else if SameAgentName(agents[0].name, Trim(name)) then Some(agents[0])
    else AgentByName(agents[1..], name)
  }

  lemma {:induction false} NameKeepsItsAgent(agents: seq<Agent>, more: seq<Agent>, name: string)
    ensures AgentByName(agents + more, name) ==
            if AgentByName(agents, name).Some? then AgentByName(agents, name) else AgentByName(more, name)
  {
    if agents == [] {
      assert agents + more == more;
    } else {
      NameKeepsItsAgent(agents[1..], more, name);
      assert (agents + more)[1..] == agents[1..] + more;
    }
  }

  // ---- who works a card ---------------------------------------------------------------

  // Only as far as choosing a worker goes: whom the card is assigned to, by account
  // and by the name shown.
  datatype Persons = Persons(ids: seq<string>, names: seq<string>)

  predicate IsAgentName(agents: seq<Agent>, name: string) {
    exists i :: 0 <= i < |agents| && SameAgentName(name, agents[i].name)
  }

  datatype Person = NoOne | AnAgent | Somebody(who: string)

  function Reads(agents: seq<Agent>, name: string): (p: Person)
    ensures p.Somebody? ==> p.who == Trim(name) != ""
  {
    var person := Trim(name);
    if person == "" then NoOne else if IsAgentName(agents, person) then AnAgent else Somebody(person)
  }

  // How the names on a card read: a parameter of the loop, so that only what they
  // read as matters to it.
  type Reader = string -> Person

  function ReadBy(agents: seq<Agent>): Reader {
    (name: string) => Reads(agents, name)
  }

  predicate TakenBy(names: seq<string>, read: Reader) {
    && (exists i :: 0 <= i < |names| && read(names[i]).Somebody?)
    && (forall i :: 0 <= i < |names| ==> !read(names[i]).AnAgent?)
  }

  predicate IsFirstNamed(names: seq<string>, read: Reader, who: string) {
    exists i :: 0 <= i < |names| && read(names[i]) == Somebody(who) && forall j :: 0 <= j < i ==> read(names[j]).NoOne?
  }

  method FirstPerson(names: seq<string>, read: Reader) returns (person: Option<string>)
    ensures person.Some? <==> TakenBy(names, read)
    ensures person.Some? ==> IsFirstNamed(names, read, person.value)
  {
    person := None;
    ghost var at := 0;
    for i := 0 to |names|
      invariant forall j :: 0 <= j < i ==> !read(names[j]).AnAgent?
      invariant forall j :: 0 <= j < i && (person.None? || j < at) ==> read(names[j]).NoOne?
      invariant person.Some? ==> at < i && read(names[at]) == Somebody(person.value)
    {
      match read(names[i])
      case NoOne =>
      case AnAgent =>
        return None;
      case Somebody(who) =>
        if person.None? {
          person, at := Some(who), i;
        }
    }
  }

  // humanAssignee: who took the card for themselves, if nobody it names is an agent.
  method HumanAssignee(persons: Persons, agents: seq<Agent>) returns (who: string)
    ensures who != "" <==> TakenByPerson(persons.names, agents)
    ensures who != "" ==> IsFirstNamed(persons.names, ReadBy(agents), who)
  {
    var person := FirstPerson(persons.names, ReadBy(agents));
    who := if person.Some? then person.value else "";
  }

  predicate TakenByPerson(names: seq<string>, agents: seq<Agent>) {
    TakenBy(names, ReadBy(agents))
  }

  function CrewMembers(roster: seq<string>, agents: seq<Agent>): (crew: seq<Agent>)
    ensures forall i :: 0 <= i < |crew| ==> crew[i] in agents
  {
    if roster == [] then []
    else
      var a := AgentByID(agents, roster[0]);
      (if a.Some? then [a.value] else []) + CrewMembers(roster[1..], agents)
  }

  function FirstWithAccount(crew: seq<Agent>, id: string): Option<Agent> {
    if crew == [] || Trim(id) == "" then None
    else if crew[0].userID == Trim(id) then Some(crew[0])
    else FirstWithAccount(crew[1..], id)
  }

  function FirstCalled(crew: seq<Agent>, name: string): Option<Agent> {
    if crew == [] then None
    else if SameAgentName(name, crew[0].name) then Some(crew[0])
    else FirstCalled(crew[1..], name)
  }

  // The first of the card's assignees, accounts before names, who is on the crew.
  function Assignee(persons: Persons, crew: seq<Agent>): (a: Option<Agent>)
    ensures a.Some? ==> a.value in crew
    decreases |persons.ids| + |persons.names|
  {
    if persons.ids != [] then
      var a := FirstWithAccount(crew, persons.ids[0]);
      FirstWithAccountIn(crew, persons.ids[0]);
      if a.Some? then a else Assignee(persons.(ids := persons.ids[1..]), crew)
    else if persons.names != [] then
      var a := FirstCalled(crew, persons.names[0]);
      FirstCalledIn(crew, persons.names[0]);
      if a.Some? then a else Assignee(persons.(names := persons.names[1..]), crew)
    else None
  }

  lemma FirstWithAccountIn(crew: seq<Agent>, id: string)
    ensures FirstWithAccount(crew, id).Some? ==> FirstWithAccount(crew, id).value in crew
  {
  }

  lemma FirstCalledIn(crew: seq<Agent>, name: string)
    ensures FirstCalled(crew, name).Some? ==> FirstCalled(crew, name).value in crew
  {
  }

  // An account the card stores is asked before any name it shows: the choice is the
  // first of the accounts that is on the crew, and only when none is, the first name.
  lemma {:induction false} AccountsBeforeNames(persons: Persons, crew: seq<Agent>, i: nat)
    requires i < |persons.ids| && FirstWithAccount(crew, persons.ids[i]).Some?
    requires forall k :: 0 <= k < i ==> FirstWithAccount(crew, persons.ids[k]).None?
    ensures Assignee(persons, crew) == FirstWithAccount(crew, persons.ids[i])
    ensures Assignee(persons, crew).value.userID == Trim(persons.ids[i])
    decreases i
  {
    FirstHasTheAccount(crew, persons.ids[i]);
    if i > 0 {
      var rest := persons.(ids := persons.ids[1..]);
      assert FirstWithAccount(crew, persons.ids[0]).None?;
      assert forall k :: 0 <= k < |rest.ids| ==> rest.ids[k] == persons.ids[k + 1];
      AccountsBeforeNames(rest, crew, i - 1);
    }
  }

  lemma FirstHasTheAccount(crew: seq<Agent>, id: string)
    ensures FirstWithAccount(crew, id).Some? ==> FirstWithAccount(crew, id).value.userID == Trim(id)
  {
  }

  // The first member nobody keeps busy, by names with the case folded.
  function FirstFree(crew: seq<Agent>, busy: set<string>): (a: Option<Agent>)
    ensures a.Some? ==> a.value in crew && Fold(a.value.name) !in busy
    ensures a.None? ==> forall i :: 0 <= i < |crew| ==> Fold(crew[i].name) in busy
  {
    if crew == [] then None
    else if Fold(crew[0].name) !in busy then Some(crew[0])
    else FirstFree(crew[1..], busy)
  }

  datatype Worker = Works(agent: Agent) | AllBusy | Nobody

  // resolveSessionAgent. fallback is the entry an empty registry is worked by, when
  // the machine's agent mode names one.
  function ResolveWorker(persons: Persons, roster: seq<string>, agents: seq<Agent>, busy: set<string>,
                         fallback: Option<Agent>): Worker
  {
    var crew := if roster == [] then agents else CrewMembers(roster, agents);
    if roster != [] && crew == [] then Nobody
    else
      var chosen := Assignee(persons, crew);
      if chosen.Some? then Works(chosen.value)
      else if roster != [] then
        var free := FirstFree(crew, busy);
        if free.Some? then Works(free.value) else AllBusy
      else if |agents| == 1 then Works(agents[0])
      else if |agents| > 1 || fallback.None? then Nobody
      else Works(fallback.value)
  }

  // A crew is a membership list: a stage with one is worked only by its members,
  // and by somebody idle unless the card names who it wants. It is busy only when
  // every member is.
  lemma CrewDecides(persons: Persons, roster: seq<string>, agents: seq<Agent>, busy: set<string>, fallback: Option<Agent>)
    requires roster != []
    ensures var crew := CrewMembers(roster, agents);
            match ResolveWorker(persons, roster, agents, busy, fallback)
            case Works(a) => a in crew && (Assignee(persons, crew).Some? || Fold(a.name) !in busy)
            case AllBusy => crew != [] && Assignee(persons, crew).None? && forall a :: a in crew ==> Fold(a.name) in busy
            case Nobody => forall i :: 0 <= i < |roster| ==> AgentByID(agents, roster[i]).None?
  {
    CrewIsEmptyWhenNobodyAnswers(roster, agents);
    var crew := CrewMembers(roster, agents);
    forall a | a in crew && FirstFree(crew, busy).None? ensures Fold(a.name) in busy {
      var i :| 0 <= i < |crew| && crew[i] == a;
    }
  }

  lemma {:induction false} CrewIsEmptyWhenNobodyAnswers(roster: seq<string>, agents: seq<Agent>)
    ensures CrewMembers(roster, agents) == [] <==> forall i :: 0 <= i < |roster| ==> AgentByID(agents, roster[i]).None?
  {
    if roster != [] {
      var rest := roster[1..];
      CrewIsEmptyWhenNobodyAnswers(rest, agents);
      assert forall i :: 0 < i < |roster| ==> roster[i] == rest[i - 1];
      assert forall i :: 0 <= i < |rest| ==> rest[i] == roster[i + 1];
    }
  }

  // ---- who works it, exactly ----------------------------------------------------------

  predicate ByAccount(id: string, a: Agent) {
    Trim(id) != "" && a.userID == Trim(id)
  }

  predicate ByName(name: string, a: Agent) {
    SameAgentName(name, a.name)
  }

  type Match = (string, Agent) -> bool

  predicate AnyMatch(keys: seq<string>, crew: seq<Agent>, match_: Match) {
    exists i, j :: 0 <= i < |keys| && 0 <= j < |crew| && match_(keys[i], crew[j])
  }

  // The first key anybody answers to, and the first who does.
  predicate IsPicked(keys: seq<string>, crew: seq<Agent>, match_: Match, i: nat, j: nat) {
    && i < |keys| && j < |crew| && match_(keys[i], crew[j])
    && (forall k :: 0 <= k < j ==> !match_(keys[i], crew[k]))
    && (forall h, k :: 0 <= h < i && 0 <= k < |crew| ==> !match_(keys[h], crew[k]))
  }

  lemma {:induction false} AccountIsFirst(crew: seq<Agent>, id: string, account: Match)
    requires account == ByAccount
    ensures var a := FirstWithAccount(crew, id);
            if a.Some? then exists j :: 0 <= j < |crew| && crew[j] == a.value && account(id, crew[j])
                                        && forall k :: 0 <= k < j ==> !account(id, crew[k])
            else forall j :: 0 <= j < |crew| ==> !account(id, crew[j])
  {
    if crew != [] {
      var rest := crew[1..];
      AccountIsFirst(rest, id, account);
      if FirstWithAccount(crew, id).Some? && !account(id, crew[0]) {
        var j :| 0 <= j < |rest| && rest[j] == FirstWithAccount(rest, id).value && account(id, rest[j])
              && forall k :: 0 <= k < j ==> !account(id, rest[k]);
        assert crew[j + 1] == rest[j];
        assert forall k :: 0 < k < j + 1 ==> crew[k] == rest[k - 1];
      }
      assert forall k :: 0 < k < |crew| ==> crew[k] == rest[k - 1];
    }
  }

  lemma {:induction false} CalledIsFirst(crew: seq<Agent>, name: string, called: Match)
    requires called == ByName
    ensures var a := FirstCalled(crew, name);
            if a.Some? then exists j :: 0 <= j < |crew| && crew[j] == a.value && called(name, crew[j])
                                        && forall k :: 0 <= k < j ==> !called(name, crew[k])
            else forall j :: 0 <= j < |crew| ==> !called(name, crew[j])
  {
    if crew != [] {
      var rest := crew[1..];
      CalledIsFirst(rest, name, called);
      if FirstCalled(crew, name).Some? && !called(name, crew[0]) {
        var j :| 0 <= j < |rest| && rest[j] == FirstCalled(rest, name).value && called(name, rest[j])
              && forall k :: 0 <= k < j ==> !called(name, rest[k]);
        assert crew[j + 1] == rest[j];
        assert forall k :: 0 < k < j + 1 ==> crew[k] == rest[k - 1];
      }
      assert forall k :: 0 < k < |crew| ==> crew[k] == rest[k - 1];
    }
  }

  // Whom a card asks for: the first of its accounts anybody on the crew has; when
  // nobody has one, the first of the names it shows; else nobody.
  lemma AssigneeIsPicked(persons: Persons, crew: seq<Agent>)
    ensures forall i: nat, j: nat :: IsPicked(persons.ids, crew, ByAccount, i, j) ==> Assignee(persons, crew) == Some(crew[j])
    ensures !AnyMatch(persons.ids, crew, ByAccount) ==>
              forall i: nat, j: nat :: IsPicked(persons.names, crew, ByName, i, j) ==> Assignee(persons, crew) == Some(crew[j])
    ensures !AnyMatch(persons.ids, crew, ByAccount) && !AnyMatch(persons.names, crew, ByName) ==>
              Assignee(persons, crew).None?
  {
    AccountsArePicked(persons, crew, ByAccount);
    NamesArePicked(persons.names, crew, ByName);
  }

  lemma {:induction false} NamesArePicked(names: seq<string>, crew: seq<Agent>, called: Match)
    requires called == ByName
    ensures forall i: nat, j: nat :: IsPicked(names, crew, called, i, j) ==> Assignee(Persons([], names), crew) == Some(crew[j])
    ensures !AnyMatch(names, crew, called) ==> Assignee(Persons([], names), crew).None?
  {
    if names != [] {
      CalledIsFirst(crew, names[0], called);
      NamesArePicked(names[1..], crew, called);
      RestMatches(names, crew, called);
    }
  }

  lemma {:induction false} AccountsArePicked(persons: Persons, crew: seq<Agent>, account: Match)
    requires account == ByAccount
    ensures forall i: nat, j: nat :: IsPicked(persons.ids, crew, account, i, j) ==> Assignee(persons, crew) == Some(crew[j])
    ensures !AnyMatch(persons.ids, crew, account) ==> Assignee(persons, crew) == Assignee(Persons([], persons.names), crew)
    decreases |persons.ids|
  {
    if persons.ids != [] {
      AccountIsFirst(crew, persons.ids[0], account);
      AccountsArePicked(persons.(ids := persons.ids[1..]), crew, account);
      RestMatches(persons.ids, crew, account);
    } else {
      assert persons == Persons([], persons.names);
    }
  }

  lemma RestMatches(keys: seq<string>, crew: seq<Agent>, match_: Match)
    requires keys != []
    ensures AnyMatch(keys, crew, match_) <==>
            (exists j :: 0 <= j < |crew| && match_(keys[0], crew[j])) || AnyMatch(keys[1..], crew, match_)
    ensures forall i: nat, j: nat :: IsPicked(keys, crew, match_, i, j) && i > 0 ==> IsPicked(keys[1..], crew, match_, i - 1, j)
  {
    var rest := keys[1..];
    assert forall i :: 0 < i < |keys| ==> keys[i] == rest[i - 1];
    assert forall i :: 0 <= i < |rest| ==> rest[i] == keys[i + 1];
  }

  // Its own name, in any case, is an agent's.
  lemma OwnNameIsIts(name: string, own: string)
    requires Trim(name) != "" && EqualFold(Trim(name), own)
    ensures SameAgentName(name, own)
  {
  }

  // With no crew: the assignee, whoever is registered; else the only agent there is;
  // with several, nobody; and with none, whoever an empty registry is worked by.
  lemma WithoutACrew(persons: Persons, agents: seq<Agent>, busy: set<string>, fallback: Option<Agent>)
    ensures var w := ResolveWorker(persons, [], agents, busy, fallback);
            var chosen := Assignee(persons, agents);
            && !w.AllBusy?
            && (chosen.Some? ==> w == Works(chosen.value))
            && (chosen.None? && |agents| == 1 ==> w == Works(agents[0]))
            && (chosen.None? && |agents| > 1 ==> w == Nobody)
            && (chosen.None? && agents == [] ==> w == if fallback.Some? then Works(fallback.value) else Nobody)
  {
  }

  // With one: the assignee, if on it; else the first of it nobody keeps busy; all busy
  // when each is; and nobody exactly when no id of it is registered.
  lemma WithACrew(persons: Persons, roster: seq<string>, agents: seq<Agent>, busy: set<string>, fallback: Option<Agent>)
    requires roster != []
    ensures var w, crew := ResolveWorker(persons, roster, agents, busy, fallback), CrewMembers(roster, agents);
            var chosen := Assignee(persons, crew);
            && (w.Nobody? <==> crew == [])
            && (w.AllBusy? <==> crew != [] && chosen.None? && forall i :: 0 <= i < |crew| ==> Fold(crew[i].name) in busy)
            && (chosen.Some? ==> w == Works(chosen.value))
            && (chosen.None? ==> forall i: nat :: IsFirstIdle(crew, busy, i) ==> w == Works(crew[i]))
  {
    var crew := CrewMembers(roster, agents);
    FreeIsFirst(crew, busy);
    if crew == [] {
      assert Assignee(persons, crew).None?;
    }
  }

  predicate IsFirstIdle(crew: seq<Agent>, busy: set<string>, i: nat) {
    i < |crew| && Fold(crew[i].name) !in busy && forall k :: 0 <= k < i ==> Fold(crew[k].name) in busy
  }

  predicate IsFirstWithID(agents: seq<Agent>, id: string, i: nat) {
    i < |agents| && Trim(id) != "" && agents[i].id == Trim(id) && forall k :: 0 <= k < i ==> agents[k].id != Trim(id)
  }

  lemma {:induction false} FreeIsFirst(crew: seq<Agent>, busy: set<string>)
    ensures forall i: nat :: IsFirstIdle(crew, busy, i) ==> FirstFree(crew, busy) == Some(crew[i])
    ensures FirstFree(crew, busy).None? <==> forall i :: 0 <= i < |crew| ==> Fold(crew[i].name) in busy
  {
    if crew != [] {
      var rest := crew[1..];
      FreeIsFirst(rest, busy);
      forall i: nat | IsFirstIdle(crew, busy, i) && i > 0 ensures IsFirstIdle(rest, busy, i - 1) && rest[i - 1] == crew[i] {
        assert forall k :: 0 <= k < i - 1 ==> rest[k] == crew[k + 1];
      }
      assert forall i :: 0 < i < |crew| ==> crew[i] == rest[i - 1];
      assert forall i :: 0 <= i < |rest| ==> rest[i] == crew[i + 1];
    }
  }

  // A crew is the agents its ids are, in its order.
  lemma {:induction false} CrewIsItsIDs(roster: seq<string>, more: seq<string>, agents: seq<Agent>)
    ensures CrewMembers(roster + more, agents) == CrewMembers(roster, agents) + CrewMembers(more, agents)
    ensures |roster| == 1 ==>
              forall i: nat :: IsFirstWithID(agents, roster[0], i) ==> CrewMembers(roster, agents) == [agents[i]]
    ensures |roster| == 1 && (Trim(roster[0]) == "" || forall i :: 0 <= i < |agents| ==> agents[i].id != Trim(roster[0])) ==>
              CrewMembers(roster, agents) == []
  {
    if roster == [] {
      assert roster + more == more;
    } else {
      assert (roster + more)[0] == roster[0] && (roster + more)[1..] == roster[1..] + more;
      CrewIsItsIDs(roster[1..], more, agents);
      IDIsFirst(agents, roster[0]);
    }
  }

  lemma {:induction false} IDIsFirst(agents: seq<Agent>, id: string)
    ensures forall i: nat :: IsFirstWithID(agents, id, i) ==> AgentByID(agents, id) == Some(agents[i])
    ensures AgentByID(agents, id).None? <==> Trim(id) == "" || forall i :: 0 <= i < |agents| ==> agents[i].id != Trim(id)
  {
    if agents != [] {
      var rest := agents[1..];
      IDIsFirst(rest, id);
      forall i: nat | IsFirstWithID(agents, id, i) && i > 0 ensures IsFirstWithID(rest, id, i - 1) && rest[i - 1] == agents[i] {
        assert forall k :: 0 <= k < i - 1 ==> rest[k] == agents[k + 1];
      }
      assert forall i :: 0 < i < |agents| ==> agents[i] == rest[i - 1];
      assert forall i :: 0 <= i < |rest| ==> rest[i] == agents[i + 1];
    }
  }

  // A card is somebody's who is no agent exactly when it names someone and none of
  // those it names is an agent.
  lemma TakenExactlyWhen(names: seq<string>, agents: seq<Agent>)
    ensures TakenByPerson(names, agents) <==> NamesAPerson(names, agents)
  {
    forall i | 0 <= i < |names| ensures Reads(agents, names[i]).AnAgent? <==> NamesAgent(names[i], agents) {
    }
  }

  predicate NamesAgent(name: string, agents: seq<Agent>) {
    Trim(name) != "" && exists k :: 0 <= k < |agents| && SameAgentName(Trim(name), agents[k].name)
  }

  predicate NamesAPerson(names: seq<string>, agents: seq<Agent>) {
    (exists i :: 0 <= i < |names| && Trim(names[i]) != "") && forall i :: 0 <= i < |names| ==> !NamesAgent(names[i], agents)
  }
}
