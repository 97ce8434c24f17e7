/** Binding what a board's automation names to what this machine has registered
    (internal/acp/bindrefs.go). */
module Binding {
  import opened Text
  import opened Flows
  import opened Columns
  import A = Agents
  import Crew

  datatype BoardOption = BoardOption(propertyID: string, optionID: string, name: string)

  // What a machine can answer: which ids it knows, and what the names people wrote
  // resolve to.
  datatype Machine = Machine(
    r: Registries,
    crew: Crew.Resolver,
    deploy: string -> Option<string>,
    workdir: string -> Option<string>,
    option: string -> Option<BoardOption>)

  // The last blank a person typed does not change what a name means.
  ghost predicate NamesTrimmed(m: Machine) {
    forall name :: m.option(Trim(name)) == m.option(name)
  }

  function EntryNamed(entries: seq<Entry>, name: string): Option<string> {
    if entries == [] then None
    else if EqualFold(Trim(entries[0].name), Trim(name)) then Some(entries[0].id)
    else EntryNamed(entries[1..], name)
  }

  function OptionNamed(options: seq<BoardOption>, name: string): Option<BoardOption> {
    if options == [] || Trim(name) == "" then None
    else if EqualFold(Trim(options[0].name), Trim(name)) then Some(options[0])
    else OptionNamed(options[1..], name)
  }

  function AgentEntries(agents: seq<A.Agent>): seq<Entry> {
    seq(|agents|, i requires 0 <= i < |agents| => Entry(agents[i].id, agents[i].name))
  }

  function OptionLookup(options: seq<BoardOption>): string -> Option<BoardOption> {
    (name: string) => OptionNamed(options, name)
  }

  function EntryLookup(entries: seq<Entry>): string -> Option<string> {
    (name: string) => EntryNamed(entries, name)
  }

  function MachineOf(workdirs: seq<Entry>, agents: seq<A.Agent>, deploys: seq<Entry>, options: seq<BoardOption>): Machine {
    Machine(Registries(workdirs, AgentEntries(agents), deploys), Crew.By(agents),
            EntryLookup(deploys), EntryLookup(workdirs), OptionLookup(options))
  }

  ghost predicate IsFirstNamed(names: seq<string>, name: string, i: nat) {
    && i < |names| && SameWords(Trim(names[i]), Trim(name))
    && forall k :: 0 <= k < i ==> !SameWords(Trim(names[k]), Trim(name))
  }

  ghost predicate IsUnnamed(names: seq<string>, name: string) {
    forall k :: 0 <= k < |names| ==> !SameWords(Trim(names[k]), Trim(name))
  }

  function EntryNames(entries: seq<Entry>): seq<string> {
    seq(|entries|, i requires 0 <= i < |entries| => entries[i].name)
  }

  function OptionNames(options: seq<BoardOption>): seq<string> {
    seq(|options|, i requires 0 <= i < |options| => options[i].name)
  }

  // A name, in any case and whatever blanks are around it, is the first entry's of that name.
  lemma {:induction false} EntryNamedIsFirst(entries: seq<Entry>, name: string) returns (i: nat)
    ensures EntryNamed(entries, name).Some? ==>
              IsFirstNamed(EntryNames(entries), name, i) && EntryNamed(entries, name).value == entries[i].id
    ensures EntryNamed(entries, name).None? ==> IsUnnamed(EntryNames(entries), name)
  {
    i := 0;
    if entries != [] {
      SameInAnyCase(Trim(entries[0].name), Trim(name));
      if !EqualFold(Trim(entries[0].name), Trim(name)) {
        var j := EntryNamedIsFirst(entries[1..], name);
        assert EntryNames(entries) == [entries[0].name] + EntryNames(entries[1..]);
        i := j + 1;
      }
    }
  }

  // Of options the same, but that no option is meant by no name.
  lemma {:induction false} OptionNamedIsFirst(options: seq<BoardOption>, name: string) returns (i: nat)
    ensures OptionNamed(options, name).Some? ==>
              && Trim(name) != "" && IsFirstNamed(OptionNames(options), name, i)
              && OptionNamed(options, name).value == options[i]
    ensures OptionNamed(options, name).None? ==> Trim(name) == "" || IsUnnamed(OptionNames(options), name)
  {
    i := 0;
    if options != [] && Trim(name) != "" {
      SameInAnyCase(Trim(options[0].name), Trim(name));
      if !EqualFold(Trim(options[0].name), Trim(name)) {
        var j := OptionNamedIsFirst(options[1..], name);
        assert OptionNames(options) == [options[0].name] + OptionNames(options[1..]);
        i := j + 1;
      }
    }
  }

  lemma {:induction false} OptionNamedTrimmed(options: seq<BoardOption>, name: string)
    ensures OptionNamed(options, Trim(name)) == OptionNamed(options, name)
  {
    TrimIdempotent(name);
    if options != [] {
      OptionNamedTrimmed(options[1..], name);
    }
  }

  lemma MachinesTrimNames(workdirs: seq<Entry>, agents: seq<A.Agent>, deploys: seq<Entry>, options: seq<BoardOption>)
    ensures NamesTrimmed(MachineOf(workdirs, agents, deploys, options))
  {
    var m := MachineOf(workdirs, agents, deploys, options);
    forall name ensures m.option(Trim(name)) == m.option(name) {
      OptionNamedTrimmed(options, name);
    }
  }

  // ---- what binding does ---------------------------------------------------------

  // A pin written as a name becomes the id it names, once, and if anything answers.
  function BindDeploy(id: string, name: string, m: Machine): (string, string) {
    if Trim(id) != "" || Trim(name) == "" || m.deploy(name).None? then (id, name)
    else (m.deploy(name).value, "")
  }

  function BindColumnRefs(c: Column, m: Machine): Column {
    var (deployID, deployName) := BindDeploy(c.deployID, c.deployName, m);
    c.(deployID := deployID, deployName := deployName,
       agentIDs := Crew.Bound(c.agentIDs, c.agentNames, m.crew), agentNames := Crew.Kept(c.agentNames, m.crew))
  }

  // The singular field is folded into the plural one first.
  function CrewNames(n: FlowNode): seq<string> {
    if n.agentName != "" then n.agentNames + [n.agentName] else n.agentNames
  }

  function BindNodeRefs(n: FlowNode, m: Machine): FlowNode {
    var (deployID, deployName) := BindDeploy(n.deployID, n.deployName, m);
    n.(deployID := deployID, deployName := deployName,
       agentIDs := Crew.Bound(n.agentIDs, CrewNames(n), m.crew), agentNames := Crew.Kept(CrewNames(n), m.crew),
       agentName := "")
  }

  function BindWorkspace(h: FlowHead, m: Machine): FlowHead {
    if Trim(h.workspaceID) != "" || Trim(h.workdirName) == "" || m.workdir(h.workdirName).None? then h
    else h.(workspaceID := m.workdir(h.workdirName).value, workdirName := "")
  }

  function BindColumnOption(c: Column, boardID: string, m: Machine): Column {
    if c.optionID != "" || m.option(c.column).None? then c
    else
      var o := m.option(c.column).value;
      c.(boardID := boardID, propertyID := o.propertyID, optionID := o.optionID)
  }

  function BindStageOption(n: FlowNode, m: Machine): FlowNode {
    if n.optionID != "" || m.option(n.column).None? then n else n.(optionID := m.option(n.column).value.optionID)
  }

  // ---- bound once is bound ----------------------------------------------------------

  lemma DeployTwice(id: string, name: string, m: Machine)
    ensures var (id', name') := BindDeploy(id, name, m); BindDeploy(id', name', m) == (id', name')
  {
  }

  lemma ColumnRefsTwice(c: Column, m: Machine)
    ensures BindColumnRefs(BindColumnRefs(c, m), m) == BindColumnRefs(c, m)
  {
    DeployTwice(c.deployID, c.deployName, m);
    Crew.BindingIsIdempotent(Crew.Bound(c.agentIDs, c.agentNames, m.crew), c.agentNames, m.crew);
  }

  lemma NodeRefsTwice(n: FlowNode, m: Machine)
    ensures BindNodeRefs(BindNodeRefs(n, m), m) == BindNodeRefs(n, m)
  {
    DeployTwice(n.deployID, n.deployName, m);
    Crew.BindingIsIdempotent(Crew.Bound(n.agentIDs, CrewNames(n), m.crew), CrewNames(n), m.crew);
  }

  // What names nothing any more is bound already, on any machine.
  lemma NothingToBind(c: Column, m: Machine)
    requires c.agentNames == [] && c.deployName == ""
    ensures BindColumnRefs(c, m) == c
  {
    assert Trim("") == "";
  }

  lemma NothingToBindHere(n: FlowNode, m: Machine)
    requires n.agentNames == [] && n.agentName == "" && n.deployName == ""
    ensures BindNodeRefs(n, m) == n
  {
    assert Trim("") == "";
  }

  // ---- the same, in place --------------------------------------------------------------

  method BindColumn(c: Column, m: Machine) returns (bound: Column, changed: bool)
    ensures bound == BindColumnRefs(c, m)
    ensures changed <==> bound.deployName != c.deployName || bound.agentNames != c.agentNames
  {
    var (deployID, deployName) := BindDeploy(c.deployID, c.deployName, m);
    var ids, kept, folded := Crew.BindCrew(c.agentIDs, c.agentNames, m.crew);
    bound := c.(deployID := deployID, deployName := deployName, agentIDs := ids, agentNames := kept);
    changed := deployName != c.deployName || folded;
  }

  method BindStages(nodes: array<FlowNode>, m: Machine)
    modifies nodes
    ensures |nodes[..]| == |old(nodes[..])|
    ensures forall i :: 0 <= i < nodes.Length ==> nodes[i] == BindNodeRefs(old(nodes[i]), m)
  {
    for i := 0 to nodes.Length
      invariant forall k :: 0 <= k < i ==> nodes[k] == BindNodeRefs(old(nodes[k]), m)
      invariant forall k :: i <= k < nodes.Length ==> nodes[k] == old(nodes[k])
    {
      var bound := BindStage(nodes[i], m);
      nodes[i] := bound;
    }
  }

  method BindStage(n: FlowNode, m: Machine) returns (bound: FlowNode)
    ensures bound == BindNodeRefs(n, m)
  {
    var (deployID, deployName) := BindDeploy(n.deployID, n.deployName, m);
    var names := if n.agentName != "" then n.agentNames + [n.agentName] else n.agentNames;
    var ids, kept, _ := Crew.BindCrew(n.agentIDs, names, m.crew);
    bound := n.(deployID := deployID, deployName := deployName, agentIDs := ids, agentNames := kept, agentName := "");
  }

  method BindStageOptions(nodes: array<FlowNode>, m: Machine)
    modifies nodes
    ensures |nodes[..]| == |old(nodes[..])|
    ensures forall i :: 0 <= i < nodes.Length ==> nodes[i] == BindStageOption(old(nodes[i]), m)
  {
    for i := 0 to nodes.Length
      invariant forall k :: 0 <= k < i ==> nodes[k] == BindStageOption(old(nodes[k]), m)
      invariant forall k :: i <= k < nodes.Length ==> nodes[k] == old(nodes[k])
    {
      nodes[i] := BindStageOption(nodes[i], m);
    }
  }
}
