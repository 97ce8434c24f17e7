/** A column's settings: when two specs are the same column, and what is accepted
    (internal/acp/columns.go). */
module Columns {
  import opened Text
  import T = Tools
  import opened Flows

  // rest stands for what validation passes through: the prompt, the declared inputs
  // and outputs.
  datatype Column = Column(
    boardID: string, propertyID: string, optionID: string, property: string, column: string, action: string,
    agentIDs: seq<string>, agentNames: seq<string>, deployID: string, deployName: string,
    maxRunning: int, tools: T.Servers, rest: string)

  // The same option of the same board, or, while either has no option of its own,
  // the same name on boards that are not known to differ.
  predicate SameColumn(a: Column, b: Column) {
    if a.optionID != "" && b.optionID != "" then a.optionID == b.optionID && a.boardID == b.boardID
    else EqualFold(a.column, b.column) && (a.boardID == b.boardID || a.boardID == "" || b.boardID == "")
  }

  // The same words, in any case.
  predicate SameWords(a: string, b: string) {
    |a| == |b| && forall i :: 0 <= i < |a| ==> SameLetter(a[i], b[i])
  }

  // Two boards that may be one: the same, or either of them not said.
  predicate MayBeOne(a: string, b: string) {
    a == "" || b == "" || a == b
  }

  lemma SameColumnExactlyWhen(a: Column, b: Column)
    ensures SameColumn(a, b) <==>
            || (a.optionID == b.optionID != "" && a.boardID == b.boardID)
            || ((a.optionID == "" || b.optionID == "") && SameWords(a.column, b.column) && MayBeOne(a.boardID, b.boardID))
  {
    SameInAnyCase(a.column, b.column);
  }

  function NormAction(action: string): string {
    if Trim(action) == "" then "none" else Trim(action)
  }

  function NormColumn(c: Column): Column {
    c.(property := Trim(c.property), column := Trim(c.column), action := NormAction(c.action),
       agentIDs := NormRoster(c.agentIDs), deployID := Trim(c.deployID), tools := T.NormTools(c.tools))
  }

  predicate ColumnOk(c: Column, r: Registries) {
    && c.agentNames == [] && c.deployName == ""
    && Trim(c.column) != "" && Trim(c.property) != "" && NormAction(c.action) in ["none", "agent", "deploy", "test"]
    && RosterKnown(c.agentIDs, r.agents)
    && (Trim(c.deployID) != "" ==> Has(r.deploys, c.deployID))
    && c.maxRunning >= 0 && T.ToolsOk(c.tools)
  }

  // The same column: bound to what it was, with the limit, the prompt and the inputs and
  // outputs it had, its words and its roster tidied, and its action said.
  ghost predicate IsTidyColumn(c: Column, v: Column) {
    && v.boardID == c.boardID && v.propertyID == c.propertyID && v.optionID == c.optionID
    && v.property == Trim(c.property) && v.column == Trim(c.column)
    && v.action == (if Trim(c.action) == "" then "none" else Trim(c.action))
    && IsRosterOf(c.agentIDs, v.agentIDs) && v.agentNames == c.agentNames
    && v.deployID == Trim(c.deployID) && v.deployName == c.deployName
    && v.maxRunning == c.maxRunning && T.AreTidied(c.tools, v.tools) && v.rest == c.rest
  }

  lemma NormColumnIsTidy(c: Column)
    requires T.ToolsOk(c.tools)
    ensures IsTidyColumn(c, NormColumn(c))
  {
    NormRosterIsIt(c.agentIDs);
    T.NormToolsAreTidied(c.tools);
  }

  // It names its property and its option, does one of the things there are to do, refers
  // by id alone to agents and deploys there are, and limits itself to no less than none.
  ghost predicate ColumnFits(c: Column, r: Registries) {
    && c.agentNames == [] && c.deployName == "" && Trim(c.column) != "" && Trim(c.property) != ""
    && Trim(c.action) in {"", "none", "agent", "deploy", "test"}
    && (forall i :: 0 <= i < |c.agentIDs| ==> Trim(c.agentIDs[i]) == "" || IsAmong(r.agents, c.agentIDs[i]))
    && (Trim(c.deployID) == "" || IsAmong(r.deploys, c.deployID))
    && 0 <= c.maxRunning && T.AreFit(c.tools)
  }

  lemma FitsExactlyWhen(c: Column, r: Registries)
    ensures ColumnOk(c, r) <==> ColumnFits(c, r)
  {
    T.FitAreOk(c.tools);
    assert forall i :: 0 <= i < |c.agentIDs| ==>
      (Knows(r.agents, c.agentIDs[i]) <==> Trim(c.agentIDs[i]) == "" || IsAmong(r.agents, c.agentIDs[i]));
    assert Has(r.deploys, c.deployID) <==> Trim(c.deployID) != "" && IsAmong(r.deploys, c.deployID);
  }

  method ValidateColumn(c: Column, r: Registries) returns (valid: Option<Column>)
    ensures valid == if ColumnOk(c, r) then Some(NormColumn(c)) else None
    ensures valid.Some? <==> ColumnFits(c, r)
    ensures valid.Some? ==> IsTidyColumn(c, valid.value)
  {
    FitsExactlyWhen(c, r);
    if ColumnOk(c, r) {
      NormColumnIsTidy(c);
    }
    if c.agentNames != [] || c.deployName != "" {
      return None;
    }
    var property, column, action := Trim(c.property), Trim(c.column), Trim(c.action);
    if column == "" || property == "" {
      return None;
    }
    if action == "" {
      action := "none";
    }
    if action !in ["none", "agent", "deploy", "test"] {
      return None;
    }
    var roster := CheckRoster(c.agentIDs, r.agents);
    if roster.None? {
      return None;
    }
    var deployID := Trim(c.deployID);
    TrimIdempotent(c.deployID);
    if (deployID != "" && !Has(r.deploys, deployID)) || c.maxRunning < 0 {
      return None;
    }
    var tools := T.ValidateTools(c.tools);
    if tools.None? {
      return None;
    }
    return Some(c.(property := property, column := column, action := action,
                   agentIDs := roster.value, deployID := deployID, tools := tools.value));
  }

  // An accepted spec is accepted again, as it is, and wherever its ids are known.
  lemma AcceptedColumnStays(c: Column, r: Registries, r': Registries)
    requires ColumnOk(c, r)
    requires forall id :: Has(r.agents, id) ==> Has(r'.agents, id)
    requires forall id :: Has(r.deploys, id) ==> Has(r'.deploys, id)
    ensures ColumnOk(NormColumn(c), r') && NormColumn(NormColumn(c)) == NormColumn(c)
  {
    TrimIdempotent(c.property);
    TrimIdempotent(c.column);
    TrimIdempotent(c.deployID);
    ActionTwice(c.action);
    RosterTwice(c.agentIDs);
    RosterStaysKnown(c.agentIDs, r.agents, r'.agents);
    T.ToolsTwice(c.tools);
    assert Trim(c.deployID) != "" ==> Has(r'.deploys, c.deployID);
  }

  lemma ActionTwice(action: string)
    ensures NormAction(NormAction(action)) == NormAction(action)
  {
    TrimIdempotent(action);
  }
}
