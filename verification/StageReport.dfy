/** How a stage of a route that runs in a terminal learns it is over: finish_work
    checks the report, puts its fields on the card and hands it to the waiting
    stage (internal/acp/stageterminal.go). */
module StageReport {
  import opened Text
  import opened Rendezvous

  datatype PropertyWrite = PropertyWrite(property: string, required: bool)

  datatype Report = Report(ok: bool, summary: string, fields: map<string, string>)

  ghost predicate Carries(fields: map<string, string>, property: string) {
    exists k :: k in fields && EqualFold(k, property) && Trim(fields[k]) != ""
  }

  ghost predicate Complete(writes: seq<PropertyWrite>, fields: map<string, string>) {
    forall w :: w in writes && w.required ==> Carries(fields, w.property)
  }

  // ---- the check, as the code makes it ------------------------------------------

  // A field read the way a person named the property. Two spellings of one name
  // in a map have no order, so either may be found.
  method FieldsHave(fields: map<string, string>, property: string) returns (value: Option<string>)
    ensures value.None? <==> forall k :: k in fields ==> !EqualFold(k, property)
    ensures value.Some? ==> exists k :: k in fields && EqualFold(k, property) && fields[k] == value.value
  {
    var rest := fields.Keys;
    while rest != {}
      invariant rest <= fields.Keys
      invariant forall k :: k in fields && k !in rest ==> !EqualFold(k, property)
    {
      var k :| k in rest;
      if EqualFold(k, property) {
        return Some(fields[k]);
      }
      rest := rest - {k};
    }
    return None;
  }

  // The two-step runs one call amounts to.
  lemma Calls(stage: Talk<Report>, who: nat, report: Report)
    requires !Known(stage, who)
    ensures var refused := stage.(refused := stage.refused + {who});
            if stage.registered then
              && Run(stage, [LookUp(who), GiveUp(who)]) == Some(refused)
              && Run(stage, [LookUp(who), Send(who, report)]) ==
                 Some(if stage.buffer.Some? then refused
                      else stage.(buffer := Some(report), accepted := stage.accepted + [(who, report)]))
            else Run(stage, [LookUp(who)]) == Some(refused)
  {
    var found := [LookUp(who)];
    assert found[..0] == [];
    assert Run(stage, found) == Step(stage, LookUp(who));
    var gave, sent := [LookUp(who), GiveUp(who)], [LookUp(who), Send(who, report)];
    assert gave[..1] == found && sent[..1] == found;
    assert stage.holders + {who} - {who} == stage.holders;
  }

  // Some field of that name, in any case, is not blank.
  ghost predicate NamesAValue(fields: map<string, string>, property: string) {
    exists k :: k in fields && Fold(k) == Fold(property) && Trim(fields[k]) != ""
  }

  // It is a required one, and those before it are named.
  ghost predicate FirstUnnamed(writes: seq<PropertyWrite>, fields: map<string, string>, property: string) {
    exists i :: 0 <= i < |writes| && writes[i].required && writes[i].property == property
                && forall k :: 0 <= k < i && writes[k].required ==> NamesAValue(fields, writes[k].property)
  }

  lemma CompleteNamesAll(writes: seq<PropertyWrite>, fields: map<string, string>, n: nat)
    requires n <= |writes| && Complete(writes[..n], fields)
    ensures forall i :: 0 <= i < n && writes[i].required ==> NamesAValue(fields, writes[i].property)
  {
    forall i | 0 <= i < n && writes[i].required ensures NamesAValue(fields, writes[i].property) {
      assert writes[..n][i] in writes[..n];
      var k :| k in fields && EqualFold(k, writes[i].property) && Trim(fields[k]) != "";
    }
  }

  datatype Verdict = Accepted | NotAStage | Missing(property: string) | ColumnIsNotWrittenHere | BoardRefused | AlreadyTold

  // finish_work with nothing else going on between its steps. column is the
  // property a grant may not touch ("" when it names none); boardTakes is the
  // board's own answer to the write, wrote what it then shows.
  method FinishWork(stage: Talk<Report>, writes: seq<PropertyWrite>, who: nat, report: Report,
                    column: string, card: map<string, string>, boardTakes: bool, wrote: map<string, string>)
    returns (verdict: Verdict, stage': Talk<Report>, card': map<string, string>)
    requires !Known(stage, who)
    ensures verdict == NotAStage <==> !stage.registered
    ensures verdict.Accepted? || verdict.AlreadyTold? || verdict.ColumnIsNotWrittenHere? || verdict.BoardRefused? ==>
              forall i :: 0 <= i < |writes| && writes[i].required ==> NamesAValue(report.fields, writes[i].property)
    ensures verdict.BoardRefused? && column != "" ==> forall k :: k in report.fields ==> !EqualFold(k, column)
    ensures verdict.Accepted? || verdict.AlreadyTold? ==>
              && Complete(writes, report.fields)
              && (report.fields != map[] ==>
                    boardTakes && (column != "" ==> forall k :: k in report.fields ==> !EqualFold(k, column)))
              && card' == (if report.fields == map[] then card else wrote)
              && verdict.Accepted? == stage.buffer.None?
              && Run(stage, [LookUp(who), Send(who, report)]) == Some(stage')
    ensures verdict.Missing? ==>
              && FirstUnnamed(writes, report.fields, verdict.property)
              && (var p := verdict.property;
                  || (forall k :: k in report.fields ==> !EqualFold(k, p))
                  || exists k :: k in report.fields && EqualFold(k, p) && Trim(report.fields[k]) == "")
    ensures verdict.ColumnIsNotWrittenHere? ==> column != "" && exists k :: k in report.fields && EqualFold(k, column)
    ensures verdict.BoardRefused? ==> !boardTakes && report.fields != map[]
    ensures verdict.Missing? || verdict.ColumnIsNotWrittenHere? || verdict.BoardRefused? ==>
              card' == card && Run(stage, [LookUp(who), GiveUp(who)]) == Some(stage')
    ensures if verdict.Accepted? then stage'.buffer == Some(report) && stage'.accepted == stage.accepted + [(who, report)]
            else who in stage'.refused && stage'.buffer == stage.buffer && stage'.accepted == stage.accepted
    ensures verdict.NotAStage? ==> card' == card && Run(stage, [LookUp(who)]) == Some(stage')
  {
    stage', card' := stage, card;
    Calls(stage, who, report);
    if !stage.registered {
      return NotAStage, stage.(refused := stage.refused + {who}), card;
    }
    var gone := stage.(refused := stage.refused + {who});
    for i := 0 to |writes|
      invariant Complete(writes[..i], report.fields)
    {
      var w := writes[i];
      CompleteNamesAll(writes, report.fields, i);
      if w.required {
        var v := FieldsHave(report.fields, w.property);
        if v.None? || Trim(v.value) == "" {
          return Missing(w.property), gone, card;
        }
      }
      assert writes[..i + 1] == writes[..i] + [w];
    }
    assert writes[..|writes|] == writes;
    CompleteNamesAll(writes, report.fields, |writes|);
    if report.fields != map[] {
      if column != "" {
        var taken := FieldsHave(report.fields, column);
        if taken.Some? {
          return ColumnIsNotWrittenHere, gone, card;
        }
      }
      if !boardTakes {
        return BoardRefused, gone, card;
      }
      card' := wrote;
    }
    if stage.buffer.None? {
      return Accepted, stage.(buffer := Some(report), accepted := stage.accepted + [(who, report)]), card';
    }
    return AlreadyTold, gone, card';
  }

  // ---- every interleaving ---------------------------------------------------------

  // The card by folded property name. writer is the report each value was last
  // written by, unless something else has changed it since.
  datatype Stage = Stage(
    talk: Talk<Report>,
    writes: seq<PropertyWrite>,
    card: map<string, string>,
    reports: map<nat, Report>,        // reports whose fields have been put on the card
    writer: map<string, nat>,
    overwritten: set<(nat, string)>)

  datatype StageEvent =
    | Protocol(e: Event<Report>)                               // anything but a send
    | Write(who: nat, report: Report, card: map<string, string>)
    | Deliver(who: nat)
    | Edit(name: string, value: string)                        // somebody else changes the card

  predicate Gives(fields: map<string, string>, name: string, value: string) {
    exists k :: k in fields && Fold(k) == name && fields[k] == value
  }

  function Names(fields: map<string, string>): set<string> {
    set k | k in fields :: Fold(k)
  }

  // What SetCardFields leaves: the named properties changed, the others not.
  ghost predicate WrittenFrom(card: map<string, string>, fields: map<string, string>, card': map<string, string>) {
    && card'.Keys == card.Keys + Names(fields)
    && forall name :: name in card' ==>
         if name in Names(fields) then Gives(fields, name, card'[name]) else card'[name] == card[name]
  }

  ghost predicate Next(s: Stage, e: StageEvent, s': Stage) {
    match e
    case Protocol(p) =>
      && !p.Send?
      && (p.GiveUp? ==> p.who !in s.reports)
      && Step(s.talk, p).Some? && s' == s.(talk := Step(s.talk, p).value)
    case Write(who, report, card) =>
      && who in s.talk.holders && who !in s.reports
      && Complete(s.writes, report.fields) && WrittenFrom(s.card, report.fields, card)
      && s' == s.(card := card,
                  reports := s.reports[who := report],
                  writer := map name | name in s.writer.Keys + Names(report.fields) ::
                              if name in Names(report.fields) then who else s.writer[name],
                  overwritten := s.overwritten +
                    set w, name | w in s.reports && name in Names(report.fields) :: (w, name))
    case Deliver(who) =>
      && who in s.reports
      && Step(s.talk, Send(who, s.reports[who])).Some?
      && s' == s.(talk := Step(s.talk, Send(who, s.reports[who])).value)
    case Edit(name, value) =>
      s' == s.(card := s.card[name := value], writer := s.writer - {name},
               overwritten := s.overwritten + set w | w in s.reports :: (w, name))
  }

  ghost predicate IsRun(states: seq<Stage>, events: seq<StageEvent>) {
    && |states| == |events| + 1
    && states[0].talk == Opened() && states[0].reports == map[] && states[0].writer == map[] && states[0].overwritten == {}
    && forall i :: 0 <= i < |events| ==> Next(states[i], events[i], states[i + 1])
  }

  ghost predicate Reachable(s: Stage) {
    exists states: seq<Stage>, events: seq<StageEvent> :: IsRun(states, events) && states[|events|] == s
  }

  lemma OneMore(s: Stage, e: StageEvent, s': Stage)
    requires Reachable(s) && Next(s, e, s')
    ensures Reachable(s')
  {
    var states: seq<Stage>, events: seq<StageEvent> :| IsRun(states, events) && states[|events|] == s;
    assert IsRun(states + [s'], events + [e]);
  }

  // What was accepted is what was checked and put on the card.
  ghost predicate Checked(s: Stage) {
    && Inv(s.talk)
    && (forall i :: 0 <= i < |s.talk.accepted| ==>
          s.talk.accepted[i].0 in s.reports && s.reports[s.talk.accepted[i].0] == s.talk.accepted[i].1)
    && (forall who :: who in s.reports ==> Complete(s.writes, s.reports[who].fields))
  }

  // What the card shows is what its last writer gave.
  ghost predicate Attributed(s: Stage) {
    forall name :: name in s.writer ==>
      s.writer[name] in s.reports && name in s.card && Gives(s.reports[s.writer[name]].fields, name, s.card[name])
  }

  // A written property is still its report's, or was written again.
  ghost predicate Standing(s: Stage) {
    forall who, name :: who in s.reports && name in Names(s.reports[who].fields) ==>
      name in s.card && ((name in s.writer && s.writer[name] == who) || (who, name) in s.overwritten)
  }

  ghost predicate Good(s: Stage) {
    Checked(s) && Attributed(s) && Standing(s)
  }

  lemma NextKeepsChecked(s: Stage, e: StageEvent, s': Stage)
    requires Checked(s) && Next(s, e, s')
    ensures Checked(s')
  {
    match e
    case Protocol(p) => StepKeepsInv(s.talk, p);
    case Write(who, report, card) =>
    case Deliver(who) => StepKeepsInv(s.talk, Send(who, s.reports[who]));
    case Edit(name, value) =>
  }

  lemma NextKeepsAttributed(s: Stage, e: StageEvent, s': Stage)
    requires Attributed(s) && Next(s, e, s')
    ensures Attributed(s')
  {
  }

  lemma NextKeepsStanding(s: Stage, e: StageEvent, s': Stage)
    requires Standing(s) && Next(s, e, s')
    ensures Standing(s')
  {
  }

  lemma NextKeepsGood(s: Stage, e: StageEvent, s': Stage)
    requires Good(s) && Next(s, e, s')
    ensures Good(s') && s'.writes == s.writes
  {
    NextKeepsChecked(s, e, s');
    NextKeepsAttributed(s, e, s');
    NextKeepsStanding(s, e, s');
  }

  lemma {:induction false} RunIsGood(states: seq<Stage>, events: seq<StageEvent>)
    requires IsRun(states, events)
    ensures Good(states[|events|]) && states[|events|].writes == states[0].writes
  {
    if events == [] {
      assert Values(states[0].talk.accepted) == [];
    } else {
      var n := |events| - 1;
      RunIsGood(states[..n + 1], events[..n]);
      NextKeepsGood(states[n], events[n], states[n + 1]);
    }
  }

  // Whatever reports raced, whoever edited the card: the stage acts on the first
  // report accepted, that report named a value for everything the stage must
  // write, its fields had all been put on the card, and each of them still stands
  // there unless something wrote that property again.
  lemma StageActsOnACompleteReport(s: Stage)
    requires Reachable(s) && s.talk.phase.Took?
    ensures var r := s.talk.phase.value;
            && s.talk.accepted != [] && s.talk.accepted[0].1 == r
            && Lost(s.talk) <= 1
            && Complete(s.writes, r.fields)
            && (forall i :: 0 <= i < |s.writes| && s.writes[i].required ==> NamesAValue(r.fields, s.writes[i].property))
            && var who := s.talk.accepted[0].0;
               forall name :: name in Names(r.fields) ==>
                 name in s.card && ((who, name) in s.overwritten || Gives(r.fields, name, s.card[name]))
  {
    var states: seq<Stage>, events: seq<StageEvent> :| IsRun(states, events) && states[|events|] == s;
    RunIsGood(states, events);
    assert Values(s.talk.accepted)[0] == s.talk.phase.value;
    assert s.writes[..|s.writes|] == s.writes;
    CompleteNamesAll(s.writes, s.talk.phase.value.fields, |s.writes|);
  }

  // ---- when a report's fields still stand -----------------------------------------------

  predicate ReportsWritten(e: StageEvent, who: nat) {
    e.Write? && e.who == who
  }

  // The event changes that property of the card.
  predicate Changes(e: StageEvent, name: string) {
    (e.Edit? && e.name == name) || (e.Write? && name in Names(e.report.fields))
  }

  // The property was changed after that caller's report had been written.
  ghost predicate ChangedSince(events: seq<StageEvent>, who: nat, name: string) {
    exists i, j :: 0 <= i < j < |events| && ReportsWritten(events[i], who) && Changes(events[j], name)
  }

  ghost predicate HasWritten(events: seq<StageEvent>, who: nat) {
    exists i :: 0 <= i < |events| && ReportsWritten(events[i], who)
  }

  lemma WrittenOneMore(events: seq<StageEvent>, e: StageEvent, who: nat, name: string)
    ensures HasWritten(events + [e], who) <==> HasWritten(events, who) || ReportsWritten(e, who)
    ensures ChangedSince(events + [e], who, name) <==>
            ChangedSince(events, who, name) || (HasWritten(events, who) && Changes(e, name))
  {
    var all := events + [e];
    assert all[|events|] == e && forall i :: 0 <= i < |events| ==> all[i] == events[i];
    if HasWritten(events, who) && Changes(e, name) {
      var i :| 0 <= i < |events| && ReportsWritten(events[i], who);
      assert ReportsWritten(all[i], who) && Changes(all[|events|], name);
    }
    if ChangedSince(events, who, name) {
      var i, j :| 0 <= i < j < |events| && ReportsWritten(events[i], who) && Changes(events[j], name);
      assert ReportsWritten(all[i], who) && Changes(all[j], name);
    }
  }

  lemma LastEvent(states: seq<Stage>, events: seq<StageEvent>) returns (n: nat)
    requires IsRun(states, events) && events != []
    ensures n == |events| - 1 && events == events[..n] + [events[n]]
    ensures IsRun(states[..n + 1], events[..n]) && states[..n + 1][n] == states[n]
    ensures Next(states[n], events[n], states[n + 1])
  {
    n := |events| - 1;
  }

  // What the run remembers of writes and changes is what its events were.
  lemma {:induction false} OverwrittenExactlyWhen(states: seq<Stage>, events: seq<StageEvent>, who: nat, name: string)
    requires IsRun(states, events)
    ensures who in states[|events|].reports <==> HasWritten(events, who)
    ensures (who, name) in states[|events|].overwritten <==> ChangedSince(events, who, name)
    decreases |events|
  {
    if events != [] {
      var n := LastEvent(states, events);
      OverwrittenExactlyWhen(states[..n + 1], events[..n], who, name);
      WrittenOneMore(events[..n], events[n], who, name);
      NextOverwrites(states[n], events[n], states[n + 1], who, name);
    }
  }

  lemma NextOverwrites(s: Stage, e: StageEvent, s': Stage, who: nat, name: string)
    requires Next(s, e, s')
    ensures who in s'.reports <==> who in s.reports || ReportsWritten(e, who)
    ensures (who, name) in s'.overwritten <==> (who, name) in s.overwritten || (who in s.reports && Changes(e, name))
  {
  }

  // So a property a stage's report named is the report's while nothing changes it
  // after the report was written.
  lemma UnchangedPropertyIsTheReports(states: seq<Stage>, events: seq<StageEvent>, name: string)
    requires IsRun(states, events) && states[|events|].talk.phase.Took?
    requires var s := states[|events|];
             && name in Names(s.talk.phase.value.fields)
             && (s.talk.accepted != [] ==> !ChangedSince(events, s.talk.accepted[0].0, name))
    ensures var s := states[|events|]; name in s.card && Gives(s.talk.phase.value.fields, name, s.card[name])
  {
    var s := states[|events|];
    StageActsOnACompleteReport(s);
    OverwrittenExactlyWhen(states, events, s.talk.accepted[0].0, name);
  }

  predicate LooksUp(e: StageEvent, who: nat) {
    e == Protocol(LookUp(who))
  }

  lemma {:induction false} HoldersLookedUp(states: seq<Stage>, events: seq<StageEvent>, who: nat)
    requires IsRun(states, events)
    requires forall w, i :: 0 <= i < |events| && LooksUp(events[i], w) ==> w == who
    ensures states[|events|].talk.holders <= {who}
    ensures forall w :: HasWritten(events, w) ==> w == who
    decreases |events|
  {
    if events != [] {
      var n := LastEvent(states, events);
      assert forall i :: 0 <= i < n ==> events[..n][i] == events[i];
      HoldersLookedUp(states[..n + 1], events[..n], who);
      forall w ensures HasWritten(events, w) <==> HasWritten(events[..n], w) || ReportsWritten(events[n], w) {
        WrittenOneMore(events[..n], events[n], w, "");
      }
      NextHolders(states[n], events[n], states[n + 1], who);
    }
  }

  lemma NextHolders(s: Stage, e: StageEvent, s': Stage, who: nat)
    requires Next(s, e, s') && s.talk.holders <= {who} && forall w :: LooksUp(e, w) ==> w == who
    ensures s'.talk.holders <= {who} && forall w :: ReportsWritten(e, w) ==> w == who
  {
    if e.Protocol? && e.e.LookUp? {
      assert LooksUp(e, e.e.who);
    }
  }

  // With one caller, and nobody else at those properties, the card says what the
  // stage's report said.
  lemma OneCallersReportStands(states: seq<Stage>, events: seq<StageEvent>, who: nat)
    requires IsRun(states, events) && states[|events|].talk.phase.Took?
    requires forall w, i :: 0 <= i < |events| && LooksUp(events[i], w) ==> w == who
    requires forall i :: 0 <= i < |events| && events[i].Edit? ==>
               events[i].name !in Names(states[|events|].talk.phase.value.fields)
    ensures var s := states[|events|];
            forall name :: name in Names(s.talk.phase.value.fields) ==>
              name in s.card && Gives(s.talk.phase.value.fields, name, s.card[name])
  {
    var s := states[|events|];
    forall name | name in Names(s.talk.phase.value.fields)
      ensures name in s.card && Gives(s.talk.phase.value.fields, name, s.card[name])
    {
      HoldersLookedUp(states, events, who);
      OnlyWriteIsFirst(states, events, who, name);
      StageActsOnACompleteReport(s);
      OverwrittenExactlyWhen(states, events, s.talk.accepted[0].0, name);
    }
  }

  // Nobody writes twice.
  lemma {:induction false} OnlyWriteIsFirst(states: seq<Stage>, events: seq<StageEvent>, who: nat, name: string)
    requires IsRun(states, events)
    requires forall w :: HasWritten(events, w) ==> w == who
    requires forall i :: 0 <= i < |events| && events[i].Edit? ==> events[i].name != name
    ensures forall w :: !ChangedSince(events, w, name)
    decreases |events|
  {
    if events != [] {
      var n := LastEvent(states, events);
      var e := events[n];
      assert forall i :: 0 <= i < n ==> events[..n][i] == events[i];
      forall w ensures HasWritten(events, w) <==> HasWritten(events[..n], w) || ReportsWritten(e, w)
               ensures ChangedSince(events, w, name) <==>
                       ChangedSince(events[..n], w, name) || (HasWritten(events[..n], w) && Changes(e, name))
      {
        WrittenOneMore(events[..n], e, w, name);
      }
      OnlyWriteIsFirst(states[..n + 1], events[..n], who, name);
      OverwrittenExactlyWhen(states[..n + 1], events[..n], who, name);
      assert e.Write? ==> ReportsWritten(e, e.who);
    }
  }

  // ---- a report too late --------------------------------------------------------------

  ghost function Pick(fields: map<string, string>, name: string): (v: string)
    requires name in Names(fields)
    ensures Gives(fields, name, v)
  {
    var k :| k in fields && Fold(k) == name;
    fields[k]
  }

  // The card with those fields on it, that property from among them as told.
  ghost function CardWith(card: map<string, string>, fields: map<string, string>, name: string, v: string): (r: map<string, string>)
    requires Gives(fields, name, v)
    ensures WrittenFrom(card, fields, r) && name in r && r[name] == v
  {
    var r := map n | n in card.Keys + Names(fields) ::
      if n == name then v else if n in Names(fields) then Pick(fields, n) else card[n];
    assert name in Names(fields);
    r
  }

  // Whenever a stage has acted and somebody else is past the look-up, a complete
  // report of theirs that gives one of those properties another value puts it on the
  // card, and the stage acted on the first all the same.
  lemma LateReportRewrites(s: Stage, w: nat, late: Report, name: string, v: string) returns (s': Stage)
    requires Reachable(s) && s.talk.phase.Took? && w in s.talk.holders && w !in s.reports
    requires Complete(s.writes, late.fields) && Gives(late.fields, name, v)
    requires name in Names(s.talk.phase.value.fields) && !Gives(s.talk.phase.value.fields, name, v)
    ensures Reachable(s') && s'.talk == s.talk && name in s'.card && s'.card[name] == v
    ensures !Gives(s'.talk.phase.value.fields, name, s'.card[name])
    ensures s.talk.accepted != [] && (s.talk.accepted[0].0, name) in s'.overwritten
  {
    StageActsOnACompleteReport(s);
    var card := CardWith(s.card, late.fields, name, v);
    s' := s.(card := card, reports := s.reports[w := late],
             writer := map n | n in s.writer.Keys + Names(late.fields) ::
                         if n in Names(late.fields) then w else s.writer[n],
             overwritten := s.overwritten + set o, n | o in s.reports && n in Names(late.fields) :: (o, n));
    OneMore(s, Write(w, late, card), s');
    var states: seq<Stage>, events: seq<StageEvent> :| IsRun(states, events) && states[|events|] == s;
    RunIsGood(states, events);
  }

  // The card is written before the report is offered, so a second report that is
  // refused has already changed what the route's edges will read.
  lemma RefusedReportRewritesTheCard(first: Report, second: Report, property: string, yes: string, no: string)
    requires first.fields == map[property := yes] && second.fields == map[property := no]
    ensures exists s: Stage :: Reachable(s)
              && s.talk.phase == Took(first) && 1 in s.talk.refused && s.card == map[Fold(property) := no]
  {
    var name := Fold(property);
    OneField(property, yes, map[]);
    OneField(property, no, map[name := yes]);
    var s2 := TwoCallers();
    var s3 := FirstWrite(s2, first, map[name := yes], name);
    var s4 := Delivered(s3, 0);
    var s5 := SecondWrite(s4, second, map[name := no], name);
    LastTwoSteps(s5, first);
  }

  lemma TwoCallers() returns (s: Stage)
    ensures Reachable(s) && s.talk == Opened<Report>().(holders := {0, 1})
    ensures s.writes == [] && s.card == map[] && s.reports == map[] && s.writer == map[] && s.overwritten == {}
  {
    s := Stage(Opened(), [], map[], map[], map[], {});
    Start(s);
    s := TalkStep(s, LookUp(0));
    s := TalkStep(s, LookUp(1));
    assert s.talk.holders == {0, 1};
  }

  lemma LastTwoSteps(s: Stage, first: Report)
    requires Reachable(s) && 1 in s.reports && 1 in s.talk.holders
    requires s.talk.buffer == Some(first) && s.talk.phase == Waiting
    ensures exists s': Stage :: Reachable(s')
              && s'.talk.phase == Took(first) && 1 in s'.talk.refused && s'.card == s.card
  {
    var s1 := Delivered(s, 1);
    var s2 := TalkStep(s1, Receive);
  }

  lemma Start(s: Stage)
    requires s.talk == Opened() && s.reports == map[] && s.writer == map[] && s.overwritten == {}
    ensures Reachable(s)
  {
    assert IsRun([s], []);
  }

  lemma TalkStep(s: Stage, p: Event<Report>) returns (s': Stage)
    requires Reachable(s) && !p.Send? && !p.GiveUp? && Step(s.talk, p).Some?
    ensures s' == s.(talk := Step(s.talk, p).value) && Reachable(s')
  {
    s' := s.(talk := Step(s.talk, p).value);
    OneMore(s, Protocol(p), s');
  }

  lemma Delivered(s: Stage, who: nat) returns (s': Stage)
    requires Reachable(s) && who in s.reports && who in s.talk.holders
    ensures s' == s.(talk := Step(s.talk, Send(who, s.reports[who])).value) && Reachable(s')
  {
    s' := s.(talk := Step(s.talk, Send(who, s.reports[who])).value);
    OneMore(s, Deliver(who), s');
  }

  lemma OneField(property: string, v: string, card: map<string, string>)
    requires card.Keys <= {Fold(property)}
    ensures Names(map[property := v]) == {Fold(property)}
    ensures WrittenFrom(card, map[property := v], map[Fold(property) := v])
  {
    var fields := map[property := v];
    assert property in fields && fields[property] == v;
    assert Names(fields) == {Fold(property)};
    assert Gives(fields, Fold(property), v);
  }

  lemma FirstWrite(s: Stage, r: Report, card: map<string, string>, name: string) returns (s': Stage)
    requires Reachable(s)
    requires 0 in s.talk.holders && s.reports == map[] && s.writes == [] && s.writer == map[] && s.overwritten == {}
    requires WrittenFrom(s.card, r.fields, card) && Names(r.fields) == {name}
    ensures s' == s.(card := card, reports := map[0 := r], writer := map[name := 0]) && Reachable(s')
  {
    s' := s.(card := card, reports := map[0 := r], writer := map[name := 0]);
    OneMore(s, Write(0, r, card), s');
  }

  lemma SecondWrite(s: Stage, r: Report, card: map<string, string>, name: string) returns (s': Stage)
    requires Reachable(s)
    requires 1 in s.talk.holders && s.reports.Keys == {0} && s.writes == []
    requires s.writer == map[name := 0] && s.overwritten == {}
    requires WrittenFrom(s.card, r.fields, card) && Names(r.fields) == {name}
    ensures s' == s.(card := card, reports := s.reports[1 := r], writer := map[name := 1],
                     overwritten := {(0, name)})
    ensures Reachable(s')
  {
    s' := s.(card := card, reports := s.reports[1 := r], writer := map[name := 1],
             overwritten := {(0, name)});
    OneMore(s, Write(1, r, card), s');
  }
}
