/** What an entry of a board does, through a reading: a new one does what the board
    said, and one that is answered for does what the registry's entry did
    (internal/acp/boardseed.go, bindrefs.go). Who an entry is, is in BoardSeed. */
module Behaviour {
  import opened Text
  import T = Tools
  import opened Flows
  import opened Columns
  import opened Binding
  import opened Adoption
  import opened BoardSeed
  import opened Ownership
  import Crew

  // ---- any entry -------------------------------------------------------------------

  // What the registry's entry keeps, whatever it is asked to answer for.
  ghost predicate Keeping<T(!new)>(r: Rules<T>, keeps: (T, T) -> bool) {
    KeptOnAndOn(keeps) && forall e, w :: r.same(e, w) && r.own(w) ==> keeps(e, r.meld(e, w))
  }

  ghost predicate KeptOnAndOn<T(!new)>(keeps: (T, T) -> bool) {
    (forall e :: keeps(e, e)) && forall a, b, c :: keeps(a, b) && keeps(b, c) ==> keeps(a, c)
  }

  ghost predicate AllKept<T(!new)>(keeps: (T, T) -> bool, was: seq<T>, now: seq<T>) {
    |was| <= |now| && forall i :: 0 <= i < |was| ==> keeps(was[i], now[i])
  }

  lemma StepKeepsAll<T(!new)>(r: Rules<T>, keeps: (T, T) -> bool, was: Reading<T>, c: T, m: Mint)
    requires PreparingSettles(r) && Keeping(r, keeps)
    ensures AllKept(keeps, was.registry, AdoptOne(r, was, c, m).registry)
  {
    var v := r.valid(r.prepare(c), m);
    if v.Some? {
      var i := FirstSame(r, was.registry, v.value);
      if i.Some? {
        assert keeps(was.registry[i.value], r.meld(was.registry[i.value], v.value));
      }
    }
  }

  lemma {:induction false} ReadingKeepsAll<T(!new)>(r: Rules<T>, keeps: (T, T) -> bool, was: Reading<T>, entries: seq<T>,
                                                    mint: nat -> Mint, k: nat)
    requires PreparingSettles(r) && Keeping(r, keeps) && k <= |entries|
    ensures AllKept(keeps, was.registry, Adopt(r, was, entries, mint, k).registry)
    decreases |entries| - k
  {
    if k < |entries| {
      var next := AdoptOne(r, was, entries[k], mint(k));
      StepKeepsAll(r, keeps, was, entries[k], mint(k));
      ReadingKeepsAll(r, keeps, next, entries, mint, k + 1);
      KeptOn(keeps, was.registry, next.registry, Adopt(r, was, entries, mint, k).registry, r);
    }
  }

  lemma KeptOn<T(!new)>(keeps: (T, T) -> bool, a: seq<T>, b: seq<T>, c: seq<T>, r: Rules<T>)
    requires Keeping(r, keeps) && AllKept(keeps, a, b) && AllKept(keeps, b, c)
    ensures AllKept(keeps, a, c)
  {
    forall i | 0 <= i < |a| ensures keeps(a[i], c[i]) {
      assert keeps(a[i], b[i]) && keeps(b[i], c[i]);
    }
  }

  // What was read before an entry came up.
  function Until<T>(r: Rules<T>, es: seq<T>, entries: seq<T>, mint: nat -> Mint, k: nat): Reading<T>
    requires k <= |entries|
  {
    Adopt(r, Reading(es, []), entries[..k], mint)
  }

  lemma {:induction false} ReadOn<T>(r: Rules<T>, was: Reading<T>, entries: seq<T>, mint: nat -> Mint, j: nat, k: nat)
    requires j <= k <= |entries|
    ensures Adopt(r, was, entries, mint, j) == Adopt(r, Adopt(r, was, entries[..k], mint, j), entries, mint, k)
    decreases k - j
  {
    if j < k {
      ReadOn(r, AdoptOne(r, was, entries[j], mint(j)), entries, mint, j + 1, k);
    }
  }

  lemma {:induction false} HeldStays<T>(r: Rules<T>, was: Reading<T>, entries: seq<T>, mint: nat -> Mint, k: nat, h: T)
    requires k <= |entries| && h in was.held
    ensures h in Adopt(r, was, entries, mint, k).held
    decreases |entries| - k
  {
    if k < |entries| {
      HeldStays(r, AdoptOne(r, was, entries[k], mint(k)), entries, mint, k + 1, h);
    }
  }

  ghost predicate Went<T(!new)>(r: Rules<T>, keeps: (T, T) -> bool, was: seq<T>, now: Reading<T>, c: T, m: Mint) {
    && AllKept(keeps, was, now.registry)
    && (var p := r.prepare(c);
        match r.valid(p, m)
        case None => r.left(p) in now.held
        case Some(v) =>
          match FirstSame(r, was, v)
          case None => |was| < |now.registry| && keeps(v, now.registry[|was|])
          case Some(i) => i < |now.registry| && keeps(r.meld(was[i], v), now.registry[i]))
  }

  // Each usable entry is in the registry after the reading, as it was made usable or as
  // what answered for it was, and each of the others is held back.
  lemma WhereItWent<T(!new)>(r: Rules<T>, keeps: (T, T) -> bool, es: seq<T>, entries: seq<T>, mint: nat -> Mint, k: nat)
    requires PreparingSettles(r) && Keeping(r, keeps) && k < |entries|
    ensures Went(r, keeps, Until(r, es, entries, mint, k).registry, Adopt(r, Reading(es, []), entries, mint), entries[k], mint(k))
  {
    var was := Until(r, es, entries, mint, k);
    var next := AdoptOne(r, was, entries[k], mint(k));
    var p := r.prepare(entries[k]);
    ReadOn(r, Reading(es, []), entries, mint, 0, k);
    ReadingKeepsAll(r, keeps, was, entries, mint, k);
    ReadingKeepsAll(r, keeps, next, entries, mint, k + 1);
    var v := r.valid(p, mint(k));
    if v.None? {
      HeldStays(r, next, entries, mint, k + 1, r.left(p));
    } else {
      var i := FirstSame(r, was.registry, v.value);
      assert i.None? ==> next.registry[|was.registry|] == v.value;
      assert i.Some? ==> next.registry[i.value] == r.meld(was.registry[i.value], v.value);
    }
  }

  // Nobody a stranger to the board comes to stand for one of its entries.
  lemma {:induction false} OwnOrBeforeStill<T(!new)>(r: Rules<T>, es: seq<T>, was: Reading<T>, entries: seq<T>,
                                                     mint: nat -> Mint, j: nat)
    requires Lawful(r) && j <= |entries| && OwnOrBefore(r, es, was.registry) && NoStrangerAnswers(r, es, entries, mint)
    ensures OwnOrBefore(r, es, Adopt(r, was, entries, mint, j).registry)
    decreases |entries| - j
  {
    if j < |entries| {
      StepSurvives(r, es, was, entries[j], mint(j));
      OwnOrBeforeStill(r, es, AdoptOne(r, was, entries[j], mint(j)), entries, mint, j + 1);
    }
  }

  lemma AnswererIsOwn<T(!new)>(r: Rules<T>, es: seq<T>, entries: seq<T>, mint: nat -> Mint, k: nat, v: T, i: nat)
    requires Lawful(r) && k < |entries| && NoStrangerAnswers(r, es, entries, mint)
    requires r.valid(r.prepare(entries[k]), mint(k)) == Some(v)
    requires FirstSame(r, Until(r, es, entries, mint, k).registry, v) == Some(i)
    ensures r.own(r.meld(Until(r, es, entries, mint, k).registry[i], v))
  {
    forall j | 0 <= j < k ensures Welcomed(r, es, entries[..k][j], mint(j)) {
      assert Welcomed(r, es, entries[j], mint(j));
    }
    OwnOrBeforeStill(r, es, Reading(es, []), entries[..k], mint, 0);
    assert Welcomed(r, es, entries[k], mint(k));
  }

  // ---- names ------------------------------------------------------------------------

  // A pin by name becomes the id it names, if nothing is pinned by id and anything is
  // called so here; else nothing changes.
  ghost predicate IsPinned(id: string, name: string, here: string -> Option<string>, id': string, name': string) {
    if Trim(id) == "" && Trim(name) != "" && here(name).Some? then id' == here(name).value && name' == ""
    else id' == id && name' == name
  }

  // The ids of those the names stand for come after the ids there were, once each; the
  // names nobody answers to are left.
  ghost predicate IsCrewed(ids: seq<string>, names: seq<string>, who: Crew.Resolver, ids': seq<string>, names': seq<string>) {
    && (exists added :: ids' == ids + added && AreAdded(ids, names, who, added))
    && forall n :: n in names' <==> n in names && who(n).Unknown?
  }

  ghost predicate AreAdded(ids: seq<string>, names: seq<string>, who: Crew.Resolver, added: seq<string>) {
    Crew.NoRepeats(added) && forall id :: id in added <==> id !in ids && exists n :: n in names && who(n) == Crew.Known(id)
  }

  lemma DeployIsPinned(id: string, name: string, m: Machine)
    ensures var (id', name') := BindDeploy(id, name, m); IsPinned(id, name, m.deploy, id', name')
  {
  }

  lemma {:induction false} KeptAreUnknown(names: seq<string>, who: Crew.Resolver, n: string)
    ensures n in Crew.Kept(names, who) <==> n in names && who(n).Unknown?
  {
    if names != [] {
      KeptAreUnknown(names[1..], who, n);
    }
  }

  lemma BoundIsCrewed(ids: seq<string>, names: seq<string>, who: Crew.Resolver)
    ensures IsCrewed(ids, names, who, Crew.Bound(ids, names, who), Crew.Kept(names, who))
  {
    var added := Crew.BoundAdds(ids, names, who);
    forall id ensures id in added <==> id !in ids && exists n :: n in names && who(n) == Crew.Known(id) {
      if Crew.Names(names, who, id) {
        var i :| 0 <= i < |names| && who(names[i]) == Crew.Known(id);
        assert names[i] in names;
      }
    }
    assert AreAdded(ids, names, who, added);
    forall n ensures n in Crew.Kept(names, who) <==> n in names && who(n).Unknown? {
      KeptAreUnknown(names, who, n);
    }
  }

  // Pinned or as it was; crewed or as it was.
  ghost predicate PinKept(id: string, name: string, here: string -> Option<string>, id': string, name': string) {
    (id' == id && name' == name) || IsPinned(id, name, here, id', name')
  }

  ghost predicate CrewKept(ids: seq<string>, names: seq<string>, who: Crew.Resolver, ids': seq<string>, names': seq<string>) {
    (ids' == ids && names' == names) || IsCrewed(ids, names, who, ids', names')
  }

  lemma PinKeptOn(id: string, name: string, here: string -> Option<string>, id1: string, name1: string, id2: string, name2: string)
    requires PinKept(id, name, here, id1, name1) && PinKept(id1, name1, here, id2, name2)
    ensures PinKept(id, name, here, id2, name2)
  {
    assert Trim("") == "";
  }

  lemma FirstIsIn(s: seq<string>)
    ensures s == [] || s[0] in s
  {
  }

  lemma CrewKeptOn(ids: seq<string>, names: seq<string>, who: Crew.Resolver, ids1: seq<string>, names1: seq<string>,
                   ids2: seq<string>, names2: seq<string>)
    requires CrewKept(ids, names, who, ids1, names1) && CrewKept(ids1, names1, who, ids2, names2)
    ensures CrewKept(ids, names, who, ids2, names2)
  {
    if !(ids1 == ids && names1 == names) && !(ids2 == ids1 && names2 == names1) {
      var more :| ids2 == ids1 + more && AreAdded(ids1, names1, who, more);
      FirstIsIn(more);
      assert ids1 + [] == ids1;
    }
  }

  // Nobody left to name: nothing changes.
  lemma NoNamesNoChange(id: string, here: string -> Option<string>, id': string, name': string,
                        ids: seq<string>, who: Crew.Resolver, ids': seq<string>, names': seq<string>)
    requires PinKept(id, "", here, id', name') && CrewKept(ids, [], who, ids', names')
    ensures id' == id && name' == "" && ids' == ids && names' == []
  {
    assert Trim("") == "";
    if IsCrewed(ids, [], who, ids', names') {
      var added :| ids' == ids + added && AreAdded(ids, [], who, added);
      FirstIsIn(added);
      FirstIsIn(names');
      assert ids + [] == ids;
    }
  }

  // ---- columns ----------------------------------------------------------------------

  // A column of a board before it is checked: put on the option it stands for, if it is
  // on none and the board has one of its name, and with its names looked up.
  ghost predicate IsPreparedColumn(m: Machine, boardID: string, c: Column, p: Column) {
    && p.boardID == boardID
    && (if c.optionID == "" && m.option(c.column).Some?
        then p.propertyID == m.option(c.column).value.propertyID && p.optionID == m.option(c.column).value.optionID
        else p.propertyID == c.propertyID && p.optionID == c.optionID)
    && p.property == c.property && p.column == c.column && p.action == c.action
    && p.maxRunning == c.maxRunning && p.tools == c.tools && p.rest == c.rest
    && IsPinned(c.deployID, c.deployName, m.deploy, p.deployID, p.deployName)
    && IsCrewed(c.agentIDs, c.agentNames, m.crew, p.agentIDs, p.agentNames)
  }

  lemma PreparedColumnIs(m: Machine, boardID: string, c: Column)
    ensures IsPreparedColumn(m, boardID, c, PrepareColumn(m, boardID)(c))
  {
    DeployIsPinned(c.deployID, c.deployName, m);
    BoundIsCrewed(c.agentIDs, c.agentNames, m.crew);
  }

  // What is kept of a registered column that answers for others: what it does and under
  // which name, its option if it has one, and this board if it is its own.
  ghost predicate ColumnKept(m: Machine, boardID: string, a: Column, b: Column) {
    && b.property == a.property && b.column == a.column && b.action == a.action
    && b.maxRunning == a.maxRunning && b.tools == a.tools && b.rest == a.rest
    && PinKept(a.deployID, a.deployName, m.deploy, b.deployID, b.deployName)
    && CrewKept(a.agentIDs, a.agentNames, m.crew, b.agentIDs, b.agentNames)
    && (a.optionID != "" ==> b.boardID == a.boardID && b.propertyID == a.propertyID && b.optionID == a.optionID)
    && (a.boardID == boardID ==> b.boardID == boardID)
  }

  ghost function KeepsColumns(m: Machine, boardID: string): (Column, Column) -> bool {
    (a: Column, b: Column) => ColumnKept(m, boardID, a, b)
  }

  lemma ColumnKeptOn(m: Machine, boardID: string, a: Column, b: Column, c: Column)
    requires ColumnKept(m, boardID, a, b) && ColumnKept(m, boardID, b, c)
    ensures ColumnKept(m, boardID, a, c)
  {
    PinKeptOn(a.deployID, a.deployName, m.deploy, b.deployID, b.deployName, c.deployID, c.deployName);
    CrewKeptOn(a.agentIDs, a.agentNames, m.crew, b.agentIDs, b.agentNames, c.agentIDs, c.agentNames);
  }

  lemma MeldedColumnIsKept(m: Machine, boardID: string, e: Column, w: Column)
    requires w.boardID == boardID
    ensures ColumnKept(m, boardID, e, MeldColumn(m)(e, w))
  {
    DeployIsPinned(e.deployID, e.deployName, m);
    BoundIsCrewed(e.agentIDs, e.agentNames, m.crew);
  }

  lemma ColumnsAreKeptOn(m: Machine, boardID: string, keeps: (Column, Column) -> bool)
    requires keeps == KeepsColumns(m, boardID)
    ensures KeptOnAndOn(keeps)
  {
    forall a, b, c | keeps(a, b) && keeps(b, c) {
      ColumnKeptOn(m, boardID, a, b, c);
    }
  }

  lemma ColumnsAreKept(m: Machine, boardID: string, r: Rules<Column>, keeps: (Column, Column) -> bool)
    requires r == ColumnRules(m, boardID) && keeps == KeepsColumns(m, boardID)
    ensures Keeping(r, keeps)
  {
    ColumnsAreKeptOn(m, boardID, keeps);
    forall e, w | r.same(e, w) && r.own(w) {
      MeldedColumnIsKept(m, boardID, e, w);
    }
  }

  // A column as the board said it: the prompt, the limit and the inputs and outputs it
  // said, the action it said, its words and its servers tidied, and the deploy and the
  // roster it said or named; on this board, and on the option it said or stands for.
  ghost predicate IsColumnAsSaid(m: Machine, boardID: string, c: Column, a: Column) {
    && a.rest == c.rest && a.maxRunning == c.maxRunning && a.property == Trim(c.property) && a.column == Trim(c.column)
    && a.action == (if Trim(c.action) == "" then "none" else Trim(c.action)) && T.AreTidied(c.tools, a.tools)
    && a.deployName == "" && a.agentNames == []
    && (if Trim(c.deployID) != "" || Trim(c.deployName) == "" then a.deployID == Trim(c.deployID)
        else m.deploy(c.deployName).Some? && a.deployID == Trim(m.deploy(c.deployName).value))
    && (exists added :: AreAdded(c.agentIDs, c.agentNames, m.crew, added) && IsRosterOf(c.agentIDs + added, a.agentIDs))
    && a.boardID == boardID
    && (c.optionID != "" ==> a.optionID == c.optionID && a.propertyID == c.propertyID)
    && (c.optionID == "" && m.option(c.column).Some? && m.option(c.column).value.optionID != "" ==>
          a.optionID == m.option(c.column).value.optionID && a.propertyID == m.option(c.column).value.propertyID)
  }

  lemma ColumnIsAsSaid(m: Machine, boardID: string, c: Column, p: Column, v: Column, a: Column)
    requires IsPreparedColumn(m, boardID, c, p) && ColumnFits(p, m.r) && IsTidyColumn(p, v) && ColumnKept(m, boardID, v, a)
    ensures IsColumnAsSaid(m, boardID, c, a)
  {
    NoNamesNoChange(v.deployID, m.deploy, a.deployID, a.deployName, v.agentIDs, m.crew, a.agentIDs, a.agentNames);
    var added :| p.agentIDs == c.agentIDs + added && AreAdded(c.agentIDs, c.agentNames, m.crew, added);
    assert IsRosterOf(c.agentIDs + added, a.agentIDs);
  }

  lemma {:induction false} OwnColumnIsWritten(columns: seq<Column>, boardID: string, i: nat)
    requires i < |columns| && columns[i].boardID == boardID
    ensures columns[i] in OwnColumns(columns, boardID)
  {
    if i > 0 {
      OwnColumnIsWritten(columns[1..], boardID, i - 1);
    }
  }

  ghost predicate ColumnsAllKept(m: Machine, boardID: string, was: seq<Column>, now: seq<Column>) {
    |was| <= |now| && forall i :: 0 <= i < |was| ==> ColumnKept(m, boardID, was[i], now[i])
  }

  ghost predicate NobodyIs(was: seq<Column>, v: Column) {
    forall i :: 0 <= i < |was| ==> !SameColumn(was[i], v)
  }

  ghost predicate StandsAsSaid(m: Machine, boardID: string, c: Column, was: seq<Column>, now: seq<Column>) {
    && |was| < |now| && IsColumnAsSaid(m, boardID, c, now[|was|])
    && now[|was|] in OwnColumns(now, boardID)
  }

  lemma ColumnWent(m: Machine, boardID: string, columns: seq<Column>, said: seq<Column>, mint: nat -> Mint, k: nat)
    requires NamesTrimmed(m) && k < |said|
    ensures var r := ColumnRules(m, boardID);
            Went(r, KeepsColumns(m, boardID), Until(r, columns, said, mint, k).registry, Adopt(r, Reading(columns, []), said, mint),
                 said[k], mint(k))
  {
    ColumnsPrepareSettles(m, boardID);
    ColumnsAreKept(m, boardID, ColumnRules(m, boardID), KeepsColumns(m, boardID));
    WhereItWent(ColumnRules(m, boardID), KeepsColumns(m, boardID), columns, said, mint, k);
  }

  lemma NobodyAnswers(r: Rules<Column>, was: seq<Column>, v: Column)
    requires r.same == SameColumn && NobodyIs(was, v)
    ensures FirstSame(r, was, v).None?
  {
    var i := FirstSame(r, was, v);
  }

  lemma NewColumnWent(r: Rules<Column>, keeps: (Column, Column) -> bool, m: Machine, boardID: string, c: Column, mint: Mint,
                      was: seq<Column>, now: Reading<Column>, v: Column)
    requires keeps == KeepsColumns(m, boardID) && Went(r, keeps, was, now, c, mint)
    requires r.valid(r.prepare(c), mint) == Some(v) && FirstSame(r, was, v).None?
    ensures |was| < |now.registry| && ColumnKept(m, boardID, v, now.registry[|was|])
  {
    assert keeps(v, now.registry[|was|]);
  }

  lemma WhereTheColumnWent(m: Machine, boardID: string, c: Column, mint: Mint, was: seq<Column>, now: Reading<Column>,
                           p: Column)
    requires Went(ColumnRules(m, boardID), KeepsColumns(m, boardID), was, now, c, mint) && p == PrepareColumn(m, boardID)(c)
    ensures !ColumnOk(p, m.r) ==> p in now.held
    ensures ColumnOk(p, m.r) && NobodyIs(was, NormColumn(p)) ==>
              |was| < |now.registry| && ColumnKept(m, boardID, NormColumn(p), now.registry[|was|])
  {
    var r := ColumnRules(m, boardID);
    if ColumnOk(p, m.r) && NobodyIs(was, NormColumn(p)) {
      NobodyAnswers(r, was, NormColumn(p));
      NewColumnWent(r, KeepsColumns(m, boardID), m, boardID, c, mint, was, now, NormColumn(p));
    }
  }

  lemma KeptByAll(m: Machine, boardID: string, keeps: (Column, Column) -> bool, was: seq<Column>, now: seq<Column>)
    requires keeps == KeepsColumns(m, boardID) && AllKept(keeps, was, now)
    ensures ColumnsAllKept(m, boardID, was, now)
  {
    forall i | 0 <= i < |was| ensures ColumnKept(m, boardID, was[i], now[i]) {
      assert keeps(was[i], now[i]);
    }
  }

  ghost predicate IsFirstToAnswer(was: seq<Column>, v: Column, i: nat) {
    i < |was| && SameColumn(was[i], v) && forall k :: 0 <= k < i ==> !SameColumn(was[k], v)
  }

  // What has become of a column of the board: it is held back, on the board, saying what
  // it said; or stands there and does what it said; or the first registered column that
  // was this one stands there, and does what that did.
  ghost predicate ColumnAccount(m: Machine, boardID: string, c: Column, p: Column, v: Column, was: seq<Column>, after: seq<Column>) {
    && IsPreparedColumn(m, boardID, c, p)
    && if !ColumnFits(p, m.r) then p in after
       else
         && IsTidyColumn(p, v)
         && if NobodyIs(was, v) then ColumnIsThere(m, boardID, c, after) else ColumnIsAnswered(m, boardID, was, v, after)
  }

  ghost predicate ColumnIsThere(m: Machine, boardID: string, c: Column, after: seq<Column>) {
    exists a :: a in after && IsColumnAsSaid(m, boardID, c, a)
  }

  ghost predicate ColumnIsAnswered(m: Machine, boardID: string, was: seq<Column>, v: Column, after: seq<Column>) {
    exists i: nat, a: Column :: a in after && IsFirstToAnswer(was, v, i) && ColumnKept(m, boardID, was[i], a)
  }

  ghost predicate IsColumnAccountedFor(m: Machine, boardID: string, c: Column, was: seq<Column>, after: seq<Column>) {
    exists p, v :: ColumnAccount(m, boardID, c, p, v, was, after)
  }

  lemma ColumnDoesWhatWasSaid(m: Machine, boardID: string, c: Column, mint: Mint, was: seq<Column>, now: Reading<Column>,
                              p: Column, v: Column)
    requires Went(ColumnRules(m, boardID), KeepsColumns(m, boardID), was, now, c, mint)
    requires p == PrepareColumn(m, boardID)(c) && v == NormColumn(p)
    ensures IsPreparedColumn(m, boardID, c, p) && (if ColumnFits(p, m.r) then IsTidyColumn(p, v) else p in now.held)
    ensures ColumnFits(p, m.r) && NobodyIs(was, v) ==> StandsAsSaid(m, boardID, c, was, now.registry)
  {
    PreparedColumnIs(m, boardID, c);
    FitsExactlyWhen(p, m.r);
    WhereTheColumnWent(m, boardID, c, mint, was, now, p);
    if ColumnOk(p, m.r) {
      NormColumnIsTidy(p);
      if NobodyIs(was, v) {
        ColumnIsAsSaid(m, boardID, c, p, v, now.registry[|was|]);
        OwnColumnIsWritten(now.registry, boardID, |was|);
      }
    }
  }

  lemma FirstAnswered(r: Rules<Column>, was: seq<Column>, v: Column) returns (i: nat)
    requires r.same == SameColumn && !NobodyIs(was, v)
    ensures FirstSame(r, was, v) == Some(i) && IsFirstToAnswer(was, v, i)
  {
    i := FirstSame(r, was, v).value;
  }

  lemma AnswererIsKept(r: Rules<Column>, keeps: (Column, Column) -> bool, m: Machine, boardID: string, c: Column, mint: Mint,
                       was: seq<Column>, now: Reading<Column>, v: Column, i: nat)
    requires r == ColumnRules(m, boardID) && keeps == KeepsColumns(m, boardID)
    requires Went(r, keeps, was, now, c, mint) && r.valid(r.prepare(c), mint) == Some(v)
    requires FirstSame(r, was, v) == Some(i) && r.own(r.meld(was[i], v))
    ensures i < |now.registry| && now.registry[i].boardID == boardID
    ensures i < |was| && ColumnKept(m, boardID, was[i], now.registry[i])
  {
    assert keeps(r.meld(was[i], v), now.registry[i]);
    assert keeps(was[i], now.registry[i]);
  }

  lemma ColumnAnswererIsOwn(m: Machine, boardID: string, columns: seq<Column>, said: seq<Column>, mint: nat -> Mint, k: nat,
                            r: Rules<Column>, was: seq<Column>, v: Column, i: nat)
    requires NamesTrimmed(m) && k < |said| && r == ColumnRules(m, boardID) && NoStrangerAnswers(r, columns, said, mint)
    requires was == Until(r, columns, said, mint, k).registry
    requires r.valid(r.prepare(said[k]), mint(k)) == Some(v) && FirstSame(r, was, v) == Some(i)
    ensures r.own(r.meld(was[i], v))
  {
    ColumnsAreLawful(m, boardID);
    AnswererIsOwn(r, columns, said, mint, k, v, i);
  }

  lemma ColumnIsAnsweredFor(m: Machine, boardID: string, c: Column, mint: Mint, was: seq<Column>, now: Reading<Column>,
                            r: Rules<Column>, keeps: (Column, Column) -> bool, v: Column, i: nat)
    requires r == ColumnRules(m, boardID) && keeps == KeepsColumns(m, boardID)
    requires Went(r, keeps, was, now, c, mint) && r.valid(r.prepare(c), mint) == Some(v)
    requires FirstSame(r, was, v) == Some(i) && r.own(r.meld(was[i], v))
    ensures ColumnIsAnswered(m, boardID, was, v, OwnColumns(now.registry, boardID) + now.held)
  {
    AnswererIsKept(r, keeps, m, boardID, c, mint, was, now, v, i);
    OwnColumnIsWritten(now.registry, boardID, i);
    AnsweredBy(m, boardID, was, v, OwnColumns(now.registry, boardID) + now.held, i, now.registry[i]);
  }

  lemma AnsweredBy(m: Machine, boardID: string, was: seq<Column>, v: Column, after: seq<Column>, i: nat, a: Column)
    requires a in after && IsFirstToAnswer(was, v, i) && ColumnKept(m, boardID, was[i], a)
    ensures ColumnIsAnswered(m, boardID, was, v, after)
  {
  }

  lemma StandsThere(m: Machine, boardID: string, c: Column, was: seq<Column>, now: seq<Column>, held: seq<Column>)
    requires StandsAsSaid(m, boardID, c, was, now)
    ensures ColumnIsThere(m, boardID, c, OwnColumns(now, boardID) + held)
  {
    assert now[|was|] in OwnColumns(now, boardID) + held;
  }

  lemma AccountedFor(m: Machine, boardID: string, c: Column, p: Column, v: Column, was: seq<Column>, now: Reading<Column>,
                     after: seq<Column>)
    requires after == OwnColumns(now.registry, boardID) + now.held
    requires IsPreparedColumn(m, boardID, c, p) && (!ColumnFits(p, m.r) ==> p in now.held)
    requires ColumnFits(p, m.r) ==>
               && IsTidyColumn(p, v)
               && if NobodyIs(was, v) then StandsAsSaid(m, boardID, c, was, now.registry)
                  else ColumnIsAnswered(m, boardID, was, v, after)
    ensures IsColumnAccountedFor(m, boardID, c, was, after)
  {
    if ColumnFits(p, m.r) && NobodyIs(was, v) {
      StandsThere(m, boardID, c, was, now.registry, now.held);
    }
    assert ColumnAccount(m, boardID, c, p, v, was, after);
  }

  lemma ColumnWasAnswered(m: Machine, boardID: string, columns: seq<Column>, said: seq<Column>, mint: nat -> Mint, k: nat,
                          was: seq<Column>, now: Reading<Column>, v: Column)
    requires NamesTrimmed(m) && k < |said| && NoStrangerAnswers(ColumnRules(m, boardID), columns, said, mint)
    requires was == Until(ColumnRules(m, boardID), columns, said, mint, k).registry
    requires Went(ColumnRules(m, boardID), KeepsColumns(m, boardID), was, now, said[k], mint(k))
    requires ColumnRules(m, boardID).valid(PrepareColumn(m, boardID)(said[k]), mint(k)) == Some(v) && !NobodyIs(was, v)
    ensures ColumnIsAnswered(m, boardID, was, v, OwnColumns(now.registry, boardID) + now.held)
  {
    var r := ColumnRules(m, boardID);
    var i := FirstAnswered(r, was, v);
    ColumnAnswererIsOwn(m, boardID, columns, said, mint, k, r, was, v, i);
    ColumnIsAnsweredFor(m, boardID, said[k], mint(k), was, now, r, KeepsColumns(m, boardID), v, i);
  }

  lemma AnsweredOrNew(m: Machine, boardID: string, columns: seq<Column>, said: seq<Column>, mint: nat -> Mint, k: nat,
                      was: seq<Column>, now: Reading<Column>, p: Column, v: Column)
    requires NamesTrimmed(m) && k < |said| && NoStrangerAnswers(ColumnRules(m, boardID), columns, said, mint)
    requires was == Until(ColumnRules(m, boardID), columns, said, mint, k).registry
    requires Went(ColumnRules(m, boardID), KeepsColumns(m, boardID), was, now, said[k], mint(k))
    requires p == PrepareColumn(m, boardID)(said[k]) && v == NormColumn(p)
    ensures ColumnOk(p, m.r) && !NobodyIs(was, v) ==>
              ColumnIsAnswered(m, boardID, was, v, OwnColumns(now.registry, boardID) + now.held)
  {
    if ColumnOk(p, m.r) && !NobodyIs(was, v) {
      ColumnWasAnswered(m, boardID, columns, said, mint, k, was, now, v);
    }
  }

  lemma ColumnAccountedFor(m: Machine, boardID: string, c: Column, mint: Mint, was: seq<Column>, now: Reading<Column>,
                           p: Column, v: Column)
    requires Went(ColumnRules(m, boardID), KeepsColumns(m, boardID), was, now, c, mint)
    requires p == PrepareColumn(m, boardID)(c) && v == NormColumn(p)
    requires ColumnOk(p, m.r) && !NobodyIs(was, v) ==>
               ColumnIsAnswered(m, boardID, was, v, OwnColumns(now.registry, boardID) + now.held)
    ensures IsColumnAccountedFor(m, boardID, c, was, OwnColumns(now.registry, boardID) + now.held)
  {
    ColumnDoesWhatWasSaid(m, boardID, c, mint, was, now, p, v);
    FitsExactlyWhen(p, m.r);
    AccountedFor(m, boardID, c, p, v, was, now, OwnColumns(now.registry, boardID) + now.held);
  }

  // After a reading, a column of the board that nobody answered for when it came up is
  // on the board, and does what the board said; one that somebody registered answered
  // for is on it as that one, and does what that one did; and one that could not be used
  // is on it still, saying what it said.
  lemma ColumnsAreAccountedFor(m: Machine, boardID: string, columns: seq<Column>, said: seq<Column>, mint: nat -> Mint, k: nat,
                               was: seq<Column>, now: Reading<Column>)
    requires NamesTrimmed(m) && k < |said| && NoStrangerAnswers(ColumnRules(m, boardID), columns, said, mint)
    requires was == Until(ColumnRules(m, boardID), columns, said, mint, k).registry
    requires now == Adopt(ColumnRules(m, boardID), Reading(columns, []), said, mint)
    ensures IsColumnAccountedFor(m, boardID, said[k], was, OwnColumns(now.registry, boardID) + now.held)
  {
    ColumnWent(m, boardID, columns, said, mint, k);
    var p := PrepareColumn(m, boardID)(said[k]);
    AnsweredOrNew(m, boardID, columns, said, mint, k, was, now, p, NormColumn(p));
    ColumnAccountedFor(m, boardID, said[k], mint(k), was, now, p, NormColumn(p));
  }

  // And whoever was registered keeps doing what it did, whatever it came to answer for.
  lemma ColumnsKeepWhatTheyDo(m: Machine, boardID: string, columns: seq<Column>, said: seq<Column>, mint: nat -> Mint)
    requires NamesTrimmed(m)
    ensures ColumnsAllKept(m, boardID, columns, Adopt(ColumnRules(m, boardID), Reading(columns, []), said, mint).registry)
  {
    var keeps := KeepsColumns(m, boardID);
    ColumnsPrepareSettles(m, boardID);
    ColumnsAreKept(m, boardID, ColumnRules(m, boardID), keeps);
    ReadingKeepsAll(ColumnRules(m, boardID), keeps, Reading(columns, []), said, mint, 0);
    KeptByAll(m, boardID, keeps, columns, Adopt(ColumnRules(m, boardID), Reading(columns, []), said, mint).registry);
  }

  // ---- routes -----------------------------------------------------------------------

  // The plural names, and the singular one after them.
  function NamesOf(n: FlowNode): seq<string> {
    n.agentNames + if n.agentName == "" then [] else [n.agentName]
  }

  ghost predicate IsPreparedNode(m: Machine, n: FlowNode, p: FlowNode) {
    && p.optionID == (if n.optionID == "" && m.option(n.column).Some? then m.option(n.column).value.optionID else n.optionID)
    && p.id == n.id && p.column == n.column && p.action == n.action && p.tools == n.tools && p.rest == n.rest
    && IsPinned(n.deployID, n.deployName, m.deploy, p.deployID, p.deployName)
    && IsCrewed(n.agentIDs, NamesOf(n), m.crew, p.agentIDs, p.agentNames) && p.agentName == ""
  }

  // A route of a board before it is checked: its stages put on the options they stand for,
  // and its names looked up.
  ghost predicate IsPreparedRoute(m: Machine, boardID: string, f: Flow, p: Flow) {
    && p.head.id == f.head.id && p.head.name == f.head.name && p.head.property == f.head.property && p.head.boardID == boardID
    && IsPinned(f.head.workspaceID, f.head.workdirName, m.workdir, p.head.workspaceID, p.head.workdirName)
    && |p.nodes| == |f.nodes| && (forall i :: 0 <= i < |f.nodes| ==> IsPreparedNode(m, f.nodes[i], p.nodes[i]))
    && p.edges == f.edges
  }

  lemma BoundNodeIs(m: Machine, n: FlowNode)
    ensures var b := BindNodeRefs(n, m);
            && IsPinned(n.deployID, n.deployName, m.deploy, b.deployID, b.deployName)
            && IsCrewed(n.agentIDs, NamesOf(n), m.crew, b.agentIDs, b.agentNames)
  {
    DeployIsPinned(n.deployID, n.deployName, m);
    assert CrewNames(n) == NamesOf(n);
    BoundIsCrewed(n.agentIDs, NamesOf(n), m.crew);
  }

  lemma PreparedNodeIs(m: Machine, n: FlowNode)
    ensures IsPreparedNode(m, n, BindNodeRefs(BindStageOption(n, m), m))
  {
    BoundNodeIs(m, BindStageOption(n, m));
  }

  lemma PreparedRouteIs(m: Machine, boardID: string, f: Flow)
    ensures IsPreparedRoute(m, boardID, f, PrepareRoute(m, boardID)(f))
  {
    forall i | 0 <= i < |f.nodes| ensures IsPreparedNode(m, f.nodes[i], BindNodes(PlaceNodes(f.nodes, m), m)[i]) {
      PreparedNodeIs(m, f.nodes[i]);
    }
  }

  // What is kept of a stage of a registered route: everything but names that are looked up.
  ghost predicate NodeKept(m: Machine, a: FlowNode, b: FlowNode) {
    || b == a
    || (&& b.id == a.id && b.column == a.column && b.optionID == a.optionID && b.action == a.action
        && b.tools == a.tools && b.rest == a.rest
        && PinKept(a.deployID, a.deployName, m.deploy, b.deployID, b.deployName)
        && CrewKept(a.agentIDs, NamesOf(a), m.crew, b.agentIDs, b.agentNames) && b.agentName == "")
  }

  ghost predicate RouteKept(m: Machine, a: Flow, b: Flow) {
    && b.head.id == a.head.id && b.head.name == a.head.name && b.head.boardID == a.head.boardID
    && b.head.property == a.head.property
    && PinKept(a.head.workspaceID, a.head.workdirName, m.workdir, b.head.workspaceID, b.head.workdirName)
    && |b.nodes| == |a.nodes| && (forall i :: 0 <= i < |a.nodes| ==> NodeKept(m, a.nodes[i], b.nodes[i]))
    && b.edges == a.edges
  }

  ghost function KeepsRoutes(m: Machine): (Flow, Flow) -> bool {
    (a: Flow, b: Flow) => RouteKept(m, a, b)
  }

  lemma NodeKeptOn(m: Machine, a: FlowNode, b: FlowNode, c: FlowNode)
    requires NodeKept(m, a, b) && NodeKept(m, b, c)
    ensures NodeKept(m, a, c)
  {
    if a != b && b != c {
      assert NamesOf(b) == b.agentNames;
      PinKeptOn(a.deployID, a.deployName, m.deploy, b.deployID, b.deployName, c.deployID, c.deployName);
      CrewKeptOn(a.agentIDs, NamesOf(a), m.crew, b.agentIDs, b.agentNames, c.agentIDs, c.agentNames);
    }
  }

  lemma RouteKeptOn(m: Machine, a: Flow, b: Flow, c: Flow)
    requires RouteKept(m, a, b) && RouteKept(m, b, c)
    ensures RouteKept(m, a, c)
  {
    PinKeptOn(a.head.workspaceID, a.head.workdirName, m.workdir, b.head.workspaceID, b.head.workdirName,
              c.head.workspaceID, c.head.workdirName);
    forall i | 0 <= i < |a.nodes| ensures NodeKept(m, a.nodes[i], c.nodes[i]) {
      NodeKeptOn(m, a.nodes[i], b.nodes[i], c.nodes[i]);
    }
  }

  lemma MeldedRouteIsKept(m: Machine, e: Flow, w: Flow)
    ensures RouteKept(m, e, MeldRoute(m)(e, w))
  {
    forall i | 0 <= i < |e.nodes| ensures NodeKept(m, e.nodes[i], BindNodes(e.nodes, m)[i]) {
      BoundNodeIs(m, e.nodes[i]);
    }
  }

  lemma RoutesAreKeptOn(m: Machine, keeps: (Flow, Flow) -> bool)
    requires keeps == KeepsRoutes(m)
    ensures KeptOnAndOn(keeps)
  {
    forall a, b, c | keeps(a, b) && keeps(b, c) {
      RouteKeptOn(m, a, b, c);
    }
  }

  lemma RoutesAreKept(m: Machine, boardID: string, r: Rules<Flow>, keeps: (Flow, Flow) -> bool)
    requires r == RouteRules(m, boardID) && keeps == KeepsRoutes(m)
    ensures Keeping(r, keeps)
  {
    RoutesAreKeptOn(m, keeps);
    forall e, w | r.same(e, w) && r.own(w) {
      MeldedRouteIsKept(m, e, w);
    }
  }

  // A stage as the board said it.
  ghost predicate IsNodeAsSaid(m: Machine, n: FlowNode, a: FlowNode) {
    && a.id == Trim(n.id) && a.column == Trim(n.column) && a.action == Trim(n.action) && a.rest == n.rest
    && a.optionID == (if n.optionID == "" && m.option(n.column).Some? then m.option(n.column).value.optionID else n.optionID)
    && T.AreTidied(n.tools, a.tools) && a.deployName == "" && a.agentNames == [] && a.agentName == ""
    && (if Trim(n.deployID) != "" || Trim(n.deployName) == "" then a.deployID == Trim(n.deployID)
        else m.deploy(n.deployName).Some? && a.deployID == Trim(m.deploy(n.deployName).value))
    && exists added :: AreAdded(n.agentIDs, NamesOf(n), m.crew, added) && IsRosterOf(n.agentIDs + added, a.agentIDs)
  }

  // A route as the board said it: its stages and its transitions in their order, each as
  // said, and its folder the one it said or named.
  ghost predicate IsRouteAsSaid(m: Machine, boardID: string, f: Flow, mint: Mint, a: Flow) {
    && a.head.name == Trim(f.head.name) && a.head.property == Trim(f.head.property) && a.head.boardID == boardID
    && a.head.id == (if Trim(f.head.id) == "" then mint else f.head.id) && a.head.workdirName == ""
    && (if Trim(f.head.workspaceID) != "" || Trim(f.head.workdirName) == "" then a.head.workspaceID == f.head.workspaceID
        else m.workdir(f.head.workdirName) == Some(a.head.workspaceID))
    && |a.nodes| == |f.nodes| && (forall i :: 0 <= i < |f.nodes| ==> IsNodeAsSaid(m, f.nodes[i], a.nodes[i]))
    && |a.edges| == |f.edges| && forall i :: 0 <= i < |f.edges| ==> IsTidyEdge(f.edges[i], a.edges[i])
  }

  lemma NodeIsAsSaid(m: Machine, n: FlowNode, p: FlowNode, v: FlowNode, a: FlowNode)
    requires IsPreparedNode(m, n, p) && p.agentNames == [] && p.deployName == "" && IsTidyNode(p, v) && NodeKept(m, v, a)
    ensures IsNodeAsSaid(m, n, a)
  {
    assert NamesOf(v) == [];
    NoNamesNoChange(v.deployID, m.deploy, a.deployID, a.deployName, v.agentIDs, m.crew, a.agentIDs, a.agentNames);
    var added :| p.agentIDs == n.agentIDs + added && AreAdded(n.agentIDs, NamesOf(n), m.crew, added);
    assert IsRosterOf(n.agentIDs + added, a.agentIDs);
  }

  lemma RouteIsAsSaid(m: Machine, boardID: string, f: Flow, mint: Mint, p: Flow, v: Flow, a: Flow)
    requires IsPreparedRoute(m, boardID, f, p) && RouteFits(p, m.r) && IsTidyRoute(p, v, mint) && RouteKept(m, v, a)
    ensures IsRouteAsSaid(m, boardID, f, mint, a)
  {
    assert Trim("") == "";
    forall i | 0 <= i < |f.nodes| ensures IsNodeAsSaid(m, f.nodes[i], a.nodes[i]) {
      NodeIsAsSaid(m, f.nodes[i], p.nodes[i], v.nodes[i], a.nodes[i]);
    }
    assert forall i :: 0 <= i < |f.edges| ==> IsTidyEdge(p.edges[i], v.edges[i]);
  }

  lemma {:induction false} OwnFlowIsWritten(flows: seq<Flow>, boardID: string, i: nat)
    requires i < |flows| && flows[i].head.boardID == boardID
    ensures flows[i] in OwnFlows(flows, boardID)
  {
    if i > 0 {
      OwnFlowIsWritten(flows[1..], boardID, i - 1);
    }
  }

  ghost predicate RoutesAllKept(m: Machine, was: seq<Flow>, now: seq<Flow>) {
    |was| <= |now| && forall i :: 0 <= i < |was| ==> RouteKept(m, was[i], now[i])
  }

  ghost predicate NobodyIsThat(was: seq<Flow>, v: Flow) {
    forall i :: 0 <= i < |was| ==> !SameRoute(was[i], v)
  }

  ghost predicate RouteStandsAsSaid(m: Machine, boardID: string, f: Flow, mint: Mint, was: seq<Flow>, now: seq<Flow>) {
    && |was| < |now| && IsRouteAsSaid(m, boardID, f, mint, now[|was|])
    && now[|was|] in OwnFlows(now, boardID)
  }

  lemma RouteWent(m: Machine, boardID: string, flows: seq<Flow>, said: seq<Flow>, mint: nat -> Mint, k: nat)
    requires NamesTrimmed(m) && k < |said|
    ensures var r := RouteRules(m, boardID);
            Went(r, KeepsRoutes(m), Until(r, flows, said, mint, k).registry, Adopt(r, Reading(flows, []), said, mint),
                 said[k], mint(k))
  {
    RoutesPrepareSettles(m, boardID);
    RoutesAreKept(m, boardID, RouteRules(m, boardID), KeepsRoutes(m));
    WhereItWent(RouteRules(m, boardID), KeepsRoutes(m), flows, said, mint, k);
  }

  lemma NewRouteWent(r: Rules<Flow>, keeps: (Flow, Flow) -> bool, m: Machine, f: Flow, mint: Mint,
                     was: seq<Flow>, now: Reading<Flow>, v: Flow)
    requires keeps == KeepsRoutes(m) && Went(r, keeps, was, now, f, mint)
    requires r.valid(r.prepare(f), mint) == Some(v) && r.same == SameRoute && NobodyIsThat(was, v)
    ensures |was| < |now.registry| && RouteKept(m, v, now.registry[|was|])
  {
    assert FirstSame(r, was, v).None?;
    assert keeps(v, now.registry[|was|]);
  }

  lemma WhereTheRouteWent(m: Machine, boardID: string, f: Flow, mint: Mint, was: seq<Flow>, now: Reading<Flow>, p: Flow)
    requires Went(RouteRules(m, boardID), KeepsRoutes(m), was, now, f, mint) && p == PrepareRoute(m, boardID)(f)
    ensures !Acceptable(p, m.r) ==> Left(p, m.r) in now.held
    ensures Acceptable(p, m.r) && NobodyIsThat(was, Normal(p, mint)) ==>
              |was| < |now.registry| && RouteKept(m, Normal(p, mint), now.registry[|was|])
  {
    if Acceptable(p, m.r) && NobodyIsThat(was, Normal(p, mint)) {
      NewRouteWent(RouteRules(m, boardID), KeepsRoutes(m), m, f, mint, was, now, Normal(p, mint));
    }
  }

  lemma RoutesKeptByAll(m: Machine, keeps: (Flow, Flow) -> bool, was: seq<Flow>, now: seq<Flow>)
    requires keeps == KeepsRoutes(m) && AllKept(keeps, was, now)
    ensures RoutesAllKept(m, was, now)
  {
    forall i | 0 <= i < |was| ensures RouteKept(m, was[i], now[i]) {
      assert keeps(was[i], now[i]);
    }
  }

  // What an entry was made of, and, of a new one, that it stands there as said.
  lemma RouteDoesWhatWasSaid(m: Machine, boardID: string, f: Flow, mint: Mint, was: seq<Flow>, now: Reading<Flow>,
                             p: Flow, v: Flow)
    requires Went(RouteRules(m, boardID), KeepsRoutes(m), was, now, f, mint) && p == PrepareRoute(m, boardID)(f)
    requires v == if Acceptable(p, m.r) then Normal(p, mint) else Left(p, m.r)
    ensures IsPreparedRoute(m, boardID, f, p)
    ensures if RouteFits(p, m.r) then IsTidyRoute(p, v, mint) else IsPartlyTidied(p, v) && v in now.held
    ensures RouteFits(p, m.r) && NobodyIsThat(was, v) ==> RouteStandsAsSaid(m, boardID, f, mint, was, now.registry)
  {
    PreparedRouteIs(m, boardID, f);
    WhatItLeaves(p, m.r, mint);
    WhereTheRouteWent(m, boardID, f, mint, was, now, p);
    if Acceptable(p, m.r) && NobodyIsThat(was, v) {
      RouteIsAsSaid(m, boardID, f, mint, p, v, now.registry[|was|]);
      OwnFlowIsWritten(now.registry, boardID, |was|);
    }
  }

  ghost predicate IsFirstRoute(was: seq<Flow>, v: Flow, i: nat) {
    i < |was| && SameRoute(was[i], v) && forall k :: 0 <= k < i ==> !SameRoute(was[k], v)
  }

  // What has become of a route of the board, likewise.
  ghost predicate RouteAccount(m: Machine, boardID: string, f: Flow, mint: Mint, p: Flow, v: Flow, was: seq<Flow>, after: seq<Flow>) {
    && IsPreparedRoute(m, boardID, f, p)
    && if !RouteFits(p, m.r) then IsPartlyTidied(p, v) && v in after
       else
         && IsTidyRoute(p, v, mint)
         && if NobodyIsThat(was, v) then RouteIsThere(m, boardID, f, mint, after) else RouteIsAnswered(m, was, v, after)
  }

  ghost predicate RouteIsThere(m: Machine, boardID: string, f: Flow, mint: Mint, after: seq<Flow>) {
    exists a :: a in after && IsRouteAsSaid(m, boardID, f, mint, a)
  }

  ghost predicate RouteIsAnswered(m: Machine, was: seq<Flow>, v: Flow, after: seq<Flow>) {
    exists i: nat, a: Flow :: a in after && IsFirstRoute(was, v, i) && RouteKept(m, was[i], a)
  }

  ghost predicate IsRouteAccountedFor(m: Machine, boardID: string, f: Flow, mint: Mint, was: seq<Flow>, after: seq<Flow>) {
    exists p, v :: RouteAccount(m, boardID, f, mint, p, v, was, after)
  }

  lemma FirstRouteAnswered(r: Rules<Flow>, was: seq<Flow>, v: Flow) returns (i: nat)
    requires r.same == SameRoute && !NobodyIsThat(was, v)
    ensures FirstSame(r, was, v) == Some(i) && IsFirstRoute(was, v, i)
  {
    i := FirstSame(r, was, v).value;
  }

  lemma RouteAnswererIsKept(r: Rules<Flow>, keeps: (Flow, Flow) -> bool, m: Machine, boardID: string, f: Flow, mint: Mint,
                            was: seq<Flow>, now: Reading<Flow>, v: Flow, i: nat)
    requires r == RouteRules(m, boardID) && keeps == KeepsRoutes(m)
    requires Went(r, keeps, was, now, f, mint) && r.valid(r.prepare(f), mint) == Some(v)
    requires FirstSame(r, was, v) == Some(i) && r.own(r.meld(was[i], v))
    ensures i < |now.registry| && now.registry[i].head.boardID == boardID
    ensures i < |was| && RouteKept(m, was[i], now.registry[i])
  {
    assert keeps(r.meld(was[i], v), now.registry[i]);
    assert keeps(was[i], now.registry[i]);
  }

  lemma RouteAnswererIsOwn(m: Machine, boardID: string, flows: seq<Flow>, said: seq<Flow>, mint: nat -> Mint, k: nat,
                           r: Rules<Flow>, was: seq<Flow>, v: Flow, i: nat)
    requires NamesTrimmed(m) && k < |said| && r == RouteRules(m, boardID) && NoStrangerAnswers(r, flows, said, mint)
    requires was == Until(r, flows, said, mint, k).registry
    requires r.valid(r.prepare(said[k]), mint(k)) == Some(v) && FirstSame(r, was, v) == Some(i)
    ensures r.own(r.meld(was[i], v))
  {
    RoutesAreLawful(m, boardID);
    AnswererIsOwn(r, flows, said, mint, k, v, i);
  }

  lemma RouteAnsweredBy(m: Machine, was: seq<Flow>, v: Flow, after: seq<Flow>, i: nat, a: Flow)
    requires a in after && IsFirstRoute(was, v, i) && RouteKept(m, was[i], a)
    ensures RouteIsAnswered(m, was, v, after)
  {
  }

  lemma RouteIsAnsweredFor(m: Machine, boardID: string, f: Flow, mint: Mint, was: seq<Flow>, now: Reading<Flow>,
                           r: Rules<Flow>, keeps: (Flow, Flow) -> bool, v: Flow, i: nat)
    requires r == RouteRules(m, boardID) && keeps == KeepsRoutes(m)
    requires Went(r, keeps, was, now, f, mint) && r.valid(r.prepare(f), mint) == Some(v)
    requires FirstSame(r, was, v) == Some(i) && r.own(r.meld(was[i], v))
    ensures RouteIsAnswered(m, was, v, OwnFlows(now.registry, boardID) + now.held)
  {
    RouteAnswererIsKept(r, keeps, m, boardID, f, mint, was, now, v, i);
    OwnFlowIsWritten(now.registry, boardID, i);
    RouteAnsweredBy(m, was, v, OwnFlows(now.registry, boardID) + now.held, i, now.registry[i]);
  }

  lemma RouteWasAnswered(m: Machine, boardID: string, flows: seq<Flow>, said: seq<Flow>, mint: nat -> Mint, k: nat,
                         was: seq<Flow>, now: Reading<Flow>, v: Flow)
    requires NamesTrimmed(m) && k < |said| && NoStrangerAnswers(RouteRules(m, boardID), flows, said, mint)
    requires was == Until(RouteRules(m, boardID), flows, said, mint, k).registry
    requires Went(RouteRules(m, boardID), KeepsRoutes(m), was, now, said[k], mint(k))
    requires RouteRules(m, boardID).valid(PrepareRoute(m, boardID)(said[k]), mint(k)) == Some(v) && !NobodyIsThat(was, v)
    ensures RouteIsAnswered(m, was, v, OwnFlows(now.registry, boardID) + now.held)
  {
    var r := RouteRules(m, boardID);
    var i := FirstRouteAnswered(r, was, v);
    RouteAnswererIsOwn(m, boardID, flows, said, mint, k, r, was, v, i);
    RouteIsAnsweredFor(m, boardID, said[k], mint(k), was, now, r, KeepsRoutes(m), v, i);
  }

  lemma RouteAccountGiven(m: Machine, boardID: string, f: Flow, mint: Mint, p: Flow, v: Flow, was: seq<Flow>,
                          now: Reading<Flow>, after: seq<Flow>)
    requires after == OwnFlows(now.registry, boardID) + now.held
    requires IsPreparedRoute(m, boardID, f, p) && (!RouteFits(p, m.r) ==> IsPartlyTidied(p, v) && v in now.held)
    requires RouteFits(p, m.r) ==>
               && IsTidyRoute(p, v, mint)
               && if NobodyIsThat(was, v) then RouteStandsAsSaid(m, boardID, f, mint, was, now.registry)
                  else RouteIsAnswered(m, was, v, after)
    ensures IsRouteAccountedFor(m, boardID, f, mint, was, after)
  {
    if RouteFits(p, m.r) && NobodyIsThat(was, v) {
      assert now.registry[|was|] in after;
    }
    assert RouteAccount(m, boardID, f, mint, p, v, was, after);
  }

  lemma RouteAccountedFor(m: Machine, boardID: string, f: Flow, mint: Mint, was: seq<Flow>, now: Reading<Flow>,
                          p: Flow, v: Flow)
    requires Went(RouteRules(m, boardID), KeepsRoutes(m), was, now, f, mint) && p == PrepareRoute(m, boardID)(f)
    requires v == if Acceptable(p, m.r) then Normal(p, mint) else Left(p, m.r)
    requires Acceptable(p, m.r) && !NobodyIsThat(was, v) ==>
               RouteIsAnswered(m, was, v, OwnFlows(now.registry, boardID) + now.held)
    ensures IsRouteAccountedFor(m, boardID, f, mint, was, OwnFlows(now.registry, boardID) + now.held)
  {
    RouteDoesWhatWasSaid(m, boardID, f, mint, was, now, p, v);
    AcceptedExactlyWhenItFits(p, m.r);
    RouteAccountGiven(m, boardID, f, mint, p, v, was, now, OwnFlows(now.registry, boardID) + now.held);
  }

  // After a reading, the same of every route of the board.
  lemma RoutesAreAccountedFor(m: Machine, boardID: string, flows: seq<Flow>, said: seq<Flow>, mint: nat -> Mint, k: nat,
                              was: seq<Flow>, now: Reading<Flow>)
    requires NamesTrimmed(m) && k < |said| && NoStrangerAnswers(RouteRules(m, boardID), flows, said, mint)
    requires was == Until(RouteRules(m, boardID), flows, said, mint, k).registry
    requires now == Adopt(RouteRules(m, boardID), Reading(flows, []), said, mint)
    ensures IsRouteAccountedFor(m, boardID, said[k], mint(k), was, OwnFlows(now.registry, boardID) + now.held)
  {
    RouteWent(m, boardID, flows, said, mint, k);
    var p := PrepareRoute(m, boardID)(said[k]);
    var v := if Acceptable(p, m.r) then Normal(p, mint(k)) else Left(p, m.r);
    if Acceptable(p, m.r) && !NobodyIsThat(was, v) {
      RouteWasAnswered(m, boardID, flows, said, mint, k, was, now, v);
    }
    RouteAccountedFor(m, boardID, said[k], mint(k), was, now, p, v);
  }

  lemma RoutesKeepWhatTheyDo(m: Machine, boardID: string, flows: seq<Flow>, said: seq<Flow>, mint: nat -> Mint)
    requires NamesTrimmed(m)
    ensures RoutesAllKept(m, flows, Adopt(RouteRules(m, boardID), Reading(flows, []), said, mint).registry)
  {
    var keeps := KeepsRoutes(m);
    RoutesPrepareSettles(m, boardID);
    RoutesAreKept(m, boardID, RouteRules(m, boardID), keeps);
    ReadingKeepsAll(RouteRules(m, boardID), keeps, Reading(flows, []), said, mint, 0);
    RoutesKeptByAll(m, keeps, flows, Adopt(RouteRules(m, boardID), Reading(flows, []), said, mint).registry);
  }
}
