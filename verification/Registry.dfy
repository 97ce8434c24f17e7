/** The registries of agents, proxies and deploy targets: edited in memory, written
    through to a table, read back at start-up (internal/acp/registrymove.go,
    registrystore.go, agents.go, deploys.go, proxies.go). The three differ in what an
    entry holds and in when two names are the same; what follows is said of each. */
module Registry {
  import opened Text

  // account is an agent's board account, kept across renames; rest is everything
  // else an entry holds.
  datatype Entry = Entry(id: string, name: string, account: string, rest: string)

  type Table = map<string, Entry>

  // The table's own rules: a row per id, and a unique index on the name.
  predicate IsTable(t: Table) {
    && (forall id :: id in t ==> t[id].id == id != "")
    && (forall a, b :: a in t && b in t && t[a].name == t[b].name ==> a == b)
  }

  predicate Clashes(t: Table, e: Entry) {
    exists id :: id in t && id != e.id && t[id].name == e.name
  }

  // INSERT ... ON CONFLICT(id) DO UPDATE.
  function SaveRow(t: Table, e: Entry): (r: Option<Table>)
    ensures IsTable(t) && e.id != "" && r.Some? ==> IsTable(r.value)
  {
    if Clashes(t, e) then None else Some(t[e.id := e])
  }

  // An entry somebody could pick: it has a name, and is the first under it.
  predicate Registrable(es: seq<Entry>, i: nat)
    requires i < |es|
  {
    es[i].name != "" && forall j :: 0 <= j < i ==> es[j].name != es[i].name
  }

  // The table is exactly these entries.
  ghost predicate Holds(t: Table, es: seq<Entry>) {
    && (forall i :: 0 <= i < |es| && Registrable(es, i) ==> es[i].id in t && t[es[i].id] == es[i])
    && (forall id :: id in t ==> exists i :: 0 <= i < |es| && Registrable(es, i) && es[i].id == id)
  }

  // The id an entry is saved under, when it is not a new one: its own, else that of
  // the row with its name.
  ghost predicate Claims(t: Table, e: Entry, id: string) {
    if e.id != "" then id == e.id else id in t && t[id].name == e.name
  }

  // No two entries claim one row.
  ghost predicate ClaimsApart(t: Table, es: seq<Entry>) {
    forall i, j, id ::
      0 <= i < j < |es| && Registrable(es, i) && Registrable(es, j) && Claims(t, es[i], id) ==> !Claims(t, es[j], id)
  }

  ghost predicate ClaimedBefore(t: Table, es: seq<Entry>, i: nat, id: string)
    requires i <= |es|
  {
    exists j :: 0 <= j < i && Registrable(es, j) && Claims(t, es[j], id)
  }

  // The name of entry i is on a row that is not the entry's own, and that nobody
  // saved earlier has by then renamed.
  ghost predicate Obstructed(t: Table, es: seq<Entry>, i: nat)
    requires i < |es|
  {
    Registrable(es, i) && exists id :: InTheWay(t, es, i, id)
  }

  ghost predicate InTheWay(t: Table, es: seq<Entry>, i: nat, id: string)
    requires i < |es|
  {
    id in t && t[id].name == es[i].name && !Claims(t, es[i], id) && !ClaimedBefore(t, es, i, id)
  }

  ghost predicate Clear(t: Table, es: seq<Entry>, n: nat)
    requires n <= |es|
  {
    forall i :: 0 <= i < n ==> !Obstructed(t, es, i)
  }

  // No two entries claim one row, and each row with an entry's name is its own.
  ghost predicate Settled(t: Table, es: seq<Entry>) {
    && ClaimsApart(t, es)
    && (forall i, id ::
          0 <= i < |es| && Registrable(es, i) && id in t && t[id].name == es[i].name ==> Claims(t, es[i], id))
  }

  ghost predicate SavedAs(t: Table, e: Entry, e': Entry) {
    && e'.id != "" && e' == e.(id := e'.id)
    && (Claims(t, e, e'.id) || (e.id == "" && e'.id !in t && forall r :: r in t ==> t[r].name != e.name))
  }

  // Part-way through a save: each entry before i has its id.
  ghost predicate Partly(t0: Table, es0: seq<Entry>, es: seq<Entry>, i: nat) {
    SameButIDs(es0, es, i) && EachSaved(t0, es0, es, i) && NewIsNew(t0, es0, es, i)
  }

  ghost predicate Saved(t0: Table, es0: seq<Entry>, es: seq<Entry>, i: nat) {
    Partly(t0, es0, es, i) && IDsApart(es0, es, i)
  }

  // What is in the table by then: rows as they were, and rows of entries before i.
  ghost predicate Followed(t0: Table, t: Table, es0: seq<Entry>, es: seq<Entry>, i: nat)
    requires |es| == |es0| && i <= |es|
  {
    && t0.Keys <= t.Keys
    && (forall id :: id in t ==> (id in t0 && t[id] == t0[id]) || WrittenBy(es0, es, i, id))
    && (forall id :: id in t && WrittenBy(es0, es, i, id) ==> NamedByOne(es0, i, t[id].name))
  }

  ghost predicate NamedByOne(es0: seq<Entry>, i: nat, name: string)
    requires i <= |es0|
  {
    exists k :: 0 <= k < i && Registrable(es0, k) && es0[k].name == name
  }

  ghost predicate SameButIDs(es0: seq<Entry>, es: seq<Entry>, i: nat) {
    && |es| == |es0| && i <= |es|
    && (forall k :: 0 <= k < |es| ==> es[k] == es0[k].(id := es[k].id))
    && (forall k :: 0 <= k < |es| && (k >= i || !Registrable(es0, k)) ==> es[k] == es0[k])
  }

  ghost predicate EachSaved(t0: Table, es0: seq<Entry>, es: seq<Entry>, i: nat)
    requires |es| == |es0| && i <= |es|
  {
    forall k :: 0 <= k < i && Registrable(es0, k) ==> SavedAs(t0, es0[k], es[k])
  }

  ghost predicate NewIsNew(t0: Table, es0: seq<Entry>, es: seq<Entry>, i: nat)
    requires |es| == |es0| && i <= |es|
  {
    forall k, m :: 0 <= k < i && 0 <= m < |es0| && Registrable(es0, k) && !Claims(t0, es0[k], es[k].id) ==>
      es0[m].id != es[k].id
  }

  ghost predicate IDsApart(es0: seq<Entry>, es: seq<Entry>, i: nat)
    requires |es| == |es0| && i <= |es|
  {
    forall k, m :: 0 <= k < m < i && Registrable(es0, k) && Registrable(es0, m) ==> es[k].id != es[m].id
  }

  ghost predicate Written(t0: Table, t: Table, es0: seq<Entry>, es: seq<Entry>, i: nat)
    requires |es| == |es0| && i <= |es|
  {
    && (forall k :: 0 <= k < i && Registrable(es0, k) ==> es[k].id in t && t[es[k].id] == es[k])
    && (forall id :: id in t ==> (id in t0 && t[id] == t0[id]) || WrittenBy(es0, es, i, id))
  }

  ghost predicate WrittenBy(es0: seq<Entry>, es: seq<Entry>, i: nat, id: string)
    requires |es| == |es0| && i <= |es|
  {
    exists k :: 0 <= k < i && Registrable(es0, k) && es[k].id == id
  }

  // The id chosen for entry i: claimed, or new to everything.
  ghost predicate Chosen(t0: Table, es0: seq<Entry>, es: seq<Entry>, i: nat, id: string)
    requires |es| == |es0| && i < |es|
  {
    && id != ""
    && (Claims(t0, es0[i], id)
        || (&& es0[i].id == "" && id !in t0 && (forall r :: r in t0 ==> t0[r].name != es0[i].name)
            && (forall k :: 0 <= k < |es| ==> es0[k].id != id && es[k].id != id)))
  }

  lemma AdoptedIsFree(t0: Table, es0: seq<Entry>, es: seq<Entry>, i: nat, id: string)
    requires IsTable(t0) && |es| == |es0| && i < |es| && Obstructed(t0, es0, i) && Chosen(t0, es0, es, i, id)
    ensures es0[i].id == id
  {
    var r :| InTheWay(t0, es0, i, r);
  }

  lemma ClaimIsOne(t: Table, e: Entry, a: string, b: string)
    requires IsTable(t) && Claims(t, e, a) && Claims(t, e, b)
    ensures a == b
  {
  }

  lemma ChosenIsNew(t0: Table, es0: seq<Entry>, es: seq<Entry>, i: nat, id: string, k: nat)
    requires IsTable(t0) && ClaimsApart(t0, es0) && Saved(t0, es0, es, i) && i < |es| && Registrable(es0, i)
    requires Chosen(t0, es0, es, i, id) && k < i && Registrable(es0, k)
    ensures es[k].id != id
  {
    if Claims(t0, es0[i], id) && Claims(t0, es0[k], es[k].id) {
      assert !Claims(t0, es0[i], es[k].id);
    }
  }

  // The unique index refuses a row exactly when somebody is in the way of it.
  lemma ClashesWhenObstructed(t0: Table, t: Table, es0: seq<Entry>, es: seq<Entry>, i: nat, id: string)
    requires IsTable(t0) && Partly(t0, es0, es, i) && i < |es| && Registrable(es0, i)
    requires Followed(t0, t, es0, es, i) && Chosen(t0, es0, es, i, id)
    ensures Clashes(t, es0[i].(id := id)) <==> Obstructed(t0, es0, i)
  {
    if Clashes(t, es0[i].(id := id)) {
      var r :| r in t && r != id && t[r].name == es0[i].name;
      ClashIsInTheWay(t0, t, es0, es, i, id, r);
    }
    if Obstructed(t0, es0, i) {
      var r :| InTheWay(t0, es0, i, r);
      NotWritten(t0, es0, es, i, r);
      assert t[r].name == es0[i].name && r != id;
    }
  }

  // A row somebody claims is not written by the others, and one nobody claims by none.
  lemma NotWritten(t0: Table, es0: seq<Entry>, es: seq<Entry>, i: nat, r: string)
    requires IsTable(t0) && Partly(t0, es0, es, i) && r in t0
    ensures WrittenBy(es0, es, i, r) <==> ClaimedBefore(t0, es0, i, r)
  {
    if WrittenBy(es0, es, i, r) {
      var k :| 0 <= k < i && Registrable(es0, k) && es[k].id == r;
      assert SavedAs(t0, es0[k], es[k]);
    }
    if ClaimedBefore(t0, es0, i, r) {
      var k :| 0 <= k < i && Registrable(es0, k) && Claims(t0, es0[k], r);
      assert SavedAs(t0, es0[k], es[k]);
      assert es[k].id == r;
    }
  }

  lemma ClashIsInTheWay(t0: Table, t: Table, es0: seq<Entry>, es: seq<Entry>, i: nat, id: string, r: string)
    requires IsTable(t0) && Partly(t0, es0, es, i) && i < |es| && Registrable(es0, i)
    requires Followed(t0, t, es0, es, i) && Chosen(t0, es0, es, i, id)
    requires r in t && r != id && t[r].name == es0[i].name
    ensures InTheWay(t0, es0, i, r)
  {
    assert !NamedByOne(es0, i, t[r].name);
    NotWritten(t0, es0, es, i, r);
    if Claims(t0, es0[i], r) && Claims(t0, es0[i], id) {
      ClaimIsOne(t0, es0[i], r, id);
    }
  }

  lemma FollowOne(t0: Table, t: Table, es0: seq<Entry>, es: seq<Entry>, i: nat, id: string)
    requires |es| == |es0| && i < |es| && Registrable(es0, i) && Followed(t0, t, es0, es, i)
    ensures var e := es0[i].(id := id); Followed(t0, t[id := e], es0, es[i := e], i + 1)
  {
    var e := es0[i].(id := id);
    var es', t' := es[i := e], t[id := e];
    assert es'[i].id == id;
    forall r | r in t' ensures (r in t0 && t'[r] == t0[r]) || WrittenBy(es0, es', i + 1, r) {
      if r != id && WrittenBy(es0, es, i, r) {
        WrittenStill(es0, es, i, e, r);
      }
    }
    forall r | r in t' && WrittenBy(es0, es', i + 1, r) ensures NamedByOne(es0, i + 1, t'[r].name) {
      if r != id {
        var k :| 0 <= k < i + 1 && Registrable(es0, k) && es'[k].id == r;
        assert es[k].id == r && WrittenBy(es0, es, i, r);
        var m :| 0 <= m < i && Registrable(es0, m) && es0[m].name == t[r].name;
        assert m < i + 1;
      }
    }
  }

  lemma FollowOn(t0: Table, t: Table, es0: seq<Entry>, es: seq<Entry>, i: nat)
    requires |es| == |es0| && i < |es| && !Registrable(es0, i) && Followed(t0, t, es0, es, i)
    ensures Followed(t0, t, es0, es, i + 1)
  {
    forall r | r in t ensures WrittenBy(es0, es, i + 1, r) <==> WrittenBy(es0, es, i, r) {
      if WrittenBy(es0, es, i, r) {
        WrittenStill(es0, es, i, es[i], r);
        assert es[i := es[i]] == es;
      }
    }
    forall name | NamedByOne(es0, i, name) ensures NamedByOne(es0, i + 1, name) {
      var k :| 0 <= k < i && Registrable(es0, k) && es0[k].name == name;
      assert k < i + 1;
    }
  }

  lemma SaveApart(t0: Table, t: Table, es0: seq<Entry>, es: seq<Entry>, i: nat, id: string)
    requires IsTable(t0) && ClaimsApart(t0, es0) && Saved(t0, es0, es, i) && i < |es| && Registrable(es0, i)
    requires Written(t0, t, es0, es, i) && Chosen(t0, es0, es, i, id)
    ensures var e := es0[i].(id := id);
            IDsApart(es0, es[i := e], i + 1) && Written(t0, t[id := e], es0, es[i := e], i + 1)
  {
    forall k | 0 <= k < i && Registrable(es0, k) ensures es[k].id != id {
      ChosenIsNew(t0, es0, es, i, id, k);
    }
    var es' := es[i := es0[i].(id := id)];
    forall k, m | 0 <= k < m < i + 1 && Registrable(es0, k) && Registrable(es0, m) ensures es'[k].id != es'[m].id {
      assert m < i ==> es'[m] == es[m];
    }
    SaveInTable(t0, t, es0, es, i, id);
  }

  lemma SaveInPlace(t0: Table, es0: seq<Entry>, es: seq<Entry>, i: nat, id: string)
    requires Partly(t0, es0, es, i) && i < |es| && Registrable(es0, i) && Chosen(t0, es0, es, i, id)
    ensures Partly(t0, es0, es[i := es0[i].(id := id)], i + 1)
  {
    var es' := es[i := es0[i].(id := id)];
    assert SavedAs(t0, es0[i], es'[i]);
    forall k | 0 <= k < i + 1 && Registrable(es0, k) ensures SavedAs(t0, es0[k], es'[k]) {
      assert k < i ==> es'[k] == es[k];
    }
    forall k, m | 0 <= k < i + 1 && 0 <= m < |es0| && Registrable(es0, k) && !Claims(t0, es0[k], es'[k].id)
      ensures es0[m].id != es'[k].id
    {
      assert k < i ==> es'[k] == es[k];
    }
  }

  lemma SaveInTable(t0: Table, t: Table, es0: seq<Entry>, es: seq<Entry>, i: nat, id: string)
    requires |es| == |es0| && i < |es| && Registrable(es0, i) && Written(t0, t, es0, es, i)
    requires forall k :: 0 <= k < i && Registrable(es0, k) ==> es[k].id != id
    ensures var e := es0[i].(id := id); Written(t0, t[id := e], es0, es[i := e], i + 1)
  {
    var e := es0[i].(id := id);
    var es', t' := es[i := e], t[id := e];
    forall k | 0 <= k < i + 1 && Registrable(es0, k) ensures es'[k].id in t' && t'[es'[k].id] == es'[k] {
      assert k < i ==> es'[k] == es[k];
    }
    forall r | r in t' ensures (r in t0 && t'[r] == t0[r]) || WrittenBy(es0, es', i + 1, r) {
      if r == id {
        assert es'[i].id == r;
      } else if WrittenBy(es0, es, i, r) {
        WrittenStill(es0, es, i, e, r);
      }
    }
  }

  lemma WrittenStill(es0: seq<Entry>, es: seq<Entry>, i: nat, e: Entry, r: string)
    requires |es| == |es0| && i < |es| && WrittenBy(es0, es, i, r)
    ensures WrittenBy(es0, es[i := e], i + 1, r)
  {
    var k :| 0 <= k < i && Registrable(es0, k) && es[k].id == r;
    assert es[i := e][k].id == r;
  }

  lemma SkipInPlace(t0: Table, es0: seq<Entry>, es: seq<Entry>, i: nat)
    requires Partly(t0, es0, es, i) && i < |es| && !Registrable(es0, i)
    ensures Partly(t0, es0, es, i + 1) && (IDsApart(es0, es, i) ==> IDsApart(es0, es, i + 1))
  {
    forall k | 0 <= k < i + 1 && Registrable(es0, k) ensures k < i {}
    assert EachSaved(t0, es0, es, i + 1);
    assert NewIsNew(t0, es0, es, i + 1);
  }

  lemma SkipInTable(t0: Table, t: Table, es0: seq<Entry>, es: seq<Entry>, i: nat)
    requires |es| == |es0| && i < |es| && !Registrable(es0, i) && Written(t0, t, es0, es, i)
    ensures Written(t0, t, es0, es, i + 1)
  {
    forall r | r in t ensures (r in t0 && t[r] == t0[r]) || WrittenBy(es0, es, i + 1, r) {
      if WrittenBy(es0, es, i, r) {
        WrittenStill(es0, es, i, es[i], r);
        assert es[i := es[i]] == es;
      }
    }
  }

  // A save under way: the entries before i are done, and nobody was in their way.
  ghost predicate Underway(t0: Table, es0: seq<Entry>, t: Table, es: seq<Entry>, i: nat) {
    && IsTable(t0)
    && Partly(t0, es0, es, i) && Followed(t0, t, es0, es, i) && Clear(t0, es0, i)
    && (forall k :: 0 <= k < |es0| && es0[k].id != "" ==> es[k] == es0[k])
    && (ClaimsApart(t0, es0) ==> IDsApart(es0, es, i) && Written(t0, t, es0, es, i))
  }

  // A save that stopped before entry i: the rows before it are written, none is
  // deleted.
  ghost predicate StoppedAt(t0: Table, es0: seq<Entry>, t: Table, es: seq<Entry>, i: nat) {
    i < |es0| && Obstructed(t0, es0, i) && Underway(t0, es0, t, es, i) && Obstructed(t, es, i)
  }

  predicate IsIndex(t: Table, byName: map<string, string>) {
    && (forall name :: name in byName ==> byName[name] in t && t[byName[name]].name == name)
    && (forall id :: id in t ==> t[id].name in byName)
  }

  lemma SkipUnderway(t0: Table, es0: seq<Entry>, t: Table, es: seq<Entry>, i: nat)
    requires Underway(t0, es0, t, es, i) && i < |es| && !Registrable(es0, i)
    ensures Underway(t0, es0, t, es, i + 1)
  {
    SkipInPlace(t0, es0, es, i);
    FollowOn(t0, t, es0, es, i);
    if ClaimsApart(t0, es0) {
      SkipInTable(t0, t, es0, es, i);
    }
  }

  lemma SaveUnderway(t0: Table, es0: seq<Entry>, t: Table, es: seq<Entry>, i: nat, id: string)
    requires Underway(t0, es0, t, es, i) && i < |es| && Registrable(es0, i) && Chosen(t0, es0, es, i, id)
    requires es0[i].id != "" ==> id == es0[i].id
    ensures var e := es0[i].(id := id);
            && (Clashes(t, e) <==> Obstructed(t0, es0, i))
            && (!Clashes(t, e) ==> Underway(t0, es0, t[id := e], es[i := e], i + 1))
  {
    var e := es0[i].(id := id);
    ClashesWhenObstructed(t0, t, es0, es, i, id);
    SaveInPlace(t0, es0, es, i, id);
    FollowOne(t0, t, es0, es, i, id);
    if ClaimsApart(t0, es0) {
      SaveApart(t0, t, es0, es, i, id);
    }
    var es' := es[i := e];
    forall k | 0 <= k < |es0| && es0[k].id != "" ensures es'[k] == es0[k] {
      assert k != i ==> es'[k] == es[k];
    }
  }

  // Once refused, refused again: what was saved meanwhile is out of nobody's way.
  lemma StillObstructed(t0: Table, es0: seq<Entry>, t: Table, es: seq<Entry>, i: nat)
    requires Underway(t0, es0, t, es, i) && i < |es| && Obstructed(t0, es0, i)
    ensures Obstructed(t, es, i)
  {
    var r :| InTheWay(t0, es0, i, r);
    NotWritten(t0, es0, es, i, r);
    forall k | 0 <= k <= i ensures Registrable(es, k) == Registrable(es0, k) {
      NamesKept(t0, es0, es, i, k);
    }
    assert es[i] == es0[i];
    forall j | 0 <= j < i && Registrable(es, j) ensures !Claims(t, es[j], r) {
      assert SavedAs(t0, es0[j], es[j]);
    }
    assert InTheWay(t, es, i, r);
  }

  lemma NamesKept(t0: Table, es0: seq<Entry>, es: seq<Entry>, i: nat, k: nat)
    requires Partly(t0, es0, es, i) && k < |es|
    ensures Registrable(es, k) == Registrable(es0, k)
  {
  }

  lemma ClaimIsKept(t0: Table, es0: seq<Entry>, es: seq<Entry>, i: nat, id: string)
    requires Partly(t0, es0, es, |es|) && IsTable(t0) && i < |es|
    requires Registrable(es0, i) && Claims(t0, es0[i], id)
    ensures es[i].id == id
  {
    assert SavedAs(t0, es0[i], es[i]);
  }

  // What a finished save leaves is the registry exactly when no two entries claimed
  // one row.
  lemma OneRowForTwo(t0: Table, es0: seq<Entry>, es: seq<Entry>, t: Table)
    requires Partly(t0, es0, es, |es|) && IsTable(t0) && Holds(t, es)
    ensures ClaimsApart(t0, es0)
  {
    forall i, j, id | 0 <= i < j < |es0| && Registrable(es0, i) && Registrable(es0, j) && Claims(t0, es0[i], id)
      ensures !Claims(t0, es0[j], id)
    {
      NamesKept(t0, es0, es, |es|, i);
      NamesKept(t0, es0, es, |es|, j);
      ClaimIsKept(t0, es0, es, i, id);
      assert es[j].id != id;
      if Claims(t0, es0[j], id) {
        ClaimIsKept(t0, es0, es, j, id);
      }
    }
  }

  lemma SettledIsClear(t: Table, es: seq<Entry>)
    requires Settled(t, es)
    ensures Clear(t, es, |es|)
  {
  }

  ghost predicate Kept(es0: seq<Entry>, es: seq<Entry>, i: nat, keep: set<string>) {
    && |es| == |es0| && i <= |es|
    && (forall k :: 0 <= k < i && Registrable(es0, k) ==> es[k].id in keep)
    && (forall id :: id in keep ==> WrittenBy(es0, es, i, id))
  }

  lemma KeepSkips(es0: seq<Entry>, es: seq<Entry>, i: nat, keep: set<string>)
    requires Kept(es0, es, i, keep) && i < |es| && !Registrable(es0, i)
    ensures Kept(es0, es, i + 1, keep)
  {
    forall r | r in keep ensures WrittenBy(es0, es, i + 1, r) {
      WrittenStill(es0, es, i, es[i], r);
      assert es[i := es[i]] == es;
    }
  }

  lemma KeepGrows(es0: seq<Entry>, es: seq<Entry>, i: nat, keep: set<string>, id: string)
    requires Kept(es0, es, i, keep) && i < |es| && Registrable(es0, i)
    ensures Kept(es0, es[i := es[i].(id := id)], i + 1, keep + {id})
  {
    var e := es[i].(id := id);
    var es' := es[i := e];
    assert es'[i].id == id;
    forall r | r in keep ensures WrittenBy(es0, es', i + 1, r) {
      WrittenStill(es0, es, i, e, r);
    }
  }

  lemma PrunedHolds(t0: Table, es0: seq<Entry>, es: seq<Entry>, t: Table, keep: set<string>)
    requires Saved(t0, es0, es, |es|) && Written(t0, t, es0, es, |es|) && Kept(es0, es, |es|, keep)
    ensures Holds(map id | id in t && id in keep :: t[id], es)
  {
    forall k | 0 <= k < |es| ensures Registrable(es, k) == Registrable(es0, k) {
      NamesKept(t0, es0, es, |es|, k);
    }
    forall id | id in keep ensures exists k :: 0 <= k < |es| && Registrable(es, k) && es[k].id == id {
      var k :| 0 <= k < |es| && Registrable(es0, k) && es[k].id == id;
      assert Registrable(es, k);
    }
  }

  // registrable's own record of the names gone by.
  ghost predicate AreTaken(es: seq<Entry>, i: nat, taken: set<string>) {
    && i <= |es|
    && (forall k :: 0 <= k < i && es[k].name != "" ==> es[k].name in taken)
    && (forall name :: name in taken ==> name != "" && exists k :: 0 <= k < i && es[k].name == name)
  }

  lemma TakenTells(es: seq<Entry>, i: nat, taken: set<string>)
    requires AreTaken(es, i, taken) && i < |es|
    ensures (es[i].name == "" || es[i].name in taken) <==> !Registrable(es, i)
    ensures Registrable(es, i) ==> AreTaken(es, i + 1, taken + {es[i].name})
    ensures !Registrable(es, i) ==> AreTaken(es, i + 1, taken)
  {
    forall name | name in taken ensures exists k :: 0 <= k < i + 1 && es[k].name == name {
      var k :| 0 <= k < i && es[k].name == name;
    }
    assert es[i].name == es[i].name;
  }

  ghost predicate Going(t0: Table, es0: seq<Entry>, t: Table, es: seq<Entry>, i: nat, taken: set<string>, keep: set<string>) {
    i <= |es0| && Underway(t0, es0, t, es, i) && AreTaken(es0, i, taken) && Kept(es0, es, i, keep)
  }

  ghost predicate NamesApart(es: seq<Entry>) {
    && (forall i :: 0 <= i < |es| ==> es[i].name != "")
    && (forall i, j :: 0 <= i < j < |es| ==> !EqualFold(es[i].name, es[j].name))
  }

  // What every edit keeps: each entry named, no two alike, each with an id of its
  // own, and the table exactly the registry.
  ghost predicate InStep(t: Table, es: seq<Entry>) {
    && NamesApart(es)
    && (forall i :: 0 <= i < |es| ==> es[i].id != "")
    && (forall i, j :: 0 <= i < j < |es| ==> es[i].id != es[j].id)
    && (forall i :: 0 <= i < |es| ==> es[i].id in t && t[es[i].id] == es[i])
    && (forall id :: id in t ==> exists i :: 0 <= i < |es| && es[i].id == id)
  }

  lemma AllRegistrable(es: seq<Entry>)
    requires NamesApart(es)
    ensures forall i :: 0 <= i < |es| ==> Registrable(es, i)
  {
    forall i, j | 0 <= j < i < |es| ensures es[j].name != es[i].name {
      assert !EqualFold(es[j].name, es[i].name);
    }
  }

  lemma SavedIsInStep(t0: Table, es0: seq<Entry>, t: Table, es: seq<Entry>)
    requires NamesApart(es0) && Saved(t0, es0, es, |es|) && Holds(t, es)
    ensures InStep(t, es)
  {
    AllRegistrable(es0);
    assert NamesApart(es) by {
      forall i, j | 0 <= i < j < |es| ensures !EqualFold(es[i].name, es[j].name) {
        assert !EqualFold(es0[i].name, es0[j].name);
      }
    }
    AllRegistrable(es);
    forall i, j | 0 <= i < j < |es| ensures es[i].id != es[j].id {
      assert Registrable(es0, i) && Registrable(es0, j);
    }
    forall i | 0 <= i < |es| ensures es[i].id != "" {
      assert Registrable(es0, i);
    }
  }

  // Whichever row has a name is the row of the entry with that name.
  lemma RowIsItsEntry(t: Table, es: seq<Entry>, id: string) returns (i: nat)
    requires InStep(t, es) && id in t
    ensures i < |es| && es[i].id == id && t[id] == es[i]
  {
    i :| 0 <= i < |es| && es[i].id == id;
  }

  // Each entry has its own id, or none and a name no row has.
  lemma SettledByID(t: Table, es: seq<Entry>)
    requires IsTable(t)
    requires forall i :: 0 <= i < |es| ==> es[i].id != "" || forall id :: id in t ==> t[id].name != es[i].name
    requires forall i, j :: 0 <= i < j < |es| && es[i].id != "" ==> es[i].id != es[j].id
    requires forall i, id :: 0 <= i < |es| && id in t && t[id].name == es[i].name ==> es[i].id == id
    ensures Settled(t, es)
  {
  }

  lemma AddedNamesAreOwn(t: Table, es: seq<Entry>, e: Entry, i: nat, id: string)
    requires IsTable(t) && InStep(t, es) && NamesApart(es + [e]) && i <= |es|
    requires id in t && t[id].name == (es + [e])[i].name
    ensures i < |es| && es[i].id == id
  {
    var es' := es + [e];
    var k := RowIsItsEntry(t, es, id);
    assert es'[k] == es[k];
    SameNameSameEntry(es', i, k);
  }

  // No row has the new entry's name, and each entry there was has its own row's.
  lemma AddClears(t: Table, es: seq<Entry>, e: Entry)
    requires IsTable(t) && InStep(t, es) && NamesApart(es + [e])
    ensures Clear(t, es + [e], |es| + 1)
  {
    var es' := es + [e];
    forall i | 0 <= i < |es'| && Obstructed(t, es', i) ensures false {
      var id :| InTheWay(t, es', i, id);
      AddedNamesAreOwn(t, es, e, i, id);
    }
  }

  lemma AddSettles(t: Table, es: seq<Entry>, e: Entry)
    requires IsTable(t) && InStep(t, es) && NamesApart(es + [e]) && !HasID(es, e.id)
    ensures Settled(t, es + [e])
  {
    var es' := es + [e];
    forall i, id | 0 <= i < |es'| && id in t && t[id].name == es'[i].name ensures es'[i].id == id {
      AddedNamesAreOwn(t, es, e, i, id);
    }
    if e.id == "" {
      forall id | id in t ensures t[id].name != e.name {
        if t[id].name == e.name {
          AddedNamesAreOwn(t, es, e, |es|, id);
        }
      }
    }
    SettledByID(t, es');
  }

  lemma SameNameSameEntry(es: seq<Entry>, i: nat, j: nat)
    requires NamesApart(es) && i < |es| && j < |es| && es[i].name == es[j].name
    ensures i == j
  {
    assert EqualFold(es[i].name, es[j].name);
  }

  lemma UpdateSettles(t: Table, es: seq<Entry>, i: nat, e: Entry)
    requires IsTable(t) && InStep(t, es) && i < |es| && e.id == es[i].id && e.name != ""
    requires forall k :: 0 <= k < |es| && k != i ==> !Called(es[k], e.name)
    ensures Settled(t, es[i := e]) && NamesApart(es[i := e])
  {
    var es' := es[i := e];
    ReplacedApart(es, i, e);
    forall k, id | 0 <= k < |es'| && id in t && t[id].name == es'[k].name ensures es'[k].id == id {
      var m := RowIsItsEntry(t, es, id);
      assert Called(es[m], es'[k].name);
      if k != i {
        SameNameSameEntry(es, k, m);
      }
    }
    SettledByID(t, es');
  }

  // The entries but one.
  function Without(es: seq<Entry>, i: nat): (r: seq<Entry>)
    requires i < |es|
    ensures |r| == |es| - 1
    ensures forall k :: 0 <= k < |r| ==> r[k] == es[if k < i then k else k + 1]
  {
    es[..i] + es[i + 1..]
  }

  lemma WithoutApart(es: seq<Entry>, i: nat)
    requires NamesApart(es) && i < |es|
    ensures NamesApart(Without(es, i))
  {
  }

  lemma RemoveSettles(t: Table, es: seq<Entry>, i: nat)
    requires IsTable(t) && InStep(t, es) && i < |es|
    ensures Settled(t, Without(es, i)) && NamesApart(Without(es, i))
  {
    var es' := Without(es, i);
    WithoutApart(es, i);
    forall k, id | 0 <= k < |es'| && id in t && t[id].name == es'[k].name ensures es'[k].id == id {
      var m := RowIsItsEntry(t, es, id);
      SameNameSameEntry(es, if k < i then k else k + 1, m);
    }
    SettledByID(t, es');
  }

  // Entries that all had ids keep them.
  lemma IDsStay(t0: Table, es0: seq<Entry>, es: seq<Entry>, i: nat)
    requires Partly(t0, es0, es, |es|) && i < |es| && es0[i].id != ""
    ensures es[i] == es0[i]
  {
    assert Registrable(es0, i) ==> SavedAs(t0, es0[i], es[i]);
  }

  predicate HasID(es: seq<Entry>, id: string) {
    exists i :: 0 <= i < |es| && es[i].id == id
  }

  lemma HasIDStill(es: seq<Entry>, e: Entry, id: string)
    ensures HasID(es + [e], id) <==> HasID(es, id) || e.id == id
  {
    var es' := es + [e];
    assert es'[|es|] == e;
    assert forall i :: 0 <= i < |es| ==> es'[i] == es[i];
  }

  // ---- which entry an edit is about ---------------------------------------------

  type Sameness = (string, string) -> bool

  predicate Called(e: Entry, name: string) {
    EqualFold(e.name, name)
  }

  predicate NoneCalled(es: seq<Entry>, name: string) {
    forall i :: 0 <= i < |es| ==> !Called(es[i], name)
  }

  // By id when the edit carries one, else by name.
  predicate Means(same: Sameness, existing: Entry, edit: Entry) {
    if Trim(edit.id) != "" then existing.id == Trim(edit.id) else same(existing.name, Trim(edit.name))
  }

  predicate FirstMeant(same: Sameness, es: seq<Entry>, edit: Entry, i: nat) {
    i < |es| && Means(same, es[i], edit) && forall k :: 0 <= k < i ==> !Means(same, es[k], edit)
  }

  predicate NameTaken(same: Sameness, es: seq<Entry>, name: string) {
    exists i :: 0 <= i < |es| && same(es[i].name, name)
  }

  predicate Refused(same: Sameness, es: seq<Entry>, edit: Entry) {
    || Trim(edit.name) == ""
    || (forall i :: 0 <= i < |es| ==> !Means(same, es[i], edit))
    || exists i :: 0 <= i < |es| && FirstMeant(same, es, edit, i) && !Called(es[i], Trim(edit.name))
                   && NameTaken(same, es, Trim(edit.name))
  }

  // An edit is accepted exactly when it has a name and means an entry that is called that
  // already, in any case, or nobody is.
  lemma AcceptedExactlyWhen(same: Sameness, es: seq<Entry>, edit: Entry)
    ensures !Refused(same, es, edit) <==>
            && Trim(edit.name) != ""
            && exists i :: 0 <= i < |es| && FirstMeant(same, es, edit, i)
                           && (EqualFold(es[i].name, Trim(edit.name))
                               || forall k :: 0 <= k < |es| ==> !same(es[k].name, Trim(edit.name)))
  {
    if exists i :: 0 <= i < |es| && Means(same, es[i], edit) {
      var i := FirstOneMeant(same, es, edit, 0);
      assert FirstMeant(same, es, edit, i);
    }
  }

  lemma FirstOneMeant(same: Sameness, es: seq<Entry>, edit: Entry, from: nat) returns (i: nat)
    requires from <= |es| && (forall k :: 0 <= k < from ==> !Means(same, es[k], edit))
    requires exists k :: from <= k < |es| && Means(same, es[k], edit)
    ensures FirstMeant(same, es, edit, i)
    decreases |es| - from
  {
    i := from;
    if !Means(same, es[from], edit) {
      i := FirstOneMeant(same, es, edit, from + 1);
    }
  }

  // What an edit leaves of the entry it is about: its id and its account; the rest is
  // what the edit says, the name without the blanks around it.
  ghost predicate IsEdited(e: Entry, edit: Entry, e': Entry) {
    e'.id == e.id && e'.account == e.account && e'.name == Trim(edit.name) && e'.rest == edit.rest
  }

  // The first entry meant, and no other, is changed to what the edit says.
  ghost predicate IsUpdate(same: Sameness, es: seq<Entry>, edit: Entry, es': seq<Entry>, e: Entry) {
    exists i :: 0 <= i < |es| && FirstMeant(same, es, edit, i) && IsEdited(es[i], edit, e) && es' == es[i := e]
  }

  lemma UpdateIsOne(same: Sameness, es: seq<Entry>, edit: Entry, i: nat)
    requires FirstMeant(same, es, edit, i)
    ensures IsUpdate(same, es, edit, es[i := Updated(es[i], edit)], Updated(es[i], edit))
  {
  }

  function Updated(existing: Entry, edit: Entry): Entry {
    edit.(name := Trim(edit.name), id := existing.id, account := existing.account)
  }

  // ---- what a save does, said outright ---------------------------------------------------

  predicate IsFirstOfItsName(es: seq<Entry>, i: nat)
    requires i < |es|
  {
    es[i].name != "" && forall j :: 0 <= j < i ==> es[j].name != es[i].name
  }

  // The table has a row for each entry that is the first of its name, saying what the
  // entry says, and no other.
  ghost predicate RowsAreEntries(t: Table, es: seq<Entry>) {
    && (forall i :: 0 <= i < |es| && IsFirstOfItsName(es, i) ==> es[i].id in t && t[es[i].id] == es[i])
    && (forall id :: id in t ==> exists i :: 0 <= i < |es| && IsFirstOfItsName(es, i) && es[i].id == id)
  }

  lemma RowsAre(t: Table, es: seq<Entry>)
    ensures Holds(t, es) <==> RowsAreEntries(t, es)
  {
  }

  // A save is refused at an entry exactly when it has an id of its own, and its name is
  // still on the row of another id: one no entry before it has.
  lemma ObstructedExactlyWhen(t: Table, es: seq<Entry>, i: nat)
    requires IsTable(t) && i < |es|
    ensures Obstructed(t, es, i) <==>
            && IsFirstOfItsName(es, i) && es[i].id != ""
            && exists id :: id in t && t[id].name == es[i].name && id != es[i].id
                            && forall j :: 0 <= j < i && IsFirstOfItsName(es, j) ==> es[j].id != id
  {
    if Obstructed(t, es, i) {
      var id :| InTheWay(t, es, i, id);
      forall j | 0 <= j < i && IsFirstOfItsName(es, j) ensures es[j].id != id {
        assert Registrable(es, j) && !Claims(t, es[j], id);
      }
    }
    if IsFirstOfItsName(es, i) && es[i].id != "" {
      if id :| && id in t && t[id].name == es[i].name && id != es[i].id
               && forall j :: 0 <= j < i && IsFirstOfItsName(es, j) ==> es[j].id != id {
        forall j | 0 <= j < i && Registrable(es, j) ensures !Claims(t, es[j], id) {
          assert IsFirstOfItsName(es, j) && es[j].name != es[i].name;
        }
        assert InTheWay(t, es, i, id);
      }
    }
  }

  // One row for two: they have one id, or the row with the name of one that has no id is
  // the other's.
  ghost predicate ShareARow(t: Table, a: Entry, b: Entry) {
    || a.id == b.id != ""
    || (a.id == "" && b.id in t && t[b.id].name == a.name)
    || (b.id == "" && a.id in t && t[a.id].name == b.name)
  }

  lemma ApartExactlyWhen(t: Table, es: seq<Entry>)
    requires IsTable(t)
    ensures ClaimsApart(t, es) <==>
            forall i, j :: 0 <= i < j < |es| && IsFirstOfItsName(es, i) && IsFirstOfItsName(es, j) ==> !ShareARow(t, es[i], es[j])
  {
    forall i, j | 0 <= i < j < |es| && IsFirstOfItsName(es, i) && IsFirstOfItsName(es, j)
      ensures ShareARow(t, es[i], es[j]) <==> exists id :: Claims(t, es[i], id) && Claims(t, es[j], id)
    {
      SharedIsClaimed(t, es[i], es[j]);
    }
    if ClaimsApart(t, es) {
      forall i, j | 0 <= i < j < |es| && IsFirstOfItsName(es, i) && IsFirstOfItsName(es, j) ensures !ShareARow(t, es[i], es[j]) {
        assert Registrable(es, i) && Registrable(es, j);
      }
    }
  }

  lemma SharedIsClaimed(t: Table, a: Entry, b: Entry)
    requires IsTable(t) && a.name != b.name
    ensures ShareARow(t, a, b) <==> exists id :: Claims(t, a, id) && Claims(t, b, id)
  {
    if ShareARow(t, a, b) {
      var id := if a.id != "" then a.id else b.id;
      assert Claims(t, a, id) && Claims(t, b, id);
    }
  }

  // An entry keeps all it says; and its id, if it has one. Else it is given the id of the
  // row that has its name, or, when none has, one that no row had.
  ghost predicate IsIdentified(t: Table, e: Entry, e': Entry) {
    && e'.name == e.name && e'.account == e.account && e'.rest == e.rest && e'.id != ""
    && (if e.id != "" then e'.id == e.id
        else if exists id :: id in t && t[id].name == e.name then e'.id in t && t[e'.id].name == e.name
        else e'.id !in t)
  }

  ghost predicate AreIdentified(t: Table, es: seq<Entry>, es': seq<Entry>) {
    && |es'| == |es|
    && forall i :: 0 <= i < |es| ==> if IsFirstOfItsName(es, i) then IsIdentified(t, es[i], es'[i]) else es'[i] == es[i]
  }

  lemma SavedAreIdentified(t: Table, es: seq<Entry>, es': seq<Entry>)
    requires IsTable(t) && Partly(t, es, es', |es|)
    ensures AreIdentified(t, es, es')
  {
    forall i | 0 <= i < |es| && Registrable(es, i) ensures IsIdentified(t, es[i], es'[i]) {
      assert SavedAs(t, es[i], es'[i]);
    }
  }

  // The entry a name stands for in an edit: the first with the id it carries, or, when it
  // carries none, the first the name means.
  lemma MeansExactlyWhen(same: Sameness, es: seq<Entry>, edit: Entry, i: nat)
    ensures FirstMeant(same, es, edit, i) <==>
            && i < |es|
            && if Trim(edit.id) != "" then es[i].id == Trim(edit.id) && forall k :: 0 <= k < i ==> es[k].id != Trim(edit.id)
               else same(es[i].name, Trim(edit.name)) && forall k :: 0 <= k < i ==> !same(es[k].name, Trim(edit.name))
  {
    assert FirstMeant(same, es, edit, i) ==> Means(same, es[i], edit);
    if i < |es| && Trim(edit.id) != "" {
      forall k | 0 <= k <= i ensures Means(same, es[k], edit) <==> es[k].id == Trim(edit.id) {
      }
    }
  }

  class Registry {
    const ids: nat -> string               // newID, by how often it was asked
    const same: (string, string) -> bool   // when an edit by name means an entry
    var minted: nat
    var entries: seq<Entry>
    var table: Table

    ghost predicate Fresh(id: string)
      reads this
    {
      id != "" && id !in table && forall i :: 0 <= i < |entries| ==> entries[i].id != id
    }

    ghost predicate Valid()
      reads this
    {
      && IsTable(table)
      && (forall k :: k >= minted ==> Fresh(ids(k)))
      && (forall j, k :: minted <= j < k ==> ids(j) != ids(k))
      && (forall a, b :: a != "" && EqualFold(a, b) ==> same(a, b))
    }

    ghost predicate Synced()
      reads this
    {
      Valid() && InStep(table, entries)
    }

    constructor (ids: nat -> string, same: (string, string) -> bool)
      requires forall j, k :: 0 <= j < k ==> ids(j) != ids(k)
      requires forall k: nat :: ids(k) != ""
      requires forall a, b :: a != "" && EqualFold(a, b) ==> same(a, b)
      ensures Synced() && entries == [] && this.ids == ids && this.same == same
    {
      this.ids, this.same := ids, same;
      minted, entries, table := 0, [], map[];
    }

    // registryIDs: the rows already there, by name.
    method RegistryIDs() returns (byName: map<string, string>)
      requires Valid()
      ensures IsIndex(table, byName)
    {
      byName := map[];
      var left := table.Keys;
      while left != {}
        invariant left <= table.Keys
        invariant forall name :: name in byName ==> byName[name] in table && table[byName[name]].name == name
        invariant forall id :: id in table.Keys - left ==> table[id].name in byName
        decreases |left|
      {
        var id :| id in left;
        byName := byName[table[id].name := id];
        left := left - {id};
      }
    }

    // The rows the registry no longer has.
    method Gone(keep: set<string>) returns (gone: set<string>)
      ensures gone == table.Keys - keep
    {
      gone := {};
      var left := table.Keys;
      while left != {}
        invariant left <= table.Keys && gone == table.Keys - keep - left
        decreases |left|
      {
        var id :| id in left;
        if id !in keep {
          gone := gone + {id};
        }
        left := left - {id};
      }
    }

    // pruneRegistry: they are deleted.
    method PruneRegistry(keep: set<string>)
      requires Valid()
      modifies this`table
      ensures Valid()
      ensures table == map id | id in old(table) && id in keep :: old(table)[id]
    {
      var gone := Gone(keep);
      table := table - gone;
    }

    // The id to save an entry under: adopted from the row of its name if it has
    // none, and new if there is no such row.
    method Identify(i: nat, existing: map<string, string>, ghost t0: Table, ghost es0: seq<Entry>) returns (id: string)
      requires Valid() && Underway(t0, es0, table, entries, i) && i < |entries| && IsIndex(t0, existing)
      modifies this`minted
      ensures Valid() && Chosen(t0, es0, entries, i, id)
      ensures forall k: nat :: k >= minted ==> ids(k) != id
      ensures entries[i].id != "" ==> id == entries[i].id
    {
      var e := entries[i];
      id := e.id;
      if id == "" && e.name in existing {
        id := existing[e.name];
      }
      if id == "" {
        id := ids(minted);
        minted := minted + 1;
        forall k | 0 <= k < |entries| ensures es0[k].id != id && entries[k].id != id {
          assert es0[k].id != "" ==> entries[k] == es0[k];
        }
      }
    }

    // Write one entry through: adopt an id, upsert the row, note the id.
    method SaveEntry(i: nat, existing: map<string, string>, ghost t0: Table, ghost es0: seq<Entry>) returns (ok: bool)
      requires Valid() && Underway(t0, es0, table, entries, i) && i < |entries| && Registrable(es0, i)
      requires IsIndex(t0, existing)
      modifies this`entries, this`table, this`minted
      ensures Valid() && |entries| == |es0| && (ok <==> !Obstructed(t0, es0, i))
      ensures ok ==> Underway(t0, es0, table, entries, i + 1)
      ensures ok ==> entries == old(entries)[i := old(entries)[i].(id := entries[i].id)]
      ensures !ok ==> table == old(table) && entries == old(entries)
    {
      var id := Identify(i, existing, t0, es0);
      ok := WriteRow(i, id, t0, es0);
    }

    // Its row, unless the table refuses it.
    method WriteRow(i: nat, id: string, ghost t0: Table, ghost es0: seq<Entry>) returns (ok: bool)
      requires Valid() && Underway(t0, es0, table, entries, i) && i < |entries| && Registrable(es0, i)
      requires Chosen(t0, es0, entries, i, id) && (entries[i].id != "" ==> id == entries[i].id)
      requires forall k: nat :: k >= minted ==> ids(k) != id
      modifies this`entries, this`table
      ensures Valid() && |entries| == |es0| && (ok <==> !Obstructed(t0, es0, i))
      ensures ok ==> Underway(t0, es0, table, entries, i + 1)
      ensures ok ==> entries == old(entries)[i := old(entries)[i].(id := entries[i].id)]
      ensures !ok ==> table == old(table) && entries == old(entries)
    {
      SaveUnderway(t0, es0, table, entries, i, id);
      var e := entries[i].(id := id);
      var saved := SaveRow(table, e);
      if saved.None? {
        // The adopted id stays on the entry: one in somebody's way has its own.
        AdoptedIsFree(t0, es0, entries, i, id);
        return false;
      }
      entries, table := entries[i := e], saved.value;
      return true;
    }

    // The rows of a registry, in its own order, up to the first the table refuses.
    method SaveEntries(existing: map<string, string>) returns (ok: bool, keep: set<string>, ghost stop: nat)
      requires Valid() && IsIndex(table, existing)
      modifies this`entries, this`table, this`minted
      ensures Valid() && |entries| == |old(entries)|
      ensures ok ==> Underway(old(table), old(entries), table, entries, |entries|)
      ensures ok ==> Kept(old(entries), entries, |entries|, keep)
      ensures !ok ==> StoppedAt(old(table), old(entries), table, entries, stop)
    {
      ghost var t0, es0 := table, entries;
      var taken: set<string> := {};
      ok, keep, stop := true, {}, 0;
      for i := 0 to |entries|
        invariant ok && Valid() && Going(t0, es0, table, entries, i, taken, keep)
      {
        ok, taken, keep := SaveNext(i, existing, taken, keep, t0, es0);
        if !ok {
          stop := i;
          return;
        }
      }
    }

    // One turn of that loop.
    method SaveNext(i: nat, existing: map<string, string>, taken0: set<string>, keep0: set<string>,
                    ghost t0: Table, ghost es0: seq<Entry>)
      returns (ok: bool, taken: set<string>, keep: set<string>)
      requires Valid() && Going(t0, es0, table, entries, i, taken0, keep0) && i < |entries| && IsIndex(t0, existing)
      modifies this`entries, this`table, this`minted
      ensures Valid() && |entries| == |es0|
      ensures ok <==> !Obstructed(t0, es0, i)
      ensures ok ==> Going(t0, es0, table, entries, i + 1, taken, keep)
      ensures !ok ==> StoppedAt(t0, es0, table, entries, i)
    {
      TakenTells(es0, i, taken0);
      if entries[i].name == "" || entries[i].name in taken0 {
        SkipUnderway(t0, es0, table, entries, i);
        KeepSkips(es0, entries, i, keep0);
        return true, taken0, keep0;
      }
      taken := taken0 + {entries[i].name};
      ok, keep := SaveAndKeep(i, existing, keep0, t0, es0);
    }

    method SaveAndKeep(i: nat, existing: map<string, string>, keep0: set<string>, ghost t0: Table, ghost es0: seq<Entry>)
      returns (ok: bool, keep: set<string>)
      requires Valid() && Underway(t0, es0, table, entries, i) && i < |entries| && Registrable(es0, i)
      requires IsIndex(t0, existing) && Kept(es0, entries, i, keep0)
      modifies this`entries, this`table, this`minted
      ensures Valid() && |entries| == |es0|
      ensures ok <==> !Obstructed(t0, es0, i)
      ensures ok ==> Underway(t0, es0, table, entries, i + 1) && Kept(es0, entries, i + 1, keep)
      ensures !ok ==> StoppedAt(t0, es0, table, entries, i)
    {
      ghost var before := entries;
      ok := SaveEntry(i, existing, t0, es0);
      keep := keep0;
      if ok {
        KeepGrows(es0, before, i, keep, entries[i].id);
        keep := keep + {entries[i].id};
      } else {
        StillObstructed(t0, es0, table, entries, i);
      }
    }

    // persistRegistriesLocked, for one registry: it succeeds exactly when nobody is
    // in anybody's way, and then the table is the registry exactly when no two
    // entries claim one row. Refused once, it is refused again.
    method Persist() returns (ok: bool)
      requires Valid()
      modifies this`entries, this`table, this`minted
      ensures Valid() && |entries| == |old(entries)|
      ensures ok <==> old(Clear(table, entries, |entries|))
      ensures ok ==> Partly(old(table), old(entries), entries, |entries|)
      ensures ok ==> (Holds(table, entries) <==> old(ClaimsApart(table, entries)))
      ensures ok && old(ClaimsApart(table, entries)) ==> Saved(old(table), old(entries), entries, |entries|)
      ensures !ok ==> exists i :: StoppedAt(old(table), old(entries), table, entries, i)
      ensures !ok ==> !Clear(table, entries, |entries|)
      ensures ok ==> AreIdentified(old(table), old(entries), entries)
      ensures ok && old(ClaimsApart(table, entries)) ==> RowsAreEntries(table, entries)
    {
      ghost var t0, es0 := table, entries;
      var existing := RegistryIDs();
      var keep;
      ghost var stop;
      ok, keep, stop := SaveEntries(existing);
      if !ok {
        return;
      }
      ghost var t := table;
      SavedAreIdentified(t0, es0, entries);
      PruneRegistry(keep);
      RowsAre(table, entries);
      if ClaimsApart(t0, es0) {
        PrunedHolds(t0, es0, entries, t, keep);
      } else if Holds(table, entries) {
        OneRowForTwo(t0, es0, entries, table);
      }
    }

    // Save a registry that cannot trip over itself: it comes out in step with its
    // table, and every entry that had an id is as it was.
    method Save()
      requires Valid() && NamesApart(entries) && Settled(table, entries)
      modifies this`entries, this`table, this`minted
      ensures Synced() && |entries| == |old(entries)|
      ensures Saved(old(table), old(entries), entries, |entries|)
      ensures (forall i :: 0 <= i < |entries| ==> old(entries)[i].id != "") ==> entries == old(entries)
    {
      ghost var t0, es0 := table, entries;
      SettledIsClear(table, entries);
      var _ := Persist();
      SavedIsInStep(t0, es0, table, entries);
      if forall i :: 0 <= i < |es0| ==> es0[i].id != "" {
        AllStay(t0, es0, entries);
      }
    }

    // AddAgent, AddProxy, AddDeploy. An id the entry carries is taken as it is, and
    // when it is somebody's the table is the registry no longer.
    method Add(e: Entry) returns (added: Option<Entry>)
      requires Synced() && forall k :: k >= minted ==> ids(k) != e.id
      modifies this`entries, this`table, this`minted
      ensures Valid()
      ensures added.None? <==> Trim(e.name) == "" || !NoneCalled(old(entries), Trim(e.name))
      ensures added.None? ==> Synced() && entries == old(entries) && table == old(table)
      ensures added.Some? ==>
                && entries == old(entries) + [added.value]
                && added.value == e.(name := Trim(e.name), id := added.value.id)
                && (if e.id != "" then added.value.id == e.id else added.value.id !in old(table))
      ensures added.Some? ==> (Synced() <==> !HasID(old(entries), e.id))
    {
      var name := Trim(e.name);
      if name == "" {
        return None;
      }
      for i := 0 to |entries|
        invariant forall k :: 0 <= k < i ==> !Called(entries[k], name)
      {
        if Called(entries[i], name) {
          return None;
        }
      }
      ghost var before, t0 := entries, table;
      var e' := e.(name := name);
      assert NoneCalled(before, name);
      AppendedApart(before, e');
      entries := entries + [e'];
      SaveLast(before, e');
      added := Some(entries[|entries| - 1]);
    }

    method SaveLast(ghost before: seq<Entry>, ghost e: Entry)
      requires Valid() && InStep(table, before) && entries == before + [e] && NamesApart(entries)
      modifies this`entries, this`table, this`minted
      ensures Valid() && |entries| == |before| + 1
      ensures var last := entries[|before|];
              && entries == before + [last] && last == e.(id := last.id)
              && (if e.id != "" then last.id == e.id else last.id !in old(table))
      ensures Synced() <==> !HasID(before, e.id)
    {
      ghost var t0 := table;
      AddClears(table, before, e);
      var _ := Persist();
      AddedOrTwice(t0, before, e, table, entries);
    }

    method Find(e: Entry) returns (at: Option<nat>)
      ensures at.Some? ==> FirstMeant(same, entries, e, at.value)
      ensures at.None? ==> forall i :: 0 <= i < |entries| ==> !Means(same, entries[i], e)
    {
      for i := 0 to |entries|
        invariant forall k :: 0 <= k < i ==> !Means(same, entries[k], e)
      {
        if Means(same, entries[i], e) {
          return Some(i);
        }
      }
      return None;
    }

    method FindTaken(name: string) returns (taken: bool)
      ensures taken == NameTaken(same, entries, name)
    {
      for i := 0 to |entries|
        invariant forall k :: 0 <= k < i ==> !same(entries[k].name, name)
      {
        if same(entries[i].name, name) {
          return true;
        }
      }
      return false;
    }

    // Put one entry in another's place, under the same id, and save.
    method Replace(i: nat, e: Entry)
      requires Synced() && i < |entries| && e.id == entries[i].id && e.name != ""
      requires forall k :: 0 <= k < |entries| && k != i ==> !Called(entries[k], e.name)
      modifies this`entries, this`table, this`minted
      ensures Synced() && entries == old(entries)[i := e]
    {
      UpdateSettles(table, entries, i, e);
      entries := entries[i := e];
      Save();
    }

    // Which entry an edit may change, if any.
    method Check(e: Entry) returns (at: Option<nat>)
      ensures at.None? <==> Refused(same, entries, e)
      ensures at.Some? ==> FirstMeant(same, entries, e, at.value) && Trim(e.name) != ""
      ensures at.Some? ==> Called(entries[at.value], Trim(e.name)) || !NameTaken(same, entries, Trim(e.name))
    {
      if Trim(e.name) == "" {
        return None;
      }
      at := Find(e);
      if at.Some? && !Called(entries[at.value], Trim(e.name)) {
        var taken := FindTaken(Trim(e.name));
        if taken {
          return None;
        }
      }
    }

    // UpdateAgent, UpdateProxy, UpdateDeploy: the entry's identity is its own,
    // whatever the edit carries, and so is its account.
    method Update(e: Entry) returns (updated: Option<Entry>)
      requires Synced()
      modifies this`entries, this`table, this`minted
      ensures Synced()
      ensures updated.None? <==> Refused(same, old(entries), e)
      ensures updated.None? ==> entries == old(entries) && table == old(table)
      ensures updated.Some? ==> IsUpdate(same, old(entries), e, entries, updated.value)
      ensures |entries| == |old(entries)| && forall i :: 0 <= i < |entries| ==> entries[i].id == old(entries)[i].id
    {
      var at := Check(e);
      if at.None? {
        return None;
      }
      ghost var before := entries;
      NoOtherIsCalled(same, entries, at.value, Trim(e.name));
      updated := Some(Updated(entries[at.value], e));
      Replace(at.value, updated.value);
      UpdateIsOne(same, before, e, at.value);
    }

    // The same edit while the table cannot be written: the save fails at its first
    // row, and the registry has the edit all the same.
    method Amend(e: Entry) returns (amended: Option<Entry>)
      requires Valid()
      modifies this`entries
      ensures Valid()
      ensures amended.None? <==> Refused(same, old(entries), e)
      ensures amended.None? ==> entries == old(entries)
      ensures amended.Some? ==> IsUpdate(same, old(entries), e, entries, amended.value)
    {
      var at := Check(e);
      if at.None? {
        return None;
      }
      ghost var before := entries;
      amended := Some(Updated(entries[at.value], e));
      entries := entries[at.value := amended.value];
      UpdateIsOne(same, before, e, at.value);
    }

    // An edit of an entry there is, under a name nobody has.
    method Rename(i: nat, e: Entry)
      requires Valid() && i < |entries| && e.id == entries[i].id == Trim(e.id) != "" && e.account == entries[i].account
      requires e.name == Trim(e.name) != "" && !NameTaken(same, entries, e.name)
      requires forall k :: 0 <= k < i ==> entries[k].id != e.id
      modifies this`entries
      ensures Valid() && entries == old(entries)[i := e]
    {
      assert Means(same, entries[i], e);
      var _ := Amend(e);
    }

    // Take an entry out, and save.
    method Drop(i: nat)
      requires Synced() && i < |entries|
      modifies this`entries, this`table, this`minted
      ensures Synced() && entries == Without(old(entries), i)
      ensures table.Keys == old(table).Keys - {old(entries)[i].id}
    {
      ghost var t0, before := table, entries;
      RemoveSettles(table, entries, i);
      entries := entries[..i] + entries[i + 1..];
      Save();
      RemovedKeys(t0, before, table, i);
    }

    // RemoveAgent's, RemoveProxy's and RemoveDeploy's own part.
    method Remove(name: string) returns (removed: Option<Entry>)
      requires Synced()
      modifies this`entries, this`table, this`minted
      ensures Synced()
      ensures removed.None? <==> NoneCalled(old(entries), name)
      ensures removed.None? ==> entries == old(entries) && table == old(table)
      ensures removed.Some? ==>
                exists i :: 0 <= i < |old(entries)| && Called(old(entries)[i], name) && removed.value == old(entries)[i]
                            && entries == Without(old(entries), i)
                            && table.Keys == old(table).Keys - {removed.value.id}
    {
      ghost var es0 := entries;
      for i := 0 to |entries|
        invariant entries == es0 && table == old(table) && Synced()
        invariant forall k :: 0 <= k < i ==> !Called(es0[k], name)
      {
        if Called(entries[i], name) {
          removed := Some(entries[i]);
          Drop(i);
          return;
        }
      }
      return None;
    }

    // The table's rows, in some order.
    method Rows() returns (out: seq<Entry>)
      requires IsTable(table)
      ensures Listed(table, {}, out)
    {
      out := [];
      var left := table.Keys;
      while left != {}
        invariant left <= table.Keys && Listed(table, left, out)
        decreases |left|
      {
        var id :| id in left;
        ListOne(table, left, out, id);
        out := out + [table[id]];
        left := left - {id};
      }
    }

    // loadRegistriesLocked: the table is the truth. The rows come back oldest
    // first; the order is not part of what is kept.
    method Load()
      requires Valid() && |table| > 0
      modifies this`entries
      ensures Valid() && table == old(table)
      ensures old(Synced()) ==> Synced() && multiset(entries) == multiset(old(entries))
    {
      var out := Rows();
      LoadedStays(table, entries, out);
      entries := out;
    }

    // Any sequence of edits, each saved before the next: the table holds exactly
    // the registry throughout.
    method EditAll(edits: seq<Edit>)
      requires Synced()
      requires forall k :: 0 <= k < |edits| && edits[k].Added? ==> edits[k].e.id == ""
      modifies this`entries, this`table, this`minted
      ensures Synced()
    {
      for k := 0 to |edits|
        invariant Synced()
      {
        match edits[k]
        case Added(e) => var _ := Add(e);
        case Changed(e) => var _ := Update(e);
        case Removed(name) => var _ := Remove(name);
      }
    }
  }

  datatype Edit = Added(e: Entry) | Changed(e: Entry) | Removed(name: string)

  // The rows read so far, each once.
  ghost predicate Listed(t: Table, left: set<string>, out: seq<Entry>) {
    && (forall i :: 0 <= i < |out| ==> out[i].id in t && out[i].id !in left && t[out[i].id] == out[i])
    && (forall id :: id in t && id !in left ==> HasID(out, id))
    && (forall i, j :: 0 <= i < j < |out| ==> out[i].id != out[j].id)
  }

  lemma ListOne(t: Table, left: set<string>, out: seq<Entry>, id: string)
    requires IsTable(t) && id in left && left <= t.Keys && Listed(t, left, out)
    ensures Listed(t, left - {id}, out + [t[id]])
  {
    forall r | r in t && r !in left - {id} ensures HasID(out + [t[id]], r) {
      HasIDStill(out, t[id], r);
    }
  }

  lemma AppendedApart(before: seq<Entry>, e: Entry)
    requires NamesApart(before) && e.name != "" && NoneCalled(before, e.name)
    ensures NamesApart(before + [e])
  {
    var es := before + [e];
    forall i, j | 0 <= i < j < |es| ensures !EqualFold(es[i].name, es[j].name) {
      assert !Called(before[i], e.name);
    }
  }

  lemma AddedLast(t0: Table, before: seq<Entry>, e: Entry, es: seq<Entry>)
    requires InStep(t0, before) && NamesApart(before + [e])
    requires Saved(t0, before + [e], es, |es|)
    requires forall i, j :: 0 <= i < j < |es| ==> es[i].id != es[j].id
    ensures |es| == |before| + 1
    ensures var last := es[|before|];
            && es == before + [last] && last == e.(id := last.id)
            && (if e.id != "" then last.id == e.id else last.id !in t0)
  {
    var es0 := before + [e];
    var last := es[|before|];
    forall i | 0 <= i < |before| ensures es[i] == before[i] {
      IDsStay(t0, es0, es, i);
    }
    assert es == es[..|before|] + [last] && es[..|before|] == before;
    if e.id != "" {
      IDsStay(t0, es0, es, |before|);
    } else if last.id in t0 {
      var k := RowIsItsEntry(t0, before, last.id);
    }
  }

  lemma AddedOrTwice(t0: Table, before: seq<Entry>, e: Entry, t: Table, es: seq<Entry>)
    requires IsTable(t0) && InStep(t0, before) && NamesApart(before + [e])
    requires Partly(t0, before + [e], es, |es|) && (ClaimsApart(t0, before + [e]) ==> Saved(t0, before + [e], es, |es|))
    requires Holds(t, es) <==> ClaimsApart(t0, before + [e])
    ensures |es| == |before| + 1
    ensures var last := es[|before|];
            && es == before + [last] && last == e.(id := last.id)
            && (if e.id != "" then last.id == e.id else last.id !in t0)
    ensures InStep(t, es) <==> !HasID(before, e.id)
  {
    if HasID(before, e.id) {
      var i :| 0 <= i < |before| && before[i].id == e.id;
      AllStay(t0, before + [e], es);
      assert es[i].id == es[|before|].id;
    } else {
      AddSettles(t0, before, e);
      SavedIsInStep(t0, before + [e], t, es);
      AddedLast(t0, before, e, es);
    }
  }

  lemma ReplacedApart(es: seq<Entry>, i: nat, e: Entry)
    requires NamesApart(es) && i < |es| && e.name != ""
    requires forall k :: 0 <= k < |es| && k != i ==> !Called(es[k], e.name)
    ensures NamesApart(es[i := e])
  {
  }

  lemma AllStay(t0: Table, es0: seq<Entry>, es: seq<Entry>)
    requires Partly(t0, es0, es, |es|) && forall i :: 0 <= i < |es0| ==> es0[i].id != ""
    ensures es == es0
  {
    forall i | 0 <= i < |es| ensures es[i] == es0[i] {
      IDsStay(t0, es0, es, i);
    }
  }

  lemma NoOtherIsCalled(same: Sameness, es: seq<Entry>, i: nat, name: string)
    requires NamesApart(es) && i < |es|
    requires forall a, b :: a != "" && EqualFold(a, b) ==> same(a, b)
    requires Called(es[i], name) || !NameTaken(same, es, name)
    ensures forall k :: 0 <= k < |es| && k != i ==> !Called(es[k], name)
  {
    forall k | 0 <= k < |es| && k != i ensures !Called(es[k], name) {
      if Called(es[i], name) {
        assert !EqualFold(es[if i < k then i else k].name, es[if i < k then k else i].name);
      } else {
        assert !same(es[k].name, name);
      }
    }
  }

  lemma RemovedKeys(t0: Table, es0: seq<Entry>, t: Table, i: nat)
    requires InStep(t0, es0) && i < |es0| && InStep(t, Without(es0, i))
    ensures t.Keys == t0.Keys - {es0[i].id}
  {
    forall id | id in t ensures id in t0 && id != es0[i].id {
      StaysAKey(t0, es0, t, i, id);
    }
    forall id | id in t0 && id != es0[i].id ensures id in t {
      OthersStayKeys(t0, es0, t, i, id);
    }
  }

  lemma StaysAKey(t0: Table, es0: seq<Entry>, t: Table, i: nat, id: string)
    requires InStep(t0, es0) && i < |es0| && InStep(t, Without(es0, i)) && id in t
    ensures id in t0 && id != es0[i].id
  {
    var k := RowIsItsEntry(t, Without(es0, i), id);
    var k' := if k < i then k else k + 1;
    assert es0[k'].id == id && k' != i;
  }

  lemma OthersStayKeys(t0: Table, es0: seq<Entry>, t: Table, i: nat, id: string)
    requires InStep(t0, es0) && i < |es0| && InStep(t, Without(es0, i)) && id in t0 && id != es0[i].id
    ensures id in t
  {
    var k := RowIsItsEntry(t0, es0, id);
    assert Without(es0, i)[if k < i then k else k - 1].id == id;
  }

  lemma LoadedIsInStep(t: Table, es0: seq<Entry>, es: seq<Entry>)
    requires InStep(t, es0)
    requires Listed(t, {}, es)
    ensures InStep(t, es) && multiset(es) == multiset(es0)
  {
    forall i | 0 <= i < |es| ensures es[i].name != "" && es[i].id != "" {
      var k := RowIsItsEntry(t, es0, es[i].id);
    }
    forall i, j | 0 <= i < j < |es| ensures !EqualFold(es[i].name, es[j].name) {
      var k := RowIsItsEntry(t, es0, es[i].id);
      var m := RowIsItsEntry(t, es0, es[j].id);
      assert !EqualFold(es0[if k < m then k else m].name, es0[if k < m then m else k].name);
    }
    forall id | id in t ensures exists i :: 0 <= i < |es| && es[i].id == id {
      assert HasID(es, id);
    }
    assert InStep(t, es);
    SameRows(t, es0, es);
  }

  lemma LoadedStays(t: Table, es0: seq<Entry>, es: seq<Entry>)
    requires Listed(t, {}, es)
    ensures forall i :: 0 <= i < |es| ==> es[i].id in t
    ensures InStep(t, es0) ==> InStep(t, es) && multiset(es) == multiset(es0)
  {
    if InStep(t, es0) {
      LoadedIsInStep(t, es0, es);
    }
  }

  lemma SameRows(t: Table, es0: seq<Entry>, es: seq<Entry>)
    requires InStep(t, es0) && InStep(t, es)
    ensures multiset(es) == multiset(es0)
  {
    forall e ensures multiset(es)[e] == multiset(es0)[e] {
      OnceByID(es, e);
      OnceByID(es0, e);
      if e in es {
        InBoth(t, es0, es, e);
      }
      if e in es0 {
        InBoth(t, es, es0, e);
      }
    }
  }

  lemma InBoth(t: Table, es0: seq<Entry>, es: seq<Entry>, e: Entry)
    requires InStep(t, es0) && InStep(t, es) && e in es
    ensures e in es0
  {
    var i :| 0 <= i < |es| && es[i] == e;
    var k := RowIsItsEntry(t, es0, e.id);
  }

  lemma {:induction false} OnceByID(es: seq<Entry>, e: Entry)
    requires forall i, j :: 0 <= i < j < |es| ==> es[i].id != es[j].id
    ensures multiset(es)[e] == if e in es then 1 else 0
  {
    if es != [] {
      var last := |es| - 1;
      assert es == es[..last] + [es[last]];
      OnceByID(es[..last], e);
    }
  }

  function Swapped(es: seq<Entry>, i: nat, j: nat): (r: seq<Entry>)
    requires i < j < |es|
    ensures |r| == |es|
    ensures forall k :: 0 <= k < |es| ==> r[k].id == es[k].id && (k < i ==> r[k] == es[k])
  {
    es[i := es[i].(name := es[j].name)][j := es[j].(name := es[i].name)]
  }

  // A save is not the whole-or-nothing write it is meant to be: rows go in one at a
  // time, so two entries that swapped names stop it at the first of them.
  lemma SwappedNamesAreRefused(t: Table, es: seq<Entry>, i: nat, j: nat)
    requires InStep(t, es) && i < j < |es|
    ensures Obstructed(t, Swapped(es, i, j), i)
  {
    var es' := Swapped(es, i, j);
    AllRegistrable(es);
    forall k | 0 <= k < i ensures es'[k] == es[k] && es'[k].name != es'[i].name {
      assert Registrable(es, j);
    }
    assert InTheWay(t, es', i, es[j].id);
  }

  lemma OwnIDsApart(t: Table, es: seq<Entry>)
    requires forall k :: 0 <= k < |es| ==> es[k].id != ""
    requires forall k, m :: 0 <= k < m < |es| ==> es[k].id != es[m].id
    ensures ClaimsApart(t, es)
  {
  }

  // What was saved before such a stop says what the table said.
  lemma StoppedUnchanged(t0: Table, es0: seq<Entry>, t: Table, es: seq<Entry>, i: nat, was: seq<Entry>)
    requires |was| == |es0| && InStep(t0, was) && StoppedAt(t0, es0, t, es, i)
    requires forall k :: 0 <= k < |es0| ==> es0[k].id == was[k].id
    requires forall k :: 0 <= k < i ==> es0[k] == was[k]
    ensures t == t0 && es == es0
  {
    OwnIDsApart(t0, es0);
    forall id | id in t ensures id in t0 && t[id] == t0[id] {
      if WrittenBy(es0, es, i, id) {
        var k :| 0 <= k < i && Registrable(es0, k) && es[k].id == id;
        assert t[id] == es[k] == was[k] == t0[was[k].id];
      }
    }
  }

  // The names of a registry a rename can tell apart, one of them free.
  ghost predicate NamesTold(same: Sameness, es: seq<Entry>, free: string) {
    && free == Trim(free) != ""
    && (forall k :: 0 <= k < |es| ==> es[k].name == Trim(es[k].name) && es[k].id == Trim(es[k].id))
    && (forall k :: 0 <= k < |es| ==> !same(es[k].name, free) && !same(free, es[k].name))
    && (forall k, m :: 0 <= k < |es| && 0 <= m < |es| && k != m ==> !same(es[k].name, es[m].name))
  }

  lemma FirstStop(t: Table, es: seq<Entry>, was: seq<Entry>, i: nat)
    requires IsTable(t) && InStep(t, was) && |was| == |es| && i < |es|
    requires forall k :: 0 <= k < |es| ==> es[k].id == was[k].id
    requires forall k :: 0 <= k < i ==> es[k] == was[k]
    ensures Clear(t, es, i)
  {
    forall k, r | 0 <= k < i && r in t && t[r].name == es[k].name ensures es[k].id == r {
      var m := RowIsItsEntry(t, was, r);
      SameNameSameEntry(was, k, m);
    }
  }

  lemma StopsHere(t0: Table, es0: seq<Entry>, t: Table, es: seq<Entry>, was: seq<Entry>, i: nat, k: nat)
    requires i < |es0| && |was| == |es0| && InStep(t0, was) && Obstructed(t0, es0, i) && StoppedAt(t0, es0, t, es, k)
    requires forall k :: 0 <= k < |es0| ==> es0[k].id == was[k].id
    requires forall k :: 0 <= k < i ==> es0[k] == was[k]
    ensures t == t0 && es == es0
  {
    FirstStop(t0, es0, was, i);
    assert k <= i;
    StoppedUnchanged(t0, es0, t, es, k, was);
  }

  // Two renames made while the table could not be written, no two names alike at any
  // moment: the save is refused when the table is back. A third leaves the two
  // entries with each other's old names, and it is refused again, nothing written.
  method SwapIsNeverSaved(r: Registry, i: nat, j: nat, free: string) returns (first: bool, second: bool)
    requires r.Synced() && i < j < |r.entries| && NamesTold(r.same, r.entries, free)
    modifies r
    ensures !first && !second
    ensures r.entries == Swapped(old(r.entries), i, j) && r.table == old(r.table)
  {
    ghost var was := r.entries;
    var y := r.entries[i].name;
    RenameBoth(r, i, j, free);
    first := SaveInVain(r, was, i, j, free);
    second := RenameAndSave(r, was, i, j, free, y);
  }

  method RenameAndSave(r: Registry, ghost was: seq<Entry>, i: nat, j: nat, ghost free: string, y: string) returns (ok: bool)
    requires r.Valid() && i < j < |was| && InStep(r.table, was) && NamesTold(r.same, was, free)
    requires r.entries == HalfSwapped(was, i, j, free) && y == was[i].name
    modifies r
    ensures !ok && r.entries == Swapped(was, i, j) && r.table == old(r.table)
  {
    RenameBack(r, was, i, j, free, y);
    SwappedNamesAreRefused(r.table, was, i, j);
    ok := SaveStopped(r, was, i);
  }

  method RenameBoth(r: Registry, i: nat, j: nat, free: string)
    requires r.Valid() && i < j < |r.entries| && InStep(r.table, r.entries) && NamesTold(r.same, r.entries, free)
    modifies r`entries
    ensures r.Valid() && r.entries == HalfSwapped(old(r.entries), i, j, free)
  {
    ghost var was := r.entries;
    var a, b := r.entries[j], r.entries[i];
    r.Rename(j, a.(name := free));
    r.Rename(i, b.(name := a.name));
    SwapsInTurn(was, i, j, free);
  }

  method RenameBack(r: Registry, ghost was: seq<Entry>, i: nat, j: nat, ghost free: string, y: string)
    requires r.Valid() && i < j < |was| && InStep(r.table, was) && NamesTold(r.same, was, free)
    requires r.entries == HalfSwapped(was, i, j, free) && y == was[i].name
    modifies r`entries
    ensures r.Valid() && r.entries == Swapped(was, i, j)
  {
    r.Rename(j, r.entries[j].(name := y));
    SwapsInTurn(was, i, j, free);
  }

  function HalfSwapped(es: seq<Entry>, i: nat, j: nat, free: string): (r: seq<Entry>)
    requires i < j < |es|
  {
    es[j := es[j].(name := free)][i := es[i].(name := es[j].name)]
  }

  lemma SwapsInTurn(es: seq<Entry>, i: nat, j: nat, free: string)
    requires i < j < |es|
    ensures es[j := es[j].(name := free)][i := es[i].(name := es[j].name)] == HalfSwapped(es, i, j, free)
    ensures HalfSwapped(es, i, j, free)[j := es[j].(name := es[i].name)] == Swapped(es, i, j)
  {
  }

  method SaveInVain(r: Registry, ghost was: seq<Entry>, ghost i: nat, ghost j: nat, ghost free: string) returns (ok: bool)
    requires r.Valid() && InStep(r.table, was) && i < j < |was| && NamesTold(r.same, was, free)
    requires r.entries == HalfSwapped(was, i, j, free)
    modifies r
    ensures r.Valid() && !ok && r.entries == old(r.entries) && r.table == old(r.table)
  {
    HalfIsObstructed(r.table, was, i, j, free);
    ok := SaveStopped(r, was, i);
  }

  lemma HalfIsObstructed(t: Table, was: seq<Entry>, i: nat, j: nat, free: string)
    requires InStep(t, was) && i < j < |was|
    ensures Obstructed(t, HalfSwapped(was, i, j, free), i)
  {
    var es := HalfSwapped(was, i, j, free);
    AllRegistrable(was);
    forall k | 0 <= k < i ensures es[k] == was[k] && es[k].name != es[i].name {
      assert Registrable(was, j);
    }
    assert InTheWay(t, es, i, was[j].id);
  }

  method SaveStopped(r: Registry, ghost was: seq<Entry>, ghost i: nat) returns (ok: bool)
    requires r.Valid() && InStep(r.table, was) && |was| == |r.entries| && i < |was|
    requires forall k :: 0 <= k < |was| ==> r.entries[k].id == was[k].id
    requires forall k :: 0 <= k < i ==> r.entries[k] == was[k]
    requires Obstructed(r.table, r.entries, i)
    modifies r
    ensures r.Valid() && !ok && r.entries == old(r.entries) && r.table == old(r.table)
  {
    ghost var t, es := r.table, r.entries;
    ok := r.Persist();
    ghost var k :| StoppedAt(t, es, r.table, r.entries, k);
    StopsHere(t, es, r.table, r.entries, was, i, k);
  }
}
