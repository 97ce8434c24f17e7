/** Taking what a board says into the registry, and writing the board back from it
    (internal/acp/boardseed.go), told once for columns and routes alike. What differs
    between the two is in the rules; what both owe the rest is in the laws. */
module Adoption {
  import opened Text

  // A name for something new; never blank.
  type Mint = s: string | Trim(s) != "" witness "m"

  datatype Rules<!T> = Rules(
    prepare: T -> T,                     // bind what the entry names to what this machine has
    valid: (T, Mint) -> Option<T>,       // normalise it, or refuse it
    left: T -> T,                        // how a refused entry is left behind
    same: (T, T) -> bool,                // the registry's entry answers for the board's
    meld: (T, T) -> T,                   // what the registry's entry takes from it then
    own: T -> bool,                      // the entry is this board's
    loose: T -> bool,                    // it may yet be bound to something
    stands: (T, T) -> bool)              // it answers, and will go on answering

  // Nothing about the entry is left to bind or normalise.
  ghost predicate Settled<T>(r: Rules<T>, e: T) {
    r.prepare(e) == e && forall m :: r.valid(e, m) == Some(e)
  }

  // Nothing about a refused entry changes by offering it again.
  ghost predicate HeldFast<T>(r: Rules<T>, h: T) {
    r.prepare(h) == h && r.left(h) == h && forall m :: r.valid(h, m) == None
  }

  ghost predicate PreparingSettles<T(!new)>(r: Rules<T>) {
    && (forall c, m :: r.valid(r.prepare(c), m).Some? ==>
          var v := r.valid(r.prepare(c), m).value; r.own(v) && r.stands(v, v) && Settled(r, v))
    && (forall c, m :: r.valid(r.prepare(c), m).None? ==> HeldFast(r, r.left(r.prepare(c))))
  }

  ghost predicate MeldingKeeps<T(!new)>(r: Rules<T>) {
    && (forall e, v :: r.stands(e, v) ==> r.same(e, v))
    && (forall e, v :: r.same(e, v) && r.own(v) && r.own(r.meld(e, v)) ==> r.stands(r.meld(e, v), v))
    && (forall e, w :: r.same(e, w) && r.own(e) && r.own(w) ==> r.own(r.meld(e, w)))
    && (forall e, w, v :: r.same(e, w) && r.own(e) && r.own(w) && r.stands(e, v) ==> r.stands(r.meld(e, w), v))
  }

  ghost predicate MeldingSettles<T(!new)>(r: Rules<T>) {
    forall e, v :: Settled(r, e) && Settled(r, v) && r.same(e, v) ==> MeldSettles(r, e, v)
  }

  // Settled entries meld into a settled one, and only a binding can change them.
  ghost predicate MeldSettles<T>(r: Rules<T>, e: T, v: T) {
    && Settled(r, r.meld(e, v))
    && (r.meld(e, v) != e ==> r.loose(e) && !r.loose(v) && !r.loose(r.meld(e, v)))
  }

  ghost predicate MeldingStaysApart<T(!new)>(r: Rules<T>) {
    forall e, x, v :: r.same(x, v) && !r.same(e, x) ==> StaysApart(r, e, x, v)
  }

  // What an unbound entry, or somebody else's, does not answer for, it does not
  // answer for once that is melded.
  ghost predicate StaysApart<T>(r: Rules<T>, e: T, x: T, v: T) {
    r.own(x) && r.own(v) && (r.loose(e) || !r.own(e)) ==> !r.same(e, r.meld(x, v))
  }

  ghost predicate Lawful<T(!new)>(r: Rules<T>) {
    PreparingSettles(r) && MeldingKeeps(r) && MeldingSettles(r) && MeldingStaysApart(r)
  }

  // ---- reading -------------------------------------------------------------------

  datatype Reading<T> = Reading(registry: seq<T>, held: seq<T>)

  function FirstSame<T>(r: Rules<T>, es: seq<T>, v: T, from: nat := 0): (i: Option<nat>)
    requires from <= |es|
    ensures i.Some? ==> from <= i.value < |es| && r.same(es[i.value], v)
                        && forall k :: from <= k < i.value ==> !r.same(es[k], v)
    ensures i.None? ==> forall k :: from <= k < |es| ==> !r.same(es[k], v)
    decreases |es| - from
  {
    if from == |es| then None
    else if r.same(es[from], v) then Some(from)
    else FirstSame(r, es, v, from + 1)
  }

  // A usable entry joins the registry, or is answered for by one already there.
  function Register<T>(r: Rules<T>, es: seq<T>, v: T): seq<T> {
    var i := FirstSame(r, es, v);
    if i.None? then es + [v] else es[i.value := r.meld(es[i.value], v)]
  }

  function AdoptOne<T>(r: Rules<T>, was: Reading<T>, c: T, m: Mint): Reading<T> {
    var p := r.prepare(c);
    var v := r.valid(p, m);
    if v.None? then was.(held := was.held + [r.left(p)])
    else was.(registry := Register(r, was.registry, v.value))
  }

  function Adopt<T>(r: Rules<T>, was: Reading<T>, entries: seq<T>, mint: nat -> Mint, k: nat := 0): Reading<T>
    requires k <= |entries|
    decreases |entries| - k
  {
    if k == |entries| then was
    else Adopt(r, AdoptOne(r, was, entries[k], mint(k)), entries, mint, k + 1)
  }

  function Own<T>(r: Rules<T>, es: seq<T>): seq<T> {
    if es == [] then [] else (if r.own(es[0]) then [es[0]] else []) + Own(r, es[1..])
  }

  // What is written back to the board.
  function WriteBack<T>(r: Rules<T>, o: Reading<T>): seq<T> {
    Own(r, o.registry) + o.held
  }

  // ---- a board never shrinks -------------------------------------------------------

  predicate Represented<T(==)>(r: Rules<T>, es: seq<T>, v: T) {
    exists i :: 0 <= i < |es| && r.own(es[i]) && r.stands(es[i], v)
  }

  // An entry of the board is still on it: held back, or answered for.
  predicate Survives<T(==)>(r: Rules<T>, o: Reading<T>, c: T, m: Mint) {
    var p := r.prepare(c);
    if r.valid(p, m).None? then r.left(p) in o.held else Represented(r, o.registry, r.valid(p, m).value)
  }

  predicate SurviveAll<T(==)>(r: Rules<T>, o: Reading<T>, entries: seq<T>, mint: nat -> Mint) {
    forall i {:trigger Survives(r, o, entries[i], mint(i))} :: 0 <= i < |entries| ==> Survives(r, o, entries[i], mint(i))
  }

  // An entry that answers for another is, once it has been asked, this board's.
  predicate NoStranger<T>(r: Rules<T>, e: T, v: T) {
    r.same(e, v) ==> r.own(r.meld(e, v))
  }

  // The same of everything that may answer for an entry of the board.
  predicate Welcomed<T(==)>(r: Rules<T>, es: seq<T>, c: T, m: Mint) {
    var v := r.valid(r.prepare(c), m);
    v.Some? ==> forall i :: 0 <= i < |es| ==> NoStranger(r, es[i], v.value)
  }

  predicate NoStrangerAnswers<T(==)>(r: Rules<T>, es: seq<T>, entries: seq<T>, mint: nat -> Mint) {
    forall k {:trigger Welcomed(r, es, entries[k], mint(k))} ::
      0 <= k < |entries| ==> Welcomed(r, es, entries[k], mint(k))
  }

  ghost predicate OwnOrBefore<T>(r: Rules<T>, es0: seq<T>, es: seq<T>) {
    forall i :: 0 <= i < |es| ==> r.own(es[i]) || es[i] in es0
  }

  lemma RegisterRepresents<T(!new)>(r: Rules<T>, es0: seq<T>, es: seq<T>, v: T)
    requires MeldingKeeps(r) && OwnOrBefore(r, es0, es) && r.own(v) && r.stands(v, v)
    requires forall e :: e in es0 ==> NoStranger(r, e, v)
    ensures OwnOrBefore(r, es0, Register(r, es, v)) && Represented(r, Register(r, es, v), v)
  {
    var i := FirstSame(r, es, v);
    var es' := Register(r, es, v);
    if i.None? {
      assert es'[|es|] == v;
    } else {
      assert r.own(es'[i.value]) && r.stands(es'[i.value], v);
    }
  }

  lemma RegisterKeepsRepresented<T(!new)>(r: Rules<T>, es: seq<T>, v: T, u: T)
    requires MeldingKeeps(r) && r.own(v) && Represented(r, es, u)
    ensures Represented(r, Register(r, es, v), u)
  {
    var i :| 0 <= i < |es| && r.own(es[i]) && r.stands(es[i], u);
    assert r.own(Register(r, es, v)[i]) && r.stands(Register(r, es, v)[i], u);
  }

  lemma StepSurvives<T(!new)>(r: Rules<T>, es0: seq<T>, was: Reading<T>, c: T, m: Mint)
    requires Lawful(r) && OwnOrBefore(r, es0, was.registry) && Welcomed(r, es0, c, m)
    ensures OwnOrBefore(r, es0, AdoptOne(r, was, c, m).registry) && Survives(r, AdoptOne(r, was, c, m), c, m)
  {
    var v := r.valid(r.prepare(c), m);
    if v.Some? {
      RegisterRepresents(r, es0, was.registry, v.value);
    }
  }

  lemma StepKeepsSurvivor<T(!new)>(r: Rules<T>, was: Reading<T>, c: T, m: Mint, d: T, n: Mint)
    requires Lawful(r) && Survives(r, was, d, n)
    ensures Survives(r, AdoptOne(r, was, c, m), d, n)
  {
    var v, u := r.valid(r.prepare(c), m), r.valid(r.prepare(d), n);
    if v.Some? && u.Some? {
      RegisterKeepsRepresented(r, was.registry, v.value, u.value);
    }
  }

  lemma {:induction false} AllSurvive<T(!new)>(r: Rules<T>, es0: seq<T>, was: Reading<T>, entries: seq<T>,
                                                mint: nat -> Mint, k: nat)
    requires Lawful(r) && k <= |entries| && OwnOrBefore(r, es0, was.registry)
    requires NoStrangerAnswers(r, es0, entries, mint)
    requires SurviveAll(r, was, entries[..k], mint)
    ensures SurviveAll(r, Adopt(r, was, entries, mint, k), entries, mint)
    decreases |entries| - k
  {
    if k < |entries| {
      var next := AdoptOne(r, was, entries[k], mint(k));
      StepSurvives(r, es0, was, entries[k], mint(k));
      forall i | 0 <= i < k + 1 ensures Survives(r, next, entries[..k + 1][i], mint(i)) {
        if i < k {
          assert Survives(r, was, entries[..k][i], mint(i));
          StepKeepsSurvivor(r, was, entries[k], mint(k), entries[i], mint(i));
        }
      }
      AllSurvive(r, es0, next, entries, mint, k + 1);
    } else {
      assert entries[..k] == entries;
    }
  }

  // Whatever the registry held before: reading a board loses nothing of it.
  lemma ReadingNeverShrinks<T(!new)>(r: Rules<T>, es: seq<T>, entries: seq<T>, mint: nat -> Mint)
    requires Lawful(r) && NoStrangerAnswers(r, es, entries, mint)
    ensures SurviveAll(r, Adopt(r, Reading(es, []), entries, mint), entries, mint)
  {
    assert OwnOrBefore(r, es, es);
    AllSurvive(r, es, Reading(es, []), entries, mint, 0);
  }

  lemma RepresentedExactlyWhen<T(!new)>(r: Rules<T>, es: seq<T>, v: T)
    requires MeldingKeeps(r) && r.own(v) && r.stands(v, v)
    ensures var i := FirstSame(r, es, v);
            Represented(r, Register(r, es, v), v) <==>
            i.None? || NoStranger(r, es[i.value], v) || Represented(r, es, v)
  {
    var i, es' := FirstSame(r, es, v), Register(r, es, v);
    if i.None? {
      assert es'[|es|] == v;
    } else if NoStranger(r, es[i.value], v) {
      assert r.own(es'[i.value]) && r.stands(es'[i.value], v);
    } else if Represented(r, es, v) {
      RegisterKeepsRepresented(r, es, v, v);
    }
  }

  // And for one entry, exactly when: it is refused and held back, or nobody answers
  // for it, or the one asked is this board's, or somebody of this board stood for it
  // already.
  lemma SurvivesExactlyWhen<T(!new)>(r: Rules<T>, es: seq<T>, c: T, m: Mint)
    requires Lawful(r)
    ensures var v := r.valid(r.prepare(c), m);
            Survives(r, AdoptOne(r, Reading(es, []), c, m), c, m) <==>
            (v.None? || var i := FirstSame(r, es, v.value);
                        i.None? || NoStranger(r, es[i.value], v.value) || Represented(r, es, v.value))
  {
    var v := r.valid(r.prepare(c), m);
    if v.Some? {
      RepresentedExactlyWhen(r, es, v.value);
    }
  }

  // ---- reading twice -----------------------------------------------------------------

  // What came from a board nothing of which was known before: n entries that were
  // there, none of them answering for any of the rest.
  ghost predicate Fresh<T(!new)>(r: Rules<T>, es: seq<T>, n: nat) {
    && n <= |es|
    && (forall i :: 0 <= i < n ==> !r.own(es[i]))
    && (forall j :: n <= j < |es| ==> r.own(es[j]) && Settled(r, es[j]))
    && (forall i, j :: 0 <= i < n <= j < |es| ==> !r.same(es[i], es[j]))
    && (forall i, j :: n <= i < j < |es| && r.loose(es[i]) ==> !r.same(es[i], es[j]))
  }

  ghost predicate AllHeldFast<T>(r: Rules<T>, held: seq<T>) {
    forall i :: 0 <= i < |held| ==> HeldFast(r, held[i])
  }

  lemma SettledStands<T(!new)>(r: Rules<T>, e: T)
    requires PreparingSettles(r) && MeldingKeeps(r) && Settled(r, e)
    ensures r.own(e) && r.same(e, e)
  {
    assert r.valid(r.prepare(e), "m").value == e;
  }

  lemma MeldTakesNothing<T(!new)>(r: Rules<T>, e: T, v: T)
    requires MeldingSettles(r) && Settled(r, e) && Settled(r, v) && r.same(e, v)
    requires !r.loose(e) || r.loose(v)
    ensures r.meld(e, v) == e
  {
    assert MeldSettles(r, e, v);
  }

  // Offered again, an entry finds an answer that takes nothing from it.
  lemma AnsweredForAsIs<T(!new)>(r: Rules<T>, es: seq<T>, n: nat, j: nat)
    requires Lawful(r) && Fresh(r, es, n) && n <= j < |es|
    ensures Register(r, es, es[j]) == es
  {
    var v := es[j];
    SettledStands(r, v);
    var i := FirstSame(r, es, v).value;
    MeldTakesNothing(r, es[i], v);
  }

  lemma AppendedStaysFresh<T(!new)>(r: Rules<T>, es: seq<T>, n: nat, v: T)
    requires Fresh(r, es, n) && r.own(v) && Settled(r, v)
    requires forall i :: 0 <= i < |es| ==> !r.same(es[i], v)
    ensures Fresh(r, es + [v], n)
  {
  }

  lemma ReplacedStaysFresh<T(!new)>(r: Rules<T>, es: seq<T>, n: nat, i: nat, e: T)
    requires Fresh(r, es, n) && n <= i < |es| && r.own(e) && Settled(r, e)
    requires forall k :: 0 <= k < i && (k < n || r.loose(es[k])) ==> !r.same(es[k], e)
    requires r.loose(e) ==> e == es[i]
    ensures Fresh(r, es[i := e], n)
  {
    var es' := es[i := e];
    forall k, j | n <= k < j < |es'| && r.loose(es'[k]) ensures !r.same(es'[k], es'[j]) {
      if j == i {
        assert es'[k] == es[k];
      } else {
        assert es'[k] == es[k] && es'[j] == es[j];
      }
    }
  }

  lemma MeldStaysApart<T(!new)>(r: Rules<T>, e: T, x: T, v: T)
    requires MeldingStaysApart(r) && r.own(x) && r.own(v) && r.same(x, v)
    requires (r.loose(e) || !r.own(e)) && !r.same(e, x)
    ensures !r.same(e, r.meld(x, v))
  {
    assert StaysApart(r, e, x, v);
  }

  lemma MeldStaysSettled<T(!new)>(r: Rules<T>, e: T, v: T)
    requires MeldingSettles(r) && Settled(r, e) && Settled(r, v) && r.same(e, v)
    ensures Settled(r, r.meld(e, v))
    ensures r.loose(r.meld(e, v)) ==> r.meld(e, v) == e
  {
    assert MeldSettles(r, e, v);
  }

  // The first reading leaves the registry so.
  lemma RegisterStaysFresh<T(!new)>(r: Rules<T>, es: seq<T>, n: nat, v: T)
    requires Lawful(r) && Fresh(r, es, n) && Settled(r, v)
    requires forall i :: 0 <= i < n ==> !r.same(es[i], v)
    ensures Fresh(r, Register(r, es, v), n)
    ensures Register(r, es, v)[..n] == es[..n]
  {
    SettledStands(r, v);
    var at := FirstSame(r, es, v);
    if at.None? {
      AppendedStaysFresh(r, es, n, v);
    } else {
      MeldedStaysFresh(r, es, n, v, at.value);
    }
  }

  lemma MeldedStaysFresh<T(!new)>(r: Rules<T>, es: seq<T>, n: nat, v: T, i: nat)
    requires Lawful(r)
    requires Fresh(r, es, n) && Settled(r, v) && r.own(v) && n <= i < |es| && r.same(es[i], v)
    ensures Fresh(r, es[i := r.meld(es[i], v)], n)
  {
    var e := r.meld(es[i], v);
    MeldStaysSettled(r, es[i], v);
    SettledStands(r, e);
    forall k | 0 <= k < i && (k < n || r.loose(es[k])) ensures !r.same(es[k], e) {
      MeldStaysApart(r, es[k], es[i], v);
    }
    ReplacedStaysFresh(r, es, n, i, e);
  }

  lemma {:induction false} FirstReading<T(!new)>(r: Rules<T>, was: Reading<T>, n: nat, entries: seq<T>,
                                                  mint: nat -> Mint, k: nat)
    requires Lawful(r) && Fresh(r, was.registry, n) && AllHeldFast(r, was.held) && k <= |entries|
    requires NoAnswers(r, was.registry[..n], entries, mint)
    ensures var o := Adopt(r, was, entries, mint, k);
            Fresh(r, o.registry, n) && AllHeldFast(r, o.held) && o.registry[..n] == was.registry[..n]
    decreases |entries| - k
  {
    if k < |entries| {
      var next := AdoptOne(r, was, entries[k], mint(k));
      ReadOne(r, was, n, entries[k], mint(k));
      FirstReading(r, next, n, entries, mint, k + 1);
    }
  }

  // None of these answers for an entry of the board.
  predicate Quiet<T(==)>(r: Rules<T>, es: seq<T>, c: T, m: Mint) {
    var v := r.valid(r.prepare(c), m);
    v.Some? ==> forall i :: 0 <= i < |es| ==> !r.same(es[i], v.value)
  }

  predicate NoAnswers<T(==)>(r: Rules<T>, es: seq<T>, entries: seq<T>, mint: nat -> Mint) {
    forall k {:trigger Quiet(r, es, entries[k], mint(k))} ::
      0 <= k < |entries| ==> Quiet(r, es, entries[k], mint(k))
  }

  lemma ReadOne<T(!new)>(r: Rules<T>, was: Reading<T>, n: nat, c: T, m: Mint)
    requires Lawful(r) && Fresh(r, was.registry, n) && AllHeldFast(r, was.held)
    requires Quiet(r, was.registry[..n], c, m)
    ensures var next := AdoptOne(r, was, c, m);
            Fresh(r, next.registry, n) && AllHeldFast(r, next.held) && next.registry[..n] == was.registry[..n]
  {
    var v := r.valid(r.prepare(c), m);
    if v.Some? {
      forall i | 0 <= i < n ensures !r.same(was.registry[i], v.value) {
        assert !r.same(was.registry[..n][i], v.value);
      }
      PreparedIsSettled(r, c, m);
      RegisterStaysFresh(r, was.registry, n, v.value);
    } else {
      RefusedIsHeldFast(r, c, m);
    }
  }

  lemma PreparedIsSettled<T(!new)>(r: Rules<T>, c: T, m: Mint)
    requires PreparingSettles(r) && r.valid(r.prepare(c), m).Some?
    ensures Settled(r, r.valid(r.prepare(c), m).value)
  {
  }

  lemma RefusedIsHeldFast<T(!new)>(r: Rules<T>, c: T, m: Mint)
    requires PreparingSettles(r) && r.valid(r.prepare(c), m).None?
    ensures HeldFast(r, r.left(r.prepare(c)))
  {
  }

  // The board as that reading wrote it, read again: first what was registered, which
  // changes nothing, then what was held back, which is held back again.
  lemma {:induction false} SecondReading<T(!new)>(r: Rules<T>, es: seq<T>, n: nat, held: seq<T>, mint: nat -> Mint, k: nat)
    requires Lawful(r) && Fresh(r, es, n) && AllHeldFast(r, held) && k <= |es| - n + |held|
    ensures var own := es[n..];
            Adopt(r, Reading(es, if k < |own| then [] else held[..k - |own|]), own + held, mint, k) == Reading(es, held)
    decreases |es| - n + |held| - k
  {
    var own := es[n..];
    var entries := own + held;
    if k < |entries| {
      SecondReading(r, es, n, held, mint, k + 1);
      if k < |own| {
        assert entries[k] == es[n + k];
        AnsweredForAsIs(r, es, n, n + k);
        assert k + 1 == |own| ==> held[..0] == [];
      } else {
        assert entries[k] == held[k - |own|] && HeldFast(r, held[k - |own|]);
        assert held[..k - |own|] + [held[k - |own|]] == held[..k + 1 - |own|];
        assert k == |own| ==> held[..0] == [];
      }
    } else {
      assert k - |own| == |held| && held[..|held|] == held;
    }
  }

  lemma {:induction false} OwnIsTheRest<T(!new)>(r: Rules<T>, es: seq<T>, n: nat)
    requires n <= |es| && (forall i :: 0 <= i < n ==> !r.own(es[i])) && (forall i :: n <= i < |es| ==> r.own(es[i]))
    ensures Own(r, es) == es[n..]
    decreases |es|
  {
    if es != [] {
      OwnIsTheRest(r, es[1..], if n == 0 then 0 else n - 1);
      assert n > 0 ==> es[1..][n - 1..] == es[n..];
      assert n == 0 ==> [es[0]] + es[1..] == es;
    }
  }

  // Reading is idempotent: starting with nothing of the board registered and nothing
  // that answers for it, a second reading leaves the registry, what is held back and
  // the board itself as the first did.
  lemma ReadingTwiceIsReadingOnce<T(!new)>(r: Rules<T>, es: seq<T>, entries: seq<T>, mint: nat -> Mint, again: nat -> Mint)
    requires Lawful(r) && NoAnswers(r, es, entries, mint) && forall i :: 0 <= i < |es| ==> !r.own(es[i])
    ensures var once := Adopt(r, Reading(es, []), entries, mint);
            Adopt(r, Reading(once.registry, []), WriteBack(r, once), again) == once
  {
    FirstReadingLeaves(r, es, entries, mint);
    var once := Adopt(r, Reading(es, []), entries, mint);
    SecondReading(r, once.registry, |es|, once.held, again, 0);
    if |es| == |once.registry| {
      assert once.held[..0] == [];
    }
  }

  // ---- healing ----------------------------------------------------------------------

  // The same rules on a machine that knows more: nothing that was settled comes
  // undone.
  ghost predicate KnowsMore<T(!new)>(r: Rules<T>, r': Rules<T>) {
    && (forall e :: Settled(r, e) ==> Settled(r', e))
    && r'.same == r.same && r'.own == r.own && r'.loose == r.loose
  }

  lemma FreshStill<T(!new)>(r: Rules<T>, r': Rules<T>, es: seq<T>, n: nat)
    requires KnowsMore(r, r') && Fresh(r, es, n)
    ensures Fresh(r', es, n)
  {
  }

  // Nobody else answers for what was held back, when it is read after the rest.
  predicate HeldAreQuiet<T(==)>(r: Rules<T>, es: seq<T>, held: seq<T>, mint: nat -> Mint, from: nat) {
    forall k {:trigger held[k]} :: 0 <= k < |held| ==> Quiet(r, es, held[k], mint(from + k))
  }

  lemma OwnAnswersOwn<T(!new)>(r: Rules<T>, es: seq<T>, n: nat, held: seq<T>, mint: nat -> Mint)
    requires Lawful(r) && Fresh(r, es, n)
    requires HeldAreQuiet(r, es[..n], held, mint, |es| - n)
    ensures NoStrangerAnswers(r, es, es[n..] + held, mint)
  {
    var board := es[n..] + held;
    forall k | 0 <= k < |board| ensures Welcomed(r, es, board[k], mint(k)) {
      if k < |es| - n {
        assert board[k] == es[n + k] && Settled(r, es[n + k]);
      } else {
        assert board[k] == held[k - (|es| - n)];
      }
      forall i | 0 <= i < |es| && r.valid(r.prepare(board[k]), mint(k)).Some?
        ensures NoStranger(r, es[i], r.valid(r.prepare(board[k]), mint(k)).value)
      {
        if i < n {
          assert es[..n][i] == es[i];
        } else {
          OwnMeldIsOwn(r, es[i], board[k], mint(k));
        }
      }
    }
  }

  lemma OwnMeldIsOwn<T(!new)>(r: Rules<T>, e: T, c: T, m: Mint)
    requires PreparingSettles(r) && MeldingKeeps(r) && r.own(e) && r.valid(r.prepare(c), m).Some?
    ensures NoStranger(r, e, r.valid(r.prepare(c), m).value)
  {
  }

  // What the first reading of an unknown board leaves.
  lemma FirstReadingLeaves<T(!new)>(r: Rules<T>, es: seq<T>, entries: seq<T>, mint: nat -> Mint)
    requires Lawful(r) && NoAnswers(r, es, entries, mint) && forall i :: 0 <= i < |es| ==> !r.own(es[i])
    ensures var once := Adopt(r, Reading(es, []), entries, mint);
            && Fresh(r, once.registry, |es|) && once.registry[..|es|] == es && AllHeldFast(r, once.held)
            && Own(r, once.registry) == once.registry[|es|..]
  {
    var n := |es|;
    assert es[..n] == es && Fresh(r, es, n);
    FirstReading(r, Reading(es, []), n, entries, mint, 0);
    OwnIsTheRest(r, Adopt(r, Reading(es, []), entries, mint).registry, n);
  }

  lemma HealsFrom<T(!new)>(r: Rules<T>, r': Rules<T>, es: seq<T>, n: nat, held: seq<T>, again: nat -> Mint)
    requires Lawful(r') && KnowsMore(r, r') && Fresh(r, es, n)
    requires HeldAreQuiet(r', es[..n], held, again, |es| - n)
    ensures var board := es[n..] + held;
            var twice := Adopt(r', Reading(es, []), board, again);
            SurviveAll(r', twice, board, again)
  {
    FreshStill(r, r', es, n);
    OwnAnswersOwn(r', es, n, held, again);
    ReadingNeverShrinks(r', es, es[n..] + held, again);
  }

  // Reading is self-healing: once the machine knows more, a re-read adopts every
  // held-back entry it can now use, and loses nothing else of the board.
  lemma ReReadingHeals<T(!new)>(r: Rules<T>, r': Rules<T>, es: seq<T>, entries: seq<T>, mint: nat -> Mint, again: nat -> Mint,
                                once: Reading<T>)
    requires Lawful(r) && Lawful(r') && KnowsMore(r, r')
    requires NoAnswers(r, es, entries, mint) && forall i :: 0 <= i < |es| ==> !r.own(es[i])
    requires once == Adopt(r, Reading(es, []), entries, mint)
    requires HeldAreQuiet(r', es, once.held, again, |Own(r, once.registry)|)
    ensures var twice := Adopt(r', Reading(once.registry, []), WriteBack(r, once), again);
            SurviveAll(r', twice, WriteBack(r, once), again)
  {
    FirstReadingLeaves(r, es, entries, mint);
    assert WriteBack(r, once) == once.registry[|es|..] + once.held;
    assert |Own(r, once.registry)| == |once.registry| - |es|;
    HealsFrom(r, r', once.registry, |es|, once.held, again);
  }
}
