/** The tool servers a column or a stage hands to its agent (internal/acp/agents.go,
    columns.go, mcpservers.go). They are kept by name and looked through in whatever
    order the map gives; what is decided does not depend on it. */
module Tools {
  import opened Text

  // rest is what is passed through: the environment it is started in.
  datatype Tool = Tool(kind: string, url: string, command: string, args: seq<string>, rest: string)

  type ToolSet = map<string, Tool>

  // The servers the application spawns itself, and the board's own.
  const BUILTIN := "dokku"
  const BOARD := "board"

  predicate IsNameChar(c: char) {
    'a' <= c <= 'z' || 'A' <= c <= 'Z' || '0' <= c <= '9' || c == '-' || c == '_'
  }

  // What a tool's prefix may carry.
  predicate IsToolName(name: string) {
    forall i :: 0 <= i < |name| ==> IsNameChar(name[i])
  }

  predicate Remote(t: Tool) {
    Trim(t.url) != "" || EqualFold(Trim(t.kind), "http") || EqualFold(Trim(t.kind), "sse")
  }

  predicate ToolOk(name: string, t: Tool) {
    && Trim(name) != "" && IsToolName(Trim(name)) && !EqualFold(Trim(name), BUILTIN) && !EqualFold(Trim(name), BOARD)
    && !Remote(t) && Trim(t.command) != ""
  }

  // What two names are told apart by.
  function FoldedName(name: string): string {
    Fold(Trim(name))
  }

  function NormArgs(args: seq<string>): seq<string> {
    if args == [] then []
    else
      var before := NormArgs(args[..|args| - 1]);
      var arg := Trim(args[|args| - 1]);
      if arg == "" then before else before + [arg]
  }

  function NormTool(t: Tool): Tool {
    t.(kind := "", command := Trim(t.command), args := NormArgs(t.args))
  }

  lemma {:induction false} NormArgsTwice(args: seq<string>)
    ensures NormArgs(NormArgs(args)) == NormArgs(args)
  {
    if args != [] {
      var front, arg := args[..|args| - 1], Trim(args[|args| - 1]);
      NormArgsTwice(front);
      TrimIdempotent(args[|args| - 1]);
      if arg != "" {
        assert (NormArgs(front) + [arg])[..|NormArgs(front)|] == NormArgs(front);
      }
    }
  }

  // ---- the set, whatever is asked of one --------------------------------------------

  // What is asked of a server, what its name is told apart by and kept under, and
  // what becomes of it.
  datatype Checks = Checks(
    ok: (string, Tool) -> bool, fold: string -> string, key: string -> string, norm: Tool -> Tool)

  ghost predicate Sane(c: Checks) {
    && (forall a {:trigger c.key(a)} :: c.fold(c.key(a)) == c.fold(a))
    && (forall a {:trigger c.key(c.key(a))} :: c.key(c.key(a)) == c.key(a))
    && (forall a, t {:trigger c.ok(c.key(a), c.norm(t))} :: c.ok(a, t) ==> c.ok(c.key(a), c.norm(t)))
    && (forall t {:trigger c.norm(c.norm(t))} :: c.norm(c.norm(t)) == c.norm(t))
  }

  // Each is one an agent can be given, and no two have one name.
  predicate SetOk(c: Checks, ts: ToolSet) {
    && (forall name :: name in ts ==> c.ok(name, ts[name]))
    && (forall a, b :: a in ts && b in ts && c.fold(a) == c.fold(b) ==> a == b)
  }

  // The servers under their names without the blanks around them.
  function NormSet(c: Checks, ts: ToolSet): (r: ToolSet)
    requires Sane(c) && SetOk(c, ts)
  {
    map name | name in ts :: c.key(name) := c.norm(ts[name])
  }

  lemma SetTwice(c: Checks, ts: ToolSet)
    requires Sane(c) && SetOk(c, ts)
    ensures SetOk(c, NormSet(c, ts)) && NormSet(c, NormSet(c, ts)) == NormSet(c, ts)
  {
    var ts' := NormSet(c, ts);
    forall name | name in ts' ensures c.key(name) == name && c.ok(name, ts'[name]) && c.norm(ts'[name]) == ts'[name] {
      var was := KeptAs(c, ts, name);
      assert c.key(c.key(was)) == name && c.norm(c.norm(ts[was])) == ts'[name] && c.ok(c.key(was), c.norm(ts[was]));
    }
    forall a, b | a in ts' && b in ts' && c.fold(a) == c.fold(b) ensures a == b {
      var a0 := KeptAs(c, ts, a);
      var b0 := KeptAs(c, ts, b);
    }
    assert SetOk(c, ts');
    SameSet(c, ts');
  }

  lemma KeptAs(c: Checks, ts: ToolSet, name: string) returns (was: string)
    requires Sane(c) && SetOk(c, ts) && name in NormSet(c, ts)
    ensures was in ts && c.key(was) == name && NormSet(c, ts)[name] == c.norm(ts[was])
  {
    was :| was in ts && c.key(was) == name;
  }

  lemma KeptUnder(c: Checks, ts: ToolSet, was: string)
    requires Sane(c) && SetOk(c, ts) && was in ts
    ensures c.key(was) in NormSet(c, ts) && NormSet(c, ts)[c.key(was)] == c.norm(ts[was])
  {
  }

  lemma SameSet(c: Checks, ts: ToolSet)
    requires Sane(c) && SetOk(c, ts) && forall name :: name in ts ==> c.key(name) == name && c.norm(ts[name]) == ts[name]
    ensures NormSet(c, ts) == ts
  {
    forall name | name in ts ensures name in NormSet(c, ts) && NormSet(c, ts)[name] == ts[name] {
      KeptUnder(c, ts, name);
    }
    forall name | name in NormSet(c, ts) ensures name in ts {
      var was := KeptAs(c, ts, name);
    }
  }

  // The servers already looked at.
  function Seen(ts: ToolSet, left: set<string>): ToolSet {
    map name | name in ts && name !in left :: ts[name]
  }

  predicate Taken(c: Checks, out: ToolSet, name: string) {
    exists other :: other in out && c.fold(other) == c.fold(name)
  }

  // One server more: it is refused, or takes its place.
  lemma OneMoreTool(c: Checks, ts: ToolSet, left: set<string>, name: string)
    requires Sane(c) && name in ts && name in left && SetOk(c, Seen(ts, left))
    ensures var seen, out := Seen(ts, left - {name}), NormSet(c, Seen(ts, left));
            && (SetOk(c, seen) <==> c.ok(name, ts[name]) && !Taken(c, out, c.key(name)))
            && (SetOk(c, seen) ==> NormSet(c, seen) == out[c.key(name) := c.norm(ts[name])])
            && (SetOk(c, ts) ==> SetOk(c, seen))
  {
    var before, seen := Seen(ts, left), Seen(ts, left - {name});
    TakenInSet(c, before, name);
    assert seen == before[name := ts[name]];
    OkOneMore(c, before, name, ts[name]);
    if SetOk(c, seen) {
      NormOneMore(c, before, seen, name);
    }
  }

  lemma OkOneMore(c: Checks, before: ToolSet, name: string, t: Tool)
    requires SetOk(c, before) && name !in before
    ensures SetOk(c, before[name := t]) <==> c.ok(name, t) && !Taken(c, before, name)
  {
    var seen := before[name := t];
    assert seen[name] == t && forall other :: other in before ==> other in seen && seen[other] == before[other];
  }

  lemma TakenInSet(c: Checks, before: ToolSet, name: string)
    requires Sane(c) && SetOk(c, before)
    ensures Taken(c, NormSet(c, before), c.key(name)) <==> Taken(c, before, name)
  {
    var out := NormSet(c, before);
    if other :| other in before && c.fold(other) == c.fold(name) {
      KeptUnder(c, before, other);
    }
    if o :| o in out && c.fold(o) == c.fold(c.key(name)) {
      var other := KeptAs(c, before, o);
    }
  }

  lemma NormOneMore(c: Checks, before: ToolSet, seen: ToolSet, name: string)
    requires Sane(c) && SetOk(c, before) && SetOk(c, seen) && name in seen && seen == before[name := seen[name]]
    ensures NormSet(c, seen) == NormSet(c, before)[c.key(name) := c.norm(seen[name])]
  {
    var out, all := NormSet(c, before), NormSet(c, seen);
    KeptUnder(c, seen, name);
    forall k | k in all {
      KeptBefore(c, before, seen, name, k);
    }
    forall k | k in out {
      KeptStill(c, before, seen, name, k);
    }
  }

  lemma KeptStill(c: Checks, before: ToolSet, seen: ToolSet, name: string, k: string)
    requires Sane(c) && SetOk(c, before) && SetOk(c, seen) && name in seen && seen == before[name := seen[name]]
    requires k in NormSet(c, before)
    ensures k in NormSet(c, seen)
  {
    var was := KeptAs(c, before, k);
    KeptUnder(c, seen, was);
  }

  lemma KeptBefore(c: Checks, before: ToolSet, seen: ToolSet, name: string, k: string)
    requires Sane(c) && SetOk(c, before) && SetOk(c, seen) && name in seen && seen == before[name := seen[name]]
    requires k in NormSet(c, seen)
    ensures k == c.key(name) || (k in NormSet(c, before) && NormSet(c, seen)[k] == NormSet(c, before)[k])
  {
    var was := KeptAs(c, seen, k);
    if was != name {
      KeptUnder(c, before, was);
    }
  }

  // ---- and what is asked ----------------------------------------------------------------

  const CHECKS := Checks(ToolOk, FoldedName, Trim, NormTool)

  lemma ChecksAreSane()
    ensures Sane(CHECKS)
  {
    forall a, t | ToolOk(a, t) ensures ToolOk(Trim(a), NormTool(t)) {
      ToolTwice(a, t);
    }
    forall t ensures NormTool(NormTool(t)) == NormTool(t) {
      TrimIdempotent(t.command);
      NormArgsTwice(t.args);
    }
    forall a ensures Trim(Trim(a)) == Trim(a) && FoldedName(Trim(a)) == FoldedName(a) {
      TrimIdempotent(a);
    }
  }

  // The servers of one column or stage.
  datatype Servers = Servers(all: ToolSet)

  predicate ToolsOk(s: Servers) {
    SetOk(CHECKS, s.all)
  }

  function NormTools(s: Servers): Servers {
    ChecksAreSane();
    if ToolsOk(s) then Servers(NormSet(CHECKS, s.all)) else s
  }

  // What is accepted is accepted again, as it was left.
  lemma ToolsTwice(s: Servers)
    requires ToolsOk(s)
    ensures ToolsOk(NormTools(s)) && NormTools(NormTools(s)) == NormTools(s)
  {
    ChecksAreSane();
    SetTwice(CHECKS, s.all);
  }

  lemma ToolTwice(name: string, t: Tool)
    requires ToolOk(name, t)
    ensures Trim(Trim(name)) == Trim(name) && ToolOk(Trim(name), NormTool(t))
  {
    TrimIdempotent(name);
    TrimIdempotent(t.command);
    assert Trim("") == "";
  }

  // ---- the same, said outright --------------------------------------------------------

  // The arguments that are not blank, each without the blanks around it, in their order.
  function SaidArgs(args: seq<string>): seq<string> {
    if args == [] then []
    else (if Trim(args[0]) == "" then [] else [Trim(args[0])]) + SaidArgs(args[1..])
  }

  lemma {:induction false} ArgsAreSaid(args: seq<string>)
    ensures NormArgs(args) == SaidArgs(args)
  {
    if args != [] {
      ArgsAreSaid(args[..|args| - 1]);
      SaidOneMore(args[..|args| - 1], args[|args| - 1]);
      assert args == args[..|args| - 1] + [args[|args| - 1]];
    }
  }

  lemma {:induction false} SaidOneMore(args: seq<string>, arg: string)
    ensures SaidArgs(args + [arg]) == SaidArgs(args) + if Trim(arg) == "" then [] else [Trim(arg)]
  {
    if args != [] {
      SaidOneMore(args[1..], arg);
      assert (args + [arg])[1..] == args[1..] + [arg];
    }
  }

  // The same server, started by the same command.
  ghost predicate IsTidyTool(t: Tool, u: Tool) {
    u.url == t.url && u.rest == t.rest && u.kind == "" && u.command == Trim(t.command) && u.args == SaidArgs(t.args)
  }

  // The same servers, each under its name without the blanks around it.
  ghost predicate AreTidied(s: Servers, v: Servers) {
    && (forall name :: name in s.all ==> IsKept(s, v, name))
    && forall name :: name in v.all ==> exists was :: was in s.all && Trim(was) == name
  }

  ghost predicate IsKept(s: Servers, v: Servers, name: string)
    requires name in s.all
  {
    Trim(name) in v.all && IsTidyTool(s.all[name], v.all[Trim(name)])
  }

  // One an agent can be given: named as a tool may be and as nothing built in is, and
  // started by a command here rather than reached elsewhere.
  ghost predicate IsFit(name: string, t: Tool) {
    && Trim(name) != "" && Fold(Trim(name)) != "dokku" && Fold(Trim(name)) != "board"
    && (forall c :: c in Trim(name) ==> 'a' <= c <= 'z' || 'A' <= c <= 'Z' || '0' <= c <= '9' || c in "-_")
    && Trim(t.url) == "" && Fold(Trim(t.kind)) != "http" && Fold(Trim(t.kind)) != "sse" && Trim(t.command) != ""
  }

  ghost predicate AreFit(s: Servers) {
    && (forall name :: name in s.all ==> IsFit(name, s.all[name]))
    && forall a, b :: a in s.all && b in s.all && Fold(Trim(a)) == Fold(Trim(b)) ==> a == b
  }

  lemma FitIsOk(name: string, t: Tool)
    ensures ToolOk(name, t) <==> IsFit(name, t)
  {
    assert Fold(BUILTIN) == "dokku" && Fold(BOARD) == "board" && Fold("http") == "http" && Fold("sse") == "sse";
    var n := Trim(name);
    if IsToolName(n) {
      forall c | c in n ensures IsNameChar(c) {
        var i :| 0 <= i < |n| && n[i] == c;
      }
    }
    if forall c :: c in n ==> 'a' <= c <= 'z' || 'A' <= c <= 'Z' || '0' <= c <= '9' || c in "-_" {
      forall i | 0 <= i < |n| ensures IsNameChar(n[i]) {
        assert n[i] in n;
      }
    }
  }

  lemma FitAreOk(s: Servers)
    ensures ToolsOk(s) <==> AreFit(s)
  {
    forall name | name in s.all ensures ToolOk(name, s.all[name]) <==> IsFit(name, s.all[name]) {
      FitIsOk(name, s.all[name]);
    }
    forall a, b ensures CHECKS.fold(a) == CHECKS.fold(b) <==> Fold(Trim(a)) == Fold(Trim(b)) {
    }
  }

  lemma NormToolsAreTidied(s: Servers)
    requires ToolsOk(s)
    ensures AreTidied(s, NormTools(s))
  {
    ChecksAreSane();
    var v := NormTools(s);
    forall name | name in s.all ensures IsKept(s, v, name) {
      KeptUnder(CHECKS, s.all, name);
      ArgsAreSaid(s.all[name].args);
    }
    forall name | name in v.all ensures exists was :: was in s.all && Trim(was) == name {
      var was := KeptAs(CHECKS, s.all, name);
    }
  }

  predicate IsBoard(name: string) {
    EqualFold(Trim(name), BOARD)
  }

  predicate TakesBoard(ts: ToolSet) {
    exists name :: name in ts && IsBoard(name)
  }

  predicate KeysKept(c: Checks, out: ToolSet) {
    forall name :: name in out ==> c.key(name) == name
  }

  lemma NormKeysKept(c: Checks, ts: ToolSet)
    requires Sane(c) && SetOk(c, ts)
    ensures KeysKept(c, NormSet(c, ts))
  {
    forall name | name in NormSet(c, ts) ensures c.key(name) == name {
      var was := KeptAs(c, ts, name);
      assert c.key(c.key(was)) == c.key(was);
    }
  }

  method FindBoard(ts: ToolSet) returns (found: bool)
    ensures found == TakesBoard(ts)
  {
    var left := ts.Keys;
    while left != {}
      invariant left <= ts.Keys
      invariant forall name :: name in ts && name !in left ==> !IsBoard(name)
      decreases |left|
    {
      var name :| name in left;
      if IsBoard(name) {
        return true;
      }
      left := left - {name};
    }
    return false;
  }

  method FindName(out: ToolSet, name: string) returns (found: bool)
    ensures found == exists other :: other in out && EqualFold(other, name)
  {
    var left := out.Keys;
    while left != {}
      invariant left <= out.Keys
      invariant forall other :: other in out && other !in left ==> !EqualFold(other, name)
      decreases |left|
    {
      var other :| other in left;
      if EqualFold(other, name) {
        return true;
      }
      left := left - {other};
    }
    return false;
  }

  method TidyTool(t: Tool) returns (tidy: Tool)
    ensures tidy == NormTool(t)
  {
    var args: seq<string> := [];
    for i := 0 to |t.args|
      invariant args == NormArgs(t.args[..i])
    {
      assert t.args[..i + 1][..i] == t.args[..i];
      var arg := Trim(t.args[i]);
      if arg != "" {
        args := args + [arg];
      }
    }
    assert t.args[..|t.args|] == t.args;
    tidy := t.(kind := "", command := Trim(t.command), args := args);
  }

  // One server checked against those before it: refused, or tidied.
  method ValidateOne(ghost c: Checks, out: ToolSet, name: string, t: Tool) returns (tidy: Option<Tool>)
    requires c == CHECKS && !IsBoard(name) && KeysKept(c, out)
    ensures c.key(name) == Trim(name)
    ensures tidy == if c.ok(name, t) && !Taken(c, out, c.key(name)) then Some(c.norm(t)) else None
  {
    var key := Trim(name);
    TrimIdempotent(name);
    if key == "" || !IsToolName(key) || EqualFold(key, BUILTIN) {
      return None;
    }
    var taken := FindName(out, key);
    assert taken == Taken(c, out, key) by {
      forall other | other in out ensures c.fold(other) == Fold(other) {
        assert c.key(other) == other;
      }
    }
    if taken || Remote(t) || Trim(t.command) == "" {
      return None;
    }
    var one := TidyTool(t);
    return Some(one);
  }

  // validateStageMCP, through validateMCPServers: the board's name first, then each
  // server in whatever order the map gives.
  method ValidateTools(s: Servers) returns (valid: Option<Servers>)
    ensures valid == if ToolsOk(s) then Some(NormTools(s)) else None
    ensures valid.Some? <==> AreFit(s)
    ensures valid.Some? ==> AreTidied(s, valid.value)
  {
    FitAreOk(s);
    if ToolsOk(s) {
      NormToolsAreTidied(s);
    }
    var board := FindBoard(s.all);
    if board {
      BoardIsRefused(s);
      return None;
    }
    ChecksAreSane();
    var each := ValidateEach(CHECKS, s.all);
    valid := if each.Some? then Some(Servers(each.value)) else None;
  }

  // Part-way through: the servers seen so far are fine, and out is what they become.
  ghost predicate Going(c: Checks, ts: ToolSet, left: set<string>, out: ToolSet) {
    Sane(c) && left <= ts.Keys && SetOk(c, Seen(ts, left)) && out == NormSet(c, Seen(ts, left))
  }

  lemma Finished(c: Checks, ts: ToolSet, out: ToolSet)
    requires Going(c, ts, {}, out)
    ensures SetOk(c, ts) && out == NormSet(c, ts)
  {
    assert Seen(ts, {}) == ts;
  }

  method ValidateEach(ghost c: Checks, ts: ToolSet) returns (valid: Option<ToolSet>)
    requires Sane(c) && c == CHECKS && !TakesBoard(ts)
    ensures valid == if SetOk(c, ts) then Some(NormSet(c, ts)) else None
  {
    var out: ToolSet := map[];
    var left := ts.Keys;
    while left != {}
      invariant Going(c, ts, left, out)
      decreases |left|
    {
      var name :| name in left;
      var ok;
      ok, out := ValidateNext(c, ts, left, out, name);
      if !ok {
        return None;
      }
      left := left - {name};
    }
    Finished(c, ts, out);
    return Some(out);
  }

  method ValidateNext(ghost c: Checks, ts: ToolSet, ghost left: set<string>, out: ToolSet, name: string)
    returns (ok: bool, out': ToolSet)
    requires c == CHECKS && !TakesBoard(ts) && name in ts && name in left && Going(c, ts, left, out)
    ensures !ok ==> !SetOk(c, ts)
    ensures ok ==> Going(c, ts, left - {name}, out')
  {
    OneMoreTool(c, ts, left, name);
    NormKeysKept(c, Seen(ts, left));
    var tidy := ValidateOne(c, out, name, ts[name]);
    ok := tidy.Some?;
    out' := if ok then out[Trim(name) := tidy.value] else out;
  }

  lemma BoardIsRefused(s: Servers)
    requires TakesBoard(s.all)
    ensures !ToolsOk(s)
  {
    var name :| name in s.all && IsBoard(name);
    assert !CHECKS.ok(name, s.all[name]);
  }
}
