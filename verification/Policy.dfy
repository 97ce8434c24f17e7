/** The tool policy: which calls a session may make without asking a person, and
    the small glob its entries are narrowed by (internal/acp/policy.go). */
module Policy {
  import opened Text

  // ---- what a pattern means -------------------------------------------------

  function Stars(pattern: string): nat {
    if pattern == [] then 0
    else (if pattern[0] == '*' then 1 else 0) + Stars(pattern[1..])
  }

  // The pattern with its stars replaced, left to right, by the given strings.
  function Fill(pattern: string, fills: seq<string>): string
    requires |fills| == Stars(pattern)
  {
    if pattern == [] then []
    else if pattern[0] == '*' then fills[0] + Fill(pattern[1..], fills[1..])
    else [pattern[0]] + Fill(pattern[1..], fills)
  }

  ghost predicate Matches(pattern: string, s: string) {
    exists fills: seq<string> :: |fills| == Stars(pattern) && s == Fill(pattern, fills)
  }

  // ---- the parts the algorithm works on -------------------------------------

  // Go's strings.Split(pattern, "*").
  function Split(pattern: string): (parts: seq<string>)
    ensures |parts| == Stars(pattern) + 1
  {
    if pattern == [] then [""]
    else
      var rest := Split(pattern[1..]);
      if pattern[0] == '*' then [""] + rest
      else [[pattern[0]] + rest[0]] + rest[1..]
  }

  // The parts that follow a star, each preceded by what that star stands for.
  function Weave(parts: seq<string>, fills: seq<string>): string
    requires |parts| == |fills|
  {
    if parts == [] then [] else fills[0] + parts[0] + Weave(parts[1..], fills[1..])
  }

  // Some choice of fills makes s the remaining parts, each after a star.
  ghost predicate Floats(parts: seq<string>, s: string)
    requires parts != []
  {
    if |parts| == 1 then HasSuffix(s, parts[0])
    else exists k: nat :: OccursAt(s, parts[0], k) && Floats(parts[1..], s[k + |parts[0]|..])
  }

  lemma {:induction false} FillIsWeave(pattern: string, fills: seq<string>)
    requires |fills| == Stars(pattern)
    ensures Fill(pattern, fills) == Split(pattern)[0] + Weave(Split(pattern)[1..], fills)
  {
    if pattern != [] {
      if pattern[0] == '*' {
        FillIsWeave(pattern[1..], fills[1..]);
        assert Split(pattern)[1..] == Split(pattern[1..]);
      } else {
        FillIsWeave(pattern[1..], fills);
        assert Split(pattern)[1..] == Split(pattern[1..])[1..];
      }
    }
  }

  lemma {:induction false} FloatsToFills(parts: seq<string>, s: string) returns (fills: seq<string>)
    requires parts != [] && Floats(parts, s)
    ensures |fills| == |parts| && s == Weave(parts, fills)
  {
    if |parts| == 1 {
      fills := [s[..|s| - |parts[0]|]];
      assert Weave(parts[1..], fills[1..]) == [];
    } else {
      var k: nat :| OccursAt(s, parts[0], k) && Floats(parts[1..], s[k + |parts[0]|..]);
      var rest := FloatsToFills(parts[1..], s[k + |parts[0]|..]);
      fills := [s[..k]] + rest;
      assert fills[1..] == rest;
      assert s == s[..k] + s[k..k + |parts[0]|] + s[k + |parts[0]|..];
    }
  }

  lemma {:induction false} FillsToFloats(parts: seq<string>, fills: seq<string>)
    requires parts != [] && |fills| == |parts|
    ensures Floats(parts, Weave(parts, fills))
  {
    var s := Weave(parts, fills);
    if |parts| == 1 {
      assert Weave(parts[1..], fills[1..]) == [];
      assert s == fills[0] + parts[0];
    } else {
      FillsToFloats(parts[1..], fills[1..]);
      var k := |fills[0]|;
      assert OccursAt(s, parts[0], k);
      assert s[k + |parts[0]|..] == Weave(parts[1..], fills[1..]);
    }
  }

  // A star absorbs whatever stands in front: this is why taking the leftmost
  // occurrence never loses a match.
  lemma {:induction false} StarAbsorbs(parts: seq<string>, s: string, cut: nat)
    requires parts != [] && cut <= |s| && Floats(parts, s[cut..])
    ensures Floats(parts, s)
  {
    if |parts| > 1 {
      var t := s[cut..];
      var k: nat :| OccursAt(t, parts[0], k) && Floats(parts[1..], t[k + |parts[0]|..]);
      assert OccursAt(s, parts[0], cut + k);
      assert s[cut + k + |parts[0]|..] == t[k + |parts[0]|..];
    }
  }

  lemma LeftmostSuffices(parts: seq<string>, i: nat, s: string)
    requires i < |parts| - 1
    ensures var k := Index(s, parts[i]);
            Floats(parts[i..], s) <==> k != -1 && Floats(parts[i + 1..], s[k + |parts[i]|..])
  {
    var p := parts[i];
    var k := Index(s, p);
    var here := parts[i..];
    assert here[0] == p && here[1..] == parts[i + 1..];
    if Floats(here, s) {
      var j: nat :| OccursAt(s, p, j) && Floats(here[1..], s[j + |p|..]);
      IndexIsLeftmost(s, p, 0, j);
      assert s[k + |p|..][j - k..] == s[j + |p|..];
      StarAbsorbs(parts[i + 1..], s[k + |p|..], j - k);
    }
  }

  lemma MatchesIsFloats(pattern: string, s: string)
    requires Stars(pattern) > 0
    ensures var parts := Split(pattern);
            Matches(pattern, s) <==> HasPrefix(s, parts[0]) && Floats(parts[1..], s[|parts[0]|..])
  {
    var parts := Split(pattern);
    if Matches(pattern, s) {
      var fills: seq<string> :| |fills| == Stars(pattern) && s == Fill(pattern, fills);
      FillIsWeave(pattern, fills);
      FillsToFloats(parts[1..], fills);
      assert s[|parts[0]|..] == Weave(parts[1..], fills);
    }
    if HasPrefix(s, parts[0]) && Floats(parts[1..], s[|parts[0]|..]) {
      var fills := FloatsToFills(parts[1..], s[|parts[0]|..]);
      FillIsWeave(pattern, fills);
      assert s == s[..|parts[0]|] + s[|parts[0]|..];
    }
  }

  lemma {:induction false} NoStarIsLiteral(pattern: string, s: string)
    requires Stars(pattern) == 0
    ensures Matches(pattern, s) <==> pattern == s
  {
    LiteralFill(pattern);
    if pattern == s {
      assert s == Fill(pattern, []);
    }
    if Matches(pattern, s) {
      var fills: seq<string> :| |fills| == Stars(pattern) && s == Fill(pattern, fills);
      assert fills == [];
    }
  }

  lemma {:induction false} LiteralFill(pattern: string)
    requires Stars(pattern) == 0
    ensures Fill(pattern, []) == pattern
  {
    if pattern != [] {
      LiteralFill(pattern[1..]);
      assert pattern == [pattern[0]] + pattern[1..];
    }
  }

  // The scan: a literal prefix, then each inner part at its leftmost place, then
  // a literal suffix that must not overlap what was already consumed.
  method MatchPattern(pattern: string, text: string) returns (ok: bool)
    ensures ok <==> Matches(pattern, text)
  {
    var parts := Split(pattern);
    if |parts| == 1 {
      NoStarIsLiteral(pattern, text);
      return pattern == text;
    }
    MatchesIsFloats(pattern, text);
    if !HasPrefix(text, parts[0]) {
      return false;
    }
    var s := text[|parts[0]|..];
    var last := parts[|parts| - 1];
    for i := 1 to |parts| - 1
      invariant Matches(pattern, text) <==> Floats(parts[i..], s)
    {
      var part := parts[i];
      LeftmostSuffices(parts, i, s);
      var idx := Index(s, part);
      if idx == -1 {
        return false;
      }
      s := s[idx + |part|..];
    }
    assert parts[|parts| - 1..] == [last];
    return HasSuffix(s, last) && |s| >= |last|;
  }

  // ---- the policy -------------------------------------------------------------

  datatype Entry = Entry(name: string, pattern: string, hasPattern: bool)

  // "Bash(git log*)" into its name and pattern.
  function SplitEntry(raw: string): Entry {
    var entry := Trim(raw);
    var open := Index(entry, "(");
    if open == -1 || !HasSuffix(entry, ")") then Entry(entry, "", false)
    else
      assert entry[open..open + 1] == "(" && entry[|entry| - 1..] == ")";
      assert entry[open] == '(' && entry[|entry| - 1] == ')';
      Entry(Trim(entry[..open]), entry[open + 1..|entry| - 1], true)
  }

  // What is written in the settings is what is read out of them: any pattern at
  // all, brackets and stars included.
  lemma SplitEntryRoundTrip(name: string, pattern: string)
    requires name != [] && Trimmed(name) && '(' !in name
    ensures SplitEntry(name + "(" + pattern + ")") == Entry(name, pattern, true)
  {
    var entry := name + "(" + pattern + ")";
    TrimmedIsFixed(entry);
    TrimmedIsFixed(name);
    FirstBracket(name, "(" + pattern + ")");
    assert entry == name + ("(" + pattern + ")");
    assert entry[|entry| - 1..] == ")";
    assert entry[..|name|] == name;
    assert entry[|name| + 1..|entry| - 1] == pattern;
  }

  lemma FirstBracket(name: string, rest: string)
    requires '(' !in name && rest != [] && rest[0] == '('
    ensures Index(name + rest, "(") == |name|
  {
    var entry := name + rest;
    assert OccursAt(entry, "(", |name|);
    IndexIsLeftmost(entry, "(", 0, |name|);
    var open := Index(entry, "(");
    assert entry[open..open + 1] == "(";
    assert entry[open] == '(';
  }

  // The one argument a pattern is matched against. Only the shell has one; shell
  // is what its own reader finds in the call's raw input.
  function PolicyArg(tool: string, shell: Option<string>): Option<string> {
    if EqualFold("Bash", tool) then shell else None
  }

  ghost predicate Permits(e: Entry, tool: string, shell: Option<string>) {
    && EqualFold(e.name, tool)
    && (e.hasPattern ==> PolicyArg(tool, shell).Some? && Matches(e.pattern, PolicyArg(tool, shell).value))
  }

  ghost predicate Allowed(policy: seq<string>, tool: string, shell: Option<string>) {
    exists i :: 0 <= i < |policy| && Permits(SplitEntry(policy[i]), tool, shell)
  }

  method Allows(policy: seq<string>, tool: string, shell: Option<string>) returns (ok: bool)
    ensures ok <==> Allowed(policy, tool, shell)
  {
    for i := 0 to |policy|
      invariant forall j :: 0 <= j < i ==> !Permits(SplitEntry(policy[j]), tool, shell)
    {
      var e := SplitEntry(policy[i]);
      if !EqualFold(e.name, tool) {
        continue;
      }
      if !e.hasPattern {
        return true;
      }
      var arg := PolicyArg(tool, shell);
      if arg.None? {
        continue;
      }
      var fits := MatchPattern(e.pattern, arg.value);
      if fits {
        return true;
      }
    }
    return false;
  }

  // The list is a union: adding an entry never takes a permission away, and a
  // bare name beside a narrowed one allows every call of that tool.
  lemma PolicyIsAUnion(policy: seq<string>, more: seq<string>, tool: string, shell: Option<string>)
    ensures Allowed(policy + more, tool, shell) <==> Allowed(policy, tool, shell) || Allowed(more, tool, shell)
  {
    var all := policy + more;
    if i :| 0 <= i < |policy| && Permits(SplitEntry(policy[i]), tool, shell) {
      assert Permits(SplitEntry(all[i]), tool, shell);
    }
    if i :| 0 <= i < |more| && Permits(SplitEntry(more[i]), tool, shell) {
      assert Permits(SplitEntry(all[|policy| + i]), tool, shell);
    }
    if i :| 0 <= i < |all| && Permits(SplitEntry(all[i]), tool, shell) {
      if i >= |policy| {
        assert more[i - |policy|] == all[i];
      }
    }
  }
}
