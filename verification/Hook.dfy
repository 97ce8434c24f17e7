/** The command line a CLI runs when it wants a person (internal/acp/hookcommand.go),
    read back by the rules of the POSIX Shell Command Language (IEEE Std 1003.1):
    2.2.1 escape character, 2.2.2 single quotes, 2.3 token recognition. */
module Hook {
  import opened Text

  const HOOK_ARG := "hook"

  // strings.ReplaceAll(s, "'", `'\''`)
  function Escape(s: string): string {
    if s == [] then []
    else (if s[0] == '\'' then "'\\''" else [s[0]]) + Escape(s[1..])
  }

  function ShellQuote(s: string): string {
    "'" + Escape(s) + "'"
  }

  // exe is what the operating system answers when asked for this executable.
  function HookCommand(exe: Option<string>, origin: string, token: string): string {
    if exe.None? || exe.value == "" || origin == "" || token == "" then ""
    else ShellQuote(exe.value) + " " + HOOK_ARG + " " + ShellQuote(origin) + " " + ShellQuote(token)
  }

  // ---- the shell ------------------------------------------------------------

  // Characters that mean something to a shell when they stand unquoted (2.2):
  // a line holding one is not a plain list of words.
  predicate IsActive(c: char) {
    c in "|&;<>()$`\"*?[#~=%\n"
  }

  // Between words, in a word outside quotes, or inside single quotes.
  datatype Mode = Blank | Bare | Quoted

  // The words of the rest of a line, given those already complete and the one
  // being read. None when the line is not a plain list of words: a quote never
  // closed, an escape of nothing, an active character, or a NUL, which no
  // argument of a process can hold.
  function Scan(s: string, mode: Mode, cur: string, words: seq<string>): Option<seq<string>>
    decreases |s|
  {
    if s == [] then
      match mode
      case Blank => Some(words)
      case Bare => Some(words + [cur])
      case Quoted => None
    else
      var c, rest := s[0], s[1..];
      if c == '\0' then None
      else if mode == Quoted then
        if c == '\'' then Scan(rest, Bare, cur, words) else Scan(rest, Quoted, cur + [c], words)
      else if c == '\'' then Scan(rest, Quoted, cur, words)
      else if c == '\\' then
        if rest == [] || rest[0] == '\0' then None
        else if rest[0] == '\n' then Scan(rest[1..], mode, cur, words)
        else Scan(rest[1..], Bare, cur + [rest[0]], words)
      else if c == ' ' || c == '\t' then
        if mode == Bare then Scan(rest, Blank, "", words + [cur]) else Scan(rest, Blank, cur, words)
      else if IsActive(c) then None
      else Scan(rest, Bare, cur + [c], words)
  }

  function ShellWords(line: string): Option<seq<string>> {
    Scan(line, Blank, "", [])
  }

  // ---- the argument survives --------------------------------------------------

  lemma {:induction false} QuotedBody(s: string, rest: string, cur: string, words: seq<string>)
    requires '\0' !in s
    ensures Scan(Escape(s) + ("'" + rest), Quoted, cur, words) == Scan(rest, Bare, cur + s, words)
  {
    var tail := "'" + rest;
    if s == [] {
      assert Escape(s) + tail == tail && tail[1..] == rest;
      assert cur + s == cur;
    } else {
      var after := Escape(s[1..]) + tail;
      assert (cur + [s[0]]) + s[1..] == cur + s;
      QuotedBody(s[1..], rest, cur + [s[0]], words);
      if s[0] == '\'' {
        Apostrophe(after, cur, words);
        assert Escape(s) + tail == "'\\''" + after;
      } else {
        assert Escape(s) + tail == [s[0]] + after;
        assert ([s[0]] + after)[1..] == after;
      }
    }
  }

  lemma ScanOne(c: char, rest: string, mode: Mode, cur: string, words: seq<string>)
    requires c != '\0' && c != '\\'
    ensures Scan([c] + rest, mode, cur, words) ==
            if mode == Quoted then
              if c == '\'' then Scan(rest, Bare, cur, words) else Scan(rest, Quoted, cur + [c], words)
            else if c == '\'' then Scan(rest, Quoted, cur, words)
            else if c == ' ' || c == '\t' then
              Scan(rest, Blank, if mode == Bare then "" else cur, if mode == Bare then words + [cur] else words)
            else if IsActive(c) then None
            else Scan(rest, Bare, cur + [c], words)
  {
    assert ([c] + rest)[1..] == rest;
  }

  // Close the quote, an escaped apostrophe, open it again.
  lemma Apostrophe(after: string, cur: string, words: seq<string>)
    ensures Scan("'\\''" + after, Quoted, cur, words) == Scan(after, Quoted, cur + "'", words)
  {
    var t := "\\''" + after;
    assert "'\\''" + after == "'" + t;
    ScanOne('\'', t, Quoted, cur, words);
    assert t[0] == '\\' && t[1..][0] == '\'' && t[1..][1..] == "'" + after;
    assert Scan(t, Bare, cur, words) == Scan("'" + after, Bare, cur + "'", words);
    ScanOne('\'', after, Bare, cur + "'", words);
  }

  lemma QuotedWord(s: string, rest: string, words: seq<string>)
    requires '\0' !in s
    ensures Scan(ShellQuote(s) + rest, Blank, "", words) == Scan(rest, Bare, s, words)
  {
    var line := ShellQuote(s) + rest;
    assert line[0] == '\'' && line[1..] == Escape(s) + ("'" + rest);
    QuotedBody(s, rest, "", words);
    assert "" + s == s;
  }

  lemma NextWord(word: string, rest: string, words: seq<string>)
    ensures Scan(" " + rest, Bare, word, words) == Scan(rest, Blank, "", words + [word])
  {
    ScanOne(' ', rest, Bare, word, words);
  }

  lemma PlainLetters(a: char, b: char, rest: string, mode: Mode, cur: string, words: seq<string>)
    requires mode != Quoted && 'a' <= a <= 'z' && 'a' <= b <= 'z'
    ensures Scan([a] + ([b] + rest), mode, cur, words) == Scan(rest, Bare, cur + [a] + [b], words)
  {
    ScanOne(a, [b] + rest, mode, cur, words);
    ScanOne(b, rest, Bare, cur + [a], words);
  }

  lemma PlainHook(rest: string, words: seq<string>)
    ensures Scan(HOOK_ARG + " " + rest, Blank, "", words) == Scan(rest, Blank, "", words + [HOOK_ARG])
  {
    var s := " " + rest;
    assert HOOK_ARG + " " + rest == ['h'] + (['o'] + (['o'] + (['k'] + s)));
    PlainLetters('h', 'o', ['o'] + (['k'] + s), Blank, "", words);
    PlainLetters('o', 'k', s, Bare, "ho", words);
    assert "" + ['h'] + ['o'] == "ho" && "ho" + ['o'] + ['k'] == HOOK_ARG;
    NextWord(HOOK_ARG, rest, words);
  }

  lemma {:induction false} NulIsNeverAWord(s: string, mode: Mode, cur: string, words: seq<string>)
    requires '\0' in s
    ensures Scan(s, mode, cur, words) == None
    decreases |s|
  {
    var c, rest := s[0], s[1..];
    if c != '\0' {
      assert '\0' in rest;
      if mode == Quoted {
        NulIsNeverAWord(rest, if c == '\'' then Bare else Quoted, if c == '\'' then cur else cur + [c], words);
      } else if c == '\'' {
        NulIsNeverAWord(rest, Quoted, cur, words);
      } else if c == '\\' {
        if rest[0] != '\0' {
          assert '\0' in rest[1..];
          NulIsNeverAWord(rest[1..], if rest[0] == '\n' then mode else Bare,
                          if rest[0] == '\n' then cur else cur + [rest[0]], words);
        }
      } else if c == ' ' || c == '\t' {
        NulIsNeverAWord(rest, Blank, if mode == Bare then "" else cur, if mode == Bare then words + [cur] else words);
      } else if !IsActive(c) {
        NulIsNeverAWord(rest, Bare, cur + [c], words);
      }
    }
  }

  lemma {:induction false} EscapeKeepsNul(s: string)
    ensures '\0' in Escape(s) <==> '\0' in s
  {
    if s != [] {
      EscapeKeepsNul(s[1..]);
      assert s == [s[0]] + s[1..];
    }
  }

  lemma QuotedThen(s: string, rest: string, words: seq<string>)
    requires '\0' !in s
    ensures Scan(ShellQuote(s) + (" " + rest), Blank, "", words) == Scan(rest, Blank, "", words + [s])
  {
    QuotedWord(s, " " + rest, words);
    NextWord(s, rest, words);
  }

  lemma QuotedLast(s: string, words: seq<string>)
    requires '\0' !in s
    ensures Scan(ShellQuote(s), Blank, "", words) == Some(words + [s])
  {
    QuotedWord(s, "", words);
    assert ShellQuote(s) + "" == ShellQuote(s);
  }

  lemma CommandShape(exe: string, origin: string, token: string)
    requires exe != "" && origin != "" && token != ""
    ensures HookCommand(Some(exe), origin, token) ==
            ShellQuote(exe) + (" " + (HOOK_ARG + " " + (ShellQuote(origin) + (" " + ShellQuote(token)))))
  {
  }

  lemma FourWords(exe: string, origin: string, token: string)
    requires exe != "" && origin != "" && token != ""
    requires '\0' !in exe && '\0' !in origin && '\0' !in token
    ensures ShellWords(HookCommand(Some(exe), origin, token)) == Some([exe, HOOK_ARG, origin, token])
  {
    CommandShape(exe, origin, token);
    var r2 := ShellQuote(origin) + (" " + ShellQuote(token));
    QuotedThen(exe, HOOK_ARG + " " + r2, []);
    PlainHook(r2, [] + [exe]);
    QuotedThen(origin, ShellQuote(token), [] + [exe] + [HOOK_ARG]);
    QuotedLast(token, [] + [exe] + [HOOK_ARG] + [origin]);
    FourInARow(exe, HOOK_ARG, origin, token);
  }

  lemma FourInARow(a: string, b: string, c: string, d: string)
    ensures [] + [a] + [b] + [c] + [d] == [a, b, c, d]
  {
  }

  // The whole claim: a command is written exactly when everything it needs is
  // there, and a shell reads it back as the four arguments, untouched, exactly
  // when the arguments are ones a process can be given at all.
  lemma HookCommandParses(exe: Option<string>, origin: string, token: string)
    ensures HookCommand(exe, origin, token) == "" <==>
            exe.None? || exe.value == "" || origin == "" || token == ""
    ensures HookCommand(exe, origin, token) != "" ==>
            (ShellWords(HookCommand(exe, origin, token)) == Some([exe.value, HOOK_ARG, origin, token])
             <==> '\0' !in exe.value && '\0' !in origin && '\0' !in token)
  {
    var line := HookCommand(exe, origin, token);
    if line != "" {
      if '\0' !in exe.value && '\0' !in origin && '\0' !in token {
        FourWords(exe.value, origin, token);
      } else {
        EscapeKeepsNul(exe.value);
        EscapeKeepsNul(origin);
        EscapeKeepsNul(token);
        NulIsNeverAWord(line, Blank, "", []);
      }
    }
  }
}
