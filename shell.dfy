/** The shell tool: the quoted-token command tokenizer, the command allowlist and the
    decision taken before a command is handed to the operating system. */
module Shell {
  import opened Wrappers
  import opened JsText
  import opened Paths

  /** The programs the tool may start, compared after lower-casing. */
  const AllowedCommands: set<string> :=
    {"npm", "npx", "node", "bun", "git", "python", "python3", "py", "pip", "pip3", "code"}

  // ---------------------------------------------------------------------------------
  // The regular expression /"((?:\\.|[^"\\])*)"|[^\s]+/g, one `exec` at a time.
  // ---------------------------------------------------------------------------------

  /** The search for a match skips white space: neither alternative can start there. */
  function SkipSpace(s: string, i: nat): (j: nat)
    requires i <= |s|
    ensures i <= j <= |s|
    ensures forall k :: i <= k < j ==> IsSpace(s[k])
    ensures j < |s| ==> !IsSpace(s[j])
    decreases |s| - i
  {
    if i == |s| || !IsSpace(s[i]) then i else SkipSpace(s, i + 1)
  }

  /** Greedy `[^\s]+` from `i`. */
  function RunEnd(s: string, i: nat): (j: nat)
    requires i <= |s|
    ensures i <= j <= |s|
    ensures forall k :: i <= k < j ==> !IsSpace(s[k])
    ensures j < |s| ==> IsSpace(s[j])
    decreases |s| - i
  {
    if i == |s| || IsSpace(s[i]) then i else RunEnd(s, i + 1)
  }

  /** The body `(?:\\.|[^"\\])*` scanned from `j`, followed by the closing `"`: the index
      of that quote, if there is one. A backslash takes the next character with it unless
      that is a line terminator or there is none; backtracking cannot find another match. */
  function CloseQuote(s: string, j: nat): (r: Option<nat>)
    requires j <= |s|
    ensures r.Some? ==> j <= r.value < |s| && s[r.value] == '"'
    decreases |s| - j
  {
    if j == |s| then None
    else if s[j] == '"' then Some(j)
    else if s[j] == '\\' then
      if j + 1 < |s| && !IsLineTerminator(s[j + 1]) then CloseQuote(s, j + 2) else None
    else CloseQuote(s, j + 1)
  }

  /** What `exec` returns: the match's position, `match[0]` and `match[1]`. */
  datatype Match = Match(index: nat, end: nat, whole: string, group: Option<string>)

  /** `re.exec(s)` with `re.lastIndex == from`. */
  function Exec(s: string, from: nat): (m: Option<Match>)
    requires from <= |s|
    ensures m.Some? ==> from <= m.value.index < m.value.end <= |s|
    ensures m.Some? ==> m.value.whole == s[m.value.index..m.value.end]
    ensures m.None? ==> forall k :: from <= k < |s| ==> IsSpace(s[k])
    ensures m.Some? ==> !IsSpace(s[m.value.index])
  {
    var p := SkipSpace(s, from);
    if p == |s| then None
    else if s[p] == '"' && CloseQuote(s, p + 1).Some? then
      var q := CloseQuote(s, p + 1).value;
      Some(Match(p, q + 1, s[p..q + 1], Some(s[p + 1..q])))
    else
      var e := RunEnd(s, p);
      Some(Match(p, e, s[p..e], None))
  }

  /** `t.replace(/\\"/g, '"')`: a left-to-right scan replacing each `\"` by `"`. */
  function Unescape(t: string): string
    decreases |t|
  {
    if t == [] then []
    else if |t| >= 2 && t[0] == '\\' && t[1] == '"' then "\"" + Unescape(t[2..])
    else [t[0]] + Unescape(t[1..])
  }

  /** The token `parseCommand` pushes for a match. */
  function TokenOf(m: Match): string {
    match m.group
    case Some(g) => Unescape(g)
    case None => m.whole
  }

  /** The tokens of the matches found from `i` on. */
  function TokensFrom(s: string, i: nat): seq<string>
    requires i <= |s|
    decreases |s| - i
  {
    match Exec(s, i)
    case None => []
    case Some(m) => [TokenOf(m)] + TokensFrom(s, m.end)
  }

  function Tokens(s: string): seq<string> {
    TokensFrom(s, 0)
  }

  /** `parseCommand`: runs `exec` until it returns null, pushing one token per match. */
  method ParseCommand(command: string) returns (tokens: seq<string>)
    ensures tokens == Tokens(command)
    ensures tokens == [] <==> AllSpace(command)
  {
    tokens := [];
    var lastIndex: nat := 0;
    var m := Exec(command, lastIndex);
    while m.Some?
      invariant lastIndex <= |command|
      invariant m == Exec(command, lastIndex)
      invariant tokens + TokensFrom(command, lastIndex) == Tokens(command)
      invariant tokens == [] ==> lastIndex == 0
      decreases |command| - lastIndex
    {
      var found := m.value;
      ghost var before := tokens;
      TokensFromStep(command, lastIndex);
      if found.group.Some? {
        tokens := tokens + [Unescape(found.group.value)];
      } else {
        tokens := tokens + [found.whole];
      }
      assert tokens == before + [TokenOf(found)];
      AppendOne(before, TokenOf(found), TokensFrom(command, found.end));
      lastIndex := found.end;
      m := Exec(command, lastIndex);
    }
    TokensEmptyIffBlank(command);
  }

  lemma AppendOne<T>(a: seq<T>, x: T, b: seq<T>)
    ensures a + ([x] + b) == (a + [x]) + b
  {
  }

  /** One match: its token, then the tokens after it. */
  lemma TokensFromStep(s: string, i: nat)
    requires i <= |s| && Exec(s, i).Some?
    ensures TokensFrom(s, i) == [TokenOf(Exec(s, i).value)] + TokensFrom(s, Exec(s, i).value.end)
  {
  }

  // ---------------------------------------------------------------------------------
  // Properties of the tokenizer
  // ---------------------------------------------------------------------------------

  /** No token at all exactly for the empty or all-white-space command. */
  lemma TokensEmptyIffBlank(s: string)
    ensures Tokens(s) == [] <==> AllSpace(s)
  {
    if Exec(s, 0).Some? {
      assert !IsSpace(s[Exec(s, 0).value.index]);
    }
  }

  /** Reference splitter for commands without quotes: `cur` is the word being read. */
  function WordsAcc(s: string, cur: string): seq<string>
    decreases |s|
  {
    if s == [] then (if cur == [] then [] else [cur])
    else if IsSpace(s[0]) then (if cur == [] then [] else [cur]) + WordsAcc(s[1..], [])
    else WordsAcc(s[1..], cur + [s[0]])
  }

  /** Maximal non-empty runs of non-white-space characters, in input order. */
  function Words(s: string): seq<string> {
    WordsAcc(s, [])
  }

  predicate QuoteFree(s: string) {
    forall k :: 0 <= k < |s| ==> s[k] != '"'
  }

  /** White space before a match is skipped. */
  lemma TokensSkipSpace(s: string, j: nat)
    requires j < |s| && IsSpace(s[j])
    ensures TokensFrom(s, j) == TokensFrom(s, j + 1)
  {
    assert SkipSpace(s, j) == SkipSpace(s, j + 1);
    assert Exec(s, j) == Exec(s, j + 1);
  }

  /** In a command without quotes, a match is a maximal run of non-space characters. */
  lemma TokensAtWord(s: string, j: nat)
    requires QuoteFree(s) && j < |s| && !IsSpace(s[j])
    ensures TokensFrom(s, j) == [s[j..RunEnd(s, j)]] + TokensFrom(s, RunEnd(s, j))
  {
    assert SkipSpace(s, j) == j;
    assert s[j] != '"';
  }

  lemma {:induction false} WordsFromGap(s: string, j: nat)
    requires QuoteFree(s) && j <= |s|
    ensures WordsAcc(s[j..], []) == TokensFrom(s, j)
    decreases |s| - j, 1
  {
    if j == |s| {
      assert s[j..] == [];
      assert Exec(s, j).None?;
    } else {
      var t := s[j..];
      assert t[0] == s[j] && t[1..] == s[j + 1..];
      if IsSpace(s[j]) {
        WordsFromGap(s, j + 1);
        TokensSkipSpace(s, j);
      } else {
        assert [] + [s[j]] == s[j..j + 1];
        assert WordsAcc(t, []) == WordsAcc(s[j + 1..], s[j..j + 1]);
        WordsInWord(s, j, j + 1);
        TokensAtWord(s, j);
        assert RunEnd(s, j) == RunEnd(s, j + 1);
      }
    }
  }

  lemma WordAtEnd(s: string, i: nat)
    requires i < |s|
    ensures WordsAcc(s[|s|..], s[i..|s|]) == [s[i..RunEnd(s, |s|)]] + TokensFrom(s, RunEnd(s, |s|))
  {
    assert s[|s|..] == [];
    assert Exec(s, |s|).None?;
  }

  lemma WordBeforeSpace(s: string, i: nat, j: nat)
    requires i < j < |s| && IsSpace(s[j])
    requires WordsAcc(s[j + 1..], []) == TokensFrom(s, j + 1)
    ensures WordsAcc(s[j..], s[i..j]) == [s[i..RunEnd(s, j)]] + TokensFrom(s, RunEnd(s, j))
  {
    var t := s[j..];
    assert t[0] == s[j] && t[1..] == s[j + 1..];
    TokensSkipSpace(s, j);
  }

  lemma WordExtends(s: string, i: nat, j: nat)
    requires i < j < |s| && !IsSpace(s[j])
    requires WordsAcc(s[j + 1..], s[i..j + 1]) == [s[i..RunEnd(s, j + 1)]] + TokensFrom(s, RunEnd(s, j + 1))
    ensures WordsAcc(s[j..], s[i..j]) == [s[i..RunEnd(s, j)]] + TokensFrom(s, RunEnd(s, j))
  {
    var t := s[j..];
    assert t[0] == s[j] && t[1..] == s[j + 1..];
    assert s[i..j] + [s[j]] == s[i..j + 1];
  }

  lemma {:induction false} WordsInWord(s: string, i: nat, j: nat)
    requires QuoteFree(s) && i < j <= |s|
    ensures WordsAcc(s[j..], s[i..j]) == [s[i..RunEnd(s, j)]] + TokensFrom(s, RunEnd(s, j))
    decreases |s| - j, 0
  {
    if j == |s| {
      WordAtEnd(s, i);
    } else if IsSpace(s[j]) {
      WordsFromGap(s, j + 1);
      WordBeforeSpace(s, i, j);
    } else {
      WordsInWord(s, i, j + 1);
      WordExtends(s, i, j);
    }
  }

  /** Without double quotes, `parseCommand` is plain white-space splitting. */
  lemma QuoteFreeTokensAreWords(s: string)
    requires QuoteFree(s)
    ensures Tokens(s) == Words(s)
  {
    WordsFromGap(s, 0);
    assert s[0..] == s;
  }

  /** The inside of a well-formed quoted token: every backslash escapes one character that
      is not a line terminator, and no unescaped `"` occurs. */
  predicate ValidBody(b: string)
    decreases |b|
  {
    || b == []
    || (b[0] == '\\' && |b| >= 2 && !IsLineTerminator(b[1]) && ValidBody(b[2..]))
    || (b[0] != '"' && b[0] != '\\' && ValidBody(b[1..]))
  }

  /** Escape-pair reading of a body: `\"` gives `"`, every other pair is kept as written. */
  function Decoded(b: string): string
    requires ValidBody(b)
    decreases |b|
  {
    if b == [] then []
    else if b[0] == '\\' then (if b[1] == '"' then "\"" else b[..2]) + Decoded(b[2..])
    else [b[0]] + Decoded(b[1..])
  }

  lemma {:induction false} UnescapeDecodes(b: string)
    requires ValidBody(b)
    ensures Unescape(b) == Decoded(b)
    decreases |b|
  {
    if b != [] {
      if b[0] == '\\' {
        UnescapeDecodes(b[2..]);
        if b[1] != '"' {
          assert b[1..][1..] == b[2..];
          assert !(|b[1..]| >= 2 && b[1] == '\\' && b[2] == '"');
          assert Unescape(b[1..]) == [b[1]] + Unescape(b[2..]);
          assert b[..2] == [b[0]] + [b[1]];
        }
      } else {
        UnescapeDecodes(b[1..]);
      }
    }
  }

  lemma {:induction false} CloseQuoteAfterBody(s: string, j: nat, b: string)
    requires j + |b| < |s| && s[j..j + |b|] == b && s[j + |b|] == '"'
    requires ValidBody(b)
    ensures CloseQuote(s, j) == Some(j + |b|)
    decreases |b|
  {
    if b != [] {
      if b[0] == '\\' {
        assert s[j] == '\\' && s[j + 1] == b[1];
        assert s[j + 2..j + |b|] == b[2..];
        CloseQuoteAfterBody(s, j + 2, b[2..]);
      } else {
        assert s[j] == b[0];
        assert s[j + 1..j + |b|] == b[1..];
        CloseQuoteAfterBody(s, j + 1, b[1..]);
      }
    }
  }

  lemma ExecAtQuote(s: string, q: nat)
    requires |s| > 0 && s[0] == '"' && CloseQuote(s, 1) == Some(q)
    ensures Exec(s, 0) == Some(Match(0, q + 1, s[0..q + 1], Some(s[1..q])))
  {
    assert SkipSpace(s, 0) == 0;
  }

  /** A token that opens with `"` and is closed yields its inside with `\"` turned into `"`
      and every other backslash pair kept; scanning resumes right after the closing quote. */
  lemma QuotedToken(b: string, rest: string)
    requires ValidBody(b)
    ensures var s := "\"" + b + "\"" + rest;
      Tokens(s) == [Decoded(b)] + TokensFrom(s, |b| + 2)
  {
    var s := "\"" + b + "\"" + rest;
    QuotedMatch(b, rest);
    TokensFromStep(s, 0);
    UnescapeDecodes(b);
  }

  lemma QuotedMatch(b: string, rest: string)
    requires ValidBody(b)
    ensures var s := "\"" + b + "\"" + rest;
      Exec(s, 0) == Some(Match(0, |b| + 2, s[0..|b| + 2], Some(b)))
  {
    var s := "\"" + b + "\"" + rest;
    assert s[0] == '"' && s[|b| + 1] == '"';
    assert s[1..|b| + 1] == b;
    CloseQuoteAfterBody(s, 1, b);
    ExecAtQuote(s, |b| + 1);
  }

  lemma {:induction false} NoQuoteNoClose(s: string, j: nat)
    requires j <= |s|
    requires forall k :: j <= k < |s| ==> s[k] != '"'
    ensures CloseQuote(s, j).None?
    decreases |s| - j
  {
    if j < |s| {
      if s[j] == '\\' {
        if j + 1 < |s| && !IsLineTerminator(s[j + 1]) {
          NoQuoteNoClose(s, j + 2);
        }
      } else {
        NoQuoteNoClose(s, j + 1);
      }
    }
  }

  /** An opening quote that is never closed stays in its token unchanged. */
  lemma ExecUnterminated(w: string)
    requires QuoteFree(w)
    requires forall k :: 0 <= k < |w| ==> !IsSpace(w[k])
    ensures Exec("\"" + w, 0) == Some(Match(0, |w| + 1, "\"" + w, None))
  {
    var s := "\"" + w;
    assert forall k :: 1 <= k < |s| ==> s[k] == w[k - 1];
    NoQuoteNoClose(s, 1);
    assert SkipSpace(s, 0) == 0;
    assert forall k :: 0 <= k < |s| ==> !IsSpace(s[k]);
    assert RunEnd(s, 0) == |s|;
    assert s[0..|s|] == s;
  }

  lemma UnterminatedQuoteKept(w: string)
    requires QuoteFree(w)
    requires forall k :: 0 <= k < |w| ==> !IsSpace(w[k])
    ensures Tokens("\"" + w) == ["\"" + w]
  {
    var s := "\"" + w;
    ExecUnterminated(w);
    assert Exec(s, |s|).None?;
    assert TokensFrom(s, |s|) == [];
    assert TokensFrom(s, 0) == [s] + TokensFrom(s, |s|);
  }

  // ---------------------------------------------------------------------------------
  // handleShellAction up to the point where the operating system is asked to run it
  // ---------------------------------------------------------------------------------

  /** `action.command` and `action.cwd`, each a string or absent. */
  datatype ShellAction = ShellAction(command: Option<string>, cwd: Option<string>)

  /** A resolved reply, a rejected promise, or an `execFile(file, args, {cwd})` request. */
  datatype ShellOutcome =
    | Reply(text: string)
    | Thrown(message: string)
    | Run(file: string, args: seq<string>, cwd: string)

  const EmptyCommand := "Error: Empty shell command"
  const InvalidCommand := "Error: Invalid shell command"

  function NotAllowed(command: string): string {
    "Error: Command \"" + command + "\" is not allowed"
  }

  /** `resolveSafeCwd`: the workspace itself when no cwd is given. */
  function ResolveSafeCwd(root: Segments, cwd: Option<string>): Result<Segments, string> {
    var target := if Truthy(cwd) then Resolve(root, cwd.value) else root;
    if Inside(Format(root), Format(target)) then Ok(target)
    else Err("Shell cwd must stay inside workspace")
  }

  /** `handleShellAction` as far as the `execFile` call. */
  function HandleShellAction(root: Segments, action: ShellAction): ShellOutcome {
    var rawCommand := Trim(OrElse(action.command, ""));
    match ResolveSafeCwd(root, action.cwd)
    case Err(e) => Thrown(e)
    case Ok(safeCwd) =>
      if rawCommand == "" then Reply(EmptyCommand)
      else
        var tokens := Tokens(rawCommand);
        if |tokens| == 0 then Reply(InvalidCommand)
        else if LowerAscii(tokens[0]) !in AllowedCommands then Reply(NotAllowed(tokens[0]))
        else Run(tokens[0], tokens[1..], Format(safeCwd))
  }

  /** The working directory is accepted exactly when the workspace root leads it (and only
      `/` itself when the root is `/`); the check precedes every other outcome. */
  lemma SafeCwdIsWithinRoot(root: Segments, action: ShellAction)
    requires Normal(root)
    ensures var target := if Truthy(action.cwd) then Resolve(root, action.cwd.value) else root;
      && (ResolveSafeCwd(root, action.cwd).Ok? <==> IsPrefix(root, target) && (root == [] ==> target == []))
      && (ResolveSafeCwd(root, action.cwd).Err? ==> HandleShellAction(root, action) == Thrown("Shell cwd must stay inside workspace"))
  {
    if Truthy(action.cwd) {
      ResolveIsNormal(root, action.cwd.value);
      InsideIffPrefix(root, Resolve(root, action.cwd.value));
    } else {
      InsideIffPrefix(root, root);
    }
  }

  lemma NotAllowedIsNotInvalid(t: string)
    ensures NotAllowed(t) != InvalidCommand
  {
    assert NotAllowed(t)[7] == 'C';
    assert InvalidCommand[7] == 'I';
  }

  /** A command that is not blank after trimming has a first token. */
  lemma TrimmedHasToken(c: string)
    requires Trim(c) != ""
    ensures Tokens(Trim(c)) != []
  {
    TrimmedHasNoSpaceAtEnds(c);
    TokensEmptyIffBlank(Trim(c));
  }

  /** Once the cwd is accepted: a blank command gets the empty-command reply; otherwise the
      trimmed command has a token, so the invalid-command reply never occurs, and the first
      token is run exactly when its lower-case form is allow-listed. */
  lemma ShellDecision(root: Segments, action: ShellAction)
    requires ResolveSafeCwd(root, action.cwd).Ok?
    ensures var raw := Trim(OrElse(action.command, ""));
      var out := HandleShellAction(root, action);
      var cwd := Format(ResolveSafeCwd(root, action.cwd).value);
      && (raw == "" ==> out == Reply(EmptyCommand))
      && (raw != "" ==> Tokens(raw) != [])
      && (raw != "" && LowerAscii(Tokens(raw)[0]) in AllowedCommands ==>
            out == Run(Tokens(raw)[0], Tokens(raw)[1..], cwd))
      && (raw != "" && LowerAscii(Tokens(raw)[0]) !in AllowedCommands ==>
            out == Reply(NotAllowed(Tokens(raw)[0])))
      && out != Reply(InvalidCommand)
  {
    var raw := Trim(OrElse(action.command, ""));
    if raw != "" {
      TrimmedHasToken(OrElse(action.command, ""));
      NotAllowedIsNotInvalid(Tokens(raw)[0]);
    }
  }
}
