/**
  The interactive example client: each input line is stripped, classified on
  its lowercase form, and turned into a history reset, a scope change, a chat
  turn whose assistant chunks are printed, or the end of the session. Any
  exception inside an iteration is logged and the loop goes on.

  `str.strip`, `str.lower` and the regular-expression class `\w` are modelled
  on ASCII.
 */
module OllamaExample {
  import opened Wrappers
  import opened Dict
  import opened OllamaClient

  // ---------------------------------------------------------------------------
  // Text helpers
  // ---------------------------------------------------------------------------

  /**
    The ASCII characters `str.strip()` removes: those for which `str.isspace()`
    holds, the space, tab, line feed, carriage return, vertical tab and form
    feed, and the file, group, record and unit separators (28 to 31).
   */
  predicate IsSpace(c: char)
  {
    c == ' ' || c == '\t' || c == '\n' || c == '\r' || c == 11 as char || c == 12 as char
    || (28 as char <= c <= 31 as char)
  }

  /** Where the text starts once the whitespace from `i` on is skipped. */
  function SkipSpaces(s: string, i: nat): (n: nat)
    requires i <= |s|
    ensures i <= n <= |s|
    ensures forall k :: i <= k < n ==> IsSpace(s[k])
    ensures n == |s| || !IsSpace(s[n])
    decreases |s| - i
  {
    if i < |s| && IsSpace(s[i]) then SkipSpaces(s, i + 1) else i
  }

  /** Where the text ends once the whitespace before `j`, down to `lo`, is dropped. */
  function TrimSpaces(s: string, lo: nat, j: nat): (n: nat)
    requires lo <= j <= |s|
    ensures lo <= n <= j
    ensures forall k :: n <= k < j ==> IsSpace(s[k])
    ensures n == lo || !IsSpace(s[n - 1])
    decreases j
  {
    if lo < j && IsSpace(s[j - 1]) then TrimSpaces(s, lo, j - 1) else j
  }

  /**
    `str.strip()`: the slice between the leading and the trailing whitespace;
    only whitespace is removed, and the result neither starts nor ends with it.
   */
  function Strip(s: string): (r: string)
    ensures var a := SkipSpaces(s, 0);
      && a + |r| <= |s| && r == s[a..a + |r|]
      && (forall k :: 0 <= k < a ==> IsSpace(s[k]))
      && (forall k :: a + |r| <= k < |s| ==> IsSpace(s[k]))
    ensures r == [] || (!IsSpace(r[0]) && !IsSpace(r[|r| - 1]))
  {
    var a := SkipSpaces(s, 0);
    var b := TrimSpaces(s, a, |s|);
    assert a <= b <= |s| && (forall k :: b <= k < |s| ==> IsSpace(s[k]));
    assert forall k :: a <= k < b ==> s[a..b][k - a] == s[k];
    s[a..b]
  }

  /** Stripping twice is stripping once. */
  lemma StripIdempotent(s: string)
    ensures Strip(Strip(s)) == Strip(s)
  {
    StripUnchanged(Strip(s));
  }

  /** `str.lower()` on one character. */
  function LowerChar(c: char): char
  {
    if 'A' <= c <= 'Z' then (c as int + 32) as char else c
  }

  /** `str.lower()`. */
  function Lower(s: string): (r: string)
    ensures |r| == |s|
    ensures forall i :: 0 <= i < |s| ==> r[i] == LowerChar(s[i])
  {
    seq(|s|, i requires 0 <= i < |s| => LowerChar(s[i]))
  }

  predicate IsUpper(c: char)
  {
    'A' <= c <= 'Z'
  }

  /** Lowering leaves no upper-case letter and changes nothing that has none. */
  lemma LowerCases(s: string)
    ensures forall i :: 0 <= i < |s| ==> !IsUpper(Lower(s)[i])
    ensures (forall i :: 0 <= i < |s| ==> !IsUpper(s[i])) ==> Lower(s) == s
  {
  }

  /** The regular-expression class `\w`. */
  predicate IsWordChar(c: char)
  {
    ('a' <= c <= 'z') || ('A' <= c <= 'Z') || ('0' <= c <= '9') || c == '_'
  }

  /** `\w+` at the start of `s`, matched greedily: the longest leading run of word characters. */
  function WordRun(s: string): (w: string)
    ensures |w| <= |s| && w == s[..|w|]
    ensures forall i :: 0 <= i < |w| ==> IsWordChar(w[i])
    ensures |w| == |s| || !IsWordChar(s[|w|])
  {
    if s != [] && IsWordChar(s[0]) then [s[0]] + WordRun(s[1..]) else []
  }

  // ---------------------------------------------------------------------------
  // The line classifier
  // ---------------------------------------------------------------------------

  const ServerPrefix := "server "

  /** `re.match(r"server (\w+)", q).group(1)`, or None when the pattern does not match at the start. */
  function MatchServer(q: string): Option<string>
  {
    if |q| > |ServerPrefix| && q[..|ServerPrefix|] == ServerPrefix && IsWordChar(q[|ServerPrefix|])
    then Some(WordRun(q[|ServerPrefix|..]))
    else None
  }

  /**
    The pattern matches exactly when the text starts with "server " followed
    by a non-empty run of word characters that is maximal; the group is that
    run, and anything after it is ignored.
   */
  lemma MatchServerIff(q: string, n: string)
    ensures MatchServer(q) == Some(n) <==>
      && n != []
      && |q| >= |ServerPrefix| + |n|
      && q[..|ServerPrefix|] == ServerPrefix
      && q[|ServerPrefix|..|ServerPrefix| + |n|] == n
      && (forall i :: 0 <= i < |n| ==> IsWordChar(n[i]))
      && (|q| == |ServerPrefix| + |n| || !IsWordChar(q[|ServerPrefix| + |n|]))
  {
    var k := |ServerPrefix|;
    if n != [] && |q| >= k + |n| && q[..k] == ServerPrefix && q[k..k + |n|] == n
       && (forall i :: 0 <= i < |n| ==> IsWordChar(n[i]))
       && (|q| == k + |n| || !IsWordChar(q[k + |n|]))
    {
      assert q[k] == n[0];
      var w := WordRun(q[k..]);
      WordRunUnique(q[k..], n);
    }
  }

  /** Any maximal leading run of word characters is the greedy one. */
  lemma {:induction false} WordRunUnique(s: string, n: string)
    requires |n| <= |s| && s[..|n|] == n
    requires forall i :: 0 <= i < |n| ==> IsWordChar(n[i])
    requires |n| == |s| || !IsWordChar(s[|n|])
    ensures WordRun(s) == n
  {
    if n != [] {
      assert s[0] == n[0];
      assert s[1..][..|n| - 1] == n[1..];
      WordRunUnique(s[1..], n[1..]);
    }
  }

  /** What a line asks for. */
  datatype Command = Quit | Clear | SelectServer(name: string) | Chat(text: string)

  /**
    The `match` on the lowercased stripped line: "quit", then "clear", then
    the "server <name>" pattern, and anything else is a chat message.
   */
  function Classify(line: string): Command
  {
    var query := Strip(line);
    var lowered := Lower(query);
    if lowered == "quit" then Quit
    else if lowered == "clear" then Clear
    else match MatchServer(lowered)
      case Some(name) => SelectServer(name)
      case None => Chat(query)
  }

  /**
    The classification in full: exactly "quit" and "clear" (in any case,
    around any whitespace) are commands; a `server` line selects the
    lowercase name the pattern captures; every other line is sent as the
    stripped, not lowercased, text.
   */
  lemma ClassifyCases(line: string)
    ensures var lowered := Lower(Strip(line));
      && (Classify(line) == Quit <==> lowered == "quit")
      && (Classify(line) == Clear <==> lowered == "clear")
      && (Classify(line).SelectServer? <==> lowered != "quit" && lowered != "clear" && MatchServer(lowered).Some?)
      && (Classify(line).SelectServer? ==> Classify(line).name == MatchServer(lowered).value)
      && (Classify(line).Chat? <==> lowered != "quit" && lowered != "clear" && MatchServer(lowered).None?)
      && (Classify(line).Chat? ==> Classify(line).text == Strip(line))
  {
  }

  /** A selected server name is non-empty, made of word characters and has no upper-case letter. */
  lemma SelectedNameShape(line: string)
    requires Classify(line).SelectServer?
    ensures var n := Classify(line).name;
      && n != []
      && (forall i :: 0 <= i < |n| ==> IsWordChar(n[i]) && !IsUpper(n[i]))
  {
    var lowered := Lower(Strip(line));
    var n := Classify(line).name;
    MatchServerIff(lowered, n);
    LowerCases(Strip(line));
    forall i | 0 <= i < |n| ensures !IsUpper(n[i]) {
      assert n[i] == lowered[|ServerPrefix| + i];
    }
  }

  /** A line without surrounding whitespace is left as it is. */
  lemma StripUnchanged(s: string)
    requires s == [] || (!IsSpace(s[0]) && !IsSpace(s[|s| - 1]))
    ensures Strip(s) == s
  {
    var a := SkipSpaces(s, 0);
    assert a == 0;
    var b := TrimSpaces(s, 0, |s|);
    assert b == |s|;
    assert s[0..|s|] == s;
  }

  /** "server" with no name is sent to the model as it is. */
  lemma ClassifyBareServer()
    ensures Classify("server") == Chat("server")
  {
    var line := "server";
    StripUnchanged(line);
    LowerCases(line);
    assert Lower(line) == line;
    assert |line| == 6;
    assert MatchServer(line) == None;
  }

  /** The empty line is sent to the model too. */
  lemma ClassifyEmptyLine()
    ensures Classify("") == Chat("")
  {
    StripUnchanged("");
  }

  /** A leading unit separator is whitespace to `str.strip()`, so the line quits. */
  lemma ClassifySeparatedQuit()
    ensures Classify([31 as char] + "quit") == Quit
  {
    var line := [31 as char] + "quit";
    var a := SkipSpaces(line, 0);
    assert a == 1 by {
      assert SkipSpaces(line, 1) == 1;
    }
    var b := TrimSpaces(line, 1, |line|);
    assert b == |line|;
    assert Strip(line) == "quit";
    assert Lower("quit") == "quit";
  }

  /** The server name is lowercased, and only its leading word characters count. */
  lemma ClassifyServerLine()
    ensures Classify("Server FS-1") == SelectServer("fs")
  {
    var line := "Server FS-1";
    StripUnchanged(line);
    var lowered := Lower(line);
    LowerServerLine();
    ServerLineMatches();
    assert lowered != "quit" && lowered != "clear";
  }

  lemma LowerServerLine()
    ensures Lower("Server FS-1") == "server fs-1"
  {
    var lowered := Lower("Server FS-1");
    assert |lowered| == 11;
  }

  lemma ServerLineMatches()
    ensures MatchServer("server fs-1") == Some("fs")
  {
    var lowered := "server fs-1";
    assert lowered[..|ServerPrefix|] == ServerPrefix;
    assert lowered[|ServerPrefix|..|ServerPrefix| + 2] == "fs";
    assert !IsWordChar(lowered[|ServerPrefix| + 2]);
    MatchServerIff(lowered, "fs");
  }

  // ---------------------------------------------------------------------------
  // The session loop
  // ---------------------------------------------------------------------------

  /** What `input()` gives: a line, or EOFError once the input is exhausted. */
  datatype Input = Line(text: string) | EndOfInput

  /** What the `except Exception` clause logs. */
  datatype Logged = Caught(failure: Failure) | EndOfFile

  /** One iteration: whether the loop exits, the new client state, what was printed and logged, the unused script. */
  datatype StepResult = StepResult(exit: bool, state: ClientState, printed: seq<string>, logged: seq<Logged>, script: seq<Stream>)

  /**
    One iteration of the `while True` loop as written: an exhausted input
    raises EOFError inside the `try`, which is logged like any other
    exception, and the loop goes on.
   */
  function StepAsWritten(st: ClientState, input: Input, script: seq<Stream>, callTool: CallTool): StepResult
  {
    match input
    case EndOfInput => StepResult(false, st, [], [EndOfFile], script)
    case Line(text) => Perform(st, Classify(text), script, callTool)
  }

  /**
    What a classified line does: quit ends the loop; clear resets the history;
    a server name narrows the scope to that one server; a chat message runs a
    turn with the predefined model, printing its assistant chunks and logging
    the exception that ended it, if any.
   */
  function Perform(st: ClientState, command: Command, script: seq<Stream>, callTool: CallTool): StepResult
  {
    match command
    case Quit => StepResult(true, st, [], [], script)
    case Clear => StepResult(false, st.(messages := [Message(SystemRole, SystemPrompt)]), [], [], script)
    case SelectServer(name) => StepResult(false, st.(selectedServer := Restrict(st.servers, [name])), [], [], script)
    case Chat(query) =>
      var t := Resolve(DefaultModel, st.messages + [Message(UserRole, query)], st.selectedServer, script, callTool);
      StepResult(false, st.(messages := t.history), ContentsOf(t.chunks, AssistantRole),
                 if t.failure.Some? then [Caught(t.failure.value)] else [], t.rest)
  }

  /** `n` iterations of the loop as written once the input is exhausted. */
  function AfterEndOfInput(st: ClientState, script: seq<Stream>, callTool: CallTool, n: nat): StepResult
  {
    if n == 0 then StepResult(false, st, [], [], script)
    else
      var step := StepAsWritten(st, EndOfInput, script, callTool);
      var more := AfterEndOfInput(step.state, step.script, callTool, n - 1);
      StepResult(step.exit || more.exit, more.state, step.printed + more.printed, step.logged + more.logged, more.script)
  }

  /**
    As written, the loop never ends once the input is exhausted: however many
    further iterations run, none exits, nothing changes, and each logs one
    more EOFError.
   */
  lemma {:induction false} EndOfInputNeverExits(st: ClientState, script: seq<Stream>, callTool: CallTool, n: nat)
    ensures var r := AfterEndOfInput(st, script, callTool, n);
      && !r.exit
      && r.state == st
      && r.script == script
      && r.printed == []
      && |r.logged| == n
      && forall i :: 0 <= i < n ==> r.logged[i] == EndOfFile
  {
    if n > 0 {
      EndOfInputNeverExits(st, script, callTool, n - 1);
      var more := AfterEndOfInput(st, script, callTool, n - 1);
      assert AfterEndOfInput(st, script, callTool, n).logged == [EndOfFile] + more.logged;
    }
  }

  /** One iteration with the end of input ending the session, as is evidently intended. */
  function Step(st: ClientState, input: Input, script: seq<Stream>, callTool: CallTool): StepResult
  {
    if input.EndOfInput? then StepResult(true, st, [], [], script) else StepAsWritten(st, input, script, callTool)
  }

  /** A whole session over the given lines: what was printed and logged, the final state, the unused script. */
  datatype CliResult = CliResult(state: ClientState, printed: seq<string>, logged: seq<Logged>, script: seq<Stream>)

  function CliRun(st: ClientState, lines: seq<string>, script: seq<Stream>, callTool: CallTool): CliResult
    decreases |lines|
  {
    if lines == [] then
      var step := Step(st, EndOfInput, script, callTool);
      CliResult(step.state, step.printed, step.logged, step.script)
    else
      var step := Step(st, Line(lines[0]), script, callTool);
      if step.exit then CliResult(step.state, step.printed, step.logged, step.script)
      else
        var rest := CliRun(step.state, lines[1..], step.script, callTool);
        CliResult(rest.state, step.printed + rest.printed, step.logged + rest.logged, rest.script)
  }

  /** The session after some iterations: the rest of the run follows what they printed and logged. */
  function AfterLines(printed: seq<string>, logged: seq<Logged>, r: CliResult): CliResult
  {
    r.(printed := printed + r.printed, logged := logged + r.logged)
  }

  /** `a` is what is left of `b` after dropping some of its front. */
  ghost predicate IsSuffix<T>(a: seq<T>, b: seq<T>)
  {
    |a| <= |b| && a == b[|b| - |a|..]
  }

  lemma SuffixTransitive<T>(a: seq<T>, b: seq<T>, c: seq<T>)
    requires IsSuffix(a, b) && IsSuffix(b, c)
    ensures IsSuffix(a, c)
  {
    assert b[|b| - |a|..] == c[|c| - |b|..][|b| - |a|..];
  }

  /** A command consumes the chat script from its front and leaves the connected servers alone. */
  lemma PerformConsumesScript(st: ClientState, command: Command, script: seq<Stream>, callTool: CallTool)
    ensures var step := Perform(st, command, script, callTool);
      IsSuffix(step.script, script) && step.state.servers == st.servers
  {
    match command
    case Chat(query) =>
      ResolveRounds(DefaultModel, st.messages + [Message(UserRole, query)], st.selectedServer, script, callTool);
    case _ =>
      assert script[|script| - |script|..] == script;
  }

  /** One iteration consumes the chat script from its front and leaves the connected servers alone. */
  lemma StepConsumesScript(st: ClientState, input: Input, script: seq<Stream>, callTool: CallTool)
    ensures var step := Step(st, input, script, callTool);
      IsSuffix(step.script, script) && step.state.servers == st.servers
  {
    match input
    case EndOfInput =>
      assert script[|script| - |script|..] == script;
    case Line(text) =>
      PerformConsumesScript(st, Classify(text), script, callTool);
  }

  /** A session consumes the chat script from its front and never connects or disconnects servers. */
  lemma {:induction false} CliRunConsumesScript(st: ClientState, lines: seq<string>, script: seq<Stream>, callTool: CallTool)
    ensures var r := CliRun(st, lines, script, callTool);
      IsSuffix(r.script, script) && r.state.servers == st.servers
    decreases |lines|
  {
    var step := Step(st, if lines == [] then EndOfInput else Line(lines[0]), script, callTool);
    StepConsumesScript(st, if lines == [] then EndOfInput else Line(lines[0]), script, callTool);
    if lines != [] && !step.exit {
      CliRunConsumesScript(step.state, lines[1..], step.script, callTool);
      SuffixTransitive(CliRun(step.state, lines[1..], step.script, callTool).script, step.script, script);
    }
  }

  /** A classified line logs at most the one exception that ended its turn. */
  lemma PerformLogs(st: ClientState, command: Command, script: seq<Stream>, callTool: CallTool)
    ensures var step := Perform(st, command, script, callTool);
      |step.logged| <= 1 && forall i :: 0 <= i < |step.logged| ==> step.logged[i].Caught?
  {
  }

  /**
    With the end of input ending the session, a session logs at most one
    exception per line, and every one of them is a failure of a chat turn;
    nothing is logged for the end of input.
   */
  lemma {:induction false} CliRunLogsFailuresOnly(st: ClientState, lines: seq<string>, script: seq<Stream>, callTool: CallTool)
    ensures var r := CliRun(st, lines, script, callTool);
      |r.logged| <= |lines| && forall i :: 0 <= i < |r.logged| ==> r.logged[i].Caught?
    decreases |lines|
  {
    if lines != [] {
      var step := Perform(st, Classify(lines[0]), script, callTool);
      PerformLogs(st, Classify(lines[0]), script, callTool);
      if !step.exit {
        CliRunLogsFailuresOnly(step.state, lines[1..], step.script, callTool);
        var rest := CliRun(step.state, lines[1..], step.script, callTool);
        assert CliRun(st, lines, script, callTool).logged == step.logged + rest.logged;
      }
    }
  }

  /** One line of a session: the rest of the session follows what that line printed and logged, unless it ended the session. */
  lemma CliRunStep(st: ClientState, lines: seq<string>, i: nat, script: seq<Stream>, callTool: CallTool)
    requires i < |lines|
    ensures var step := Perform(st, Classify(lines[i]), script, callTool);
      CliRun(st, lines[i..], script, callTool) ==
        if step.exit then CliResult(step.state, step.printed, step.logged, step.script)
        else AfterLines(step.printed, step.logged, CliRun(step.state, lines[i + 1..], step.script, callTool))
  {
    assert lines[i..][0] == lines[i] && lines[i..][1..] == lines[i + 1..];
  }

  /**
    The loop of `main` after `i` lines: either it has exited and the whole
    session is what it did so far, or the session is what it did so far
    followed by the session over the remaining lines.
   */
  ghost predicate Progress(st0: ClientState, lines: seq<string>, script: seq<Stream>, callTool: CallTool,
                           i: nat, exit: bool, st: ClientState, printed: seq<string>, logged: seq<Logged>, rest: seq<Stream>)
  {
    i <= |lines| &&
    CliRun(st0, lines, script, callTool) ==
      if exit then CliResult(st, printed, logged, rest)
      else AfterLines(printed, logged, CliRun(st, lines[i..], rest, callTool))
  }

  lemma ProgressStart(st: ClientState, lines: seq<string>, script: seq<Stream>, callTool: CallTool)
    ensures Progress(st, lines, script, callTool, 0, false, st, [], [], script)
  {
    assert lines[0..] == lines;
    var r := CliRun(st, lines, script, callTool);
    assert [] + r.printed == r.printed && [] + r.logged == r.logged;
  }

  lemma ProgressStep(st0: ClientState, lines: seq<string>, script: seq<Stream>, callTool: CallTool,
                     i: nat, st: ClientState, printed: seq<string>, logged: seq<Logged>, rest: seq<Stream>, step: StepResult)
    requires i < |lines|
    requires Progress(st0, lines, script, callTool, i, false, st, printed, logged, rest)
    requires step == Perform(st, Classify(lines[i]), rest, callTool)
    ensures Progress(st0, lines, script, callTool, i + 1, step.exit, step.state,
                     printed + step.printed, logged + step.logged, step.script)
  {
    CliRunStep(st, lines, i, rest, callTool);
    if !step.exit {
      AfterLinesAssoc(printed, logged, step.printed, step.logged, CliRun(step.state, lines[i + 1..], step.script, callTool));
    }
  }

  lemma ProgressEnd(st0: ClientState, lines: seq<string>, script: seq<Stream>, callTool: CallTool,
                    i: nat, exit: bool, st: ClientState, printed: seq<string>, logged: seq<Logged>, rest: seq<Stream>)
    requires Progress(st0, lines, script, callTool, i, exit, st, printed, logged, rest)
    requires exit || i == |lines|
    ensures CliRun(st0, lines, script, callTool) == CliResult(st, printed, logged, rest)
  {
    if !exit {
      assert lines[i..] == [];
      assert CliRun(st, [], rest, callTool) == CliResult(st, [], [], rest);
      assert printed + [] == printed && logged + [] == logged;
    }
  }

  lemma AfterLinesAssoc(p1: seq<string>, l1: seq<Logged>, p2: seq<string>, l2: seq<Logged>, r: CliResult)
    ensures AfterLines(p1, l1, AfterLines(p2, l2, r)) == AfterLines(p1 + p2, l1 + l2, r)
  {
    ConcatAssoc(p1, p2, r.printed);
    ConcatAssoc(l1, l2, r.logged);
  }

  /**
    A chat line sends the stripped text as one new user message after the
    history so far, and the history after the turn extends that; only the
    assistant chunks of the turn are printed.
   */
  lemma ChatLineStep(st: ClientState, line: string, script: seq<Stream>, callTool: CallTool)
    requires Classify(line).Chat?
    ensures var step := Step(st, Line(line), script, callTool);
      var t := Resolve(DefaultModel, st.messages + [Message(UserRole, Strip(line))], st.selectedServer, script, callTool);
      && !step.exit
      && st.messages + [Message(UserRole, Strip(line))] <= step.state.messages
      && step.printed == ContentsOf(t.chunks, AssistantRole)
      && step.state.servers == st.servers && step.state.selectedServer == st.selectedServer
  {
    ClassifyCases(line);
    ResolveHistory(DefaultModel, st.messages + [Message(UserRole, Strip(line))], st.selectedServer, script, callTool);
  }

  /** The `async for part in …` printing loop: print the content of each assistant part, in order. */
  method PrintAssistant(chunks: seq<ChatResponse>) returns (printed: seq<string>)
    ensures printed == ContentsOf(chunks, AssistantRole)
  {
    printed := [];
    var i := 0;
    while i < |chunks|
      invariant 0 <= i <= |chunks|
      invariant ContentsOf(chunks, AssistantRole) == printed + ContentsOf(chunks[i..], AssistantRole)
    {
      assert chunks[i..][0] == chunks[i] && chunks[i..][1..] == chunks[i + 1..];
      if chunks[i].role == AssistantRole {
        printed := printed + [chunks[i].content];
      }
      i := i + 1;
    }
  }

  /**
    One iteration of the `while True` loop of `main` on an input line: the
    `match` and the call it dispatches to, with any exception of the turn
    logged.
   */
  method RunLine(client: OllamaMcpClient, line: string, script: seq<Stream>, callTool: CallTool)
    returns (exit: bool, printed: seq<string>, logged: seq<Logged>, rest: seq<Stream>)
    requires client.Valid()
    modifies client
    ensures Perform(old(client.State()), Classify(line), script, callTool) == StepResult(exit, client.State(), printed, logged, rest)
    ensures client.Valid()
  {
    exit, printed, logged, rest := false, [], [], script;
    var command := Classify(line);
    match command {
      case Quit =>
        exit := true;
      case Clear =>
        client.PreparePrompt();
      case SelectServer(name) =>
        client.SelectServer([name]);
      case Chat(query) =>
        var t := client.ProcessMessage(query, None, script, callTool);
        printed := PrintAssistant(t.chunks);
        logged := if t.failure.Some? then [Caught(t.failure.value)] else [];
        rest := t.rest;
    }
  }

  /**
    The `while True` loop of `main` over the given input lines, with the end
    of input ending the session.
   */
  method RunCli(client: OllamaMcpClient, lines: seq<string>, script: seq<Stream>, callTool: CallTool)
    returns (printed: seq<string>, logged: seq<Logged>, rest: seq<Stream>)
    requires client.Valid()
    modifies client
    ensures CliRun(old(client.State()), lines, script, callTool) == CliResult(client.State(), printed, logged, rest)
    ensures client.Valid()
  {
    printed, logged, rest := [], [], script;
    var i, exit := 0, false;
    ProgressStart(client.State(), lines, script, callTool);
    while i < |lines| && !exit
      invariant i <= |lines|
      invariant client.Valid()
      invariant Progress(old(client.State()), lines, script, callTool, i, exit, client.State(), printed, logged, rest)
    {
      ghost var st := client.State();
      var out, errors, rest';
      exit, out, errors, rest' := RunLine(client, lines[i], rest, callTool);
      ProgressStep(old(client.State()), lines, script, callTool, i, st, printed, logged, rest,
                   StepResult(exit, client.State(), out, errors, rest'));
      printed, logged, rest := printed + out, logged + errors, rest';
      i := i + 1;
    }
    ProgressEnd(old(client.State()), lines, script, callTool, i, exit, client.State(), printed, logged, rest);
  }
}
