/** The shell's read-eval-print loop: it writes the prompt, reads a line,
    strips and splits it, runs the command it names, and repeats until a
    command ends the process or the input runs out. The operating system's
    answer to the call made for the i-th line is `replies(i)`. */
module Shell {
  import opened Wrappers
  import opened Text
  import opened Os
  import opened Handlers
  import opened Dispatcher
  import Registry

  const Prompt := "$ "

  /** How the process ends: `sys.exit` with a status (from `exit` or from
      the argument parser of `uname`), an exception no handler catches, or
      the end of the input (where `input()` raises). */
  datatype Stop = Exited(status: nat) | Crashed(kind: ErrorKind, detail: string) | InputExhausted

  /** The lines one command line prints, and whether the process ends. */
  datatype Turn = Turn(printed: seq<string>, stop: Option<Stop>)

  /** Everything written to standard output, and how the process ended. */
  datatype SessionResult = SessionResult(output: string, stop: Stop)

  /** The text that `print` writes for each of the lines, in order. */
  function Render(lines: seq<string>): string {
    if lines == [] then ""
    else Render(lines[..|lines| - 1]) + lines[|lines| - 1] + "\n"
  }

  /** What running a handler means for the loop. */
  function Settle(e: Effect): Turn {
    match e
    case Printed(lines) => Turn(lines, None)
    case Raised(k, d) => Turn([], Some(Crashed(k, d)))
    case SystemExit(status) => Turn([], Some(Exited(status)))
  }

  /** What the loop makes of a decision of the dispatch chain, given the
      system's answer to its call. */
  function Carry(s: Step, r: Reply): Turn {
    match s.action
    case Continue => Turn(s.output, None)
    case Exit(n) => Turn(s.output, Some(Exited(n)))
    case Invoke(call) =>
      var t := Settle(Perform(call, r));
      Turn(s.output + t.printed, t.stop)
  }

  /** What one command line does, given the system's answer to its call. */
  function Respond(parts: seq<string>, r: Reply): Turn {
    Carry(Dispatch(parts), r)
  }

  /** The body of the loop for the tokens of one line: a blank line does
      nothing, a first token that picks no builtin is reported, and every
      other line runs its builtin. */
  method Execute(parts: seq<string>, r: Reply) returns (t: Turn)
    ensures t == Respond(parts, r)
  {
    if parts == [] {
      return Turn([], None);
    }
    var cmd := parts[0];
    var c := Registry.Resolve(cmd);
    if c.None? {
      t := Turn([cmd + ": command not found"], None);
    } else {
      t := RunBuiltin(c.value, parts[1..], r);
    }
  }

  /** The branch of the shell for one builtin, given the tokens after the
      command name. */
  method RunBuiltin(c: Registry.Command, args: seq<string>, r: Reply) returns (t: Turn)
    ensures t == Carry(Builtin(c, args), r)
  {
    match c
    case Exit =>
      if |args| > 0 && IsDigits(args[0]) {
        t := Turn([], Some(Exited(DecimalValue(args[0]))));
      } else {
        t := Turn([Farewell], Some(Exited(0)));
      }
    case Echo =>
      t := Turn([Join(" ", args)], None);
    case Ls =>
      var e := ListFiles(r.outcome, r.entries);
      t := Settle(e);
    case Pwd =>
      t := Settle(PrintWorkingDirectory(r.outcome, r.text));
    case Type =>
      var out := TypeCommand(args);
      t := Turn(out, None);
    case Cd =>
      if |args| > 0 {
        t := Settle(ChangeDirectory(args[0], r.home, r.outcome));
      } else {
        t := Settle(ChangeDirectory("", r.home, r.outcome));
      }
    case Uname =>
      match r.uname {
        case ParserExit(status) =>
          t := Settle(SystemExit(status));
        case Parsed(options, id) =>
          var line := UnameCommand(options, id);
          t := Turn([line], None);
      }
    case Clear =>
      t := Turn([], None);
    case Cp | Rm | Mkdir | Rmdir | Touch | Locate | Ln | Cat =>
      t := RunChecked(c, args, r);
  }

  /** The branch of a builtin that needs arguments: with too few it prints
      its usage message, otherwise it runs its handler on the first ones. */
  method RunChecked(c: Registry.Command, args: seq<string>, r: Reply) returns (t: Turn)
    requires Registry.MinArgs(c) > 0
    ensures t == Carry(Builtin(c, args), r)
  {
    if |args| < Registry.MinArgs(c) {
      t := Turn([Registry.Usage(c)], None);
    } else {
      t := RunHandler(c, args, r);
    }
  }

  /** The handler call of a builtin that has the arguments it needs. */
  method RunHandler(c: Registry.Command, args: seq<string>, r: Reply) returns (t: Turn)
    requires 0 < Registry.MinArgs(c) <= |args|
    ensures t == Carry(Builtin(c, args), r)
  {
    match c
    case Cp => t := Settle(CopyFile(args[0], args[1], r.outcome));
    case Rm => t := Settle(DeleteFile(args[0], r.outcome));
    case Mkdir => t := Settle(MakeDirectory(args[0], r.outcome));
    case Rmdir => t := Settle(RemoveDirectory(args[0], r.outcome));
    case Touch => t := Settle(TouchFile(args[0], r.outcome));
    case Locate => t := Settle(LocateFile(args[0], r.outcome, r.text));
    case Ln => t := Settle(CreateLink(args[0], args[1], r.outcome));
    case Cat => t := Settle(CatFile(args[0], r.outcome, r.text));
  }

  /** The tokens the shell reads from a line. */
  function Tokens(line: string): seq<string> {
    Split(Strip(line))
  }

  /** What each input line does, given the system's answer to its call. */
  function Turns(lines: seq<string>, replies: nat -> Reply): seq<Turn> {
    seq(|lines|, j requires 0 <= j < |lines| => Respond(Tokens(lines[j]), replies(j)))
  }

  /** The session from the i-th line on: the prompt, what the line prints,
      and the rest of the session unless the line ends the process. After
      the last line the prompt is written once more and `input()` finds the
      end of the input. */
  function SessionFrom(turns: seq<Turn>, i: nat): SessionResult
    requires i <= |turns|
    decreases |turns| - i
  {
    if i == |turns| then SessionResult(Prompt, InputExhausted)
    else
      var out := Prompt + Render(turns[i].printed);
      match turns[i].stop
      case Some(s) => SessionResult(out, s)
      case None =>
        var rest := SessionFrom(turns, i + 1);
        SessionResult(out + rest.output, rest.stop)
  }

  /** Everything the shell writes for the given input, and how it ends. */
  function Session(lines: seq<string>, replies: nat -> Reply): SessionResult {
    SessionFrom(Turns(lines, replies), 0)
  }

  lemma Assoc3(a: string, b: string, c: string)
    ensures a + b + c == a + (b + c)
  {
  }

  lemma Assoc4(a: string, b: string, c: string, d: string)
    ensures a + (b + c + d) == a + b + c + d
  {
  }

  /** The `print` calls for the lines of one turn, appended to what is
      already written. */
  method Write(written: string, lines: seq<string>) returns (output: string)
    ensures output == written + Render(lines)
  {
    output := written;
    for k := 0 to |lines|
      invariant output == written + Render(lines[..k])
    {
      assert lines[..k + 1][..k] == lines[..k];
      output := output + lines[k] + "\n";
    }
    assert lines[..|lines|] == lines;
  }

  /** `main`: the loop over the input lines. */
  method Run(lines: seq<string>, replies: nat -> Reply) returns (output: string, stop: Stop)
    ensures SessionResult(output, stop) == Session(lines, replies)
  {
    ghost var turns := Turns(lines, replies);
    ghost var whole := SessionFrom(turns, 0);
    output := "";
    var i := 0;
    while i < |lines|
      invariant i <= |lines|
      invariant whole.output == output + SessionFrom(turns, i).output
      invariant whole.stop == SessionFrom(turns, i).stop
      decreases |lines| - i
    {
      var parts := Tokens(lines[i]);
      var t := Execute(parts, replies(i));
      assert t == turns[i];
      ghost var before := output;
      output := Write(output + Prompt, t.printed);
      Assoc3(before, Prompt, Render(t.printed));
      if t.stop.Some? {
        stop := t.stop.value;
        return;
      }
      Assoc4(before, Prompt, Render(t.printed), SessionFrom(turns, i + 1).output);
      i := i + 1;
    }
    output := output + Prompt;
    stop := InputExhausted;
  }

  /** n prompts in a row. */
  function Prompts(n: nat): string {
    if n == 0 then "" else Prompt + Prompts(n - 1)
  }

  lemma {:induction false} SilentTurns(turns: seq<Turn>, i: nat)
    requires i <= |turns|
    requires forall j :: i <= j < |turns| ==> turns[j] == Turn([], None)
    ensures SessionFrom(turns, i) == SessionResult(Prompts(|turns| - i + 1), InputExhausted)
    decreases |turns| - i
  {
    if i < |turns| {
      SilentTurns(turns, i + 1);
      assert Render(turns[i].printed) == "";
    }
  }

  /** Input made only of blank lines prints one prompt per line and one
      more before the input runs out, and nothing else. */
  lemma BlankInputOnlyPrompts(lines: seq<string>, replies: nat -> Reply)
    requires forall j :: 0 <= j < |lines| ==> AllSpace(lines[j])
    ensures Session(lines, replies) == SessionResult(Prompts(|lines| + 1), InputExhausted)
  {
    var turns := Turns(lines, replies);
    forall j | 0 <= j < |lines|
      ensures turns[j] == Turn([], None)
    {
      BlankTurn(lines[j], replies(j));
    }
    SilentTurns(turns, 0);
  }

  /** A blank line prints nothing and the loop goes on. */
  lemma BlankTurn(line: string, r: Reply)
    requires AllSpace(line)
    ensures Respond(Tokens(line), r) == Turn([], None)
  {
    BlankLineDoesNothing(line);
  }

  /** A command line never stops the session as if the input had run out. */
  lemma CarryNeverExhausts(s: Step, r: Reply)
    ensures Carry(s, r).stop != Some(InputExhausted)
  {
  }

  lemma {:induction false} ExhaustedIffNoTurnStops(turns: seq<Turn>, i: nat)
    requires i <= |turns|
    requires forall j :: 0 <= j < |turns| ==> turns[j].stop != Some(InputExhausted)
    ensures SessionFrom(turns, i).stop == InputExhausted <==> forall j :: i <= j < |turns| ==> turns[j].stop.None?
    decreases |turns| - i
  {
    if i < |turns| {
      ExhaustedIffNoTurnStops(turns, i + 1);
    }
  }

  /** The session runs to the end of the input exactly when no line ends
      the process. */
  lemma ExhaustedIffNoLineStops(lines: seq<string>, replies: nat -> Reply)
    ensures Session(lines, replies).stop == InputExhausted
      <==> forall j :: 0 <= j < |lines| ==> Turns(lines, replies)[j].stop.None?
  {
    var turns := Turns(lines, replies);
    forall j | 0 <= j < |lines|
      ensures turns[j].stop != Some(InputExhausted)
    {
      CarryNeverExhausts(Dispatch(Tokens(lines[j])), replies(j));
    }
    ExhaustedIffNoTurnStops(turns, 0);
  }

  lemma {:induction false} SessionFromIgnoresLater(turns: seq<Turn>, longer: seq<Turn>, i: nat)
    requires i <= |turns| <= |longer| && longer[..|turns|] == turns
    requires SessionFrom(turns, i).stop != InputExhausted
    ensures SessionFrom(longer, i) == SessionFrom(turns, i)
    decreases |turns| - i
  {
    assert longer[i] == turns[i];
    if turns[i].stop.None? {
      SessionFromIgnoresLater(turns, longer, i + 1);
    }
  }

  /** Once a line ends the process, the lines after it are never read:
      more input changes nothing. */
  lemma LaterLinesUnread(lines: seq<string>, more: seq<string>, replies: nat -> Reply)
    requires Session(lines, replies).stop != InputExhausted
    ensures Session(lines + more, replies) == Session(lines, replies)
  {
    var turns, longer := Turns(lines, replies), Turns(lines + more, replies);
    forall j | 0 <= j < |lines|
      ensures longer[j] == turns[j]
    {
      assert (lines + more)[j] == lines[j];
    }
    assert longer[..|turns|] == turns;
    SessionFromIgnoresLater(turns, longer, 0);
  }

  /** A session whose first line is `exit` writes the prompt and the
      farewell, and exits with status 0 without reading further. */
  lemma ExitFirst(lines: seq<string>, replies: nat -> Reply)
    requires |lines| > 0 && lines[0] == "exit"
    ensures Session(lines, replies) == SessionResult(Prompt + Farewell + "\n", Exited(0))
  {
    var turns := Turns(lines, replies);
    assert IsToken("exit");
    TokensOfWord("exit");
    BareExit(replies(0));
    assert turns[0] == Turn([Farewell], Some(Exited(0)));
    RenderOne(Farewell);
    FirstTurnStops(turns);
  }

  /** A line that is a single word is read as that one token. */
  lemma TokensOfWord(w: string)
    requires IsToken(w)
    ensures Tokens(w) == [w]
  {
    assert LStrip(w) == w;
    assert RStrip(w) == w;
    assert w + "" == w;
    SplitToken(w, "");
  }

  lemma FirstTurnStops(turns: seq<Turn>)
    requires |turns| > 0 && turns[0].stop.Some?
    ensures SessionFrom(turns, 0) == SessionResult(Prompt + Render(turns[0].printed), turns[0].stop.value)
  {
  }

  lemma BareExit(r: Reply)
    ensures Respond(["exit"], r) == Turn([Farewell], Some(Exited(0)))
  {
    ExitStatus(["exit"]);
  }

  lemma RenderOne(m: string)
    ensures Render([m]) == m + "\n"
  {
    assert [m][..0] == [];
  }

  /** What makes the loop stop after a decision of the dispatch chain:
      the decision to exit, or a handler that raises or exits. */
  lemma CarryHalts(s: Step, r: Reply)
    ensures Carry(s, r).stop.Some? <==>
      s.action.Exit? || (s.action.Invoke? && !Perform(s.action.call, r).Printed?)
    ensures Carry(s, r).stop.Some? && Carry(s, r).stop.value.Crashed? ==>
      s.action.Invoke? && r.outcome.Failed? && !Handles(s.action.call, r.outcome.kind) &&
      Carry(s, r).stop.value == Crashed(r.outcome.kind, r.outcome.detail)
    ensures Carry(s, r).stop.Some? && Carry(s, r).stop.value.Exited? && !s.action.Exit? ==>
      s.action.Invoke? && s.action.call.Uname? && r.uname == ParserExit(Carry(s, r).stop.value.status)
  {
    if s.action.Invoke? {
      RaisesExactlyUnhandled(s.action.call, r);
    }
  }

  /** A line ends the process exactly through `exit` or a handler that
      does not print. An escaped failure is the call's own exception, and
      any exit other than `exit` comes from the argument parser of
      `uname`. */
  lemma HaltCauses(parts: seq<string>, r: Reply)
    ensures Respond(parts, r).stop.Some? <==>
      (parts != [] && parts[0] == "exit") ||
      (Dispatch(parts).action.Invoke? && !Perform(Dispatch(parts).action.call, r).Printed?)
    ensures Respond(parts, r).stop.Some? && Respond(parts, r).stop.value.Crashed? ==>
      Dispatch(parts).action.Invoke? && r.outcome.Failed? &&
      !Handles(Dispatch(parts).action.call, r.outcome.kind) &&
      Respond(parts, r).stop.value == Crashed(r.outcome.kind, r.outcome.detail)
    ensures Respond(parts, r).stop.Some? && Respond(parts, r).stop.value.Exited? ==>
      parts != [] &&
      (parts[0] == "exit" || (parts[0] == "uname" && r.uname == ParserExit(Respond(parts, r).stop.value.status)))
  {
    OnlyExitExits(parts);
    UnameOnlyFromUname(parts);
    CarryHalts(Dispatch(parts), r);
  }
}
