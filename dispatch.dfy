/** What the shell decides to do with the tokens of one line, before any
    call to the operating system: the output it computes by itself (echo,
    type, exit, usage messages, unknown commands) and whether it continues,
    exits, or makes a call. */
module Dispatcher {
  import opened Text
  import opened Wrappers
  import Registry
  import Os

  datatype Action = Continue | Exit(status: nat) | Invoke(call: Os.Call)

  /** The lines printed by the decision itself, and what happens next. */
  datatype Step = Step(output: seq<string>, action: Action)

  const Farewell := "Exiting MyShell..."

  /** The line `type` prints for one name. */
  function TypeLine(name: string): string {
    if name in Registry.Builtins then name + " is a shell builtin" else name + ": not found"
  }

  /** The lines `type` prints: one per name, in argument order. */
  function TypeLines(names: seq<string>): seq<string> {
    seq(|names|, k requires 0 <= k < |names| => TypeLine(names[k]))
  }

  /** The `type` branch of the shell: a loop that prints one line per
      argument. */
  method TypeCommand(names: seq<string>) returns (out: seq<string>)
    ensures out == TypeLines(names)
  {
    out := [];
    for i := 0 to |names|
      invariant |out| == i
      invariant forall k :: 0 <= k < i ==> out[k] == TypeLine(names[k])
    {
      out := out + [TypeLine(names[i])];
    }
  }

  /** The branch of the dispatch chain for a resolved command, given the
      tokens after the command name. Each arity check is the one the
      branch writes; only the tokens the handler takes are passed on. */
  function Builtin(c: Registry.Command, args: seq<string>): Step {
    match c
    case Exit =>
      if |args| > 0 && IsDigits(args[0]) then Step([], Exit(DecimalValue(args[0])))
      else Step([Farewell], Exit(0))
    case Echo => Step([Join(" ", args)], Continue)
    case Ls => Step([], Invoke(Os.ListDir))
    case Pwd => Step([], Invoke(Os.GetCwd))
    case Cp =>
      if |args| < 2 then Step([Registry.Usage(c)], Continue)
      else Step([], Invoke(Os.Copy(args[0], args[1])))
    case Rm =>
      if |args| < 1 then Step([Registry.Usage(c)], Continue)
      else Step([], Invoke(Os.Remove(args[0])))
    case Mkdir =>
      if |args| > 0 then Step([], Invoke(Os.MakeDir(args[0])))
      else Step([Registry.Usage(c)], Continue)
    case Type => Step(TypeLines(args), Continue)
    case Cd => Step([], Invoke(Os.ChangeDir(if |args| > 0 then args[0] else "")))
    case Rmdir =>
      if |args| < 1 then Step([Registry.Usage(c)], Continue)
      else Step([], Invoke(Os.RemoveDir(args[0])))
    case Touch =>
      if |args| < 1 then Step([Registry.Usage(c)], Continue)
      else Step([], Invoke(Os.Touch(args[0])))
    case Uname => Step([], Invoke(Os.Uname(args)))
    case Locate =>
      if |args| < 1 then Step([Registry.Usage(c)], Continue)
      else Step([], Invoke(Os.Locate(args[0])))
    case Ln =>
      if |args| < 2 then Step([Registry.Usage(c)], Continue)
      else Step([], Invoke(Os.Symlink(args[0], args[1])))
    case Cat =>
      if |args| < 1 then Step([Registry.Usage(c)], Continue)
      else Step([], Invoke(Os.ReadFile(args[0])))
    case Clear => Step([], Invoke(Os.ClearScreen))
  }

  /** One pass of the shell's loop over the tokens of a line. */
  function Dispatch(parts: seq<string>): Step {
    if parts == [] then Step([], Continue)
    else
      match Registry.Resolve(parts[0])
      case None => Step([parts[0] + ": command not found"], Continue)
      case Some(c) => Builtin(c, parts[1..])
  }

  /** An empty or all-whitespace line prints nothing and does nothing. */
  lemma BlankLineDoesNothing(line: string)
    requires AllSpace(line)
    ensures Split(Strip(line)) == []
    ensures Dispatch(Split(Strip(line))) == Step([], Continue)
  {
    SplitStrip(line);
    SplitEmptyIffAllSpace(line);
  }

  /** Only a line whose first token is exactly "exit" ends the shell's
      loop by itself. */
  lemma OnlyExitExits(parts: seq<string>)
    ensures Dispatch(parts).action.Exit? <==> parts != [] && parts[0] == "exit"
  {
    if parts != [] && Registry.Resolve(parts[0]) == Some(Registry.Exit) {
      Registry.ResolveExact(parts[0]);
    }
  }

  /** `exit N` with N a decimal numeral exits with status `int(N)` and
      prints nothing; `exit` with no argument or any other argument prints
      the farewell and exits with status 0. Later tokens play no part. */
  lemma ExitStatus(parts: seq<string>)
    requires parts != [] && parts[0] == "exit"
    ensures |parts| > 1 && IsDigits(parts[1]) ==> Dispatch(parts) == Step([], Exit(DecimalValue(parts[1])))
    ensures !(|parts| > 1 && IsDigits(parts[1])) ==> Dispatch(parts) == Step([Farewell], Exit(0))
  {
  }

  /** `exit` followed by the numeral of any n exits with status n. */
  lemma ExitWithNumeral(n: nat, rest: seq<string>)
    ensures Dispatch(["exit", Decimal(n)] + rest) == Step([], Exit(n))
  {
    DecimalRoundTrip(n);
    assert (["exit", Decimal(n)] + rest)[1] == Decimal(n);
  }

  /** Every first token that starts with "echo" prints its arguments
      joined by single spaces. */
  lemma EchoPrefix(parts: seq<string>)
    requires parts != [] && StartsWith(parts[0], "echo")
    ensures Dispatch(parts) == Step([Join(" ", parts[1..])], Continue)
  {
    assert parts[0][1] == "echo"[1];
  }

  /** `echo a  b   c` prints "a b c": runs of spaces between the words
      collapse to one. */
  lemma EchoCollapsesSpaces(a: string, b: string, c: string)
    requires IsToken(a) && IsToken(b) && IsToken(c)
    ensures Dispatch(Split(Strip("echo " + a + "  " + b + "   " + c))).output == [a + " " + b + " " + c]
  {
    SplitSpacedWords(a, b, c);
    var parts := ["echo", a, b, c];
    EchoPrefix(parts);
    assert parts[1..] == [a, b, c];
    assert [a, b, c][1..] == [b, c] && [b, c][1..] == [c];
    assert Join(" ", [b, c]) == b + " " + c;
    assert Join(" ", [a, b, c]) == a + " " + (b + " " + c);
    assert a + " " + (b + " " + c) == a + " " + b + " " + c;
  }

  /** `echoXYZ` is taken for echo as well. */
  lemma EchoPrefixAlsoMatches(rest: seq<string>)
    ensures Dispatch(["echoXYZ"] + rest) == Step([Join(" ", rest)], Continue)
  {
    assert StartsWith("echoXYZ", "echo");
    EchoPrefix(["echoXYZ"] + rest);
    assert (["echoXYZ"] + rest)[1..] == rest;
  }

  /** A command given fewer arguments than it needs prints its usage
      message and makes no call; with enough arguments nothing is printed
      by the check. */
  lemma ArityCheck(parts: seq<string>, c: Registry.Command)
    requires parts != [] && Registry.Resolve(parts[0]) == Some(c)
    requires Registry.MinArgs(c) > 0
    ensures |parts| - 1 < Registry.MinArgs(c) ==> Dispatch(parts) == Step([Registry.Usage(c)], Continue)
    ensures |parts| - 1 >= Registry.MinArgs(c) ==> Dispatch(parts).output == [] && Dispatch(parts).action.Invoke?
  {
  }

  /** How many argument tokens each command reads; for echo, type and
      uname every token counts. */
  function ArgsUsed(c: Registry.Command): Option<nat> {
    match c
    case Echo => None
    case Type => None
    case Uname => None
    case Cp => Some(2)
    case Ln => Some(2)
    case Ls => Some(0)
    case Pwd => Some(0)
    case Clear => Some(0)
    case _ => Some(1)
  }

  /** Tokens beyond those a command reads are ignored. */
  lemma ExtraTokensIgnored(parts: seq<string>, extra: seq<string>, c: Registry.Command)
    requires parts != [] && Registry.Resolve(parts[0]) == Some(c)
    requires ArgsUsed(c).Some? && |parts| - 1 >= ArgsUsed(c).value
    ensures Dispatch(parts + extra) == Dispatch(parts)
  {
    var all := parts + extra;
    assert all[0] == parts[0];
    assert forall k :: 0 <= k < |parts| - 1 ==> all[1..][k] == parts[1..][k];
  }

  /** `type` prints one line per argument, "X is a shell builtin" exactly
      for the builtin names, and makes no call. */
  lemma TypeReports(args: seq<string>)
    ensures Dispatch(["type"] + args) == Step(TypeLines(args), Continue)
    ensures |TypeLines(args)| == |args|
    ensures forall k :: 0 <= k < |args| ==>
      (args[k] in Registry.Builtins <==> TypeLines(args)[k] == args[k] + " is a shell builtin")
  {
    assert (["type"] + args)[0] == "type";
    assert (["type"] + args)[1..] == args;
    Registry.ResolveName(Registry.Type);
    forall k | 0 <= k < |args|
      ensures args[k] in Registry.Builtins <==> TypeLines(args)[k] == args[k] + " is a shell builtin"
    {
      var n := args[k];
      if n !in Registry.Builtins {
        assert TypeLines(args)[k] == n + ": not found";
        assert (n + ": not found")[|n|] == ':' && (n + " is a shell builtin")[|n|] == ' ';
      }
    }
  }

  /** A builtin name never reaches the "command not found" fallback: it
      runs the branch of the command of that name. */
  lemma BuiltinsAreHandled(parts: seq<string>)
    requires parts != [] && parts[0] in Registry.Builtins
    ensures exists c :: Registry.Name(c) == parts[0] && Dispatch(parts) == Builtin(c, parts[1..])
  {
    Registry.BuiltinsAreNames(parts[0]);
    var c :| Registry.Name(c) == parts[0] && Registry.Resolve(parts[0]) == Some(c);
    assert Dispatch(parts) == Builtin(c, parts[1..]);
  }

  /** A first token that picks no command prints exactly
      "<cmd>: command not found" and the loop continues. */
  lemma UnknownCommand(parts: seq<string>)
    requires parts != [] && parts[0] !in Registry.Builtins && !StartsWith(parts[0], "echo")
    ensures Dispatch(parts) == Step([parts[0] + ": command not found"], Continue)
  {
    Registry.ResolveExact(parts[0]);
  }

  /** `cd` alone asks to change to the home directory. */
  lemma CdAloneGoesHome()
    ensures Dispatch(["cd"]) == Step([], Invoke(Os.ChangeDir("")))
  {
  }

  /** Only the first token `uname` leads to the call of uname. */
  lemma UnameOnlyFromUname(parts: seq<string>)
    ensures Dispatch(parts).action.Invoke? && Dispatch(parts).action.call.Uname? ==>
      parts != [] && parts[0] == "uname"
  {
    if parts != [] && Registry.Resolve(parts[0]).Some? {
      var c := Registry.Resolve(parts[0]).value;
      BuiltinUname(c, parts[1..]);
      Registry.ResolveExact(parts[0]);
    }
  }

  lemma BuiltinUname(c: Registry.Command, args: seq<string>)
    ensures Builtin(c, args).action.Invoke? && Builtin(c, args).action.call.Uname? ==> c == Registry.Uname
  {
  }
}
