/** The builtin commands of the shell: their names, how the first token of
    a line picks one, and how many arguments each needs. */
module Registry {
  import opened Wrappers
  import opened Text

  datatype Command =
    | Exit | Echo | Ls | Pwd | Cp | Rm | Mkdir | Type
    | Cd | Rmdir | Touch | Uname | Locate | Ln | Cat | Clear

  /** The names `type` reports as builtins, in the order the shell lists them. */
  const Builtins: seq<string> := [
    "echo", "exit", "type", "ls", "pwd", "cp", "rm", "mkdir",
    "cd", "rmdir", "touch", "uname", "locate", "ln", "cat", "clear"]

  function Name(c: Command): string {
    match c
    case Exit => "exit"     case Echo => "echo"     case Ls => "ls"
    case Pwd => "pwd"       case Cp => "cp"         case Rm => "rm"
    case Mkdir => "mkdir"   case Type => "type"     case Cd => "cd"
    case Rmdir => "rmdir"   case Touch => "touch"   case Uname => "uname"
    case Locate => "locate" case Ln => "ln"         case Cat => "cat"
    case Clear => "clear"
  }

  /** The command the dispatch chain of the shell picks for a first token:
      the branches are tried in order, every one by exact equality except
      `echo`, which takes any token that starts with "echo". */
  function Resolve(cmd: string): Option<Command> {
    if cmd == "exit" then Some(Exit)
    else if StartsWith(cmd, "echo") then Some(Echo)
    else if cmd == "ls" then Some(Ls)
    else if cmd == "pwd" then Some(Pwd)
    else if cmd == "cp" then Some(Cp)
    else if cmd == "rm" then Some(Rm)
    else if cmd == "mkdir" then Some(Mkdir)
    else if cmd == "type" then Some(Type)
    else if cmd == "cd" then Some(Cd)
    else if cmd == "rmdir" then Some(Rmdir)
    else if cmd == "touch" then Some(Touch)
    else if cmd == "uname" then Some(Uname)
    else if cmd == "locate" then Some(Locate)
    else if cmd == "ln" then Some(Ln)
    else if cmd == "cat" then Some(Cat)
    else if cmd == "clear" then Some(Clear)
    else None
  }

  /** The fewest arguments a command runs with; below it the command only
      prints its usage message. */
  function MinArgs(c: Command): nat {
    match c
    case Cp => 2
    case Ln => 2
    case Rm => 1
    case Mkdir => 1
    case Rmdir => 1
    case Touch => 1
    case Locate => 1
    case Cat => 1
    case _ => 0
  }

  /** The message printed when a command gets fewer than `MinArgs(c)`
      arguments. */
  function Usage(c: Command): string
    requires MinArgs(c) > 0
  {
    match c
    case Cp => "cp: missing arguments (usage: cp source destination)"
    case Ln => "ln: missing arguments (usage: ln source link_name)"
    case Rm => "rm: missing argument (usage: rm filename)"
    case Mkdir => "mkdir: missing argument (usage: mkdir directory_name)"
    case Rmdir => "rmdir: missing argument"
    case Touch => "touch: missing argument (usage: touch filename)"
    case Locate => "locate: missing argument (usage: locate pattern)"
    case Cat => "cat: missing argument (usage: cat filename)"
  }

  /** Every command is reached by its own name, and the names listed as
      builtins are exactly the names of the commands. */
  lemma ResolveName(c: Command)
    ensures Resolve(Name(c)) == Some(c)
    ensures Name(c) in Builtins
  {
    if c != Exit && c != Echo {
      EchoPrefixStartsWithE(Name(c));
    }
  }

  lemma EchoPrefixStartsWithE(s: string)
    requires s != [] && s[0] != 'e'
    ensures !StartsWith(s, "echo")
  {
  }

  lemma BuiltinsAreNames(b: string)
    requires b in Builtins
    ensures exists c :: Name(c) == b && Resolve(b) == Some(c)
  {
    var i :| 0 <= i < |Builtins| && Builtins[i] == b;
    var cs := [Echo, Exit, Type, Ls, Pwd, Cp, Rm, Mkdir, Cd, Rmdir, Touch, Uname, Locate, Ln, Cat, Clear];
    assert forall j :: 0 <= j < |cs| ==> Name(cs[j]) == Builtins[j];
    assert Name(cs[i]) == b;
    ResolveName(cs[i]);
  }

  /** A token picks a command only by that command's name, except for the
      echo prefix; a token picks nothing exactly when it is neither a
      builtin name nor starts with "echo". */
  lemma ResolveExact(cmd: string)
    ensures Resolve(cmd) == None <==> cmd !in Builtins && !StartsWith(cmd, "echo")
    ensures forall c :: Resolve(cmd) == Some(c) ==> cmd == Name(c) || (c == Echo && StartsWith(cmd, "echo"))
  {
    if cmd in Builtins {
      BuiltinsAreNames(cmd);
    }
  }
}
