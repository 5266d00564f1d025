/** The handlers of the shell's builtins that call the operating system:
    each turns the outcome of its call into the lines it prints, or lets the
    exception escape when it has no `except` clause for it. */
module Handlers {
  import opened Text
  import opened Os

  /** What running a handler amounts to: lines printed (one per `print`),
      an exception that escapes the handler, or a `SystemExit`. */
  datatype Effect = Printed(lines: seq<string>) | Raised(kind: ErrorKind, detail: string) | SystemExit(status: nat)

  /** `change_directory`: the empty path stands for the home directory, and
      every message names the directory actually tried. A catch-all clause
      reports any other exception. */
  function ChangeDirectory(path: string, home: string, o: Outcome): Effect {
    var target := if path == "" then home else path;
    match o
    case Ok => Printed([])
    case Failed(NotFound, _) => Printed(["cd: " + target + ": No such file or directory"])
    case Failed(PermissionDenied, _) => Printed(["cd: " + target + ": Permission denied"])
    case Failed(_, e) => Printed(["cd: " + target + ": " + e])
  }

  /** `pwd`: no `try`, so a failing `os.getcwd()` escapes. */
  function PrintWorkingDirectory(o: Outcome, cwd: string): Effect {
    match o
    case Ok => Printed([cwd])
    case Failed(k, e) => Raised(k, e)
  }

  /** `copy_file`: both messages name the source, even when it is the
      destination that is missing. */
  function CopyFile(src: string, dest: string, o: Outcome): Effect {
    match o
    case Ok => Printed(["Copied " + src + " to " + dest])
    case Failed(NotFound, _) => Printed(["cp: " + src + ": No such file or directory"])
    case Failed(PermissionDenied, _) => Printed(["cp: " + src + ": Permission denied"])
    case Failed(k, e) => Raised(k, e)
  }

  /** `delete_file`. */
  function DeleteFile(path: string, o: Outcome): Effect {
    match o
    case Ok => Printed(["Deleted " + path])
    case Failed(NotFound, _) => Printed(["rm: " + path + ": No such file or directory"])
    case Failed(PermissionDenied, _) => Printed(["rm: " + path + ": Permission denied"])
    case Failed(k, e) => Raised(k, e)
  }

  /** `make_directory`: silent on success. */
  function MakeDirectory(name: string, o: Outcome): Effect {
    match o
    case Ok => Printed([])
    case Failed(PermissionDenied, _) => Printed(["mkdir: cannot create directory '" + name + "': Permission Denied"])
    case Failed(AlreadyExists, _) => Printed(["mkdir: cannot create directory '" + name + "': File exists"])
    case Failed(NotFound, _) => Printed(["mkdir: cannot create directory '" + name + "': No such file or directory"])
    case Failed(k, e) => Raised(k, e)
  }

  /** `remove_directory`: silent on success; a directory that is not empty
      fails with an exception it does not catch. */
  function RemoveDirectory(name: string, o: Outcome): Effect {
    match o
    case Ok => Printed([])
    case Failed(PermissionDenied, _) => Printed(["rmdir: cannot remove directory '" + name + "': Permission Denied"])
    case Failed(NotFound, _) => Printed(["rmdir: cannot remove directory '" + name + "': No such file or directory"])
    case Failed(k, e) => Raised(k, e)
  }

  /** `touch_file`: silent on success; a catch-all clause reports any other
      exception by its text alone. */
  function TouchFile(name: string, o: Outcome): Effect {
    match o
    case Ok => Printed([])
    case Failed(PermissionDenied, _) => Printed(["touch: cannot touch '" + name + "': Permission denied"])
    case Failed(_, e) => Printed(["touch: " + e])
  }

  /** `locate_file`: prints the captured output of the `locate` program;
      only a missing program is caught. */
  function LocateFile(pattern: string, o: Outcome, stdout: string): Effect {
    match o
    case Ok => Printed([stdout])
    case Failed(NotFound, _) => Printed(["locate: command not found (install 'mlocate' or 'locate' package)"])
    case Failed(k, e) => Raised(k, e)
  }

  /** `create_link`: the link `linkName` points to `source`. */
  function CreateLink(source: string, linkName: string, o: Outcome): Effect {
    match o
    case Ok => Printed(["Created symlink '" + linkName + "' -> '" + source + "'"])
    case Failed(AlreadyExists, _) => Printed(["ln: cannot create link '" + linkName + "': File exists"])
    case Failed(PermissionDenied, _) => Printed(["ln: cannot create link '" + linkName + "': Permission denied"])
    case Failed(_, e) => Printed(["ln: " + e])
  }

  /** `cat_file`: prints the whole contents in one `print`. */
  function CatFile(name: string, o: Outcome, contents: string): Effect {
    match o
    case Ok => Printed([contents])
    case Failed(NotFound, _) => Printed(["cat: " + name + ": No such file or directory"])
    case Failed(PermissionDenied, _) => Printed(["cat: " + name + ": Permission denied"])
    case Failed(_, e) => Printed(["cat: " + e])
  }

  /** What `list_files` amounts to: the entries, or the listing's failure. */
  function Listing(listing: Outcome, entries: seq<string>): Effect {
    if listing.Ok? then Printed(entries) else Raised(listing.kind, listing.detail)
  }

  /** `list_files`: one line per entry, in the order the system lists them;
      no `try`, so a failing `os.listdir()` escapes before anything is
      printed. */
  method ListFiles(listing: Outcome, entries: seq<string>) returns (e: Effect)
    ensures e == Listing(listing, entries)
    ensures listing.Ok? ==> e == Printed(entries)
    ensures listing.Failed? ==> e == Raised(listing.kind, listing.detail)
  {
    if listing.Failed? {
      return Raised(listing.kind, listing.detail);
    }
    var lines: seq<string> := [];
    for i := 0 to |entries|
      invariant lines == entries[..i]
    {
      lines := lines + [entries[i]];
    }
    assert entries[..|entries|] == entries;
    e := Printed(lines);
  }

  // ---------------------------------------------------------------- uname

  /** The six identity fields in the order uname prints them. */
  function UnameFields(id: Identity): seq<string> {
    [id.system, id.node, id.release, id.version, id.machine, id.processor]
  }

  /** Which of the six fields the flags select; `all` selects each. */
  function UnameMask(f: UnameFlags): seq<bool> {
    [f.all || f.kernelName, f.all || f.nodename, f.all || f.kernelRelease,
     f.all || f.kernelVersion, f.all || f.machine, f.all || f.processor]
  }

  /** The elements among the first `n` of `xs` whose mask bit is set, in
      their order in `xs`. */
  function Pick(mask: seq<bool>, xs: seq<string>, n: nat): seq<string>
    requires |mask| == |xs| && n <= |xs|
  {
    if n == 0 then []
    else Pick(mask, xs, n - 1) + (if mask[n - 1] then [xs[n - 1]] else [])
  }

  /** The fields uname prints for the given flags. */
  function UnameSelected(f: UnameFlags, id: Identity): seq<string> {
    Pick(UnameMask(f), UnameFields(id), 6)
  }

  lemma {:induction false} PickAll(mask: seq<bool>, xs: seq<string>, n: nat)
    requires |mask| == |xs| && n <= |xs|
    requires forall k :: 0 <= k < n ==> mask[k]
    ensures Pick(mask, xs, n) == xs[..n]
  {
    if n > 0 {
      PickAll(mask, xs, n - 1);
      assert xs[..n] == xs[..n - 1] + [xs[n - 1]];
    }
  }

  lemma {:induction false} PickNone(mask: seq<bool>, xs: seq<string>, n: nat)
    requires |mask| == |xs| && n <= |xs|
    requires forall k :: 0 <= k < n ==> !mask[k]
    ensures Pick(mask, xs, n) == []
  {
    if n > 0 {
      PickNone(mask, xs, n - 1);
    }
  }

  /** `uname_command`: appends each selected field in the fixed order
      system, node, release, version, machine, processor, and prints them
      joined by single spaces. */
  method UnameCommand(options: UnameFlags, id: Identity) returns (line: string)
    ensures line == Join(" ", UnameSelected(options, id))
  {
    ghost var m, xs := UnameMask(options), UnameFields(id);
    var output: seq<string> := [];
    if options.all || options.kernelName {
      output := output + [id.system];
    }
    assert output == Pick(m, xs, 1);
    if options.all || options.nodename {
      output := output + [id.node];
    }
    assert output == Pick(m, xs, 2);
    if options.all || options.kernelRelease {
      output := output + [id.release];
    }
    assert output == Pick(m, xs, 3);
    if options.all || options.kernelVersion {
      output := output + [id.version];
    }
    assert output == Pick(m, xs, 4);
    if options.all || options.machine {
      output := output + [id.machine];
    }
    assert output == Pick(m, xs, 5);
    if options.all || options.processor {
      output := output + [id.processor];
    }
    assert output == Pick(m, xs, 6);
    line := Join(" ", output);
  }

  /** `--all` prints every field, in the fixed order. */
  lemma UnameAll(f: UnameFlags, id: Identity)
    requires f.all
    ensures UnameSelected(f, id) == UnameFields(id)
  {
    PickAll(UnameMask(f), UnameFields(id), 6);
  }

  /** Without flags uname prints an empty line. */
  lemma UnameNoFlags(id: Identity)
    ensures Join(" ", UnameSelected(UnameFlags(false, false, false, false, false, false, false), id)) == ""
  {
    PickNone(UnameMask(UnameFlags(false, false, false, false, false, false, false)), UnameFields(id), 6);
  }

  /** `uname -s -m` and `uname -m -s` both set the same two flags and print
      the kernel name, a space, and the machine. */
  lemma UnameKernelAndMachine(id: Identity)
    ensures Join(" ", UnameSelected(UnameFlags(false, true, false, false, false, true, false), id))
         == id.system + " " + id.machine
  {
    var m, xs := UnameMask(UnameFlags(false, true, false, false, false, true, false)), UnameFields(id);
    assert Pick(m, xs, 1) == [id.system];
    assert Pick(m, xs, 2) == [id.system];
    assert Pick(m, xs, 3) == [id.system];
    assert Pick(m, xs, 4) == [id.system];
    assert Pick(m, xs, 5) == [id.system, id.machine];
    assert Pick(m, xs, 6) == [id.system, id.machine];
  }

  // ------------------------------------------------- dispatch to handlers

  /** The effect of the call a command line makes, given the system's
      answer: which handler the shell runs for it and with which part of the
      answer. */
  function Perform(call: Call, r: Reply): Effect {
    match call
    case ListDir => Listing(r.outcome, r.entries)
    case GetCwd => PrintWorkingDirectory(r.outcome, r.text)
    case Copy(src, dest) => CopyFile(src, dest, r.outcome)
    case Remove(path) => DeleteFile(path, r.outcome)
    case MakeDir(name) => MakeDirectory(name, r.outcome)
    case ChangeDir(path) => ChangeDirectory(path, r.home, r.outcome)
    case RemoveDir(name) => RemoveDirectory(name, r.outcome)
    case Touch(name) => TouchFile(name, r.outcome)
    case Uname(_) =>
      (match r.uname
       case Parsed(f, id) => Printed([Join(" ", UnameSelected(f, id))])
       case ParserExit(status) => SystemExit(status))
    case Locate(pattern) => LocateFile(pattern, r.outcome, r.text)
    case Symlink(source, linkName) => CreateLink(source, linkName, r.outcome)
    case ReadFile(name) => CatFile(name, r.outcome, r.text)
    case ClearScreen => Printed([])
  }

  /** The exception classes each handler catches: cd, touch, ln and cat end
      in a catch-all clause; cp, rm, mkdir, rmdir and locate catch only the
      classes they name; ls and pwd catch nothing. uname and clear make no
      call whose failure the model carries. */
  predicate Handles(call: Call, k: ErrorKind) {
    match call
    case ListDir => false
    case GetCwd => false
    case Copy(_, _) => k == NotFound || k == PermissionDenied
    case Remove(_) => k == NotFound || k == PermissionDenied
    case MakeDir(_) => k != OtherError
    case RemoveDir(_) => k == NotFound || k == PermissionDenied
    case Locate(_) => k == NotFound
    case _ => true
  }

  /** A failure escapes the handler exactly when the handler has no clause
      for its class, and it escapes unchanged. */
  lemma RaisesExactlyUnhandled(call: Call, r: Reply)
    ensures Perform(call, r).Raised? <==> r.outcome.Failed? && !Handles(call, r.outcome.kind)
    ensures Perform(call, r).Raised? ==> Perform(call, r) == Raised(r.outcome.kind, r.outcome.detail)
  {
  }

  /** The command word ("cd: ", "cp: ", ...) that starts the handler's
      failure messages. */
  function Prefix(call: Call): string {
    match call
    case ChangeDir(_) => "cd: "
    case Copy(_, _) => "cp: "
    case Remove(_) => "rm: "
    case MakeDir(_) => "mkdir: "
    case RemoveDir(_) => "rmdir: "
    case Touch(_) => "touch: "
    case Symlink(_, _) => "ln: "
    case ReadFile(_) => "cat: "
    case _ => ""
  }

  /** The path a failure message names: the source for cp, the link for ln,
      the home directory for a bare cd. */
  function Subject(call: Call, home: string): string {
    match call
    case ChangeDir(path) => if path == "" then home else path
    case Copy(src, _) => src
    case Remove(path) => path
    case MakeDir(name) => name
    case RemoveDir(name) => name
    case Touch(name) => name
    case Symlink(_, linkName) => linkName
    case ReadFile(name) => name
    case _ => ""
  }

  /** The handlers that have a message of their own for a failure class. */
  predicate NamesSubject(call: Call, k: ErrorKind) {
    match call
    case ChangeDir(_) => k == NotFound || k == PermissionDenied
    case Copy(_, _) => k == NotFound || k == PermissionDenied
    case Remove(_) => k == NotFound || k == PermissionDenied
    case MakeDir(_) => k != OtherError
    case RemoveDir(_) => k == NotFound || k == PermissionDenied
    case Touch(_) => k == PermissionDenied
    case Symlink(_, _) => k == AlreadyExists || k == PermissionDenied
    case ReadFile(_) => k == NotFound || k == PermissionDenied
    case _ => false
  }

  lemma Framed(a: string, s: string, b: string)
    ensures StartsWith(a + s + b, a) && Mentions(a + s + b, s)
  {
    var m := a + s + b;
    assert m[..|a|] == a;
    assert m[|a|..][..|s|] == s;
  }

  lemma Tail(a: string, s: string)
    ensures StartsWith(a + s, a) && Mentions(a + s, s)
  {
    var m := a + s;
    assert m[..|a|] == a;
    assert m[|a|..][..|s|] == s;
  }

  lemma StartsWithTrans(m: string, a: string, p: string)
    requires StartsWith(m, a) && StartsWith(a, p)
    ensures StartsWith(m, p)
  {
    assert m[..|p|] == m[..|a|][..|p|];
  }

  /** A failure with a message of its own prints one line that starts with
      the command word and names the path concerned. */
  lemma FailureNamesSubject(call: Call, r: Reply)
    requires r.outcome.Failed? && NamesSubject(call, r.outcome.kind)
    ensures Perform(call, r).Printed? && |Perform(call, r).lines| == 1
    ensures StartsWith(Perform(call, r).lines[0], Prefix(call))
    ensures Mentions(Perform(call, r).lines[0], Subject(call, r.home))
  {
    var k := r.outcome.kind;
    match call
    case ChangeDir(_) | Copy(_, _) | Remove(_) | ReadFile(_) =>
      Named(call, r, Prefix(call), if k == NotFound then ": No such file or directory" else ": Permission denied");
    case MakeDir(_) =>
      var a := "mkdir: cannot create directory '";
      if k == PermissionDenied { Named(call, r, a, "': Permission Denied"); }
      else if k == AlreadyExists { Named(call, r, a, "': File exists"); }
      else { Named(call, r, a, "': No such file or directory"); }
    case RemoveDir(_) =>
      var a := "rmdir: cannot remove directory '";
      if k == PermissionDenied { Named(call, r, a, "': Permission Denied"); }
      else { Named(call, r, a, "': No such file or directory"); }
    case Touch(_) =>
      Named(call, r, "touch: cannot touch '", "': Permission denied");
    case Symlink(_, _) =>
      var a := "ln: cannot create link '";
      if k == AlreadyExists { Named(call, r, a, "': File exists"); }
      else { Named(call, r, a, "': Permission denied"); }
  }

  /** A message of the form a + subject + b, where a starts with the
      command word, starts with the command word and names the subject. */
  lemma Named(call: Call, r: Reply, a: string, b: string)
    requires Perform(call, r) == Printed([a + Subject(call, r.home) + b])
    requires StartsWith(a, Prefix(call))
    ensures Perform(call, r).Printed? && |Perform(call, r).lines| == 1
    ensures StartsWith(Perform(call, r).lines[0], Prefix(call))
    ensures Mentions(Perform(call, r).lines[0], Subject(call, r.home))
  {
    var m := a + Subject(call, r.home) + b;
    Framed(a, Subject(call, r.home), b);
    StartsWithTrans(m, a, Prefix(call));
  }

  /** A failure caught by a catch-all clause prints the command word and
      the exception's text. */
  lemma CatchAllReportsDetail(call: Call, r: Reply)
    requires call.ChangeDir? || call.Touch? || call.Symlink? || call.ReadFile?
    requires r.outcome.Failed? && !NamesSubject(call, r.outcome.kind)
    ensures Perform(call, r).Printed? && |Perform(call, r).lines| == 1
    ensures var m := Perform(call, r).lines[0];
      StartsWith(m, Prefix(call)) && Mentions(m, r.outcome.detail)
  {
    var d := r.outcome.detail;
    match call
    case ChangeDir(_) =>
      var a := "cd: " + Subject(call, r.home) + ": ";
      Tail(a, d);
      Framed("cd: ", Subject(call, r.home), ": ");
      StartsWithTrans(a + d, a, "cd: ");
    case Touch(_) => Tail("touch: ", d);
    case Symlink(_, _) => Tail("ln: ", d);
    case ReadFile(_) => Tail("cat: ", d);
  }

  /** What each handler prints when its call succeeds: cp, rm and ln
      confirm, mkdir, rmdir, touch and cd are silent, and cat prints the
      contents. */
  lemma SuccessMessages(call: Call, r: Reply)
    requires r.outcome == Ok
    ensures call.Copy? ==> Perform(call, r) == Printed(["Copied " + call.src + " to " + call.dest])
    ensures call.Remove? ==> Perform(call, r) == Printed(["Deleted " + call.path])
    ensures call.Symlink? ==> Perform(call, r) == Printed(["Created symlink '" + call.linkName + "' -> '" + call.source + "'"])
    ensures call.MakeDir? || call.RemoveDir? || call.Touch? || call.ChangeDir? ==> Perform(call, r) == Printed([])
    ensures call.ReadFile? ==> Perform(call, r) == Printed([r.text])
  {
  }

  /** `cd` with no argument and `cd <home>` try the same directory and
      print the same messages. */
  lemma CdDefaultIsHome(r: Reply)
    ensures Perform(ChangeDir(""), r) == Perform(ChangeDir(r.home), r)
  {
  }

  /** A literal `~` is passed to the system as it is: the home directory
      plays no part in what `cd ~` prints, and its messages name `~`. */
  lemma CdTildeIsLiteral(r: Reply, home: string)
    ensures Perform(ChangeDir("~"), r) == Perform(ChangeDir("~"), r.(home := home))
    ensures Subject(ChangeDir("~"), r.home) == "~"
  {
    assert "~" != "";
  }
}
