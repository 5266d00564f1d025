/** The capability interface between the shell and the operating system.
    The shell asks for one call per command line; the system's answer is an
    abstract outcome plus whatever data the call returns. Nothing here says
    how the system produces its answers. */
module Os {

  /** The exception classes the handlers distinguish: `FileNotFoundError`,
      `PermissionError`, `FileExistsError`, and every other exception. */
  datatype ErrorKind = NotFound | PermissionDenied | AlreadyExists | OtherError

  /** How one call ended; `detail` is the text of the exception (`str(e)`). */
  datatype Outcome = Ok | Failed(kind: ErrorKind, detail: string)

  /** The six answers of `platform.system()`, `node()`, `release()`,
      `version()`, `machine()` and `processor()`. */
  datatype Identity = Identity(
    system: string, node: string, release: string,
    version: string, machine: string, processor: string)

  /** The flags of `uname` as the argument parser records them. */
  datatype UnameFlags = UnameFlags(
    all: bool, kernelName: bool, nodename: bool, kernelRelease: bool,
    kernelVersion: bool, machine: bool, processor: bool)

  /** The argument parser either records the flags (and the platform is then
      queried) or ends the process through `SystemExit` with a status (2 for
      an unknown flag, 0 after `-h`). */
  datatype UnameReply = Parsed(flags: UnameFlags, identity: Identity) | ParserExit(status: nat)

  /** The calls a command line can make. */
  datatype Call =
    | ListDir                                  // os.listdir()
    | GetCwd                                   // os.getcwd()
    | Copy(src: string, dest: string)          // shutil.copy
    | Remove(path: string)                     // os.remove
    | MakeDir(name: string)                    // os.mkdir
    | ChangeDir(path: string)                  // os.path.expanduser("~") when empty, then os.chdir
    | RemoveDir(name: string)                  // os.rmdir
    | Touch(name: string)                      // open(name, "a") and os.utime
    | Uname(args: seq<string>)                 // argparse, then platform.*
    | Locate(pattern: string)                  // subprocess.run(["locate", pattern])
    | Symlink(source: string, linkName: string)// os.symlink
    | ReadFile(name: string)                   // open(name).read()
    | ClearScreen                              // os.system("clear")

  /** The system's answer to the call of one command line. Each call reads
      the fields it needs: `outcome` for every filesystem call, `text` for
      the working directory (pwd), the file contents (cat) and the captured
      output (locate), `entries` for a listing, `home` for the expansion of
      `~`, and `uname` for uname. */
  datatype Reply = Reply(
    outcome: Outcome, text: string, entries: seq<string>,
    home: string, uname: UnameReply)
}
