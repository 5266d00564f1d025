# MyShell in Dafny

A model of `shell.py`, a small interactive shell. It works in a loop:
- it writes the prompt `$ ` and reads a line;
- it strips the line and splits it on runs of whitespace;
- it picks a builtin by the first token, through an ordered chain of
  comparisons (exact equality, except that any token starting with `echo`
  means echo);
- it runs the builtin.

The builtins `exit`, `echo` and `type` and every arity check are computed by
the shell itself. The other builtins call the operating system, and each
handler turns the outcome of its call into the lines it prints. Where a
handler has no `except` clause for a failure, the exception escapes and
ends the process.

The model is split into modules:

- `Text` (text.dfy): the string operations of Python that the loop uses on
  ASCII text:
  - `strip` and `split()`, with `IsSpace` the ASCII whitespace of
    `str.isspace`;
  - `" ".join`;
  - `startswith`;
  - `isdigit` and `int` on decimal numerals.
- `Os` (os.dfy): the interface to the operating system, with its parts as
  datatypes:
  - the call a line makes;
  - the outcome of that call: `Ok`, or a failure of class
    `FileNotFoundError`, `PermissionError`, `FileExistsError` or any other
    exception, together with its text;
  - the data the call returns: the working directory, a listing, file
    contents, the home directory, and the parsed `uname` flags with
    the platform's six identity strings.
- `Registry` (registry.dfy): the sixteen builtins, the 16-name list that
  `type` consults, the dispatch chain (`Resolve`), and the usage messages.
- `Handlers` (handlers.dfy):
  - one function per handler except `uname_command`, mapping the outcome
    of its call to the printed lines or a raised exception;
  - the `list_files` loop;
  - the `uname_command` field selection, as a method that appends fields
    conditionally;
  - `Perform`, which runs the handler of a call. For `uname` it prints the
    selected fields, or gives the `SystemExit` of the argument parser.
- `Dispatcher` (dispatch.dfy):
  - `Dispatch`, one pass of the chain over the tokens of a line, as a pure
    function. It returns the lines the shell prints by itself and an action,
    which is one of Continue, Exit(status) or Invoke(call);
  - the `type` loop.
- `Shell` (shell.dfy): the loop of `main`.
  - `Execute` and its three branch methods (`RunBuiltin`, `RunChecked`,
    `RunHandler`) run one line.
  - `Run` is the loop over the input lines.
  - `Session` specifies them: the whole standard output and how the
    process ends, which is one of `sys.exit` with a status, an escaped
    exception, or the end of the input.

The system's answer to the call made for the i-th input line is given as
`replies(i)`. The model keeps no working-directory state: what `cd` does
to later calls is part of those answers.

Behaviours of the code a reader might not expect, all kept by the model:

- `cd ~` passes `~` unexpanded to `os.chdir`; only a bare `cd` goes to the
  home directory (`Handlers.CdTildeIsLiteral`).
- `rmdir` on a directory that is not empty raises an `OSError` that
  `remove_directory` does not catch, and the exception ends the process.
- `cp`, `rm`, `mkdir`, `rmdir`, `locate`, `ls` and `pwd` let every failure
  they have no clause for escape and end the process
  (`Handlers.RaisesExactlyUnhandled`).
- Both of `cp`'s failure messages name the source file, even when it is
  the destination that is missing.
- `type` has no arity check: with no arguments it prints nothing
  (`Dispatcher.TypeReports` with no arguments).
- An unknown `uname` flag makes the argument parser raise `SystemExit(2)`,
  which nothing catches, so the whole shell exits with status 2
  (`Shell.HaltCauses`).

## Model

| member | source | states |
|---|---|---|
| Text.IsSpace | shell.py:155-156 | definition: the ASCII whitespace of `str.isspace` (tab, newline, vertical tab, form feed, carriage return, the four separators 0x1c-0x1f, space), the set `strip` and `split` use; stated by Strip, Split, SplitKeepsText, SplitEmptyIffAllSpace |
| Text.StartsWith | shell.py:168 | definition: `startswith`, the input begins with the prefix; stated by Registry.ResolveExact, Dispatcher.EchoPrefix |
| Text.LStrip | shell.py:155 | the result is a suffix of the input, everything removed is whitespace, and the result does not start with whitespace |
| Text.RStrip | shell.py:155 | the result is a prefix of the input, everything removed is whitespace, and the result does not end with whitespace |
| Text.Strip | shell.py:155 | a stripped line neither starts nor ends with whitespace |
| Text.Word | shell.py:156 | the first word is the longest whitespace-free prefix of the text |
| Text.Split | shell.py:156 | every token is non-empty and contains no whitespace |
| Text.Join | shell.py:169 | definition: `sep.join(xs)`, the parts with the separator between each two, as echo here and uname at line 112 use it; stated by SplitJoin, Dispatcher.EchoPrefix, Handlers.UnameCommand |
| Text.SplitEmptyIffAllSpace | shell.py:156-158 | a line has no tokens exactly when it is all whitespace |
| Text.SplitKeepsText | shell.py:156 | the tokens, concatenated, are the line with its whitespace deleted: nothing else is lost or added |
| Text.SplitJoin | shell.py:156 | splitting the single-space join of tokens gives the tokens back |
| Text.SplitStrip | shell.py:155-156 | stripping before splitting changes no token |
| Text.SplitSpacedWords | shell.py:155-156 | `echo a  b   c` (runs of one, two and three spaces) splits into the four words, for any three words in place of a, b, c |
| Text.SplitSpaced | shell.py:156 | four tokens separated by runs of whitespace split into exactly those four |
| Text.SplitLStrip | shell.py:155-156 | dropping leading whitespace changes no token |
| Text.SplitRStrip | shell.py:155-156 | dropping trailing whitespace changes no token |
| Text.SplitPrependSpace | shell.py:156 | leading whitespace does not change the tokens |
| Text.SplitAppendSpace | shell.py:156 | trailing whitespace does not change the tokens |
| Text.IsDigits | shell.py:162 | definition: `isdigit` on ASCII, a non-empty string of the digits 0-9; stated by Decimal, LeadingZero, Dispatcher.ExitStatus |
| Text.DecimalValue | shell.py:163 | definition: `int` of a digit string, read from its last digit; stated by DecimalRoundTrip, LeadingZero, Dispatcher.ExitStatus |
| Text.Decimal | shell.py:162 | the numeral of a number passes `isdigit` and has no leading zero |
| Text.DecimalRoundTrip | shell.py:162-163 | `int` of the numeral of n is n |
| Text.LeadingZero | shell.py:162-163 | a leading zero still passes `isdigit` and does not change `int` |
| Registry.Builtins | shell.py:197 | definition: the sixteen names `type` reports as builtins, in the source's order; stated by BuiltinsAreNames, ResolveName, ResolveExact, Dispatcher.TypeReports |
| Registry.Resolve | shell.py:161-254 | definition: the elif chain in its order, each branch by exact equality except `startswith("echo")`; stated by ResolveName, BuiltinsAreNames, ResolveExact |
| Registry.MinArgs | shell.py:177-248 | definition: the argument counts the `len(parts)` checks demand (2 for cp and ln, 1 for rm, mkdir, rmdir, touch, locate and cat, none otherwise); stated by Dispatcher.ArityCheck |
| Registry.Usage | shell.py:177-248 | definition: the eight usage messages, rmdir's without a usage part; stated by Dispatcher.ArityCheck |
| Registry.ResolveName | shell.py:161-251 | each builtin's own name selects that builtin, and the name is in the list `type` consults |
| Registry.BuiltinsAreNames | shell.py:197 | every name in the 16-name list is the name of a builtin that the chain selects by it |
| Registry.ResolveExact | shell.py:161-254 | a token selects nothing exactly when it is not in the list and does not start with "echo"; a token selects a builtin only by its exact name, except echo by prefix |
| Dispatcher.TypeLine | shell.py:197-200 | definition: "X is a shell builtin" for a listed name, "X: not found" otherwise; stated by TypeReports, TypeCommand |
| Dispatcher.Builtin | shell.py:161-251 | definition: the body of each branch of main once the builtin is chosen — the lines it prints itself, its arity check and the call it makes; stated by ExitStatus, EchoPrefix, ArityCheck, ExtraTokensIgnored, TypeReports, CdAloneGoesHome, UnameOnlyFromUname |
| Dispatcher.Dispatch | shell.py:157-254 | definition: no tokens means nothing, otherwise the builtin the chain picks or the not-found line; stated by BlankLineDoesNothing, OnlyExitExits, BuiltinsAreHandled, UnknownCommand and the lemmas of Builtin |
| Dispatcher.TypeLines | shell.py:195-200 | definition: the `type` line of each argument, in order; stated by TypeCommand, TypeReports |
| Dispatcher.TypeCommand | shell.py:195-200 | the loop yields the `type` line of each argument, in argument order |
| Dispatcher.BlankLineDoesNothing | shell.py:155-158 | an all-whitespace line yields no tokens, prints nothing and continues without a call |
| Dispatcher.OnlyExitExits | shell.py:161-166 | the shell decides by itself to exit exactly when the first token is `exit` |
| Dispatcher.ExitStatus | shell.py:161-166 | with a digit-only second token the status is its value and nothing is printed; otherwise the farewell is printed and the status is 0 |
| Dispatcher.ExitWithNumeral | shell.py:162-163 | `exit` followed by the numeral of n and any further tokens exits with status n |
| Dispatcher.EchoPrefix | shell.py:168-169 | any first token starting with "echo" prints the remaining tokens joined by single spaces and continues |
| Dispatcher.EchoPrefixAlsoMatches | shell.py:168 | `echoXYZ` is taken for echo |
| Dispatcher.EchoCollapsesSpaces | shell.py:155-169 | `echo a  b   c` prints the single line "a b c" |
| Dispatcher.ArityCheck | shell.py:177-248 | with fewer arguments than the builtin needs, its usage message is printed and no call is made; with enough, nothing is printed and the call is made |
| Dispatcher.ExtraTokensIgnored | shell.py:177-248 | tokens beyond those a builtin reads do not change what the line does |
| Dispatcher.TypeReports | shell.py:195-200 | `type` prints one line per argument and makes no call; a line reads "X is a shell builtin" exactly when X is in the list |
| Dispatcher.BuiltinsAreHandled | shell.py:161-251 | a first token in the builtin list never reaches the not-found fallback: it runs the branch of the builtin of that name |
| Dispatcher.UnknownCommand | shell.py:253-254 | a first token that selects nothing prints exactly "<cmd>: command not found" and the loop continues |
| Dispatcher.UnameOnlyFromUname | shell.py:220-230 | only the first token `uname` leads to the call of uname |
| Dispatcher.CdAloneGoesHome | shell.py:202-206 | `cd` with no argument asks for the home directory |
| Handlers.ChangeDirectory | shell.py:9-19 | definition: the home directory for the empty path, the two named failures and the catch-all with `str(e)`; stated by FailureNamesSubject, CatchAllReportsDetail, SuccessMessages, CdDefaultIsHome, CdTildeIsLiteral |
| Handlers.PrintWorkingDirectory | shell.py:27-28 | definition: the working directory, or the failure escapes; stated by RaisesExactlyUnhandled |
| Handlers.CopyFile | shell.py:31-38 | definition: the confirmation, two failures naming the source, and every other failure escapes; stated by SuccessMessages, FailureNamesSubject, RaisesExactlyUnhandled |
| Handlers.DeleteFile | shell.py:41-48 | definition: the confirmation, two named failures, and every other failure escapes; stated by SuccessMessages, FailureNamesSubject, RaisesExactlyUnhandled |
| Handlers.MakeDirectory | shell.py:51-59 | definition: silent on success, three named failures, and every other failure escapes; stated by SuccessMessages, FailureNamesSubject, RaisesExactlyUnhandled |
| Handlers.RemoveDirectory | shell.py:62-68 | definition: silent on success, two named failures, and every other failure escapes; stated by SuccessMessages, FailureNamesSubject, RaisesExactlyUnhandled |
| Handlers.TouchFile | shell.py:79-86 | definition: silent on success, the permission failure named, and the catch-all with `str(e)`; stated by SuccessMessages, FailureNamesSubject, CatchAllReportsDetail |
| Handlers.LocateFile | shell.py:115-120 | definition: the captured output, the missing-program message, and every other failure escapes; stated by RaisesExactlyUnhandled |
| Handlers.CreateLink | shell.py:123-132 | definition: the confirmation, two failures naming the link, and the catch-all with `str(e)`; stated by SuccessMessages, FailureNamesSubject, CatchAllReportsDetail |
| Handlers.CatFile | shell.py:135-144 | definition: the contents, two named failures, and the catch-all with `str(e)`; stated by SuccessMessages, FailureNamesSubject, CatchAllReportsDetail |
| Handlers.Listing | shell.py:22-24 | definition: the entries, or the listing's failure; stated by ListFiles |
| Handlers.ListFiles | shell.py:22-24 | a listing prints each entry on its own line, in order; a failing listing escapes before anything is printed |
| Handlers.UnameSelected | shell.py:99-110 | definition: the six fields in order, each kept when `all` or its own flag is set; stated by UnameCommand, UnameAll, UnameNoFlags, UnameKernelAndMachine |
| Handlers.UnameCommand | shell.py:89-112 | the line is the selected fields joined by single spaces |
| Handlers.PickAll | shell.py:99-110 | when every flag is set, every field is kept, in order |
| Handlers.PickNone | shell.py:99-110 | when no flag is set, no field is kept |
| Handlers.UnameAll | shell.py:99-110 | `--all` selects all six fields in the fixed order |
| Handlers.UnameNoFlags | shell.py:97-112 | without flags uname prints an empty line |
| Handlers.UnameKernelAndMachine | shell.py:99-112 | `-s -m`, in either order, prints the kernel name, a space and the machine |
| Handlers.Perform | shell.py:172-248 | definition: the handler each call runs, with the part of the system's answer it reads; stated by RaisesExactlyUnhandled, FailureNamesSubject, CatchAllReportsDetail, SuccessMessages and Shell.RunHandler |
| Handlers.Handles | shell.py:9-144 | definition: the exception classes each handler's `except` clauses catch; stated by RaisesExactlyUnhandled |
| Handlers.RaisesExactlyUnhandled | shell.py:9-144 | an outcome escapes a handler exactly when the call failed with a class the handler has no clause for, and it escapes unchanged |
| Handlers.FailureNamesSubject | shell.py:9-144 | a failure with its own message prints one line that starts with the command word and names the path concerned: the source for cp, the link for ln, the home directory for a bare cd |
| Handlers.CatchAllReportsDetail | shell.py:9-144 | a failure reaching the catch-all clause of cd, touch, ln or cat prints one line with the command word and the exception's text |
| Handlers.SuccessMessages | shell.py:31-144 | on success cp, rm and ln confirm with their fixed lines, mkdir, rmdir, touch and cd print nothing, and cat prints the contents |
| Handlers.CdDefaultIsHome | shell.py:9-12 | `cd` with no argument behaves exactly as `cd <home>` |
| Handlers.CdTildeIsLiteral | shell.py:9-19 | what `cd ~` prints does not depend on the home directory, and its messages name `~` |
| Shell.Tokens | shell.py:155-156 | definition: `input().strip().split()`; stated by TokensOfWord, BlankTurn, Text.SplitStrip |
| Shell.Render | shell.py:165-169 | definition: what `print` writes for each line, the line followed by "\n", in order; stated by Write, ExitFirst |
| Shell.Settle | shell.py:172-248 | definition: a handler's printed lines continue the loop, an escaping exception or a `SystemExit` ends it; stated by CarryHalts, HaltCauses |
| Shell.Carry | shell.py:161-254 | definition: the lines the chain prints itself, then the handler's, and the stop of `sys.exit` or of the handler; stated by CarryHalts, CarryNeverExhausts |
| Shell.Respond | shell.py:157-254 | definition: one line's output and stop, the chain's decision carried out on the system's answer; stated by Execute, HaltCauses |
| Shell.Execute | shell.py:157-254 | running the tokens of a line produces exactly the turn that the dispatch chain and the selected handler define |
| Shell.RunBuiltin | shell.py:161-251 | each branch produces the turn its builtin defines |
| Shell.RunChecked | shell.py:177-248 | each branch with an arity check produces the turn its builtin defines |
| Shell.RunHandler | shell.py:177-248 | with the arguments it needs, each such builtin runs its handler on the first of them |
| Shell.SessionFrom | shell.py:151-166 | definition: from the i-th line on, the prompt, what the line prints, and the rest unless the line stops the process; after the last line one more prompt and the end of input; stated by Run, SessionFromIgnoresLater, ExhaustedIffNoTurnStops |
| Shell.Session | shell.py:151-254 | definition: the session of all the input lines, each run on the system's answer for it; stated by Run, BlankInputOnlyPrompts, ExhaustedIffNoLineStops, LaterLinesUnread, ExitFirst |
| Shell.Write | shell.py:153-254 | the output grows by each printed line followed by a newline, in order |
| Shell.Run | shell.py:151-254 | the loop writes exactly the session's output and ends as the session does |
| Shell.BlankInputOnlyPrompts | shell.py:152-158 | input of blank lines only writes one prompt per line plus one, and ends at the end of the input |
| Shell.BlankTurn | shell.py:155-158 | a blank line prints nothing and the loop goes on |
| Shell.CarryNeverExhausts | shell.py:161-254 | no command line ends the session as the end of the input does |
| Shell.ExhaustedIffNoLineStops | shell.py:152-254 | the session reaches the end of the input exactly when no line ends the process |
| Shell.LaterLinesUnread | shell.py:152-166 | lines after the one that ends the process are never read |
| Shell.TokensOfWord | shell.py:155-156 | a line that is one word is read as that single token |
| Shell.ExitFirst | shell.py:161-166 | a first line `exit` writes the prompt and the farewell and exits with status 0 |
| Shell.CarryHalts | shell.py:161-254 | after a decision of the chain the loop stops exactly on exit or on a handler that raises or exits; an escape carries the call's own failure, an exit not decided by the chain is uname's parser exit |
| Shell.HaltCauses | shell.py:161-254 | a line ends the process exactly through `exit` or a handler that does not print. An escaped failure is the call's own exception; any other exit comes from `uname`'s argument parser |

## Left out

- Real operating-system effects: the filesystem, the working directory, `os.path.expanduser`, `os.system("clear")` and the `locate` subprocess. Each becomes a given outcome, string or listing in `replies`, so state that one call leaves for the next is not modelled.
- The `platform.*` queries: their six answers are given as an `Identity`.
- `argparse` for `uname`: abbreviations, combined short flags and the help and error texts it writes. The parser's result is given: the flag record, or the status of its `SystemExit` (2 for an unknown flag, 0 after `-h`).
- Standard error: the traceback of an escaped exception, the end of the input (`EOFError`) and the parser's messages.
- Dispatcher.ExitStatus: the status is `int(N)` for every all-digit N; the model does not capture that CPython 3.10.7 and later refuse to convert a numeral of more than 4300 digits. There `int()` raises `ValueError` at shell.py:163, which nothing catches, so the shell ends with a traceback and status 1 and prints no farewell. The limit depends on the interpreter version and its settings, so the model leaves it out.
- Dispatcher.ExitWithNumeral: states `Exit(n)` for every n, also where the numeral has more than 4300 digits and CPython 3.10.7 and later crash instead (see `Dispatcher.ExitStatus`).
- Exit statuses the operating system does not keep: the model keeps the whole number. For a status from 256 to 2^63 - 1 the process's exit status is its low 8 bits. From 2^63 on, the conversion to a C `long` overflows and the process exits with 255.
- `remove_file`: it is never called from the loop.
- Python's Unicode rules for `strip`, `split` and `isdigit`. Whitespace is the ASCII set that `str.isspace` accepts, and digits are `0`-`9`.
- Keyboard interrupts and output buffering.
