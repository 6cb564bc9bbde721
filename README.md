# getpass, modelled in Dafny

A model of `getpass.go` from jschauma/getpass, the Go package whose one
entry point, `Getpass(passfrom ...string)`, fetches a password from a
source named by a `scheme:argument` string.

The model has three parts.

- **The resolver** (`Sources`). At most one argument is accepted. The
  argument is split at its first colon. Only `tty` and `stdin` may come
  without a colon. The scheme picks one of nine sources; `lastpass` is the
  same as `lpass`, `onepass` is the same as `op`, and `stdin` is `fd:0`.
  `Resolve` is proved to be the exact inverse of `Spellings`, the set of
  strings that name each source (`ResolveIff`).
- **The non-interactive retrievals** (`Backends`).
  - Four backends run a process with a fixed argument vector; only `cmd`
    gets the terminal as its standard input.
  - `runCommand` gives the trimmed standard output. Its failure message
    names the command line and carries the captured standard error.
  - `env:` treats an unset and an empty variable alike.
  - `fd:` parses the number with `strconv.Atoi`; a negative number has no
    file.
  - `file:` rewrites a leading `~/` or `~user/` to a home directory, expands
    environment variables, and reads the first line.
  - `fd:` and `file:` run getpass.go's scanning loop (`bufio.Scanner` with
    `ScanLines`, in `Scan`), which keeps the first line only.
- **The terminal reader** (`Interactive`). A `Terminal` class holds the
  echo flag, the input still to be typed, and a trace of what was done to
  the device. Its `GetpassFromUser` method runs getpass.go's steps in
  order:
  1. open the device;
  2. write the prompt;
  3. run `stty -echo`;
  4. read through the first newline;
  5. run `stty echo`;
  6. write a newline.

  Each step has its own early return. The method is proved against the
  function `Session`, and lemmas about `Session` state the order of the
  steps and every exit.

`Getpass` (module `Getpass`) puts the parts together. It returns Go's
`(pass, err)` pair: `pass` is `""` on every error.

The operating system is passed in as values:
- `System` holds the environment, open descriptors, the user database,
  `os.ExpandEnv`, `os.Open`, and the outcome of running a process.
- `Device` holds the outcome of opening `/dev/tty` and of each `stty` run.

Supporting modules model the library behaviour getpass.go depends on:
- `GoStrings`: `strings.SplitN(s, ":", 2)`, `strings.Index`,
  `strings.Join`, `strings.TrimSpace` with `unicode.IsSpace`, and
  `strconv.Atoi` on 64-bit `int`.
- `GoFmt`: what `fmt.Fprintf` writes when it is given a format and no
  operands.

`GoFmt` matters because getpass.go:240 passes the prompt to
`fmt.Fprintf` as the format string. A prompt with a `%` in it is therefore
not written as it is. For example, `tty:PIN %s` shows
`PIN %!s(MISSING)`, and a trailing `%` shows `%!(NOVERB)`. The model keeps
this behaviour.

Not every exit of the terminal reader turns echo back on:
- On a read error, getpass.go:258-261 returns before `stty echo`, so echo
  stays off (`EndOfInputLeavesEchoOff`).
- A failing `stty echo` at getpass.go:264-267 is not retried: the line has
  been read, echo stays off and no newline is written
  (`EchoOnFailureLeavesEchoOff`).
- On SIGINT or SIGTERM during the read, the goroutine at getpass.go:242-250
  runs `stty echo`. It ends the process only when that fails. That
  goroutine is not modelled (see below).

## Model

| member | source | states |
|---|---|---|
| GoStrings.Index | getpass.go:185 | the position of the first occurrence of a character, or -1 exactly when it does not occur |
| GoStrings.IndexAfter | getpass.go:185 | in `p + [c] + r` with `c` not in `p`, the first `c` is at `|p|` |
| GoStrings.SplitFirst | getpass.go:84 | SplitN with limit 2: one part exactly when there is no colon (the whole string); otherwise the string is `before + ":" + after` with `before` colon-free |
| GoStrings.SplitFirstOf | getpass.go:84 | splitting `head:tail` gives back `head` and `tail` whatever `tail` holds, so later colons stay in the argument |
| GoStrings.Join | getpass.go:295 | joining no arguments gives the empty string, and joining one gives that argument |
| GoStrings.JoinHoldsEach | getpass.go:295 | every argument occurs in the space-joined command line |
| GoStrings.TrimLeft | getpass.go:299 | drops exactly the leading white space: a suffix that starts with a non-space |
| GoStrings.TrimRight | getpass.go:299 | drops exactly the trailing white space: a prefix that ends with a non-space |
| GoStrings.TrimSpace | getpass.go:299 | the result is the input without its surrounding spaces: no space at either end, and only spaces around it in the input |
| GoStrings.TrimSpaceOf | getpass.go:299 | spaces around a trimmed core are exactly what TrimSpace removes |
| GoStrings.TrimSpaceUnique | getpass.go:299 | any string that is the input without its surrounding spaces is TrimSpace's result, so the trim is unique |
| GoStrings.AsciiSpace | getpass.go:299 | below U+0080 the white space is Go's ASCII set: tab, newline, vertical tab, form feed, carriage return and space |
| GoStrings.Atoi | getpass.go:148-151 | a result only for a sign and at least one digit, within the 64-bit range |
| GoStrings.AtoiDigits | getpass.go:148-151 | an optional sign followed by digits parses to its value exactly when that value fits in 64 bits, leading zeros included (so `fd:05` is descriptor 5), and is an error otherwise (so `fd:9223372036854775808` is an invalid descriptor) |
| GoStrings.AtoiItoa | getpass.go:148 | Atoi reads back every 64-bit integer written in decimal, so `fd:N` names descriptor N |
| GoFmt.Formatted | getpass.go:240 | what Fprintf writes for a format with no operands; a prompt without `%` is written as it is |
| GoFmt.PlainPrefix | getpass.go:240 | text before the first `%` is written as it is |
| GoFmt.TrailingPercent | getpass.go:240 | a prompt ending in `%` shows `%!(NOVERB)` in its place |
| GoFmt.MissingOperand | getpass.go:240 | `%` and any verb (a character that is not a flag, a digit, `[`, `*`, `.` or `%`) show `%!<verb>(MISSING)` |
| GoFmt.EscapedPercent | getpass.go:240 | `%%` shows a single `%` |
| GoFmt.BareVerb | getpass.go:240 | any verb straight after `%` is one directive with no operand |
| Scan.DropCR | getpass.go:156-161 | a final carriage return is not part of the line |
| Scan.Advance | getpass.go:156-161 | the first token consumes through the first newline, or everything when there is none |
| Scan.LineToken | getpass.go:156-161 | the first line is newline-free, a prefix of the data, and followed by nothing, `\r`, `\n` or `\r\n`; when the line ends in a carriage return, just before the newline or at the end of the data, exactly that one is dropped |
| Scan.LineTokenOf | getpass.go:197-202 | a line ended by `\n` or `\r\n` is read back as that line, whatever follows |
| Scan.LastLineTokenOf | getpass.go:197-202 | a last line without a terminator is read as it is |
| Scan.LastLineCR | getpass.go:156-161 | a final carriage return at the end of the data is dropped from the last line |
| Scan.Scanner.Scan | getpass.go:157 | false exactly when nothing is left; otherwise the token is the next line and the rest follows it |
| Scan.FirstLine | getpass.go:156-163 | what the loop leaves in `pass`: newline-free, a prefix of the data, `""` when nothing was scanned |
| Scan.ScanFirstLine | getpass.go:156-161 | the scanning loop that breaks after one token leaves the first line |
| Sources.Resolve | getpass.go:73-127 | more than one argument is exactly the argument-count error; no argument is the tty with "Password: "; only the three error messages occur |
| Sources.Dispatch | getpass.go:91-124 | the switch fails only with "invalid password source" or "'stdin' takes no argument" |
| Sources.ResolveSplit | getpass.go:84-89 | `scheme:arg` is dispatched on the text before and after its first colon |
| Sources.ResolveBare | getpass.go:85-87 | a colon-free argument is bare `tty` or `stdin`, or else an invalid source |
| Sources.Spell | getpass.go:84 | `scheme:arg` splits back into `scheme` and `arg` |
| Sources.Scheme | getpass.go:91-121 | every source has a known, colon-free scheme |
| Sources.Spellings | getpass.go:84-121 | the strings that name a source: the canonical spelling, plus only bare `stdin`, bare `tty` or other colon-separated forms |
| Sources.Render | getpass.go:84 | the canonical spelling splits into its scheme and argument |
| Sources.ResolveRender | getpass.go:84-121 | resolving the canonical spelling of any source gives that source back |
| Sources.DispatchKnown | getpass.go:91-121 | what each known scheme dispatches to, with the aliases and the stdin error |
| Sources.LastpassAlias | getpass.go:102-105 | `lastpass:E` and `lpass:E` both resolve to the LastPass source for E |
| Sources.OnepassAlias | getpass.go:106-109 | `onepass:E` and `op:E` both resolve to the 1Password source for E |
| Sources.SpellingCases | getpass.go:91-121 | a spelling is the canonical one, an alias, bare `stdin` for fd 0 or bare `tty` for the default prompt |
| Sources.ResolveSpelling | getpass.go:84-121 | every spelling of a source resolves to it |
| Sources.DispatchInverse | getpass.go:91-121 | a successful dispatch keeps the argument and determines the scheme up to the two aliases |
| Sources.DispatchSpelling | getpass.go:91-121 | a scheme and argument that dispatch to a source spell it |
| Sources.BareSpelling | getpass.go:85-121 | a colon-free string that resolves to a source spells it |
| Sources.ResolveOnlySpellings | getpass.go:84-124 | only the spellings of a source resolve to it |
| Sources.ResolveIff | getpass.go:84-124 | a string resolves to a source if and only if it is one of that source's spellings |
| Sources.TtyPrompt | getpass.go:117-121 | no argument and bare `tty` prompt with "Password: "; `tty:P` prompts with P verbatim, even when empty |
| Sources.PassVerbatim | getpass.go:110-111 | `pass:X` is X, colons included, and never an error |
| Sources.StdinIsFdZero | getpass.go:112-116 | `stdin` is `fd:0`; `stdin:` with any argument, even empty, is "'stdin' takes no argument" |
| Sources.ColonFreeInvalid | getpass.go:85-87 | any colon-free argument but `tty` and `stdin` is "invalid password source" |
| Sources.DispatchUnknown | getpass.go:122-123 | a scheme outside the known set is "invalid password source" |
| Sources.UnknownSchemeInvalid | getpass.go:122-123 | `scheme:arg` with an unknown scheme is "invalid password source", whatever the argument |
| Backends.InvocationOf | getpass.go:129-232 | the argument vector of each subprocess backend, never empty |
| Backends.InvocationRecovers | getpass.go:207-232 | the invocation determines the backend and its argument |
| Backends.OnlyCmdNeedsTty | getpass.go:129-232 | only `cmd` runs its process with the terminal as standard input |
| Backends.StdinFor | getpass.go:281-291 | the child reads the terminal exactly when it needs the tty, and a buffer only when there is data for it |
| Backends.RunCommand | getpass.go:273-300 | success exactly when the terminal opens (if needed) and the run succeeds; then the result is the standard output without its surrounding white space; a failed run's message holds the joined command line, the standard error and the error; a terminal that does not open gives its own error |
| Backends.RunCommandOutput | getpass.go:293-299 | a successful run gives exactly its output without the white space around it, whatever it wrote to standard error |
| Backends.EnvSecret | getpass.go:138-145 | success exactly when the variable is set and non-empty, with its value unchanged; otherwise the error is exactly "environment variable '<name>' not set" |
| Backends.FdSecret | getpass.go:147-164 | "invalid file descriptor" exactly when the number does not parse; "unable to open fd" exactly for a negative one; otherwise success with the first line of the descriptor's data, `""` for one that is not open |
| Backends.FromFd | getpass.go:147-164 | the function, computed by getpass.go's parse and scanning loop |
| Backends.FdFirstLine | getpass.go:147-164 | a descriptor named by its decimal number gives its first line |
| Backends.TildeUser | getpass.go:167-168 | `^~([^/]+)?/` matches exactly when the path starts with `~` and holds a `/`; the group is the slash-free text between them |
| Backends.ExpandHome | getpass.go:167-187 | an error only for `~/` when the caller cannot be looked up; the path changes only when the pattern matches |
| Backends.ExpandNamedUser | getpass.go:171-176 | `~user/rest` becomes `home/rest` for a known user and stays as it is for an unknown one |
| Backends.ExpandOwnHome | getpass.go:177-185 | `~/rest` becomes the caller's `home/rest`, or the lookup's error |
| Backends.ExpandUntouched | getpass.go:167-168 | a path not starting with `~`, or a `~` with no `/` after it, is not rewritten |
| Backends.FileSecret | getpass.go:166-205 | a failed home lookup is that error; a failed open is an error that names the path tried and the reason; otherwise the first line of the file |
| Backends.FileFirstLine | getpass.go:189-202 | a file reached through any rewrite of its name gives its first line, with either terminator, whatever follows |
| Backends.FromFile | getpass.go:166-205 | the function, computed by getpass.go's scanning loop |
| Backends.Retrieved | getpass.go:91-124 | `pass:` returns its argument; the subprocess backends give trimmed output; `fd:` and `file:` give a newline-free line |
| Backends.RetrievedRuns | getpass.go:129-232 | each subprocess backend runs its own invocation with its own terminal choice |
| Backends.Retrieve | getpass.go:91-124 | the dispatch to the retrievals, with getpass.go's scanning loops |
| Interactive.SttyArgv | getpass.go:302-308 | `/bin/stty FLAG /dev/tty ARG`, where FLAG is `-F` exactly on Linux and `-f` elsewhere |
| Interactive.SttyStep | getpass.go:302-315 | records the run; fails exactly when stty fails, with the prefixed message and echo unchanged |
| Interactive.ReadStep | getpass.go:257-261 | succeeds exactly when a newline is pending, giving the input through it; otherwise consumes the rest and gives EOF |
| Interactive.Session | getpass.go:234-271 | the terminal reader as a function of the state before it: it only appends to the record, only consumes input from the front, and leaves echo on after a success |
| Interactive.SessionSucceeds | getpass.go:234-271 | success exactly when the terminal opens, both stty runs succeed and a whole line is typed |
| Interactive.SessionSuccess | getpass.go:234-271 | with the terminal open, both stty runs succeeding and a newline typed, the result is the first line without its newline, only that line is consumed, echo is on and the record holds the five steps |
| Interactive.SessionInOrder | getpass.go:240-270 | on success: prompt, echo off, read, echo on, newline, in that order; the secret is the line without its newline; echo ends on |
| Interactive.EchoOffFailureReadsNothing | getpass.go:252-255 | when echo cannot be turned off, nothing is read and no newline is written |
| Interactive.EndOfInputLeavesEchoOff | getpass.go:257-261 | input ending without a newline gives EOF and returns with echo still off |
| Interactive.EchoOnFailureLeavesEchoOff | getpass.go:264-267 | when echo cannot be turned back on, the line has been consumed, echo stays off and no newline is written |
| Interactive.OpenFailureTouchesNothing | getpass.go:235-238 | a terminal that does not open is left untouched, and its error is returned |
| Interactive.Terminal.Printf | getpass.go:240 | writes the prompt as fmt formats it with no operands |
| Interactive.Terminal.Stty | getpass.go:302-315 | the terminal after stty is the one SttyStep describes |
| Interactive.Terminal.ReadBytes | getpass.go:257-258 | the terminal after the read is the one ReadStep describes |
| Interactive.Terminal.GetpassFromUser | getpass.go:234-271 | the terminal after the call and the result are those of Session |
| Base.Secret | getpass.go:78-79 | the `pass` half of the result pair: `""` on every error, the value otherwise |
| Getpass.Outcome | getpass.go:73-127 | a rejected call is its error with the terminal untouched; every source but `tty` leaves the terminal as it was |
| Getpass.Getpass | getpass.go:73-127 | the secret and error of the outcome, `""` on every error, and the terminal changed only as the outcome says |
| Getpass.OnlyTtyTouchesTerminal | getpass.go:91-124 | every source but `tty`, and every rejected call, leaves the terminal as it was |
| Getpass.TooManyArguments | getpass.go:78-80 | more than one argument is an error before anything else |
| Getpass.NoArgumentPrompts | getpass.go:75-76 | no argument prompts with "Password: " |
| Getpass.EnvGivesValue | getpass_test.go:14-21 | `env:NAME` with NAME set and non-empty gives its value, for any name, colons included |
| Getpass.PassGivesLiteral | getpass_test.go:75-80 | `pass:X` gives X |
| Getpass.UnknownSchemeFails | getpass_test.go:102-107 | an unknown scheme gives "invalid password source" |
| Getpass.FileGivesFirstLine | getpass_test.go:51-71 | a file whose first line is the secret gives that line |
| Getpass.FdGivesFirstLine | getpass_test.go:26-48 | a descriptor named by its number gives its first line |
| Getpass.CmdGivesTrimmedOutput | getpass_test.go:84-99 | `cmd:C` runs `/bin/sh -c C` on the terminal and gives its output without the surrounding white space, whatever it wrote to standard error |

## Left out

- The signal goroutine (getpass.go:242-250). On SIGINT or SIGTERM it runs `stty echo` while the read goes on blocking, and ends the process only when that stty fails. Concurrency and signals are not modelled, so nothing here says what happens to echo when the process is interrupted.
- Running processes, opening files and `/dev/tty`, and running `/bin/stty` are not executed. Their outcomes are fields of `System` and `Device`: captured output, error text, and file contents up to end of file or the first read error.
- `os.Getenv`, `user.Lookup`, `user.Current` and `os.ExpandEnv` are inputs: two maps, a result and a function. The text of their errors is whatever those inputs say.
- Interactive.ReadStep: only io.EOF is modelled as a read error. Other read errors from the terminal take the same early-return path with a different message.
- Interactive.Terminal.Stty: the outcome of each stty argument is fixed per device, and only `echo` and `-echo` change the echo flag.
- Interactive.Terminal.ReadBytes: `bufio.Reader` may buffer input beyond the first line, and that input is then lost with the reader. The model consumes exactly the line, as a terminal in canonical mode delivers it.
- Backends.RunCommand: the `cmd` child reads from the same terminal that `input` models. Whatever it reads is not taken out of `Terminal.input`.
- Backends.FdSecret: the scanner's 64 KiB token limit is not modelled. A longer first line makes getpass.go return `""` with no error; the model returns the line.
- Backends.FdSecret: the descriptor's new read position, and its closing when the `os.File` is collected, are not modelled.
- Backends.FileSecret: the scanner's 64 KiB token limit is not modelled. Closing the file is not modelled either.
- Strings are sequences of Unicode characters. Invalid UTF-8 and byte-level effects are not modelled.
