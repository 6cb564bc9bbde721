/** Getpass(passfrom...) (getpass.go:73-127): resolve the source, then
    either prompt on the terminal or run the non-interactive retrieval. Go's
    `(pass string, err error)` pair is returned as it is: `pass` is empty
    on every error. */
module Getpass {
  import opened Base
  import opened GoStrings
  import opened Scan
  import opened Sources
  import opened Backends
  import opened Interactive

  /** What a call does, as a function of the system and of the terminal's
      state before it: only the `tty` source touches the terminal. */
  function Outcome(passfrom: seq<string>, sys: System, dev: Device, st: Snapshot): (o: Step<Result<string>>)
    ensures Resolve(passfrom).Err? ==> o == Step(st, Err(Resolve(passfrom).msg))
    ensures Resolve(passfrom).Ok? && !Resolve(passfrom).value.Tty? ==> o.after == st
  {
    match Resolve(passfrom)
    case Err(e) => Step(st, Err(e))
    case Ok(src) =>
      if src.Tty? then Session(dev, st, src.prompt)
      else Step(st, Retrieved(src, sys))
  }

  /** Getpass: the secret and the error, as getpass.go returns them. */
  method Getpass(passfrom: seq<string>, sys: System, tty: Terminal) returns (pass: string, err: Option<string>)
    modifies tty`echo, tty`input, tty`trace
    ensures var o := Outcome(passfrom, sys, tty.dev, old(tty.State()));
      && tty.State() == o.after
      && pass == Secret(o.value)
      && (err.None? <==> o.value.Ok?)
      && (err.Some? ==> err.value == o.value.msg)
  {
    var r: Result<string>;
    match Resolve(passfrom) {
      case Err(e) =>
        r := Err(e);
      case Ok(src) =>
        if src.Tty? {
          r := tty.GetpassFromUser(src.prompt);
        } else {
          r := Retrieve(src, sys);
        }
    }
    match r {
      case Ok(v) =>
        pass, err := v, None;
      case Err(e) =>
        pass, err := "", Some(e);
    }
  }

  /** Every source but `tty`, and every rejected argument list, leaves the
      terminal as it was. */
  lemma OnlyTtyTouchesTerminal(passfrom: seq<string>, sys: System, dev: Device, st: Snapshot)
    requires Resolve(passfrom).Err? || !Resolve(passfrom).value.Tty?
    ensures Outcome(passfrom, sys, dev, st).after == st
  {
  }

  /** More than one argument is refused before anything else happens. */
  lemma TooManyArguments(passfrom: seq<string>, sys: System, dev: Device, st: Snapshot)
    requires |passfrom| > 1
    ensures Outcome(passfrom, sys, dev, st) == Step(st, Err(ErrArgCount))
  {
  }

  /** No argument at all prompts on the terminal with "Password: ". */
  lemma NoArgumentPrompts(sys: System, dev: Device, st: Snapshot)
    ensures Outcome([], sys, dev, st) == Session(dev, st, DefaultPrompt)
  {
  }

  /** `env:NAME` with NAME set, as in getpass_test.go's environment test, gives
      the variable's value. */
  lemma EnvGivesValue(name: string, sys: System, dev: Device, st: Snapshot)
    requires name in sys.env && sys.env[name] != ""
    ensures Outcome([Spell("env", name)], sys, dev, st) == Step(st, Ok(sys.env[name]))
  {
    DispatchKnown(name);
    ResolveSplit("env", name);
  }

  /** `pass:X` gives X, as in getpass_test.go's literal test. */
  lemma PassGivesLiteral(x: string, sys: System, dev: Device, st: Snapshot)
    ensures Outcome([Spell("pass", x)], sys, dev, st) == Step(st, Ok(x))
  {
    PassVerbatim(x);
  }

  /** An unknown scheme, as in getpass_test.go's failure test, gives the empty
      secret and "invalid password source". */
  lemma UnknownSchemeFails(scheme: string, arg: string, sys: System, dev: Device, st: Snapshot)
    requires ':' !in scheme && scheme !in Schemes
    ensures Outcome([Spell(scheme, arg)], sys, dev, st) == Step(st, Err(ErrSource))
  {
    UnknownSchemeInvalid(scheme, arg);
  }

  /** A file whose first line is the secret, as in getpass_test.go's file test
      (a path without `~` or `$`, which neither rewrite touches). */
  lemma FileGivesFirstLine(path: string, line: string, tail: string, sys: System, dev: Device, st: Snapshot)
    requires path == [] || path[0] != '~'
    requires sys.expandEnv(path) == path && sys.open(path) == Contents(line + "\n" + tail)
    requires '\n' !in line && (line == [] || line[|line| - 1] != '\r')
    ensures Outcome([Spell("file", path)], sys, dev, st) == Step(st, Ok(line))
  {
    DispatchKnown(path);
    ResolveSplit("file", path);
    ExpandUntouched(path, sys.homes, sys.current);
    LineTokenOf(line, "\n", tail);
  }

  /** A descriptor named by its number, as in getpass_test.go's descriptor test,
      gives its first line. */
  lemma FdGivesFirstLine(n: int, line: string, tail: string, sys: System, dev: Device, st: Snapshot)
    requires 0 <= n <= MaxInt && n in sys.fds && sys.fds[n] == line + "\n" + tail
    requires '\n' !in line && (line == [] || line[|line| - 1] != '\r')
    ensures Outcome([Spell("fd", Itoa(n))], sys, dev, st) == Step(st, Ok(line))
  {
    DispatchKnown(Itoa(n));
    ResolveSplit("fd", Itoa(n));
    FdFirstLine(n, sys.fds, line, "\n", tail);
  }

  /** `cmd:C` runs C through the shell on the terminal and gives what it
      prints, without the spaces around it, as in getpass_test.go's command
      test. */
  lemma CmdGivesTrimmedOutput(c: string, before: string, secret: string, after: string, stderr: string,
                              sys: System, dev: Device, st: Snapshot)
    requires sys.ttyOpen.None?
    requires sys.exec(["/bin/sh", "-c", c], DevTty) == Exit(before + secret + after, stderr, None)
    requires AllSpace(before) && AllSpace(after) && Trimmed(secret)
    ensures Outcome([Spell("cmd", c)], sys, dev, st) == Step(st, Ok(secret))
  {
    DispatchKnown(c);
    ResolveSplit("cmd", c);
    RunCommandOutput(["/bin/sh", "-c", c], true, sys, before, secret, after, stderr);
  }
}
