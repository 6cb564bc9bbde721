/** getpassFromUser (getpass.go:234-271) and stty (getpass.go:302-315): the
    prompt on the controlling terminal, with echo turned off while the
    secret is typed. The terminal is a class whose echo flag, pending input
    and record of what was done to it change step by step; `Session` is the
    same sequence as a function of the state before, and the lemmas about it
    state the order of the steps and each early exit. */
module Interactive {
  import opened Base
  import opened GoStrings
  import opened GoFmt

  /** One thing done to the terminal: text written to it, an stty run on it
      (its argument vector), bytes read from it. */
  datatype Event = Wrote(text: string) | RanStty(argv: seq<string>) | Read(bytes: string)

  /** How /dev/tty behaves: the operating system (it picks stty's flag),
      the error of opening the terminal, if any, and the error text of each
      stty argument that fails. */
  datatype Device = Device(goos: string, openError: Option<string>, sttyError: map<string, string>)

  /** The terminal's state: whether it echoes, what the user types from
      now on, and everything done to it so far. */
  datatype Snapshot = Snapshot(echo: bool, input: string, trace: seq<Event>)

  /** A step's outcome: the state after it and what it returned. */
  datatype Step<T> = Step(after: Snapshot, value: T)

  const SttyFailure := "Unable to run stty on /dev/tty: "
  const EOF := "EOF"

  /** stty's command line: `-F` names the device on Linux, `-f` elsewhere. */
  function SttyArgv(goos: string, arg: string): (argv: seq<string>)
    ensures |argv| == 4 && argv[0] == "/bin/stty" && argv[2] == "/dev/tty" && argv[3] == arg
    ensures argv[1] == "-F" <==> goos == "linux"
    ensures argv[1] == "-F" || argv[1] == "-f"
  {
    var flag := if goos == "linux" then "-F" else "-f";
    ["/bin/stty", flag, "/dev/tty", arg]
  }

  /** Echo after `stty arg` has run: `echo` and `-echo` set it; a failed run
      leaves it as it was. */
  function EchoAfter(echo: bool, arg: string, failed: bool): bool
  {
    if failed then echo
    else if arg == "echo" then true
    else if arg == "-echo" then false
    else echo
  }

  /** stty(arg): runs /bin/stty on the terminal; a failure is reported with
      the error's text. */
  function SttyStep(dev: Device, st: Snapshot, arg: string): (s: Step<Option<string>>)
    ensures s.after.input == st.input
    ensures s.after.trace == st.trace + [RanStty(SttyArgv(dev.goos, arg))]
    ensures s.value.Some? <==> arg in dev.sttyError
    ensures s.value.Some? ==> s.value.value == SttyFailure + dev.sttyError[arg] && s.after.echo == st.echo
  {
    var failed := arg in dev.sttyError;
    Step(Snapshot(EchoAfter(st.echo, arg, failed), st.input, st.trace + [RanStty(SttyArgv(dev.goos, arg))]),
         if failed then Some(SttyFailure + dev.sttyError[arg]) else None)
  }

  /** `ReadBytes('\n')`: the input through the first newline; without one,
      all that is left and io.EOF. */
  function ReadStep(st: Snapshot): (s: Step<Result<string>>)
    ensures s.after.echo == st.echo
    ensures s.value.Ok? <==> '\n' in st.input
    ensures s.value.Ok? ==> var line := s.value.value;
      |line| > 0 && line[|line| - 1] == '\n' && '\n' !in line[..|line| - 1] && st.input == line + s.after.input
    ensures s.value.Err? ==> s.value.msg == EOF && s.after.input == []
  {
    var k := Index(st.input, '\n');
    if k == -1 then
      Step(Snapshot(st.echo, [], st.trace + [Read(st.input)]), Err(EOF))
    else
      var line := st.input[..k + 1];
      assert line[..k] == st.input[..k];
      assert st.input == line + st.input[k + 1..];
      Step(Snapshot(st.echo, st.input[k + 1..], st.trace + [Read(line)]), Ok(line))
  }

  /** getpassFromUser, as a function of the terminal's state before it: it
      only adds to the record, only consumes input from the front, and on
      success leaves echo on. */
  function Session(dev: Device, st: Snapshot, prompt: string): (s: Step<Result<string>>)
    ensures |st.trace| <= |s.after.trace| && s.after.trace[..|st.trace|] == st.trace
    ensures |s.after.input| <= |st.input| && st.input[|st.input| - |s.after.input|..] == s.after.input
    ensures s.value.Ok? ==> s.after.echo
  {
    if dev.openError.Some? then Step(st, Err(dev.openError.value))
    else
      var prompted := st.(trace := st.trace + [Wrote(Formatted(prompt))]);
      var off := SttyStep(dev, prompted, "-echo");
      if off.value.Some? then Step(off.after, Err(off.value.value))
      else
        var read := ReadStep(off.after);
        if read.value.Err? then Step(read.after, Err(read.value.msg))
        else
          var on := SttyStep(dev, read.after, "echo");
          if on.value.Some? then Step(on.after, Err(on.value.value))
          else
            var line := read.value.value;
            Step(on.after.(trace := on.after.trace + [Wrote("\n")]), Ok(line[..|line| - 1]))
  }

  /** The session succeeds exactly when the terminal opens, both stty runs
      succeed and a whole line is typed. */
  lemma SessionSucceeds(dev: Device, st: Snapshot, prompt: string)
    ensures Session(dev, st, prompt).value.Ok?
        <==> dev.openError.None? && "-echo" !in dev.sttyError && "echo" !in dev.sttyError && '\n' in st.input
  {
    if dev.openError.None? {
      var prompted := st.(trace := st.trace + [Wrote(Formatted(prompt))]);
      var off := SttyStep(dev, prompted, "-echo");
      if off.value.None? {
        var read := ReadStep(off.after);
        assert read.value.Ok? <==> '\n' in st.input;
      }
    }
  }

  /** When the terminal opens, both stty runs succeed and a whole line is
      typed, the session consumes that line, returns it without its
      newline, and leaves echo on. */
  lemma SessionSuccess(dev: Device, st: Snapshot, prompt: string)
    requires dev.openError.None? && "-echo" !in dev.sttyError && "echo" !in dev.sttyError && '\n' in st.input
    ensures var k := Index(st.input, '\n');
      Session(dev, st, prompt)
        == Step(Snapshot(true, st.input[k + 1..],
                         st.trace + [Wrote(Formatted(prompt)), RanStty(SttyArgv(dev.goos, "-echo")),
                                     Read(st.input[..k + 1]), RanStty(SttyArgv(dev.goos, "echo")), Wrote("\n")]),
                Ok(st.input[..k]))
  {
    var k := Index(st.input, '\n');
    var prompted := st.(trace := st.trace + [Wrote(Formatted(prompt))]);
    var off := SttyStep(dev, prompted, "-echo");
    var read := ReadStep(off.after);
    var on := SttyStep(dev, read.after, "echo");
    var line := st.input[..k + 1];
    var w, r := Wrote(Formatted(prompt)), Read(line);
    var off1, on1 := RanStty(SttyArgv(dev.goos, "-echo")), RanStty(SttyArgv(dev.goos, "echo"));
    assert off.after == Snapshot(false, st.input, st.trace + [w] + [off1]);
    assert read == Step(Snapshot(false, st.input[k + 1..], st.trace + [w] + [off1] + [r]), Ok(line));
    assert on.after == Snapshot(true, st.input[k + 1..], st.trace + [w] + [off1] + [r] + [on1]);
    assert line[..|line| - 1] == st.input[..k];
    assert st.trace + [w] + [off1] + [r] + [on1] + [Wrote("\n")] == st.trace + [w, off1, r, on1, Wrote("\n")];
  }

  /** A successful session writes the prompt, turns echo off, reads one
      line, turns echo back on and writes a newline, in that order; the
      secret is that line without its newline, only that line is consumed,
      and echo is on at the end. */
  lemma SessionInOrder(dev: Device, st: Snapshot, prompt: string)
    requires Session(dev, st, prompt).value.Ok?
    ensures var s := Session(dev, st, prompt);
      var secret := s.value.value;
      && '\n' !in secret
      && st.input == secret + "\n" + s.after.input
      && s.after.echo
      && s.after.trace == st.trace + [Wrote(Formatted(prompt)), RanStty(SttyArgv(dev.goos, "-echo")),
                                      Read(secret + "\n"), RanStty(SttyArgv(dev.goos, "echo")), Wrote("\n")]
  {
    SessionSucceeds(dev, st, prompt);
    SessionSuccess(dev, st, prompt);
    var k := Index(st.input, '\n');
    Slices(st.input, k, k + 1);
    assert st.input[k..k + 1] == "\n";
    assert st.input[..k + 1] == st.input[..k] + "\n";
  }

  /** When echo cannot be turned off, nothing is read: the input is left as
      it was and no newline is written. */
  lemma EchoOffFailureReadsNothing(dev: Device, st: Snapshot, prompt: string)
    requires dev.openError.None? && "-echo" in dev.sttyError
    ensures var s := Session(dev, st, prompt);
      && s.value == Err(SttyFailure + dev.sttyError["-echo"])
      && s.after == Snapshot(st.echo, st.input, st.trace + [Wrote(Formatted(prompt)), RanStty(SttyArgv(dev.goos, "-echo"))])
  {
  }

  /** Input that ends before a newline is consumed and reported as io.EOF,
      and the function returns before turning echo back on: echo stays
      off. */
  lemma EndOfInputLeavesEchoOff(dev: Device, st: Snapshot, prompt: string)
    requires dev.openError.None? && "-echo" !in dev.sttyError && '\n' !in st.input
    ensures var s := Session(dev, st, prompt);
      && s.value == Err(EOF)
      && !s.after.echo && s.after.input == []
      && s.after.trace == st.trace + [Wrote(Formatted(prompt)), RanStty(SttyArgv(dev.goos, "-echo")), Read(st.input)]
  {
  }

  /** When echo cannot be turned back on, the line has been consumed, echo
      stays off and no newline is written. */
  lemma EchoOnFailureLeavesEchoOff(dev: Device, st: Snapshot, prompt: string)
    requires dev.openError.None? && "-echo" !in dev.sttyError && "echo" in dev.sttyError && '\n' in st.input
    ensures var s := Session(dev, st, prompt);
      var k := Index(st.input, '\n');
      && s.value == Err(SttyFailure + dev.sttyError["echo"])
      && !s.after.echo && s.after.input == st.input[k + 1..]
      && s.after.trace == st.trace + [Wrote(Formatted(prompt)), RanStty(SttyArgv(dev.goos, "-echo")),
                                      Read(st.input[..k + 1]), RanStty(SttyArgv(dev.goos, "echo"))]
  {
    var prompted := st.(trace := st.trace + [Wrote(Formatted(prompt))]);
    var off := SttyStep(dev, prompted, "-echo");
    var read := ReadStep(off.after);
    var on := SttyStep(dev, read.after, "echo");
    assert Session(dev, st, prompt) == Step(on.after, Err(on.value.value));
  }

  /** A terminal that does not open is left untouched. */
  lemma OpenFailureTouchesNothing(dev: Device, st: Snapshot, prompt: string)
    requires dev.openError.Some?
    ensures Session(dev, st, prompt) == Step(st, Err(dev.openError.value))
  {
  }

  /** The controlling terminal. */
  class Terminal {
    const dev: Device
    var echo: bool
    var input: string
    var trace: seq<Event>

    constructor (dev: Device, echo: bool, input: string)
      ensures this.dev == dev && this.echo == echo && this.input == input && trace == []
    {
      this.dev := dev;
      this.echo := echo;
      this.input := input;
      trace := [];
    }

    function State(): Snapshot
      reads this
    {
      Snapshot(echo, input, trace)
    }

    /** fmt.Fprintf(dev_tty, format) with no operands. */
    method Printf(format: string)
      modifies this`trace
      ensures trace == old(trace) + [Wrote(Formatted(format))]
    {
      trace := trace + [Wrote(Formatted(format))];
    }

    /** stty(arg). */
    method Stty(arg: string) returns (err: Option<string>)
      modifies this`echo, this`trace
      ensures Step(State(), err) == SttyStep(dev, old(State()), arg)
    {
      trace := trace + [RanStty(SttyArgv(dev.goos, arg))];
      if arg in dev.sttyError {
        return Some(SttyFailure + dev.sttyError[arg]);
      }
      echo := EchoAfter(echo, arg, false);
      return None;
    }

    /** bufio.NewReader(dev_tty).ReadBytes('\n'). */
    method ReadBytes() returns (r: Result<string>)
      modifies this`input, this`trace
      ensures Step(State(), r) == ReadStep(old(State()))
    {
      var k := Index(input, '\n');
      if k == -1 {
        trace := trace + [Read(input)];
        input := [];
        return Err(EOF);
      }
      var line := input[..k + 1];
      trace := trace + [Read(line)];
      input := input[k + 1..];
      return Ok(line);
    }

    /** getpassFromUser(prompt). */
    method GetpassFromUser(prompt: string) returns (r: Result<string>)
      modifies this`echo, this`input, this`trace
      ensures Step(State(), r) == Session(dev, old(State()), prompt)
    {
      if dev.openError.Some? {
        return Err(dev.openError.value);
      }
      Printf(prompt);
      var err := Stty("-echo");
      if err.Some? {
        return Err(err.value);
      }
      var b := ReadBytes();
      if b.Err? {
        return Err(b.msg);
      }
      var pass := b.value;
      err := Stty("echo");
      if err.Some? {
        return Err(err.value);
      }
      assert Formatted("\n") == "\n";
      Printf("\n");
      return Ok(pass[..|pass| - 1]);
    }
  }
}
