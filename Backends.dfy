/** The non-interactive retrievals of getpass.go (lines 129-232 and
    273-300): the subprocess backends, the environment, a file descriptor
    and a file. Everything they ask of the operating system comes from a
    `System` value, so each retrieval is a function of its argument and
    that value. */
module Backends {
  import opened Base
  import opened GoStrings
  import opened Scan
  import opened Sources

  // ---------------------------------------------------------------------
  // The operating system, as the retrievals see it

  /** What a child process reads on its standard input: the controlling
      terminal, a buffer, or (Go's default for a nil `cmd.Stdin`) the null
      device. */
  datatype Stdin = DevTty | Piped(data: string) | NullDevice

  /** What `cmd.Run()` leaves behind: the captured standard output and
      standard error, and the text of the error it returned, if any (a
      non-zero exit, a program that was not found, ...). */
  datatype Exit = Exit(stdout: string, stderr: string, failure: Option<string>)

  /** What `os.Open` gives: the bytes a reader gets from the file up to its
      end (or up to the first read error), or the text of the open error. */
  datatype Opened = Contents(data: string) | OpenFailed(reason: string)

  /** The outcome of every system call the retrievals make. */
  datatype System = System(
    env: map<string, string>,             // os.Getenv; a missing name is unset
    fds: map<int, string>,                // what can still be read from each open descriptor
    homes: map<string, string>,           // user.Lookup: the home directory of each known user
    current: Result<string>,              // user.Current: the caller's home directory, or the error
    expandEnv: string -> string,          // os.ExpandEnv
    open: string -> Opened,               // os.Open
    ttyOpen: Option<string>,              // the error of os.Open("/dev/tty"), if it fails
    exec: (seq<string>, Stdin) -> Exit)   // exec.Command(argv...) with that stdin, then Run

  // ---------------------------------------------------------------------
  // The subprocess backends (getpassFromCommand/Keychain/Lastpass/Onepass)

  /** A process to run: its argument vector, and whether its standard input
      is the terminal. */
  datatype Invocation = Invocation(argv: seq<string>, needTty: bool)

  predicate RunsCommand(src: Source)
  {
    src.Cmd? || src.Keychain? || src.Lastpass? || src.Onepass?
  }

  /** The process each subprocess backend runs. */
  function InvocationOf(src: Source): (inv: Invocation)
    requires RunsCommand(src)
    ensures |inv.argv| > 0
  {
    match src
    case Cmd(c) => Invocation(["/bin/sh", "-c", c], true)
    case Keychain(e) => Invocation(["security", "find-generic-password", "-s", e, "-w"], false)
    case Lastpass(e) => Invocation(["lpass", "show", e, "--password"], false)
    case Onepass(e) => Invocation(["op", "item", "get", e, "--fields", "password"], false)
  }

  /** Reads the backend and its argument back off an invocation. */
  function SourceOf(inv: Invocation): Option<Source>
  {
    var a := inv.argv;
    if inv.needTty && |a| == 3 && a[0] == "/bin/sh" && a[1] == "-c" then Some(Cmd(a[2]))
    else if inv.needTty then None
    else if |a| == 5 && a[0] == "security" && a[1] == "find-generic-password" && a[2] == "-s" && a[4] == "-w" then Some(Keychain(a[3]))
    else if |a| == 4 && a[0] == "lpass" && a[1] == "show" && a[3] == "--password" then Some(Lastpass(a[2]))
    else if |a| == 6 && a[0] == "op" && a[1] == "item" && a[2] == "get" && a[4] == "--fields" && a[5] == "password" then Some(Onepass(a[3]))
    else None
  }

  /** The invocation determines the backend and its argument: none of them
      is lost or mixed up with another backend's, whatever the argument. */
  lemma InvocationRecovers(src: Source)
    requires RunsCommand(src)
    ensures SourceOf(InvocationOf(src)) == Some(src)
  {
  }

  /** Only `cmd` runs its process on the terminal. */
  lemma OnlyCmdNeedsTty(src: Source)
    requires RunsCommand(src)
    ensures InvocationOf(src).needTty <==> src.Cmd?
  {
  }

  /** Where runCommand points the child's standard input. */
  function StdinFor(stdinData: string, needTty: bool): (s: Stdin)
    ensures s == DevTty <==> needTty
    ensures s.Piped? ==> s.data == stdinData && stdinData != ""
  {
    if needTty then DevTty
    else if |stdinData| > 0 then Piped(stdinData)
    else NullDevice
  }

  function RunFailure(args: seq<string>, stderr: string, failure: string): string
  {
    "unable to run '" + Join(args, " ") + "':\n" + stderr + "\n" + failure
  }

  /** runCommand: runs `args` and gives its trimmed standard output, or the
      error. A terminal that cannot be opened is reported as os.Open
      reports it; a failed run names the command line and carries its
      standard error. */
  function RunCommand(args: seq<string>, stdinData: string, needTty: bool, sys: System): (r: Result<string>)
    requires |args| > 0
    ensures var exit := sys.exec(args, StdinFor(stdinData, needTty));
      && (r.Ok? <==> !(needTty && sys.ttyOpen.Some?) && exit.failure.None?)
      && (r.Ok? ==> IsTrimOf(r.value, exit.stdout))
      && (needTty && sys.ttyOpen.Some? ==> r == Err(sys.ttyOpen.value))
      && (r.Err? && !(needTty && sys.ttyOpen.Some?) ==>
            IsInfix(Join(args, " "), r.msg) && IsInfix(exit.stderr, r.msg) && IsInfix(exit.failure.value, r.msg))
  {
    if needTty && sys.ttyOpen.Some? then Err(sys.ttyOpen.value)
    else
      var exit := sys.exec(args, StdinFor(stdinData, needTty));
      match exit.failure
      case Some(e) =>
        var msg := RunFailure(args, exit.stderr, e);
        assert msg[15..15 + |Join(args, " ")|] == Join(args, " ");
        var k := 15 + |Join(args, " ")| + 3;
        assert msg[k..k + |exit.stderr|] == exit.stderr;
        assert msg[|msg| - |e|..|msg|] == e;
        Err(msg)
      case None =>
        var out := TrimSpace(exit.stdout);
        Ok(out)
  }

  /** Whatever spaces surround the output, and whatever the process wrote
      to its standard error, the secret of a successful run is exactly what
      lies between the spaces. */
  lemma RunCommandOutput(args: seq<string>, needTty: bool, sys: System, before: string, secret: string, after: string, stderr: string)
    requires |args| > 0 && !(needTty && sys.ttyOpen.Some?)
    requires sys.exec(args, StdinFor("", needTty)) == Exit(before + secret + after, stderr, None)
    requires AllSpace(before) && AllSpace(after) && Trimmed(secret)
    ensures RunCommand(args, "", needTty, sys) == Ok(secret)
  {
    TrimSpaceOf(before, secret, after);
  }

  // ---------------------------------------------------------------------
  // env: (getpassFromEnv)

  function EnvUnset(name: string): string
  {
    "environment variable '" + name + "' not set"
  }

  /** getpassFromEnv: an unset and an empty variable are both errors that
      name the variable; any other value is the secret as it is. */
  function EnvSecret(name: string, env: map<string, string>): (r: Result<string>)
    ensures r.Ok? <==> name in env && env[name] != ""
    ensures r.Ok? ==> r.value == env[name]
    ensures r.Err? ==> r.msg == "environment variable '" + name + "' not set"
    ensures r.Err? ==> IsInfix(name, r.msg)
  {
    var pass := if name in env then env[name] else "";
    if |pass| < 1 then
      var msg := EnvUnset(name);
      assert msg[22..22 + |name|] == name;
      Err(msg)
    else Ok(pass)
  }

  // ---------------------------------------------------------------------
  // fd: (getpassFromFd)

  const ErrFd := "invalid file descriptor"
  const ErrFdOpen := "unable to open fd"

  /** getpassFromFd: the number must parse; a negative one has no file
      (os.NewFile gives nil); any other is read up to its first line. A
      descriptor that is not open reads nothing, which is no error. */
  function FdSecret(num: string, fds: map<int, string>): (r: Result<string>)
    ensures r == Err(ErrFd) <==> Atoi(num).None?
    ensures r == Err(ErrFdOpen) <==> Atoi(num).Some? && Atoi(num).value < 0
    ensures r.Ok? <==> Atoi(num).Some? && Atoi(num).value >= 0
    ensures r.Ok? ==> '\n' !in r.value
    ensures r.Ok? && Atoi(num).value in fds ==> r.value == FirstLine(fds[Atoi(num).value])
    ensures r.Ok? && Atoi(num).value !in fds ==> r.value == ""
  {
    match Atoi(num)
    case None => Err(ErrFd)
    case Some(i) =>
      if i < 0 then Err(ErrFdOpen)
      else Ok(FirstLine(if i in fds then fds[i] else ""))
  }

  /** getpassFromFd as written: parse, open, then the scanning loop. */
  method FromFd(num: string, fds: map<int, string>) returns (r: Result<string>)
    ensures r == FdSecret(num, fds)
  {
    var i := Atoi(num);
    if i.None? {
      return Err(ErrFd);
    }
    if i.value < 0 {
      return Err(ErrFdOpen);
    }
    var data := if i.value in fds then fds[i.value] else "";
    var pass := ScanFirstLine(data);
    return Ok(pass);
  }

  /** A descriptor named by its decimal number gives its first line, with
      either terminator, whatever follows it. */
  lemma FdFirstLine(n: int, fds: map<int, string>, line: string, term: string, tail: string)
    requires 0 <= n <= MaxInt && n in fds
    requires '\n' !in line && (line == [] || line[|line| - 1] != '\r')
    requires term == "\n" || term == "\r\n"
    requires fds[n] == line + term + tail
    ensures FdSecret(Itoa(n), fds) == Ok(line)
  {
    AtoiItoa(n);
    LineTokenOf(line, term, tail);
  }

  // ---------------------------------------------------------------------
  // file: (getpassFromFile)

  /** The match of `^~([^/]+)?/`: the user name between the `~` and the
      first `/`, empty for the caller's own home. */
  function TildeUser(fname: string): (u: Option<string>)
    ensures u.Some? <==> |fname| > 0 && fname[0] == '~' && '/' in fname
    ensures u.Some? ==> fname == "~" + u.value + fname[Index(fname, '/')..] && '/' !in u.value
  {
    if |fname| > 0 && fname[0] == '~' && '/' in fname then
      var i := Index(fname, '/');
      assert fname == fname[..1] + fname[1..i] + fname[i..];
      Some(fname[1..i])
    else None
  }

  /** The home-directory rewrite: a known user's (or the caller's) home
      replaces everything before the first `/`; an unknown user leaves the
      path as it is; failing to find the caller is an error. */
  function ExpandHome(fname: string, homes: map<string, string>, current: Result<string>): (r: Result<string>)
    ensures r.Err? <==> TildeUser(fname) == Some("") && current.Err?
    ensures r.Err? ==> r == Err(current.msg)
    ensures r.Ok? && r.value != fname ==> TildeUser(fname).Some? && '/' in fname
  {
    match TildeUser(fname)
    case None => Ok(fname)
    case Some(uname) =>
      var rest := fname[Index(fname, '/')..];
      if |uname| > 0 then
        if uname in homes then Ok(homes[uname] + rest) else Ok(fname)
      else
        match current
        case Err(e) => Err(e)
        case Ok(home) => Ok(home + rest)
  }

  /** `~user/rest` is `rest` under that user's home when the user is known,
      and stays as it is otherwise. */
  lemma ExpandNamedUser(user: string, rest: string, homes: map<string, string>, current: Result<string>)
    requires user != [] && '/' !in user
    ensures ExpandHome("~" + user + "/" + rest, homes, current)
         == if user in homes then Ok(homes[user] + "/" + rest) else Ok("~" + user + "/" + rest)
  {
    var fname := "~" + user + "/" + rest;
    assert fname == ("~" + user) + ['/'] + rest;
    IndexAfter("~" + user, '/', rest);
    assert fname[1..|user| + 1] == user;
    assert fname[|user| + 1..] == "/" + rest;
    assert TildeUser(fname) == Some(user);
    if user in homes {
      assert homes[user] + "/" + rest == homes[user] + ("/" + rest);
    }
  }

  /** `~/rest` is `rest` under the caller's home, or the error of looking
      the caller up. */
  lemma ExpandOwnHome(rest: string, homes: map<string, string>, current: Result<string>)
    ensures ExpandHome("~/" + rest, homes, current)
         == match current case Ok(home) => Ok(home + "/" + rest) case Err(e) => Err(e)
  {
    var fname := "~/" + rest;
    assert fname == "~" + ['/'] + rest;
    IndexAfter("~", '/', rest);
    assert fname[1..] == "/" + rest;
    assert fname[1..1] == "";
    assert TildeUser(fname) == Some("");
    if current.Ok? {
      assert current.value + "/" + rest == current.value + ("/" + rest);
    }
  }

  /** Paths that do not start with `~`, and a `~` with no `/` after it, are
      not rewritten. */
  lemma ExpandUntouched(fname: string, homes: map<string, string>, current: Result<string>)
    requires fname == [] || fname[0] != '~' || '/' !in fname
    ensures ExpandHome(fname, homes, current) == Ok(fname)
  {
  }

  function OpenFailure(path: string, reason: string): string
  {
    "Unable to open '" + path + "': " + reason
  }

  /** getpassFromFile: home rewrite, then environment expansion, then the
      first line of the file; a file that cannot be opened is an error that
      names the path that was tried. */
  function FileSecret(fname: string, sys: System): (r: Result<string>)
    ensures ExpandHome(fname, sys.homes, sys.current).Err? ==> r == ExpandHome(fname, sys.homes, sys.current)
    ensures ExpandHome(fname, sys.homes, sys.current).Ok? ==>
      var path := sys.expandEnv(ExpandHome(fname, sys.homes, sys.current).value);
      match sys.open(path)
      case OpenFailed(reason) => r.Err? && IsInfix(path, r.msg) && IsInfix(reason, r.msg)
      case Contents(data) => r == Ok(FirstLine(data))
  {
    match ExpandHome(fname, sys.homes, sys.current)
    case Err(e) => Err(e)
    case Ok(expanded) =>
      var path := sys.expandEnv(expanded);
      match sys.open(path)
      case OpenFailed(reason) =>
        var msg := OpenFailure(path, reason);
        assert msg[16..16 + |path|] == path;
        assert msg[|msg| - |reason|..|msg|] == reason;
        Err(msg)
      case Contents(data) => Ok(FirstLine(data))
  }

  /** A file, reached through whatever rewrite of its name, gives its first
      line, with either terminator, whatever follows it. */
  lemma FileFirstLine(fname: string, sys: System, line: string, term: string, tail: string)
    requires ExpandHome(fname, sys.homes, sys.current).Ok?
    requires sys.open(sys.expandEnv(ExpandHome(fname, sys.homes, sys.current).value)) == Contents(line + term + tail)
    requires '\n' !in line && (line == [] || line[|line| - 1] != '\r')
    requires term == "\n" || term == "\r\n"
    ensures FileSecret(fname, sys) == Ok(line)
  {
    LineTokenOf(line, term, tail);
  }

  /** getpassFromFile as written: rewrite, expand, open, then the scanning
      loop. */
  method FromFile(fname: string, sys: System) returns (r: Result<string>)
    ensures r == FileSecret(fname, sys)
  {
    var expanded := ExpandHome(fname, sys.homes, sys.current);
    if expanded.Err? {
      return Err(expanded.msg);
    }
    var path := sys.expandEnv(expanded.value);
    var file := sys.open(path);
    if file.OpenFailed? {
      return Err(OpenFailure(path, file.reason));
    }
    var pass := ScanFirstLine(file.data);
    return Ok(pass);
  }

  // ---------------------------------------------------------------------
  // All non-interactive retrievals

  /** What `Getpass` returns for every source but `tty`. */
  function Retrieved(src: Source, sys: System): (r: Result<string>)
    requires !src.Tty?
    ensures src.Literal? ==> r == Ok(src.secret)
    ensures RunsCommand(src) ==> r.Ok? ==> Trimmed(r.value)
    ensures src.Fd? || src.File? ==> r.Ok? ==> '\n' !in r.value
  {
    match src
    case Cmd(_) => RunCommand(InvocationOf(src).argv, "", true, sys)
    case Env(name) => EnvSecret(name, sys.env)
    case Fd(num) => FdSecret(num, sys.fds)
    case File(path) => FileSecret(path, sys)
    case Keychain(_) => RunCommand(InvocationOf(src).argv, "", false, sys)
    case Lastpass(_) => RunCommand(InvocationOf(src).argv, "", false, sys)
    case Onepass(_) => RunCommand(InvocationOf(src).argv, "", false, sys)
    case Literal(s) => Ok(s)
  }

  /** Each subprocess backend runs its own invocation, with the terminal
      attached exactly when the invocation asks for it. */
  lemma RetrievedRuns(src: Source, sys: System)
    requires RunsCommand(src)
    ensures Retrieved(src, sys) == RunCommand(InvocationOf(src).argv, "", InvocationOf(src).needTty, sys)
  {
  }

  /** The dispatch to the retrievals, with the scanning loops of `fd:` and
      `file:` run as written. */
  method Retrieve(src: Source, sys: System) returns (r: Result<string>)
    requires !src.Tty?
    ensures r == Retrieved(src, sys)
  {
    match src {
      case Fd(num) =>
        r := FromFd(num, sys.fds);
      case File(path) =>
        r := FromFile(path, sys);
      case _ =>
        r := Retrieved(src, sys);
    }
  }
}
