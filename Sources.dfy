/** The source-spec resolver: how `Getpass(passfrom...)` reads its optional
    `scheme:argument` string and which retrieval it dispatches to
    (getpass.go:73-127). The retrievals themselves are in Backends and
    Interactive; here each is named by a `Source`. */
module Sources {
  import opened Base
  import opened GoStrings

  const DefaultPrompt := "Password: "
  const ErrArgCount := "invalid number of arguments for Getpass"
  const ErrSource := "invalid password source"
  const ErrStdinArg := "'stdin' takes no argument"

  /** One retrieval, with the argument the resolver hands it. `stdin`
      resolves to `Fd("0")`; `lastpass` and `onepass` resolve to the same
      sources as `lpass` and `op`. */
  datatype Source =
    | Cmd(command: string)
    | Env(name: string)
    | Fd(num: string)
    | File(path: string)
    | Keychain(entry: string)
    | Lastpass(entry: string)
    | Onepass(entry: string)
    | Literal(secret: string)
    | Tty(prompt: string)

  /** Getpass's parse and dispatch: at most one argument; the argument is
      split at its first colon; only `tty` and `stdin` may come without one. */
  function Resolve(passfrom: seq<string>): (r: Result<Source>)
    ensures |passfrom| > 1 <==> r == Err(ErrArgCount)
    ensures |passfrom| == 0 ==> r == Ok(Tty(DefaultPrompt))
    ensures r.Err? ==> r.msg == ErrArgCount || r.msg == ErrSource || r.msg == ErrStdinArg
  {
    if |passfrom| > 1 then Err(ErrArgCount)
    else if |passfrom| == 0 then Dispatch("tty", None)
    else
      var passin := SplitFirst(passfrom[0], ':');
      if |passin| < 2 && passfrom[0] != "tty" && passfrom[0] != "stdin" then Err(ErrSource)
      else Dispatch(passin[0], if |passin| == 2 then Some(passin[1]) else None)
  }

  /** The switch over the scheme; `arg` is the text after the first colon,
      absent only for bare `tty` and `stdin` (and for no argument at all). */
  function Dispatch(source: string, arg: Option<string>): (r: Result<Source>)
    requires arg.None? ==> source == "tty" || source == "stdin"
    ensures r.Err? ==> r.msg == ErrSource || r.msg == ErrStdinArg
  {
    match source
    case "cmd" => Ok(Cmd(arg.value))
    case "env" => Ok(Env(arg.value))
    case "fd" => Ok(Fd(arg.value))
    case "file" => Ok(File(arg.value))
    case "keychain" => Ok(Keychain(arg.value))
    case "lastpass" => Ok(Lastpass(arg.value))
    case "lpass" => Ok(Lastpass(arg.value))
    case "onepass" => Ok(Onepass(arg.value))
    case "op" => Ok(Onepass(arg.value))
    case "pass" => Ok(Literal(arg.value))
    case "stdin" => if arg.Some? then Err(ErrStdinArg) else Ok(Fd("0"))
    case "tty" => Ok(Tty(if arg.Some? then arg.value else DefaultPrompt))
    case _ => Err(ErrSource)
  }

  /** The `scheme:argument` string. */
  function Spell(scheme: string, arg: string): (s: string)
    requires ':' !in scheme
    ensures SplitFirst(s, ':') == [scheme, arg]
  {
    SplitFirstOf(scheme, ':', arg);
    scheme + ":" + arg
  }

  /** A string with a colon resolves through the text before and after its
      first colon. */
  lemma ResolveSplit(scheme: string, arg: string)
    requires ':' !in scheme
    ensures Resolve([Spell(scheme, arg)]) == Dispatch(scheme, Some(arg))
  {
  }

  /** A string without a colon resolves only as bare `tty` or `stdin`. */
  lemma ResolveBare(s: string)
    requires ':' !in s
    ensures Resolve([s]) == if s == "tty" || s == "stdin" then Dispatch(s, None) else Err(ErrSource)
  {
  }

  /** Every scheme the resolver knows, aliases included. */
  const Schemes: set<string> :=
    {"cmd", "env", "fd", "file", "keychain", "lastpass", "lpass", "onepass", "op", "pass", "stdin", "tty"}

  /** The documented scheme of each source (lpass and op for the aliased ones). */
  function Scheme(src: Source): (s: string)
    ensures s in Schemes && ':' !in s
  {
    match src
    case Cmd(_) => "cmd"
    case Env(_) => "env"
    case Fd(_) => "fd"
    case File(_) => "file"
    case Keychain(_) => "keychain"
    case Lastpass(_) => "lpass"
    case Onepass(_) => "op"
    case Literal(_) => "pass"
    case Tty(_) => "tty"
  }

  function Argument(src: Source): string
  {
    match src
    case Cmd(c) => c
    case Env(v) => v
    case Fd(n) => n
    case File(p) => p
    case Keychain(e) => e
    case Lastpass(e) => e
    case Onepass(e) => e
    case Literal(s) => s
    case Tty(p) => p
  }

  /** The canonical `scheme:argument` spelling of a source. */
  function Render(src: Source): (s: string)
    ensures SplitFirst(s, ':') == [Scheme(src), Argument(src)]
  {
    Spell(Scheme(src), Argument(src))
  }

  /** Every string that resolves to `src`: its canonical spelling, the alias
      schemes, bare `stdin` for descriptor 0 and bare `tty` for the default
      prompt. */
  function Spellings(src: Source): (sp: set<string>)
    ensures Render(src) in sp
    ensures forall s :: s in sp ==> s == Render(src) || s == "stdin" || s == "tty" || ':' in s
  {
    {Render(src)} +
    match src
    case Lastpass(e) => {Spell("lastpass", e)}
    case Onepass(e) => {Spell("onepass", e)}
    case Fd(n) => if n == "0" then {"stdin"} else {}
    case Tty(p) => if p == DefaultPrompt then {"tty"} else {}
    case _ => {}
  }

  /** Resolving the canonical spelling gives the source back, whatever its
      argument holds (colons, nothing at all). */
  lemma ResolveRender(src: Source)
    ensures Resolve([Render(src)]) == Ok(src)
  {
    ResolveSplit(Scheme(src), Argument(src));
    DispatchKnown(Argument(src));
    assert Dispatch(Scheme(src), Some(Argument(src))) == Ok(src) by {
      match src
      case Cmd(c) =>
      case Env(v) =>
      case Fd(n) =>
      case File(p) =>
      case Keychain(e) =>
      case Lastpass(e) =>
      case Onepass(e) =>
      case Literal(x) =>
      case Tty(p) =>
    }
  }

  /** The schemes the resolver knows, each with what it dispatches to. */
  lemma DispatchKnown(arg: string)
    ensures Dispatch("cmd", Some(arg)) == Ok(Cmd(arg))
    ensures Dispatch("env", Some(arg)) == Ok(Env(arg))
    ensures Dispatch("fd", Some(arg)) == Ok(Fd(arg))
    ensures Dispatch("file", Some(arg)) == Ok(File(arg))
    ensures Dispatch("keychain", Some(arg)) == Ok(Keychain(arg))
    ensures Dispatch("lastpass", Some(arg)) == Dispatch("lpass", Some(arg)) == Ok(Lastpass(arg))
    ensures Dispatch("onepass", Some(arg)) == Dispatch("op", Some(arg)) == Ok(Onepass(arg))
    ensures Dispatch("pass", Some(arg)) == Ok(Literal(arg))
    ensures Dispatch("stdin", Some(arg)) == Err(ErrStdinArg)
    ensures Dispatch("tty", Some(arg)) == Ok(Tty(arg))
  {
  }

  /** `lastpass` is `lpass`. */
  lemma LastpassAlias(e: string)
    ensures Resolve([Spell("lastpass", e)]) == Resolve([Spell("lpass", e)]) == Ok(Lastpass(e))
  {
    DispatchKnown(e);
    ResolveSplit("lastpass", e);
    ResolveSplit("lpass", e);
  }

  /** `onepass` is `op`. */
  lemma OnepassAlias(e: string)
    ensures Resolve([Spell("onepass", e)]) == Resolve([Spell("op", e)]) == Ok(Onepass(e))
  {
    DispatchKnown(e);
    ResolveSplit("onepass", e);
    ResolveSplit("op", e);
  }

  /** The spellings of `src`, one by one. */
  lemma SpellingCases(src: Source, s: string)
    requires s in Spellings(src)
    ensures || s == Render(src)
            || (src.Lastpass? && s == Spell("lastpass", src.entry))
            || (src.Onepass? && s == Spell("onepass", src.entry))
            || (src == Fd("0") && s == "stdin")
            || (src == Tty(DefaultPrompt) && s == "tty")
  {
  }

  /** Each spelling of `src` resolves to `src`. */
  lemma ResolveSpelling(src: Source, s: string)
    requires s in Spellings(src)
    ensures Resolve([s]) == Ok(src)
  {
    SpellingCases(src, s);
    if s == Render(src) {
      ResolveRender(src);
    } else if src.Lastpass? {
      LastpassAlias(src.entry);
    } else if src.Onepass? {
      OnepassAlias(src.entry);
    } else if src.Fd? {
      StdinIsFdZero("");
    } else {
      TtyPrompt("");
    }
  }

  /** What a successful dispatch of `scheme` with an argument tells about them. */
  lemma DispatchInverse(scheme: string, arg: string, src: Source)
    requires Dispatch(scheme, Some(arg)) == Ok(src)
    ensures Argument(src) == arg
    ensures scheme == Scheme(src)
         || (scheme == "lastpass" && src.Lastpass?)
         || (scheme == "onepass" && src.Onepass?)
  {
  }

  /** A scheme and argument that dispatch to `src` spell `src`. */
  lemma DispatchSpelling(scheme: string, arg: string, src: Source)
    requires ':' !in scheme && Dispatch(scheme, Some(arg)) == Ok(src)
    ensures Spell(scheme, arg) in Spellings(src)
  {
    DispatchInverse(scheme, arg, src);
  }

  /** A colon-free string that resolves to `src` spells `src`. */
  lemma BareSpelling(s: string, src: Source)
    requires ':' !in s && Resolve([s]) == Ok(src)
    ensures s in Spellings(src)
  {
    ResolveBare(s);
    if s == "stdin" {
      StdinIsFdZero("");
    } else {
      TtyPrompt("");
    }
  }

  /** Only the spellings of `src` resolve to `src`. */
  lemma ResolveOnlySpellings(s: string, src: Source)
    requires Resolve([s]) == Ok(src)
    ensures s in Spellings(src)
  {
    var passin := SplitFirst(s, ':');
    if |passin| == 2 {
      assert s == Spell(passin[0], passin[1]);
      ResolveSplit(passin[0], passin[1]);
      DispatchSpelling(passin[0], passin[1], src);
    } else {
      BareSpelling(s, src);
    }
  }

  /** The resolver is exactly the inverse of the spelling relation. */
  lemma ResolveIff(s: string, src: Source)
    ensures Resolve([s]) == Ok(src) <==> s in Spellings(src)
  {
    if s in Spellings(src) {
      ResolveSpelling(src, s);
    }
    if Resolve([s]) == Ok(src) {
      ResolveOnlySpellings(s, src);
    }
  }

  /** No argument, bare `tty` and `tty:Password: ` all prompt with the
      default; `tty:P` prompts with `P` as it is, even when it is empty. */
  lemma TtyPrompt(p: string)
    ensures Resolve([]) == Resolve(["tty"]) == Ok(Tty(DefaultPrompt))
    ensures Resolve([Spell("tty", p)]) == Ok(Tty(p))
  {
    ResolveBare("tty");
    DispatchKnown(p);
    ResolveSplit("tty", p);
  }

  /** `pass:X` is the secret X, colons and all, and never an error. */
  lemma PassVerbatim(x: string)
    ensures Resolve([Spell("pass", x)]) == Ok(Literal(x))
  {
    DispatchKnown(x);
    ResolveSplit("pass", x);
  }

  /** Bare `stdin` is descriptor 0. */
  lemma BareStdin()
    ensures Resolve(["stdin"]) == Ok(Fd("0"))
  {
    ResolveBare("stdin");
  }

  /** `fd:0` is descriptor 0. */
  lemma FdZero()
    ensures Resolve([Spell("fd", "0")]) == Ok(Fd("0"))
  {
    DispatchKnown("0");
    ResolveSplit("fd", "0");
  }

  /** `stdin:` with any argument is refused. */
  lemma StdinWithArgument(arg: string)
    ensures Resolve([Spell("stdin", arg)]) == Err(ErrStdinArg)
  {
    DispatchKnown(arg);
    ResolveSplit("stdin", arg);
  }

  /** `stdin` is `fd:0`, and takes no argument, not even an empty one. */
  lemma StdinIsFdZero(arg: string)
    ensures Resolve(["stdin"]) == Resolve([Spell("fd", "0")]) == Ok(Fd("0"))
    ensures Resolve([Spell("stdin", arg)]) == Err(ErrStdinArg)
  {
    BareStdin();
    FdZero();
    StdinWithArgument(arg);
  }

  /** Without a colon, anything but `tty` and `stdin` is an invalid source. */
  lemma ColonFreeInvalid(s: string)
    requires ':' !in s && s != "tty" && s != "stdin"
    ensures Resolve([s]) == Err(ErrSource)
  {
    ResolveBare(s);
  }

  /** Any scheme but the known ones dispatches to an invalid source. */
  lemma DispatchUnknown(scheme: string, arg: string)
    requires scheme !in Schemes
    ensures Dispatch(scheme, Some(arg)) == Err(ErrSource)
  {
  }

  /** An unknown scheme is an invalid source, whatever its argument. */
  lemma UnknownSchemeInvalid(scheme: string, arg: string)
    requires ':' !in scheme && scheme !in Schemes
    ensures Resolve([Spell(scheme, arg)]) == Err(ErrSource)
  {
    DispatchUnknown(scheme, arg);
    ResolveSplit(scheme, arg);
  }
}
