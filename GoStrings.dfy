/** The pieces of Go's `strings`, `unicode` and `strconv` packages that
    getpass.go relies on, over `string` = `seq<char>` (one char per rune). */
module GoStrings {
  import opened Base

  // ---------------------------------------------------------------------
  // strings.Index for a one-character separator

  /** Position of the first `c` in `s`, or -1 when there is none. */
  function Index(s: string, c: char): (i: int)
    ensures -1 <= i < |s|
    ensures i == -1 <==> c !in s
    ensures 0 <= i ==> s[i] == c && c !in s[..i]
  {
    if s == [] then -1
    else if s[0] == c then 0
    else
      var j := Index(s[1..], c);
      if j == -1 then -1 else j + 1
  }

  /** The first `c` in `prefix + [c] + rest` is the one after `prefix`. */
  lemma {:induction false} IndexAfter(prefix: string, c: char, rest: string)
    requires c !in prefix
    ensures Index(prefix + [c] + rest, c) == |prefix|
  {
    var s := prefix + [c] + rest;
    assert s[|prefix|] == c;
    assert s[..|prefix|] == prefix;
  }

  // ---------------------------------------------------------------------
  // strings.SplitN(s, sep, 2)

  /** `strings.SplitN(s, string(sep), 2)`: the whole of `s` when it holds no
      `sep`, otherwise the text before the first `sep` and the text after it. */
  function SplitFirst(s: string, sep: char): (parts: seq<string>)
    ensures 1 <= |parts| <= 2
    ensures |parts| == 1 <==> sep !in s
    ensures |parts| == 1 ==> parts[0] == s
    ensures |parts| == 2 ==> s == parts[0] + [sep] + parts[1] && sep !in parts[0]
  {
    var i := Index(s, sep);
    if i == -1 then [s]
    else
      assert s == s[..i] + [sep] + s[i + 1..];
      [s[..i], s[i + 1..]]
  }

  /** Splitting undoes `head + [sep] + tail` whenever `head` holds no `sep`,
      whatever `tail` holds. */
  lemma SplitFirstOf(head: string, sep: char, tail: string)
    requires sep !in head
    ensures SplitFirst(head + [sep] + tail, sep) == [head, tail]
  {
    var s := head + [sep] + tail;
    IndexAfter(head, sep, tail);
    assert s[..|head|] == head;
    assert s[|head| + 1..] == tail;
  }

  // ---------------------------------------------------------------------
  // strings.Join

  function Join(parts: seq<string>, sep: string): (r: string)
    ensures parts == [] ==> r == []
    ensures |parts| == 1 ==> r == parts[0]
  {
    if parts == [] then []
    else if |parts| == 1 then parts[0]
    else parts[0] + sep + Join(parts[1..], sep)
  }

  /** Every element appears in the joined text. */
  lemma {:induction false} JoinHoldsEach(parts: seq<string>, sep: string, k: nat)
    requires k < |parts|
    ensures IsInfix(parts[k], Join(parts, sep))
  {
    var r := Join(parts, sep);
    if |parts| == 1 {
      assert r[0..|r|] == parts[k];
    } else if k == 0 {
      assert r[0..|parts[0]|] == parts[0];
    } else {
      JoinHoldsEach(parts[1..], sep, k - 1);
      var t := Join(parts[1..], sep);
      var i, j :| 0 <= i <= j <= |t| && t[i..j] == parts[1..][k - 1];
      var off := |parts[0]| + |sep|;
      assert r == parts[0] + sep + t;
      assert r[off + i..off + j] == t[i..j];
    }
  }

  // ---------------------------------------------------------------------
  // unicode.IsSpace and strings.TrimSpace

  /** unicode.IsSpace: the Latin-1 spaces and the other White_Space runes. */
  predicate IsSpace(c: char)
  {
    c == '\t' || c == '\n' || c == '\U{000B}' || c == '\U{000C}' || c == '\r' || c == ' '
    || c == '\U{0085}' || c == '\U{00A0}' || c == '\U{1680}'
    || ('\U{2000}' <= c <= '\U{200A}')
    || c == '\U{2028}' || c == '\U{2029}' || c == '\U{202F}' || c == '\U{205F}' || c == '\U{3000}'
  }

  ghost predicate AllSpace(s: string)
  {
    forall k :: 0 <= k < |s| ==> IsSpace(s[k])
  }

  /** Neither end of `s` is a space. */
  predicate Trimmed(s: string)
  {
    s == [] || (!IsSpace(s[0]) && !IsSpace(s[|s| - 1]))
  }

  /** Drops the leading spaces: what is left is a suffix that starts with a
      non-space, and everything dropped was a space. */
  function TrimLeft(s: string): (r: string)
    ensures |r| <= |s| && r == s[|s| - |r|..]
    ensures AllSpace(s[..|s| - |r|])
    ensures r == [] || !IsSpace(r[0])
  {
    if s != [] && IsSpace(s[0]) then
      var r := TrimLeft(s[1..]);
      assert s[1..][|s| - 1 - |r|..] == s[|s| - |r|..];
      assert forall k :: 1 <= k < |s| - |r| ==> s[k] == s[1..][..|s| - 1 - |r|][k - 1];
      r
    else s
  }

  /** Drops the trailing spaces: what is left is a prefix that ends with a
      non-space, and everything dropped was a space. */
  function TrimRight(s: string): (r: string)
    ensures |r| <= |s| && r == s[..|r|]
    ensures AllSpace(s[|r|..])
    ensures r == [] || !IsSpace(r[|r| - 1])
  {
    if s != [] && IsSpace(s[|s| - 1]) then
      var r := TrimRight(s[..|s| - 1]);
      assert s[..|s| - 1][..|r|] == s[..|r|];
      assert forall k :: |r| <= k < |s| - 1 ==> s[k] == s[..|s| - 1][|r|..][k - |r|];
      r
    else s
  }

  /** `r` is `s` without its leading and trailing spaces: a slice of `s`
      with no space at either end and only spaces around it. */
  ghost predicate IsTrimOf(r: string, s: string)
  {
    Trimmed(r) && exists i, j :: 0 <= i <= j <= |s| && s[i..j] == r && AllSpace(s[..i]) && AllSpace(s[j..])
  }

  /** strings.TrimSpace: `s` with its leading and trailing spaces removed. */
  function TrimSpace(s: string): (r: string)
    ensures IsTrimOf(r, s)
  {
    var t := TrimLeft(s);
    var r := TrimRight(t);
    var i := |s| - |t|;
    assert s[i..i + |r|] == r;
    assert s[i + |r|..] == t[|r|..];
    r
  }

  lemma {:induction false} TrimLeftOf(a: string, t: string)
    requires AllSpace(a)
    requires t == [] || !IsSpace(t[0])
    ensures TrimLeft(a + t) == t
  {
    if a != [] {
      assert (a + t)[1..] == a[1..] + t;
      TrimLeftOf(a[1..], t);
    } else {
      assert a + t == t;
    }
  }

  lemma {:induction false} TrimRightOf(t: string, b: string)
    requires AllSpace(b)
    requires t == [] || !IsSpace(t[|t| - 1])
    ensures TrimRight(t + b) == t
  {
    if b != [] {
      assert (t + b)[..|t + b| - 1] == t + b[..|b| - 1];
      TrimRightOf(t, b[..|b| - 1]);
    } else {
      assert t + b == t;
    }
  }

  /** TrimSpace is determined by its contract: spaces around a trimmed core
      are exactly what it removes. */
  lemma TrimSpaceOf(a: string, core: string, b: string)
    requires AllSpace(a) && AllSpace(b) && Trimmed(core)
    ensures TrimSpace(a + core + b) == core
  {
    if core == [] {
      assert a + core + b == a + b;
      TrimLeftOf(a + b, []);
      assert a + b + [] == a + b;
      assert AllSpace(a + b);
    } else {
      assert a + core + b == a + (core + b);
      TrimLeftOf(a, core + b);
      TrimRightOf(core, b);
    }
  }

  /** There is only one way to trim a string: whatever IsTrimOf admits is
      what TrimSpace gives. */
  lemma TrimSpaceUnique(r: string, s: string)
    requires IsTrimOf(r, s)
    ensures TrimSpace(s) == r
  {
    var i, j :| 0 <= i <= j <= |s| && s[i..j] == r && AllSpace(s[..i]) && AllSpace(s[j..]);
    Slices(s, i, j);
    TrimSpaceOf(s[..i], s[i..j], s[j..]);
  }

  /** Cutting a string at two points and joining the pieces gives it back. */
  lemma Slices(s: string, i: nat, j: nat)
    requires i <= j <= |s|
    ensures s[..i] + s[i..j] + s[j..] == s
  {
  }

  /** Below U+0080 the spaces are Go's ASCII set: tab, newline, vertical
      tab, form feed, carriage return and space. */
  lemma AsciiSpace(c: char)
    requires c < '\U{0080}'
    ensures IsSpace(c) <==> c in "\t\n\U{000B}\U{000C}\r "
  {
  }

  // ---------------------------------------------------------------------
  // strconv.Atoi / strconv.Itoa on a 64-bit platform

  const MinInt: int := -0x8000_0000_0000_0000
  const MaxInt: int := 0x7FFF_FFFF_FFFF_FFFF

  predicate IsDigit(c: char) { '0' <= c <= '9' }

  predicate AllDigits(s: string)
  {
    forall k :: 0 <= k < |s| ==> IsDigit(s[k])
  }

  /** The decimal value of a digit string, most significant digit first. */
  function DigitsValue(s: string): (v: nat)
    requires AllDigits(s)
  {
    if s == [] then 0
    else DigitsValue(s[..|s| - 1]) * 10 + (s[|s| - 1] - '0') as nat
  }

  /** strconv.Atoi: an optional sign followed by at least one decimal digit,
      whose value fits in a Go `int`; anything else is an error. */
  function Atoi(s: string): (r: Option<int>)
    ensures r.Some? ==> MinInt <= r.value <= MaxInt
    ensures r.Some? ==> s != [] && AllDigits(s[1..]) && (IsDigit(s[0]) || s[0] == '+' || s[0] == '-')
    ensures r.Some? ==> |s| > 1 || IsDigit(s[0])
  {
    if s == [] then None
    else
      var neg := s[0] == '-';
      var digits := if s[0] == '+' || s[0] == '-' then s[1..] else s;
      if digits == [] || !AllDigits(digits) then None
      else
        var v: int := if neg then -(DigitsValue(digits) as int) else DigitsValue(digits);
        if v < MinInt || MaxInt < v then None else Some(v)
  }

  function DigitChar(d: nat): (c: char)
    requires d < 10
    ensures IsDigit(c) && (c - '0') as nat == d
  {
    ('0' as int + d) as char
  }

  /** The decimal digits of `n`, without leading zeros. */
  function Digits(n: nat): (s: string)
    ensures s != [] && AllDigits(s)
  {
    if n < 10 then [DigitChar(n)] else Digits(n / 10) + [DigitChar(n % 10)]
  }

  /** strconv.Itoa */
  function Itoa(n: int): (s: string)
    ensures s != []
  {
    if n < 0 then "-" + Digits(-n) else Digits(n)
  }

  lemma {:induction false} DigitsValueOf(n: nat)
    ensures DigitsValue(Digits(n)) == n
  {
    if n >= 10 {
      var s := Digits(n);
      assert s[..|s| - 1] == Digits(n / 10);
      DigitsValueOf(n / 10);
    }
  }

  /** Atoi on an optional sign followed by decimal digits: the value when
      it fits in a Go `int`, leading zeros included (`05`, `+5` and `-0` all
      parse), and a range error otherwise. */
  lemma AtoiDigits(sign: string, d: string)
    requires sign == "" || sign == "+" || sign == "-"
    requires d != [] && AllDigits(d)
    ensures var v := if sign == "-" then -(DigitsValue(d) as int) else DigitsValue(d);
      Atoi(sign + d) == if MinInt <= v <= MaxInt then Some(v) else None
  {
    var s := sign + d;
    if sign == "" {
      assert s == d;
    } else {
      assert s[1..] == d;
    }
  }

  /** Atoi reads back every integer Itoa writes (as `fd:%d` is read back). */
  lemma AtoiItoa(n: int)
    requires MinInt <= n <= MaxInt
    ensures Atoi(Itoa(n)) == Some(n)
  {
    var s := Itoa(n);
    if n < 0 {
      var d := Digits(-n);
      assert s == "-" + d;
      assert s[0] == '-' && s[1..] == d;
      DigitsValueOf(-n);
    } else {
      var d := Digits(n);
      assert s == d && IsDigit(s[0]);
      DigitsValueOf(n);
    }
  }
}
