/** What `fmt.Fprintf(w, format)` writes when it is given NO operands, as
    getpass.go does with the prompt: every run of plain text is copied,
    `%%` gives `%`, and every other directive has no operand to consume, so
    it is replaced by one of fmt's diagnostic texts. The directive grammar
    is fmt's: flags `#0+- `, an optional argument index `[n]`, a width
    (digits or `*`), an optional precision (`.` then digits or `*`), another
    optional argument index, then the verb. */
module GoFmt {
  import opened GoStrings

  const NoVerb := "%!(NOVERB)"
  const BadWidth := "%!(BADWIDTH)"
  const BadPrec := "%!(BADPREC)"

  /** fmt gives up on numbers above this many while parsing widths. */
  const TooLarge: nat := 1_000_000

  /** The scan position in the format, the diagnostics written so far for
      the current directive, and fmt's `afterIndex` and `goodArgNum` flags. */
  datatype Cursor = Cursor(pos: nat, out: string, afterIndex: bool, goodArgNum: bool)

  /** The outcome of one directive: what it writes and where the scan resumes. */
  datatype Piece = Piece(out: string, next: nat)

  /** The outcome of parsing an optional `[n]`: where the scan resumes,
      whether fmt counts it as an index (`found`), and whether there was a
      bracket at all (with no operands, every index is out of range). */
  datatype ArgIndex = ArgIndex(next: nat, found: bool, bracket: bool)

  /** The outcome of `parsenum`: whether a number was read and where it stopped. */
  datatype Num = Num(isNum: bool, next: nat)

  predicate IsFlag(c: char)
  {
    c == '#' || c == '0' || c == '+' || c == '-' || c == ' '
  }

  /** A character that, straight after `%`, is the verb itself: not a flag,
      nor the start of an index, a width or a precision, nor `%`. */
  predicate IsVerb(c: char)
  {
    !IsFlag(c) && !IsDigit(c) && c != '[' && c != '*' && c != '.' && c != '%'
  }

  function SkipFlags(f: string, i: nat): (j: nat)
    requires i <= |f|
    ensures i <= j <= |f|
    ensures forall k :: i <= k < j ==> IsFlag(f[k])
    ensures j == |f| || !IsFlag(f[j])
    decreases |f| - i
  {
    if i < |f| && IsFlag(f[i]) then SkipFlags(f, i + 1) else i
  }

  /** fmt's `parsenum(f, i, end)`: reads decimal digits; once the value read
      so far is too large it abandons the number and jumps to `end`. */
  function ParseNum(f: string, i: nat, end: nat, num: nat, isNum: bool): (n: Num)
    requires i <= end <= |f|
    ensures i <= n.next <= end
    decreases end - i
  {
    if i < end && IsDigit(f[i]) then
      if num > TooLarge then Num(false, end)
      else ParseNum(f, i + 1, end, num * 10 + (f[i] - '0') as nat, true)
    else Num(isNum, i)
  }

  /** fmt's `argNumber` with no operands: a `[` starts an index, which can
      never be in range; `parseArgNumber` skips to the first `]` (or over the
      `[` alone when there is none, or fewer than three characters left). */
  function ArgNumber(f: string, i: nat): (a: ArgIndex)
    requires i <= |f|
    ensures i <= a.next <= |f|
    ensures a.bracket <==> (i < |f| && f[i] == '[')
    ensures !a.bracket ==> a.next == i && !a.found
  {
    if i == |f| || f[i] != '[' then ArgIndex(i, false, false)
    else if |f| - i < 3 then ArgIndex(i + 1, false, true)
    else
      var k := Index(f[i + 1..], ']');
      if k == -1 then ArgIndex(i + 1, false, true)
      else
        var close := i + 1 + k;
        var n := ParseNum(f, i + 1, close, 0, false);
        ArgIndex(close + 1, n.isNum && n.next == close, true)
  }

  /** The width: `*` asks for an operand that is not there. */
  function Width(f: string, c: Cursor): (d: Cursor)
    requires c.pos <= |f|
    ensures c.pos <= d.pos <= |f|
  {
    if c.pos < |f| && f[c.pos] == '*' then
      Cursor(c.pos + 1, c.out + BadWidth, false, c.goodArgNum)
    else
      var n := ParseNum(f, c.pos, |f|, 0, false);
      Cursor(n.next, c.out, c.afterIndex, c.goodArgNum && !(c.afterIndex && n.isNum))
  }

  /** The precision, parsed when a `.` is followed by at least one character. */
  function Precision(f: string, c: Cursor): (d: Cursor)
    requires c.pos <= |f|
    ensures c.pos <= d.pos <= |f|
  {
    if c.pos + 1 < |f| && f[c.pos] == '.' then
      var a := ArgNumber(f, c.pos + 1);
      var good := c.goodArgNum && !c.afterIndex && !a.bracket;
      if a.next < |f| && f[a.next] == '*' then
        Cursor(a.next + 1, c.out + BadPrec, false, good)
      else
        Cursor(ParseNum(f, a.next, |f|, 0, false).next, c.out, a.found, good)
    else c
  }

  /** The text a verb writes when there is no operand for it. */
  function VerbText(verb: char, goodArgNum: bool): string
  {
    if verb == '%' then "%"
    else if !goodArgNum then "%!" + [verb] + "(BADINDEX)"
    else "%!" + [verb] + "(MISSING)"
  }

  /** One directive, starting just after its `%` at position `i`. */
  function Directive(f: string, i: nat): (p: Piece)
    requires i <= |f|
    ensures i <= p.next <= |f|
  {
    var a := ArgNumber(f, SkipFlags(f, i));
    var w := Width(f, Cursor(a.next, "", a.found, !a.bracket));
    var pr := Precision(f, w);
    var v :=
      if pr.afterIndex then pr
      else
        var b := ArgNumber(f, pr.pos);
        Cursor(b.next, pr.out, b.found, pr.goodArgNum && !b.bracket);
    if v.pos == |f| then Piece(v.out + NoVerb, |f|)
    else Piece(v.out + VerbText(f[v.pos], v.goodArgNum), v.pos + 1)
  }

  function FormatFrom(f: string, i: nat): string
    requires i <= |f|
    decreases |f| - i
  {
    if i == |f| then []
    else if f[i] != '%' then [f[i]] + FormatFrom(f, i + 1)
    else
      var d := Directive(f, i + 1);
      d.out + FormatFrom(f, d.next)
  }

  /** What fmt.Fprintf(w, format) writes with no operands; a format
      without `%` is written exactly as it is. */
  function Formatted(format: string): (out: string)
    ensures '%' !in format ==> out == format
  {
    if '%' !in format then
      FormatFromPlain(format, 0);
      FormatFrom(format, 0)
    else FormatFrom(format, 0)
  }

  lemma {:induction false} FormatFromPlain(f: string, i: nat)
    requires i <= |f|
    requires '%' !in f
    ensures FormatFrom(f, i) == f[i..]
    decreases |f| - i
  {
    if i < |f| {
      FormatFromPlain(f, i + 1);
      assert f[i..] == [f[i]] + f[i + 1..];
    }
  }

  /** Text before the first `%` is copied as it is. */
  lemma {:induction false} PlainPrefix(f: string, i: nat)
    requires i <= |f| && '%' !in f[..i]
    ensures Formatted(f) == f[..i] + FormatFrom(f, i)
  {
    if i > 0 {
      assert f[..i - 1] == f[..i][..i - 1];
      PlainPrefix(f, i - 1);
      assert f[i - 1] == f[..i][i - 1];
      assert f[..i] == f[..i - 1] + [f[i - 1]];
    }
  }

  /** A trailing `%` has no verb: `tty:100%` shows `100%!(NOVERB)`. */
  lemma TrailingPercent(prefix: string)
    requires '%' !in prefix
    ensures Formatted(prefix + "%") == prefix + NoVerb
  {
    var f := prefix + "%";
    var i := |prefix|;
    assert f[..i] == prefix;
    PlainPrefix(f, i);
    assert Directive(f, i + 1) == Piece(NoVerb, i + 1);
  }

  /** A verb finds no operand: `tty:PIN %s` shows `PIN %!s(MISSING)`. */
  lemma MissingOperand(prefix: string, verb: char)
    requires '%' !in prefix && IsVerb(verb)
    ensures Formatted(prefix + "%" + [verb]) == prefix + "%!" + [verb] + "(MISSING)"
  {
    var f := prefix + "%" + [verb];
    var i := |prefix|;
    assert f[..i] == prefix;
    PlainPrefix(f, i);
    LastVerb(f, i);
  }

  /** A `%` and a verb that end the format write the verb's
      diagnostic and nothing after it. */
  lemma LastVerb(f: string, i: nat)
    requires i + 2 == |f| && f[i] == '%' && IsVerb(f[i + 1])
    ensures FormatFrom(f, i) == "%!" + [f[i + 1]] + "(MISSING)"
  {
    BareVerb(f, i + 1);
    assert FormatFrom(f, i + 2) == [];
  }

  /** `%%` is the one directive that writes a plain `%`. */
  lemma EscapedPercent(prefix: string)
    requires '%' !in prefix
    ensures Formatted(prefix + "%%") == prefix + "%"
  {
    var f := prefix + "%%";
    var i := |prefix|;
    assert f[..i] == prefix;
    PlainPrefix(f, i);
    assert SkipFlags(f, i + 1) == i + 1;
    assert Directive(f, i + 1) == Piece("%", i + 2);
  }

  /** A verb straight after the `%` is a directive of its own. */
  lemma BareVerb(f: string, i: nat)
    requires i < |f| && IsVerb(f[i])
    ensures Directive(f, i) == Piece("%!" + [f[i]] + "(MISSING)", i + 1)
  {
    assert SkipFlags(f, i) == i;
    assert ArgNumber(f, i) == ArgIndex(i, false, false);
    var w := Width(f, Cursor(i, "", false, true));
    assert w == Cursor(i, "", false, true);
  }
}
