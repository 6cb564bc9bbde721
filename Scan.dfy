/** bufio.Scanner with its default split function, bufio.ScanLines, over a
    stream whose bytes up to end-of-file (or up to the first read error,
    which the scanner treats alike) are `data`. */
module Scan {
  import opened GoStrings

  /** ScanLines' dropCR: a final carriage return is not part of the line. */
  function DropCR(s: string): (r: string)
    ensures r == s || (s == r + "\r")
    ensures |s| > 0 && s[|s| - 1] == '\r' ==> r == s[..|s| - 1]
  {
    if |s| > 0 && s[|s| - 1] == '\r' then s[..|s| - 1] else s
  }

  /** How much of `data` the first token consumes: through the first
      newline, or everything when there is none. */
  function Advance(data: string): (n: nat)
    ensures n <= |data|
    ensures '\n' in data ==> n > 0 && data[n - 1] == '\n' && '\n' !in data[..n - 1]
    ensures '\n' !in data ==> n == |data|
  {
    var i := Index(data, '\n');
    if i == -1 then |data| else i + 1
  }

  /** The first token ScanLines cuts from `data`. */
  function LineToken(data: string): (tok: string)
    ensures '\n' !in tok
    ensures |tok| <= |data| && data[..|tok|] == tok
    ensures var after := data[|tok|..Advance(data)];
      after == [] || after == "\r" || after == "\n" || after == "\r\n"
    ensures var after := data[|tok|..Advance(data)];
      (after == [] || after == "\n") ==> tok == [] || tok[|tok| - 1] != '\r'
  {
    var n := Advance(data);
    var line := if '\n' in data then data[..n - 1] else data;
    var tok := DropCR(line);
    assert data[..|line|] == line;
    assert data[..|tok|] == tok by { assert line[..|tok|] == tok; }
    tok
  }

  /** A line and its terminator, newline or carriage-return newline, are
      read back as that line whatever follows them. */
  lemma LineTokenOf(line: string, term: string, tail: string)
    requires '\n' !in line && (line == [] || line[|line| - 1] != '\r')
    requires term == "\n" || term == "\r\n"
    ensures LineToken(line + term + tail) == line
    ensures Advance(line + term + tail) == |line| + |term|
  {
    var data := line + term + tail;
    // the text before the newline: the line, with the carriage return of `\r\n`
    var pre := if term == "\n" then line else line + "\r";
    assert data == pre + ['\n'] + tail by {
      if term == "\r\n" {
        assert term == "\r" + ['\n'];
      }
    }
    assert '\n' !in pre;
    IndexAfter(pre, '\n', tail);
    assert data[..|pre|] == pre;
    assert DropCR(pre) == line;
  }

  /** A last line without a terminator is read as it is. */
  lemma LastLineTokenOf(line: string)
    requires line != [] && '\n' !in line && line[|line| - 1] != '\r'
    ensures LineToken(line) == line
  {
  }

  /** A carriage return that ends the data is dropped like one before a
      newline. */
  lemma LastLineCR(line: string)
    requires '\n' !in line
    ensures LineToken(line + "\r") == line
  {
    assert '\n' !in line + "\r";
    assert (line + "\r")[..|line|] == line;
  }

  /** The scanner: what it has not consumed yet, and the last token. */
  class Scanner {
    var rest: string
    var token: string

    constructor (data: string)
      ensures rest == data && token == ""
    {
      rest := data;
      token := "";
    }

    /** Scanner.Text */
    function Text(): string
      reads this
    {
      token
    }

    /** Scanner.Scan: cuts the next line off `rest`; false once nothing is left. */
    method Scan() returns (ok: bool)
      modifies this
      ensures ok <==> old(rest) != []
      ensures ok ==> token == LineToken(old(rest)) && rest == old(rest)[Advance(old(rest))..]
      ensures !ok ==> token == "" && rest == old(rest)
    {
      if rest == [] {
        token := "";
        return false;
      }
      token := LineToken(rest);
      rest := rest[Advance(rest)..];
      return true;
    }
  }

  /** What the scanning loops of getpassFromFd and getpassFromFile leave in
      `pass`: the first line, or "" when nothing was scanned. */
  function FirstLine(data: string): (pass: string)
    ensures '\n' !in pass
    ensures |pass| <= |data| && data[..|pass|] == pass
  {
    if data == [] then "" else LineToken(data)
  }

  /** That scanning loop: it keeps the first token and leaves after one
      iteration. */
  method ScanFirstLine(data: string) returns (pass: string)
    ensures pass == FirstLine(data)
  {
    var scanner := new Scanner(data);
    pass := "";
    var more := scanner.Scan();
    while more
      invariant more ==> data != [] && scanner.token == LineToken(data)
      invariant !more ==> pass == FirstLine(data)
      decreases more
    {
      pass := scanner.Text();
      more := false;  // getpass.go breaks out after the first line
    }
  }
}
