/** Python 3's `repr` of a `str`, as used by the `{!r}` conversion in the resolver's
    error message, and the reading of such a literal back into the string it names. */
module PyRepr {
  import opened PyValues

  predicate IsQuote(q: char) { q == '\'' || q == '"' }

  /** The quote `repr` wraps the text in: a double quote only when the text holds a
      single quote and no double quote. */
  function Quote(s: string): (q: char)
    ensures IsQuote(q)
  {
    if '\'' in s && '"' !in s then '"' else '\''
  }

  /** Characters `repr` writes as a `\xhh` escape: the C0 controls, DEL, the C1 controls,
      the no-break space and the soft hyphen. */
  predicate HexEscaped(c: char) {
    c as int < 0x20 || (0x7f <= c as int <= 0xa0) || c as int == 0xad
  }

  function HexDigit(n: nat): (d: char)
    requires n < 16
    ensures IsHexDigit(d) && HexValue(d) == n
  {
    if n < 10 then ('0' as int + n) as char else ('a' as int + n - 10) as char
  }

  predicate IsHexDigit(d: char) { '0' <= d <= '9' || 'a' <= d <= 'f' || 'A' <= d <= 'F' }

  function HexValue(d: char): nat
    requires IsHexDigit(d)
  {
    if '0' <= d <= '9' then d as int - '0' as int
    else if 'a' <= d <= 'f' then d as int - 'a' as int + 10
    else d as int - 'A' as int + 10
  }

  /** How one character of the text is written between quotes `q`. */
  function Escape(c: char, q: char): string {
    if c == q || c == '\\' then ['\\', c]
    else if c == '\t' then "\\t"
    else if c == '\n' then "\\n"
    else if c == '\r' then "\\r"
    else if HexEscaped(c) then ['\\', 'x', HexDigit(c as int / 16), HexDigit(c as int % 16)]
    else [c]
  }

  function Body(s: string, q: char): string {
    if s == [] then [] else Escape(s[0], q) + Body(s[1..], q)
  }

  /** `repr(s)` for a Python 3 `str`. */
  function Repr(s: string): string {
    var q := Quote(s);
    [q] + Body(s, q) + [q]
  }

  /** Reads the inside of a literal quoted by `q` back into the string it denotes;
      `None` when it is not one (a bare quote, a dangling or unknown escape). */
  function Unescape(b: string, q: char): Option<string>
    decreases |b|
  {
    if b == [] then Some([])
    else if b[0] == q then None
    else if b[0] != '\\' then Prepend(b[0], Unescape(b[1..], q))
    else if |b| < 2 then None
    else if b[1] == '\\' || b[1] == '\'' || b[1] == '"' then Prepend(b[1], Unescape(b[2..], q))
    else if b[1] == 't' then Prepend('\t', Unescape(b[2..], q))
    else if b[1] == 'n' then Prepend('\n', Unescape(b[2..], q))
    else if b[1] == 'r' then Prepend('\r', Unescape(b[2..], q))
    else if b[1] == 'x' && |b| >= 4 && IsHexDigit(b[2]) && IsHexDigit(b[3]) then
      Prepend((HexValue(b[2]) * 16 + HexValue(b[3])) as char, Unescape(b[4..], q))
    else None
  }

  function Prepend(c: char, rest: Option<string>): Option<string> {
    match rest
    case None => None
    case Some(t) => Some([c] + t)
  }

  /** Reads a quoted literal back into the string it denotes. */
  function Unrepr(r: string): Option<string> {
    if |r| >= 2 && IsQuote(r[0]) && r[|r| - 1] == r[0] then Unescape(r[1..|r| - 1], r[0])
    else None
  }

  lemma UnescapeEscape(c: char, q: char, rest: string)
    requires IsQuote(q)
    ensures Unescape(Escape(c, q) + rest, q) == Prepend(c, Unescape(rest, q))
  {
    var e := Escape(c, q);
    var b := e + rest;
    if c == q || c == '\\' {
      assert b[2..] == rest;
    } else if c == '\t' || c == '\n' || c == '\r' {
      assert b[2..] == rest;
    } else if HexEscaped(c) {
      var hi, lo := c as int / 16, c as int % 16;
      assert b[4..] == rest;
      assert b[2] == HexDigit(hi) && b[3] == HexDigit(lo);
      assert (hi * 16 + lo) as char == c;
    } else {
      assert b[0] == c && b[1..] == rest;
    }
  }

  /** Reading the escaped text back gives the original text. */
  lemma {:induction false} UnescapeBody(s: string, q: char)
    requires IsQuote(q)
    ensures Unescape(Body(s, q), q) == Some(s)
  {
    if s != [] {
      UnescapeBody(s[1..], q);
      UnescapeEscape(s[0], q, Body(s[1..], q));
      assert [s[0]] + s[1..] == s;
    }
  }

  /** `repr` loses nothing: the literal it writes reads back as the original string. */
  lemma ReprRoundTrip(s: string)
    ensures Unrepr(Repr(s)) == Some(s)
  {
    var q := Quote(s);
    var r := Repr(s);
    assert r[1..|r| - 1] == Body(s, q);
    UnescapeBody(s, q);
  }

  /** A character `repr` copies unchanged between single quotes. */
  predicate Plain(c: char) {
    c != '\'' && c != '\\' && !HexEscaped(c)
  }

  /** A string of plain characters is shown as itself between single quotes. */
  lemma {:induction false} ReprOfPlain(s: string)
    requires forall i :: 0 <= i < |s| ==> Plain(s[i])
    ensures Repr(s) == "'" + s + "'"
  {
    BodyOfPlain(s);
  }

  lemma {:induction false} BodyOfPlain(s: string)
    requires forall i :: 0 <= i < |s| ==> Plain(s[i])
    ensures Body(s, '\'') == s
  {
    if s != [] {
      assert Plain(s[0]);
      BodyOfPlain(s[1..]);
      assert [s[0]] + s[1..] == s;
    }
  }
}
