/**
 * The two Python string built-ins the core relies on: `str.strip()` (applied to every
 * provider answer) and `repr` of a list of strings (what an f-string writes when the
 * excluded-move list is interpolated into the prompt). Each comes with an independent
 * characterisation: strip by its margins, repr by a decoder that reads it back.
 */
module PyText {
  import opened Options

  /** Python's `str.isspace()` for a single character. */
  predicate IsSpace(c: char) {
    var n := c as int;
    (9 <= n <= 13) || (28 <= n <= 32) || n == 0x85 || n == 0xA0 || n == 0x1680
    || (0x2000 <= n <= 0x200A) || n == 0x2028 || n == 0x2029 || n == 0x202F
    || n == 0x205F || n == 0x3000
  }

  /** The characters a UCI or SAN move is written with are never stripped. */
  lemma MoveTextIsNotSpace(c: char)
    requires 'a' <= c <= 'z' || 'A' <= c <= 'Z' || '0' <= c <= '9' || c in "+#=-"
    ensures !IsSpace(c)
  {}

  /**
   * The ASCII whitespace of `str.isspace()`: tab, newline, vertical tab, form feed,
   * carriage return, the four separators U+001C to U+001F, and space.
   */
  lemma AsciiSpaces(c: char)
    requires c as int < 128
    ensures IsSpace(c) <==> c in {'\t', '\n', 11 as char, 12 as char, '\r',
                                  28 as char, 29 as char, 30 as char, 31 as char, ' '}
  {}

  ghost predicate AllSpace(s: string) {
    forall i :: 0 <= i < |s| ==> IsSpace(s[i])
  }

  /** Neither end of `s` is whitespace. */
  predicate Trimmed(s: string) {
    s == [] || (!IsSpace(s[0]) && !IsSpace(s[|s| - 1]))
  }

  /** `r` sits at offset `i` of `s` with nothing but whitespace on either side. */
  ghost predicate Margins(s: string, r: string, i: int) {
    0 <= i && i + |r| <= |s| && s[i..i + |r|] == r
    && AllSpace(s[..i]) && AllSpace(s[i + |r|..])
  }

  /** `str.lstrip()`: drops the leading whitespace. */
  function TrimLeft(s: string): (r: string)
  {
    if s == [] || !IsSpace(s[0]) then s else TrimLeft(s[1..])
  }

  /** lstrip keeps a suffix that does not start with whitespace, and drops only whitespace. */
  lemma {:induction false} TrimLeftSpec(s: string)
    ensures var r := TrimLeft(s);
      |r| <= |s| && r == s[|s| - |r|..] && (r == [] || !IsSpace(r[0]))
      && AllSpace(s[..|s| - |r|])
  {
    if s != [] && IsSpace(s[0]) {
      var t := s[1..];
      TrimLeftSpec(t);
      var r := TrimLeft(t);
      assert TrimLeft(s) == r;
      assert s[|s| - |r|..] == t[|t| - |r|..];
      var dropped := s[..|s| - |r|];
      forall i | 0 <= i < |dropped| ensures IsSpace(dropped[i]) {
        if i > 0 {
          assert dropped[i] == t[..|t| - |r|][i - 1];
        }
      }
    }
  }

  /** `str.rstrip()`: drops the trailing whitespace. */
  function TrimRight(s: string): (r: string)
    ensures |r| <= |s|
    ensures r != [] ==> r[0] == s[0] && !IsSpace(r[|r| - 1])
  {
    if s == [] || !IsSpace(s[|s| - 1]) then s else TrimRight(s[..|s| - 1])
  }

  /** rstrip keeps a prefix that does not end with whitespace, and drops only whitespace. */
  lemma {:induction false} TrimRightSpec(s: string)
    ensures var r := TrimRight(s);
      |r| <= |s| && r == s[..|r|] && (r == [] || !IsSpace(r[|r| - 1]))
      && AllSpace(s[|r|..])
  {
    if s != [] && IsSpace(s[|s| - 1]) {
      var u := s[..|s| - 1];
      TrimRightSpec(u);
      var k := |TrimRight(s)|;
      assert s[k..] == u[k..] + [s[|s| - 1]];
    }
  }

  /** `str.strip()` with no argument: the leading whitespace, then the trailing, removed. */
  function Strip(s: string): (r: string)
    ensures |r| <= |s|
    ensures Trimmed(r)
  {
    if s == [] || !IsSpace(s[0]) then TrimRight(s) else Strip(s[1..])
  }

  lemma {:induction false} StripIsTrims(s: string)
    ensures Strip(s) == TrimRight(TrimLeft(s))
  {
    if s != [] && IsSpace(s[0]) {
      StripIsTrims(s[1..]);
    }
  }

  /**
   * Strip removes exactly the leading and the trailing whitespace run: what is left
   * has no whitespace at either end and sits between two runs of whitespace.
   */
  lemma StripMargins(s: string)
    ensures Trimmed(Strip(s))
    ensures Margins(s, Strip(s), |s| - |TrimLeft(s)|)
  {
    StripIsTrims(s);
    var t := TrimLeft(s);
    var r := TrimRight(t);
    TrimLeftSpec(s);
    TrimRightSpec(t);
    assert s[|s| - |t|..][|r|..] == s[|s| - |t| + |r|..];
  }

  /** The contract of Strip determines it: the only trimmed infix with whitespace margins. */
  lemma StripUnique(s: string, r: string, i: int)
    requires Trimmed(r) && Margins(s, r, i)
    ensures r == Strip(s)
  {
    StripMargins(s);
    var q, j := Strip(s), |s| - |TrimLeft(s)|;
    MarginFacts(s, r, i);
    MarginFacts(s, q, j);
    assert r != [] && q != [] ==> i == j && |r| == |q|;
  }

  /** Margins spelled out index by index. */
  lemma MarginFacts(s: string, r: string, i: int)
    requires Margins(s, r, i)
    ensures forall k :: 0 <= k < i ==> IsSpace(s[k])
    ensures forall k :: i + |r| <= k < |s| ==> IsSpace(s[k])
    ensures forall k :: 0 <= k < |r| ==> s[i + k] == r[k]
  {
    forall k | 0 <= k < i ensures IsSpace(s[k]) {
      assert s[k] == s[..i][k];
    }
    forall k | i + |r| <= k < |s| ensures IsSpace(s[k]) {
      assert s[k] == s[i + |r|..][k - i - |r|];
    }
  }

  /** Stripping twice strips once: a trimmed string is its own strip. */
  lemma StripIdempotent(s: string)
    ensures Strip(Strip(s)) == Strip(s)
  {
    var r := Strip(s);
    StripMargins(s);
    assert Margins(r, r, 0) by {
      assert r[..0] == [] && r[0..|r|] == r && r[|r|..] == [];
    }
    StripUnique(r, r, 0);
  }

  // ---------------------------------------------------------------------------
  // repr of a str and of a list of str, for characters up to U+00FF

  function HexDigit(n: int): (c: char)
    requires 0 <= n < 16
  {
    if n < 10 then ('0' as int + n) as char else ('a' as int + n - 10) as char
  }

  function HexValue(c: char): (r: Option<int>)
    ensures r.Some? ==> 0 <= r.value < 16
  {
    if '0' <= c <= '9' then Some(c as int - '0' as int)
    else if 'a' <= c <= 'f' then Some(c as int - 'a' as int + 10)
    else None
  }

  lemma HexRoundTrip(n: int)
    requires 0 <= n < 16
    ensures HexValue(HexDigit(n)) == Some(n)
  {}

  /**
   * Characters that repr writes as `\xhh`: control characters other than tab, newline
   * and carriage return, DEL, and the non-printable Latin-1 characters (U+0080 to
   * U+00A0 and the soft hyphen U+00AD).
   */
  predicate HexEscaped(c: char) {
    var n := c as int;
    (n < 32 && c != '\t' && c != '\n' && c != '\r') || (0x7F <= n <= 0xA0) || n == 0xAD
  }

  /** How repr writes one character inside a literal delimited by `quote`. */
  function EscapeChar(quote: char, c: char): (r: string)
  {
    if c == quote || c == '\\' then ['\\', c]
    else if c == '\t' then "\\t"
    else if c == '\n' then "\\n"
    else if c == '\r' then "\\r"
    else if HexEscaped(c) then ['\\', 'x', HexDigit(c as int / 16), HexDigit(c as int % 16)]
    else [c]
  }

  function EscapeBody(quote: char, s: string): (r: string)
  {
    if s == [] then [] else EscapeChar(quote, s[0]) + EscapeBody(quote, s[1..])
  }

  /** repr's quote: a single quote, unless `s` holds a single quote and no double quote. */
  function QuoteFor(s: string): (q: char)
    ensures q == '\'' || q == '"'
    ensures q in s ==> '\'' in s && '"' in s
    ensures q == '"' <==> '\'' in s && '"' !in s
  {
    if '\'' in s && '"' !in s then '"' else '\''
  }

  /** `repr(s)` of a Python `str`. */
  function StrRepr(s: string): (r: string)
    ensures |r| >= 2 && r[0] == r[|r| - 1] == QuoteFor(s)
  {
    [QuoteFor(s)] + EscapeBody(QuoteFor(s), s) + [QuoteFor(s)]
  }

  function JoinReprs(xs: seq<string>): (r: string)
    ensures xs != [] ==> |r| >= 2
  {
    if xs == [] then ""
    else if |xs| == 1 then StrRepr(xs[0])
    else StrRepr(xs[0]) + ", " + JoinReprs(xs[1..])
  }

  /** `repr(xs)` of a Python list of `str`: what `f"{xs}"` writes. */
  function ListRepr(xs: seq<string>): (r: string)
    ensures |r| >= 2 && r[0] == '[' && r[|r| - 1] == ']'
    ensures r == "[]" <==> xs == []
  {
    "[" + JoinReprs(xs) + "]"
  }

  // ---------------------------------------------------------------------------
  // Reading a repr back

  function Unescaped(c: char): (r: char) {
    if c == 't' then '\t' else if c == 'n' then '\n' else if c == 'r' then '\r' else c
  }

  function Prepend(c: char, r: Option<(string, string)>): (p: Option<(string, string)>)
    ensures p.Some? == r.Some?
    ensures r.Some? ==> p.value.0 == [c] + r.value.0 && p.value.1 == r.value.1
  {
    match r
    case None => None
    case Some((body, rest)) => Some(([c] + body, rest))
  }

  /** Reads an escaped literal body up to its closing quote: the text and what follows. */
  function DecodeBody(quote: char, t: string): (r: Option<(string, string)>)
    ensures r.Some? ==> |r.value.1| < |t|
    decreases |t|
  {
    if t == [] then None
    else if t[0] == quote then Some(([], t[1..]))
    else if t[0] != '\\' then Prepend(t[0], DecodeBody(quote, t[1..]))
    else if |t| < 2 then None
    else if t[1] != 'x' then Prepend(Unescaped(t[1]), DecodeBody(quote, t[2..]))
    else if |t| < 4 then None
    else match (HexValue(t[2]), HexValue(t[3]))
      case (Some(hi), Some(lo)) => Prepend((hi * 16 + lo) as char, DecodeBody(quote, t[4..]))
      case _ => None
  }

  /** Reads one quoted literal: the text and what follows it. */
  function DecodeStr(t: string): (r: Option<(string, string)>)
    ensures r.Some? ==> |r.value.1| < |t|
  {
    if |t| > 0 && (t[0] == '\'' || t[0] == '"') then DecodeBody(t[0], t[1..]) else None
  }

  /** Reads `item, item, ..., item]`. */
  function DecodeItems(t: string): (r: Option<seq<string>>)
    decreases |t|
  {
    match DecodeStr(t)
    case None => None
    case Some((s, rest)) =>
      if rest == "]" then Some([s])
      else if |rest| >= 2 && rest[..2] == ", " then
        match DecodeItems(rest[2..])
        case None => None
        case Some(more) => Some([s] + more)
      else None
  }

  /** Reads a list repr back into the list. */
  function DecodeList(t: string): (r: Option<seq<string>>)
  {
    if t == "[]" then Some([])
    else if |t| > 0 && t[0] == '[' then DecodeItems(t[1..])
    else None
  }

  lemma DecodeEscapeChar(quote: char, c: char, more: string)
    requires quote == '\'' || quote == '"'
    ensures DecodeBody(quote, EscapeChar(quote, c) + more) == Prepend(c, DecodeBody(quote, more))
  {
    var t := EscapeChar(quote, c) + more;
    if c == quote || c == '\\' || c == '\t' || c == '\n' || c == '\r' {
      assert t[2..] == more;
    } else if HexEscaped(c) {
      var hi, lo := c as int / 16, c as int % 16;
      HexRoundTrip(hi);
      HexRoundTrip(lo);
      assert t[4..] == more;
      assert (hi * 16 + lo) as char == c;
    } else {
      assert t[1..] == more;
    }
  }

  lemma {:induction false} DecodeEscapeBody(quote: char, s: string, rest: string)
    requires quote == '\'' || quote == '"'
    ensures DecodeBody(quote, EscapeBody(quote, s) + [quote] + rest) == Some((s, rest))
  {
    if s == [] {
      assert EscapeBody(quote, s) + [quote] + rest == [quote] + rest;
    } else {
      var tail := EscapeBody(quote, s[1..]) + [quote] + rest;
      assert EscapeBody(quote, s) + [quote] + rest == EscapeChar(quote, s[0]) + tail;
      DecodeEscapeChar(quote, s[0], tail);
      DecodeEscapeBody(quote, s[1..], rest);
      assert [s[0]] + s[1..] == s;
    }
  }

  /** A str repr reads back as the original string, whatever follows it. */
  lemma StrReprRoundTrip(s: string, rest: string)
    ensures DecodeStr(StrRepr(s) + rest) == Some((s, rest))
  {
    var q := QuoteFor(s);
    assert (StrRepr(s) + rest)[1..] == EscapeBody(q, s) + [q] + rest;
    DecodeEscapeBody(q, s, rest);
  }

  /** One step of DecodeItems over a str repr followed by more list text. */
  lemma DecodeItemsStep(s: string, rest: string)
    ensures rest == "]" ==> DecodeItems(StrRepr(s) + rest) == Some([s])
    ensures |rest| >= 2 && rest[..2] == ", " ==>
      DecodeItems(StrRepr(s) + rest) ==
        match DecodeItems(rest[2..]) case None => None case Some(more) => Some([s] + more)
  {
    StrReprRoundTrip(s, rest);
  }

  lemma {:induction false} ItemsRoundTrip(xs: seq<string>)
    requires xs != []
    ensures DecodeItems(JoinReprs(xs) + "]") == Some(xs)
  {
    if |xs| == 1 {
      DecodeItemsStep(xs[0], "]");
      assert [xs[0]] == xs;
    } else {
      var more := JoinReprs(xs[1..]) + "]";
      var tail := ", " + more;
      assert ((StrRepr(xs[0]) + ", ") + JoinReprs(xs[1..])) + "]" == StrRepr(xs[0]) + tail;
      assert tail[2..] == more;
      DecodeItemsStep(xs[0], tail);
      ItemsRoundTrip(xs[1..]);
      assert [xs[0]] + xs[1..] == xs;
    }
  }

  /** The list repr loses nothing: it reads back as the same list, in order, duplicates kept. */
  lemma ListReprRoundTrip(xs: seq<string>)
    ensures DecodeList(ListRepr(xs)) == Some(xs)
  {
    if xs != [] {
      var j := JoinReprs(xs);
      assert "[" + j + "]" == "[" + (j + "]");
      assert ("[" + (j + "]"))[1..] == j + "]";
      ItemsRoundTrip(xs);
    }
  }

  lemma ListReprInjective(xs: seq<string>, ys: seq<string>)
    requires ListRepr(xs) == ListRepr(ys)
    ensures xs == ys
  {
    ListReprRoundTrip(xs);
    ListReprRoundTrip(ys);
  }
}
