/** `JSON.stringify` of a string, and that it can be read back in one way. */
module Quoting {
  import opened Sequences

  const HEX: string := "0123456789abcdef"

  /** The escape of one character; `\u00XX` for the other control characters. */
  function EscapeChar(c: char): (e: string)
    ensures e != "" && e[0] != '"'
    ensures |e| == 1 ==> e == [c] && c != '\\'
    ensures |e| > 1 ==> e[0] == '\\'
  {
    if c == '"' then "\\\""
    else if c == '\\' then "\\\\"
    else if c == '\U{0008}' then "\\b"
    else if c == '\U{000C}' then "\\f"
    else if c == '\n' then "\\n"
    else if c == '\r' then "\\r"
    else if c == '\t' then "\\t"
    else if c < ' ' then "\\u00" + [HEX[c as int / 16], HEX[c as int % 16]]
    else [c]
  }

  function Escape(s: string): string {
    if s == "" then "" else EscapeChar(s[0]) + Escape(s[1..])
  }

  function Quote(s: string): string {
    ['"'] + Escape(s) + ['"']
  }

  lemma HexInjective(m: nat, n: nat)
    requires m < 16 && n < 16 && HEX[m] == HEX[n]
    ensures m == n
  {
  }

  /** No escape is a prefix of another character's. */
  lemma EscapeCharPrefixFree(c: char, d: char, x: string, y: string)
    requires EscapeChar(c) + x == EscapeChar(d) + y
    ensures c == d && x == y
  {
    var u, v := EscapeChar(c) + x, EscapeChar(d) + y;
    assert u[0] == EscapeChar(c)[0] && v[0] == EscapeChar(d)[0];
    if |EscapeChar(c)| > 1 && |EscapeChar(d)| > 1 {
      assert u[1] == EscapeChar(c)[1] && v[1] == EscapeChar(d)[1];
      if |EscapeChar(c)| == 6 && |EscapeChar(d)| == 6 {
        assert u[4] == HEX[c as int / 16] && v[4] == HEX[d as int / 16];
        assert u[5] == HEX[c as int % 16] && v[5] == HEX[d as int % 16];
        HexInjective(c as int / 16, d as int / 16);
        HexInjective(c as int % 16, d as int % 16);
        assert c as int == d as int;
      }
    }
    assert c == d;
    assert u[|EscapeChar(c)|..] == x && v[|EscapeChar(d)|..] == y;
  }

  /** The escaped text, its closing quote, and what follows. */
  function Quoted(s: string, rest: string): string {
    if s == "" then ['"'] + rest else EscapeChar(s[0]) + Quoted(s[1..], rest)
  }

  lemma {:induction false} QuotedIs(s: string, rest: string)
    ensures Escape(s) + (['"'] + rest) == Quoted(s, rest)
    decreases |s|
  {
    if s != "" {
      QuotedIs(s[1..], rest);
      Assoc(EscapeChar(s[0]), Escape(s[1..]), ['"'] + rest);
    }
  }

  lemma QuotedStart(s: string, rest: string)
    ensures Quoted(s, rest) != "" && (Quoted(s, rest)[0] == '"' <==> s == "")
  {
  }

  /** Escaped text up to its closing quote can be read back in one way. */
  lemma {:induction false} QuotedPrefixFree(s: string, t: string, x: string, y: string)
    requires Quoted(s, x) == Quoted(t, y)
    ensures s == t && x == y
    decreases |s|
  {
    QuotedStart(s, x);
    QuotedStart(t, y);
    if s == "" {
      SplitAt(['"'], ['"'], x, y);
    } else {
      EscapeCharPrefixFree(s[0], t[0], Quoted(s[1..], x), Quoted(t[1..], y));
      QuotedPrefixFree(s[1..], t[1..], x, y);
      assert s == [s[0]] + s[1..] && t == [t[0]] + t[1..];
    }
  }

  lemma QuoteIs(s: string, x: string)
    ensures Quote(s) + x == ['"'] + Quoted(s, x)
  {
    QuotedIs(s, x);
    Assoc(['"'] + Escape(s), ['"'], x);
    Assoc(['"'], Escape(s), ['"'] + x);
  }

  lemma QuotePrefixFree(s: string, t: string, x: string, y: string)
    requires Quote(s) + x == Quote(t) + y
    ensures s == t && x == y
  {
    QuoteIs(s, x);
    QuoteIs(t, y);
    SplitAt(['"'], ['"'], Quoted(s, x), Quoted(t, y));
    QuotedPrefixFree(s, t, x, y);
  }
}
