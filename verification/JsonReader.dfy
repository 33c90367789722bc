/**
 A reader of compact JSON text, from the grammar of RFC 8259 (sections 3 to 7), and that it reads back
 exactly what `JSON.stringify` prints.
 */
module JsonReader {
  import opened Wrappers
  import opened Json
  import opened Quoting
  import opened JsonText
  import opened Sequences

  datatype Taken<T> = Taken(value: T, rest: string)

  // ---------- strings ----------

  function HexValue(c: char): Option<nat> {
    if '0' <= c <= '9' then Some(c as int - '0' as int)
    else if 'a' <= c <= 'f' then Some(10 + (c as int - 'a' as int))
    else if 'A' <= c <= 'F' then Some(10 + (c as int - 'A' as int))
    else None
  }

  /** The four digits after `\u`. */
  function HexDigits(t: string): Option<char>
    requires |t| >= 4
  {
    var a, b, c, d := HexValue(t[0]), HexValue(t[1]), HexValue(t[2]), HexValue(t[3]);
    if a.None? || b.None? || c.None? || d.None? then None
    else
      var code := 4096 * a.value + 256 * b.value + 16 * c.value + d.value;
      if code < 0xD800 then Some(code as char) else None
  }

  /** One character of a string's text, and how many characters stand for it. */
  function ReadChar(t: string): (r: Option<(char, nat)>)
    requires t != ""
    ensures r.Some? ==> 0 < r.value.1 <= |t|
  {
    if t[0] < ' ' then None
    else if t[0] != '\\' then Some((t[0], 1))
    else if |t| < 2 then None
    else
      match t[1]
      case '\"' => Some(('\"', 2))
      case '\\' => Some(('\\', 2))
      case '/' => Some(('/', 2))
      case 'b' => Some(('\U{0008}', 2))
      case 'f' => Some(('\U{000C}', 2))
      case 'n' => Some(('\U{000A}', 2))
      case 'r' => Some(('\U{000D}', 2))
      case 't' => Some(('\U{0009}', 2))
      case 'u' =>
        if |t| < 6 then None
        else
          var c := HexDigits(t[2..]);
          if c.None? then None else Some((c.value, 6))
      case _ => None
  }

  /** After the opening quote. */
  function ReadString(t: string): (r: Option<Taken<string>>)
    ensures r.Some? ==> |r.value.rest| < |t|
    decreases |t|
  {
    if t == "" then None
    else if t[0] == '\"' then Some(Taken("", t[1..]))
    else
      var c := ReadChar(t);
      if c.None? then None
      else
        var more := ReadString(t[c.value.1..]);
        if more.None? then None else Some(Taken([c.value.0] + more.value.value, more.value.rest))
  }

  lemma HexReads(n: nat)
    requires n < 16
    ensures HexValue(HEX[n]) == Some(n)
  {
  }

  lemma EscapedControl(c: char, rest: string)
    requires c < ' ' && |EscapeChar(c)| == 6
    ensures ReadChar(EscapeChar(c) + rest) == Some((c, 6))
  {
    var t := EscapeChar(c) + rest;
    var e := EscapeChar(c);
    HexReads(c as int / 16);
    HexReads(c as int % 16);
    assert t[0] == '\\' && t[1] == 'u' && t[2] == '0' && t[3] == '0' && t[4] == e[4] && t[5] == e[5];
    assert t[2..][0] == '0' && t[2..][1] == '0' && t[2..][2] == e[4] && t[2..][3] == e[5];
    assert e[4] == HEX[c as int / 16] && e[5] == HEX[c as int % 16];
    assert HexDigits(t[2..]) == Some((c as int) as char);
  }

  /** Each escape reads back as the character it stands for. */
  lemma EscapeReads(c: char, rest: string)
    ensures ReadChar(EscapeChar(c) + rest) == Some((c, |EscapeChar(c)|))
  {
    var t := EscapeChar(c) + rest;
    assert t[0] == EscapeChar(c)[0];
    if |EscapeChar(c)| == 6 {
      EscapedControl(c, rest);
    } else if |EscapeChar(c)| > 1 {
      assert t[1] == EscapeChar(c)[1];
    }
  }

  lemma {:induction false} QuotedReads(s: string, rest: string)
    ensures ReadString(Quoted(s, rest)) == Some(Taken(s, rest))
    decreases |s|
  {
    if s == "" {
      assert (['\"'] + rest)[1..] == rest;
    } else {
      var e := EscapeChar(s[0]);
      EscapeReads(s[0], Quoted(s[1..], rest));
      QuotedReads(s[1..], rest);
      assert (e + Quoted(s[1..], rest))[|e|..] == Quoted(s[1..], rest);
      assert [s[0]] + s[1..] == s;
    }
  }

  // ---------- values ----------

  predicate StartsWith(t: string, word: string) {
    |word| <= |t| && t[..|word|] == word
  }

  function ReadValue(t: string): (r: Option<Taken<Json>>)
    ensures r.Some? ==> |r.value.rest| < |t|
    decreases |t|, 1
  {
    if t == "" then None
    else if t[0] == '\"' then
      var s := ReadString(t[1..]);
      if s.None? then None else Some(Taken(Str(s.value.value), s.value.rest))
    else if t[0] == '[' then
      var items := ReadItems(t[1..], true);
      if items.None? then None else Some(Taken(Array(items.value.value), items.value.rest))
    else if t[0] == '{' then
      var fields := ReadFields(t[1..], true);
      if fields.None? then None else Some(Taken(Object(fields.value.value), fields.value.rest))
    else if StartsWith(t, "null") then Some(Taken(Null, t[4..]))
    else if StartsWith(t, "true") then Some(Taken(Bool(true), t[4..]))
    else if StartsWith(t, "false") then Some(Taken(Bool(false), t[5..]))
    else if t[0] in "-0123456789" then
      var n := NumberLength(t);
      NumberLengthBounds(t);
      Some(Taken(Number(t[..n]), t[n..]))
    else None
  }

  lemma {:induction false} NumberLengthBounds(u: string)
    ensures NumberLength(u) <= |u|
    ensures u != "" && u[0] in "-0123456789" ==> NumberLength(u) > 0
    decreases |u|
  {
    if u != "" {
      NumberLengthBounds(u[1..]);
    }
  }

  /** The items up to the closing bracket; a comma goes before all but the first. */
  function ReadItems(t: string, first: bool): (r: Option<Taken<seq<Json>>>)
    ensures r.Some? ==> |r.value.rest| < |t|
    decreases |t|, if first then 2 else 0
  {
    if t == "" then None
    else if t[0] == ']' then Some(Taken([], t[1..]))
    else if !first && t[0] != ',' then None
    else
      var item := ReadValue(if first then t else t[1..]);
      if item.None? then None
      else
        var more := ReadItems(item.value.rest, false);
        if more.None? then None else Some(Taken([item.value.value] + more.value.value, more.value.rest))
  }

  /** A quoted key, a colon and a value; a comma goes before all but the first. */
  function ReadFields(t: string, first: bool): (r: Option<Taken<seq<Entry<Json>>>>)
    ensures r.Some? ==> |r.value.rest| < |t|
    decreases |t|, if first then 2 else 0
  {
    if t == "" then None
    else if t[0] == '}' then Some(Taken([], t[1..]))
    else if !first && t[0] != ',' then None
    else
      var quoted := if first then t else t[1..];
      if quoted == "" || quoted[0] != '\"' then None
      else
        var key := ReadString(quoted[1..]);
        if key.None? || key.value.rest == "" || key.value.rest[0] != ':' then None
        else
          var value := ReadValue(key.value.rest[1..]);
          if value.None? then None
          else
            var more := ReadFields(value.value.rest, false);
            if more.None? then None
            else Some(Taken([Entry(key.value.value, value.value.value)] + more.value.value, more.value.rest))
  }

  // ---------- the round trip ----------

  lemma WordReads(word: string, rest: string)
    ensures StartsWith(word + rest, word) && (word + rest)[|word|..] == rest
    ensures word != "" ==> word + rest != "" && (word + rest)[0] == word[0]
  {
    assert (word + rest)[..|word|] == word;
  }

  lemma NumberReads(text: string, rest: string)
    requires NumberText(text) && Delimited(rest)
    ensures ReadValue(text + rest) == Some(Taken(Number(text), rest))
  {
    var t := text + rest;
    WordReads(text, rest);
    NumberLengthIs(text, rest);
    assert t[0] in "-0123456789";
    assert Kind(t[0]) == 6 by { NumberStart(t[0]); }
    OtherStart(t, "null");
    OtherStart(t, "true");
    OtherStart(t, "false");
    NumberIsRead(t);
  }

  lemma OtherStart(t: string, word: string)
    requires t != "" && word != "" && t[0] != word[0]
    ensures !StartsWith(t, word)
  {
  }

  lemma NumberIsRead(t: string)
    requires t != "" && t[0] in "-0123456789" && Kind(t[0]) == 6
    requires !StartsWith(t, "null") && !StartsWith(t, "true") && !StartsWith(t, "false")
    ensures NumberLength(t) <= |t|
    ensures ReadValue(t) == Some(Taken(Number(t[..NumberLength(t)]), t[NumberLength(t)..]))
  {
    NumberLengthBounds(t);
  }

  /** What is printed for a value, whatever follows it, reads back as that value. */
  lemma {:induction false} TextReads(v: Json, rest: string)
    requires Valid(v) && Delimited(rest)
    ensures ReadValue(TextThen(v, rest)) == Some(Taken(v, rest))
    decreases v, 1
  {
    var t := TextThen(v, rest);
    match v
    case Null => WordReads("null", rest);
    case Bool(b) =>
      WordReads(if b then "true" else "false", rest);
      OtherStart(t, "null");
      if !b { OtherStart(t, "true"); }
    case Number(text) => NumberReads(text, rest);
    case Str(s) =>
      assert t[1..] == Quoted(s, rest);
      QuotedReads(s, rest);
    case Array(items) =>
      assert t[1..] == ItemsThen(items, true, rest);
      ItemsRead(items, true, rest);
    case Object(fields) =>
      assert t[1..] == FieldsThen(fields, true, rest);
      FieldsRead(fields, true, rest);
  }

  lemma {:induction false} ItemsRead(items: seq<Json>, first: bool, rest: string)
    requires forall i :: 0 <= i < |items| ==> Valid(items[i])
    ensures ReadItems(ItemsThen(items, first, rest), first) == Some(Taken(items, rest))
    decreases items, 0
  {
    var t := ItemsThen(items, first, rest);
    ItemsStart(items, first, rest);
    if items == [] {
      assert t[1..] == rest;
    } else {
      var more := ItemsThen(items[1..], false, rest);
      ItemsDelimited(items[1..], rest);
      TextReads(items[0], more);
      ItemsRead(items[1..], false, rest);
      assert (if first then t else t[1..]) == TextThen(items[0], more);
      assert [items[0]] + items[1..] == items;
    }
  }

  lemma {:induction false} FieldsRead(fields: seq<Entry<Json>>, first: bool, rest: string)
    requires ValidFields(fields)
    ensures ReadFields(FieldsThen(fields, first, rest), first) == Some(Taken(fields, rest))
    decreases fields, 0
  {
    var t := FieldsThen(fields, first, rest);
    FieldsStart(fields, first, rest);
    if fields == [] {
      assert t[1..] == rest;
    } else {
      var more := FieldsThen(fields[1..], false, rest);
      var value := [':'] + TextThen(fields[0].value, more);
      FieldsDelimited(fields[1..], rest);
      QuotedReads(fields[0].key, value);
      TextReads(fields[0].value, more);
      FieldsRead(fields[1..], false, rest);
      assert (if first then t else t[1..]) == ['\"'] + Quoted(fields[0].key, value);
      assert (['\"'] + Quoted(fields[0].key, value))[1..] == Quoted(fields[0].key, value);
      assert value[1..] == TextThen(fields[0].value, more);
      assert [Entry(fields[0].key, fields[0].value)] + fields[1..] == fields;
    }
  }

  /** Compact JSON text of a value reads back as exactly that value, with nothing left over. */
  lemma PrintedReadsBack(v: Json)
    requires Valid(v)
    ensures ReadValue(TextThen(v, "")) == Some(Taken(v, ""))
  {
    TextReads(v, "");
  }
}
