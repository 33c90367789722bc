/** Compact JSON text of a value whose fields print in the order they stand in: it determines the value. */
module JsonText {
  import opened Json
  import opened Quoting
  import opened Sequences

  const NUMBER_CHARACTERS: string := "+-.0123456789eE"

  /** The shape of a printed number, as far as it matters here. */
  predicate NumberText(text: string) {
    && text != "" && text[0] in "-0123456789"
    && forall c :: c in text ==> c in NUMBER_CHARACTERS
  }

  predicate DistinctKeys<V>(fields: seq<Entry<V>>) {
    forall i, j :: 0 <= i < j < |fields| ==> fields[i].key != fields[j].key
  }

  /** A value JavaScript can hold: printed numbers, and distinct keys in every object. */
  predicate Valid(v: Json) {
    match v
    case Number(text) => NumberText(text)
    case Array(items) => forall i :: 0 <= i < |items| ==> Valid(items[i])
    case Object(fields) => DistinctKeys(fields) && ValidFields(fields)
    case _ => true
  }

  predicate ValidFields(fields: seq<Entry<Json>>) {
    forall i :: 0 <= i < |fields| ==> Valid(fields[i].value)
  }

  /** Prints fields in the order they stand in, followed by `rest`. */
  function TextThen(v: Json, rest: string): string
    decreases v, 1
  {
    match v
    case Null => "null" + rest
    case Bool(b) => (if b then "true" else "false") + rest
    case Number(text) => text + rest
    case Str(s) => ['"'] + Quoted(s, rest)
    case Array(items) => ['['] + ItemsThen(items, true, rest)
    case Object(fields) => ['{'] + FieldsThen(fields, true, rest)
  }

  function ItemsThen(items: seq<Json>, first: bool, rest: string): string
    decreases items, 0
  {
    if items == [] then [']'] + rest
    else if first then TextThen(items[0], ItemsThen(items[1..], false, rest))
    else [','] + TextThen(items[0], ItemsThen(items[1..], false, rest))
  }

  function FieldsThen(fields: seq<Entry<Json>>, first: bool, rest: string): string
    decreases fields, 0
  {
    if fields == [] then ['}'] + rest
    else
      FieldText(fields[0].key, [':'] + TextThen(fields[0].value, FieldsThen(fields[1..], false, rest)), first)
  }

  /** A quoted key and what follows it, after a comma unless it is the first. */
  function FieldText(key: string, rest: string, first: bool): string {
    if first then ['"'] + Quoted(key, rest) else [','] + (['"'] + Quoted(key, rest))
  }

  lemma FieldTextPrefixFree(k: string, l: string, x: string, y: string, first: bool)
    requires FieldText(k, x, first) == FieldText(l, y, first)
    ensures k == l && x == y
  {
    if !first {
      SplitAt([','], [','], ['"'] + Quoted(k, x), ['"'] + Quoted(l, y));
    }
    SplitAt(['"'], ['"'], Quoted(k, x), Quoted(l, y));
    QuotedPrefixFree(k, l, x, y);
  }

  predicate Delimited(rest: string) {
    rest == "" || rest[0] == ',' || rest[0] == ']' || rest[0] == '}'
  }

  /** How many characters at the front of `u` can belong to a number. */
  function NumberLength(u: string): nat {
    if u == "" || u[0] !in NUMBER_CHARACTERS then 0 else 1 + NumberLength(u[1..])
  }

  lemma {:induction false} NumberLengthIs(s: string, x: string)
    requires Delimited(x) && forall c :: c in s ==> c in NUMBER_CHARACTERS
    ensures NumberLength(s + x) == |s|
    decreases |s|
  {
    if s == "" {
      assert s + x == x;
    } else {
      assert (s + x)[0] == s[0] && (s + x)[1..] == s[1..] + x;
      NumberLengthIs(s[1..], x);
    }
  }

  lemma NumberPrefixFree(s: string, t: string, x: string, y: string)
    requires NumberText(s) && NumberText(t) && Delimited(x) && Delimited(y) && s + x == t + y
    ensures s == t && x == y
  {
    NumberLengthIs(s, x);
    NumberLengthIs(t, y);
    SplitAt(s, t, x, y);
  }

  /** The first character tells the kind of value. */
  function Kind(c: char): nat {
    if c == 'n' then 0 else if c == 't' then 1 else if c == 'f' then 2 else if c == '"' then 3
    else if c == '[' then 4 else if c == '{' then 5 else 6
  }

  function KindOf(v: Json): nat {
    match v
    case Null => 0
    case Bool(b) => if b then 1 else 2
    case Number(_) => 6
    case Str(_) => 3
    case Array(_) => 4
    case Object(_) => 5
  }

  lemma StartOf(word: string, rest: string)
    requires word != ""
    ensures word + rest != "" && (word + rest)[0] == word[0]
  {
  }

  lemma NumberStart(c: char)
    requires c in "-0123456789"
    ensures Kind(c) == 6 && c != ']' && c != '}' && c != ','
  {
  }

  lemma TextStart(v: Json, rest: string)
    requires Valid(v)
    ensures TextThen(v, rest) != "" && Kind(TextThen(v, rest)[0]) == KindOf(v)
    ensures TextThen(v, rest)[0] != ']' && TextThen(v, rest)[0] != '}' && TextThen(v, rest)[0] != ','
  {
    match v
    case Number(text) =>
      StartOf(text, rest);
      NumberStart(text[0]);
    case Null => StartOf("null", rest);
    case Bool(b) => StartOf(if b then "true" else "false", rest);
    case _ =>
  }

  lemma {:induction false} TextPrefixFree(v: Json, w: Json, x: string, y: string)
    requires Valid(v) && Valid(w) && Delimited(x) && Delimited(y) && TextThen(v, x) == TextThen(w, y)
    ensures v == w && x == y
    decreases v, 1
  {
    TextStart(v, x);
    TextStart(w, y);
    match v
    case Null => SplitAt("null", "null", x, y);
    case Bool(b) => if b { SplitAt("true", "true", x, y); } else { SplitAt("false", "false", x, y); }
    case Number(text) => NumberPrefixFree(text, w.text, x, y);
    case Str(s) =>
      SplitAt(['"'], ['"'], Quoted(s, x), Quoted(w.s, y));
      QuotedPrefixFree(s, w.s, x, y);
    case Array(items) =>
      SplitAt(['['], ['['], ItemsThen(items, true, x), ItemsThen(w.items, true, y));
      ItemsPrefixFree(items, w.items, true, x, y);
    case Object(fields) =>
      SplitAt(['{'], ['{'], FieldsThen(fields, true, x), FieldsThen(w.fields, true, y));
      FieldsPrefixFree(fields, w.fields, true, x, y);
  }

  lemma ItemsDelimited(items: seq<Json>, rest: string)
    ensures Delimited(ItemsThen(items, false, rest))
  {
  }

  lemma FieldsDelimited(fields: seq<Entry<Json>>, rest: string)
    ensures Delimited(FieldsThen(fields, false, rest))
  {
  }

  /** A list closes exactly when it is empty. */
  lemma ItemsStart(items: seq<Json>, first: bool, rest: string)
    requires forall i :: 0 <= i < |items| ==> Valid(items[i])
    ensures ItemsThen(items, first, rest) != "" && (ItemsThen(items, first, rest)[0] == ']' <==> items == [])
  {
    if items != [] {
      TextStart(items[0], ItemsThen(items[1..], false, rest));
    }
  }

  lemma {:induction false} ItemsPrefixFree(a: seq<Json>, b: seq<Json>, first: bool, x: string, y: string)
    requires forall i :: 0 <= i < |a| ==> Valid(a[i])
    requires forall i :: 0 <= i < |b| ==> Valid(b[i])
    requires ItemsThen(a, first, x) == ItemsThen(b, first, y)
    ensures a == b && x == y
    decreases a, 0
  {
    ItemsStart(a, first, x);
    ItemsStart(b, first, y);
    if a == [] {
      SplitAt([']'], [']'], x, y);
    } else {
      var restA, restB := ItemsThen(a[1..], false, x), ItemsThen(b[1..], false, y);
      if !first {
        SplitAt([','], [','], TextThen(a[0], restA), TextThen(b[0], restB));
      }
      ItemsDelimited(a[1..], x);
      ItemsDelimited(b[1..], y);
      TextPrefixFree(a[0], b[0], restA, restB);
      ItemsPrefixFree(a[1..], b[1..], false, x, y);
      assert a == [a[0]] + a[1..] && b == [b[0]] + b[1..];
    }
  }

  lemma FieldsStart(fields: seq<Entry<Json>>, first: bool, rest: string)
    ensures FieldsThen(fields, first, rest) != "" && (FieldsThen(fields, first, rest)[0] == '}' <==> fields == [])
  {
  }

  lemma {:induction false} FieldsPrefixFree(a: seq<Entry<Json>>, b: seq<Entry<Json>>, first: bool, x: string, y: string)
    requires ValidFields(a) && ValidFields(b) && FieldsThen(a, first, x) == FieldsThen(b, first, y)
    ensures a == b && x == y
    decreases a, 0
  {
    FieldsStart(a, first, x);
    FieldsStart(b, first, y);
    if a == [] {
      SplitAt(['}'], ['}'], x, y);
    } else {
      var restA, restB := FieldsThen(a[1..], false, x), FieldsThen(b[1..], false, y);
      var textA, textB := [':'] + TextThen(a[0].value, restA), [':'] + TextThen(b[0].value, restB);
      FieldTextPrefixFree(a[0].key, b[0].key, textA, textB, first);
      SplitAt([':'], [':'], TextThen(a[0].value, restA), TextThen(b[0].value, restB));
      FieldsDelimited(a[1..], x);
      FieldsDelimited(b[1..], y);
      TextPrefixFree(a[0].value, b[0].value, restA, restB);
      FieldsPrefixFree(a[1..], b[1..], false, x, y);
      assert a == [a[0]] + a[1..] && b == [b[0]] + b[1..];
    }
  }
}
