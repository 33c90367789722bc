/**
 The canonical JSON behind the handoff checksum
 (packages/database/src/conversation-service.ts, `canonical`): equal texts mean equal payloads.
 */
module CanonicalJson {
  import opened Wrappers
  import opened Json
  import opened Quoting
  import opened Sequences
  import opened JsonText
  import opened JsonReader

  /** `Array.prototype.join` with commas. */
  function Join(parts: seq<string>): string {
    if parts == [] then "" else if |parts| == 1 then parts[0] else parts[0] + [','] + Join(parts[1..])
  }

  function PrintFields(fields: seq<Entry<string>>): seq<string> {
    seq(|fields|, i requires 0 <= i < |fields| => Quote(fields[i].key) + [':'] + fields[i].value)
  }

  /** The comparison of keys: JavaScript's `localeCompare`. */
  type Order = (string, string) -> bool

  ghost predicate StrictTotal(less: Order) {
    && (forall a, b :: less(a, b) ==> !less(b, a))
    && (forall a, b, c :: less(a, b) && less(b, c) ==> less(a, c))
    && (forall a, b :: a != b ==> less(a, b) || less(b, a))
  }

  function Insert<V>(field: Entry<V>, sorted: seq<Entry<V>>, less: Order): seq<Entry<V>> {
    if sorted == [] || less(field.key, sorted[0].key) then [field] + sorted
    else [sorted[0]] + Insert(field, sorted[1..], less)
  }

  /** Entries in the order of their keys. */
  function Sort<V>(fields: seq<Entry<V>>, less: Order): seq<Entry<V>> {
    if fields == [] then [] else Insert(fields[0], Sort(fields[1..], less), less)
  }

  /** The source's `canonical`. */
  function Canonical(v: Json, less: Order): string
    decreases v
  {
    match v
    case Null => "null"
    case Bool(b) => if b then "true" else "false"
    case Number(text) => text
    case Str(s) => Quote(s)
    case Array(items) =>
      ['['] + Join(seq(|items|, i requires 0 <= i < |items| => Canonical(items[i], less))) + [']']
    case Object(fields) =>
      var texts := seq(|fields|, i requires 0 <= i < |fields| =>
        Entry(fields[i].key, Canonical(fields[i].value, less)));
      ['{'] + Join(PrintFields(Sort(texts, less))) + ['}']
  }

  /** A JSON value whose objects are unordered: section 4 of RFC 8259. */
  datatype Value =
    | VNull
    | VBool(b: bool)
    | VNumber(text: string)
    | VStr(s: string)
    | VArray(items: seq<Value>)
    | VObject(fields: map<string, Value>)

  function Meaning(v: Json): Value {
    match v
    case Null => VNull
    case Bool(b) => VBool(b)
    case Number(text) => VNumber(text)
    case Str(s) => VStr(s)
    case Array(items) => VArray(seq(|items|, i requires 0 <= i < |items| => Meaning(items[i])))
    case Object(fields) => VObject(MeaningFields(fields))
  }

  function MeaningFields(fields: seq<Entry<Json>>): map<string, Value> {
    if fields == [] then map[] else MeaningFields(fields[1..])[fields[0].key := Meaning(fields[0].value)]
  }

  // ---------- sorting ----------

  ghost predicate Ascending<V>(fields: seq<Entry<V>>, less: Order) {
    forall i, j :: 0 <= i < j < |fields| ==> less(fields[i].key, fields[j].key)
  }

  lemma {:induction false} InsertKeeps<V>(field: Entry<V>, sorted: seq<Entry<V>>, less: Order)
    ensures multiset(Insert(field, sorted, less)) == multiset(sorted) + multiset{field}
    decreases |sorted|
  {
    if sorted != [] && !less(field.key, sorted[0].key) {
      InsertKeeps(field, sorted[1..], less);
      assert sorted == [sorted[0]] + sorted[1..];
    }
  }

  /** Sorting loses, adds and changes no entry. */
  lemma {:induction false} SortPermutes<V>(fields: seq<Entry<V>>, less: Order)
    ensures multiset(Sort(fields, less)) == multiset(fields)
    decreases |fields|
  {
    if fields != [] {
      SortPermutes(fields[1..], less);
      InsertKeeps(fields[0], Sort(fields[1..], less), less);
      assert fields == [fields[0]] + fields[1..];
    }
  }

  lemma SortKeeps<V>(fields: seq<Entry<V>>, less: Order)
    ensures multiset(Sort(fields, less)) == multiset(fields)
    ensures forall e :: e in Sort(fields, less) <==> e in fields
  {
    SortPermutes(fields, less);
    assert forall e :: e in Sort(fields, less) <==> e in multiset(Sort(fields, less));
    assert forall e :: e in fields <==> e in multiset(fields);
  }

  lemma {:induction false} InsertAscends<V>(field: Entry<V>, sorted: seq<Entry<V>>, less: Order)
    requires StrictTotal(less) && Ascending(sorted, less)
    requires forall i :: 0 <= i < |sorted| ==> sorted[i].key != field.key
    ensures Ascending(Insert(field, sorted, less), less)
    decreases |sorted|
  {
    if sorted != [] && !less(field.key, sorted[0].key) {
      var tail := Insert(field, sorted[1..], less);
      InsertAscends(field, sorted[1..], less);
      InsertKeeps(field, sorted[1..], less);
      forall j | 0 <= j < |tail| ensures less(sorted[0].key, tail[j].key) {
        assert tail[j] in multiset(tail);
        assert tail[j] == field || tail[j] in sorted[1..];
      }
    }
  }

  lemma {:induction false} SortAscends<V>(fields: seq<Entry<V>>, less: Order)
    requires StrictTotal(less) && DistinctKeys(fields)
    ensures Ascending(Sort(fields, less), less)
    decreases |fields|
  {
    if fields != [] {
      var sorted := Sort(fields[1..], less);
      SortAscends(fields[1..], less);
      SortKeeps(fields[1..], less);
      forall i | 0 <= i < |sorted| ensures sorted[i].key != fields[0].key {
        assert sorted[i] in multiset(sorted);
        assert sorted[i] in fields[1..];
      }
      InsertAscends(fields[0], sorted, less);
    }
  }

  /** The entries determine the ascending sequence. */
  lemma {:induction false} AscendingIsUnique<V>(a: seq<Entry<V>>, b: seq<Entry<V>>, less: Order)
    requires StrictTotal(less) && Ascending(a, less) && Ascending(b, less)
    requires forall e :: e in a <==> e in b
    ensures a == b
    decreases |a|
  {
    if a != [] || b != [] {
      assert (a != [] ==> a[0] in b) && (b != [] ==> b[0] in a);
      assert a[0] == b[0];
      forall e ensures e in a[1..] <==> e in b[1..] {
        assert e in a[1..] <==> e in a && e != a[0];
        assert e in b[1..] <==> e in b && e != b[0];
      }
      AscendingIsUnique(a[1..], b[1..], less);
      assert a == [a[0]] + a[1..] && b == [b[0]] + b[1..];
    }
  }

  // ---------- canonical text is the text of the normal form ----------

  /** The same value with the fields of every object in key order. */
  function Normal(v: Json, less: Order): Json
    decreases v
  {
    match v
    case Array(items) => Array(seq(|items|, i requires 0 <= i < |items| => Normal(items[i], less)))
    case Object(fields) =>
      Object(Sort(seq(|fields|, i requires 0 <= i < |fields| =>
        Entry(fields[i].key, Normal(fields[i].value, less))), less))
    case _ => v
  }

  /** `text` is what `v` prints as, whatever follows. */
  ghost predicate Prints(text: string, v: Json) {
    forall rest :: text + rest == TextThen(v, rest)
  }

  ghost predicate PrintAll(texts: seq<Entry<string>>, fields: seq<Entry<Json>>) {
    && |texts| == |fields|
    && forall i :: 0 <= i < |texts| ==> texts[i].key == fields[i].key && Prints(texts[i].value, fields[i].value)
  }

  lemma {:induction false} InsertPrints(
      text: Entry<string>, field: Entry<Json>, texts: seq<Entry<string>>, fields: seq<Entry<Json>>, less: Order)
    requires text.key == field.key && Prints(text.value, field.value) && PrintAll(texts, fields)
    ensures PrintAll(Insert(text, texts, less), Insert(field, fields, less))
    decreases |texts|
  {
    if texts != [] && !less(text.key, texts[0].key) {
      InsertPrints(text, field, texts[1..], fields[1..], less);
    }
  }

  /** Sorting printed fields prints the sorted fields. */
  lemma {:induction false} SortPrints(texts: seq<Entry<string>>, fields: seq<Entry<Json>>, less: Order)
    requires PrintAll(texts, fields)
    ensures PrintAll(Sort(texts, less), Sort(fields, less))
    decreases |texts|
  {
    if texts != [] {
      SortPrints(texts[1..], fields[1..], less);
      InsertPrints(texts[0], fields[0], Sort(texts[1..], less), Sort(fields[1..], less), less);
    }
  }

  lemma {:induction false} JoinItems(texts: seq<string>, items: seq<Json>, rest: string)
    requires |texts| == |items| && forall i :: 0 <= i < |texts| ==> Prints(texts[i], items[i])
    ensures Join(texts) + ([']'] + rest) == ItemsThen(items, true, rest)
    decreases |texts|
  {
    if |texts| == 0 {
      assert Join(texts) + ([']'] + rest) == [']'] + rest;
    } else if |texts| == 1 {
      assert texts[0] + ([']'] + rest) == TextThen(items[0], [']'] + rest);
    } else {
      JoinItems(texts[1..], items[1..], rest);
      var tail := ItemsThen(items[1..], false, rest);
      assert tail == [','] + ItemsThen(items[1..], true, rest);
      Assoc(texts[0] + [','], Join(texts[1..]), [']'] + rest);
      Assoc(texts[0], [','], Join(texts[1..]) + ([']'] + rest));
      assert texts[0] + tail == TextThen(items[0], tail);
    }
  }

  lemma FieldPrints(text: Entry<string>, field: Entry<Json>, rest: string)
    requires text.key == field.key && Prints(text.value, field.value)
    ensures Quote(text.key) + [':'] + text.value + rest == ['"'] + Quoted(field.key, [':'] + TextThen(field.value, rest))
  {
    Assoc(Quote(text.key) + [':'], text.value, rest);
    Assoc(Quote(text.key), [':'], text.value + rest);
    assert text.value + rest == TextThen(field.value, rest);
    QuoteIs(text.key, [':'] + (text.value + rest));
  }

  lemma {:induction false} JoinFields(texts: seq<Entry<string>>, fields: seq<Entry<Json>>, rest: string)
    requires PrintAll(texts, fields)
    ensures Join(PrintFields(texts)) + (['}'] + rest) == FieldsThen(fields, true, rest)
    decreases |texts|
  {
    var parts := PrintFields(texts);
    if |texts| == 0 {
      assert Join(parts) + (['}'] + rest) == ['}'] + rest;
    } else if |texts| == 1 {
      FieldPrints(texts[0], fields[0], ['}'] + rest);
    } else {
      assert parts[1..] == PrintFields(texts[1..]);
      JoinFields(texts[1..], fields[1..], rest);
      var tail := FieldsThen(fields[1..], false, rest);
      assert tail == [','] + FieldsThen(fields[1..], true, rest);
      Assoc(parts[0] + [','], Join(parts[1..]), ['}'] + rest);
      Assoc(parts[0], [','], Join(parts[1..]) + (['}'] + rest));
      FieldPrints(texts[0], fields[0], tail);
    }
  }

  /** Canonical text is the plain text of the normal form. */
  lemma {:induction false} CanonicalPrints(v: Json, less: Order)
    ensures Prints(Canonical(v, less), Normal(v, less))
    decreases v
  {
    forall rest ensures Canonical(v, less) + rest == TextThen(Normal(v, less), rest) {
      match v
      case Array(items) =>
        var texts := seq(|items|, i requires 0 <= i < |items| => Canonical(items[i], less));
        var normals := seq(|items|, i requires 0 <= i < |items| => Normal(items[i], less));
        forall i | 0 <= i < |items| ensures Prints(texts[i], normals[i]) {
          CanonicalPrints(items[i], less);
        }
        JoinItems(texts, normals, rest);
        Assoc(['['] + Join(texts), [']'], rest);
        Assoc(['['], Join(texts), [']'] + rest);
      case Object(fields) =>
        var texts := seq(|fields|, i requires 0 <= i < |fields| =>
          Entry(fields[i].key, Canonical(fields[i].value, less)));
        var normals := seq(|fields|, i requires 0 <= i < |fields| =>
          Entry(fields[i].key, Normal(fields[i].value, less)));
        forall i | 0 <= i < |fields| ensures Prints(texts[i].value, normals[i].value) {
          CanonicalPrints(fields[i].value, less);
        }
        SortPrints(texts, normals, less);
        JoinFields(Sort(texts, less), Sort(normals, less), rest);
        var joined := Join(PrintFields(Sort(texts, less)));
        Assoc(['{'] + joined, ['}'], rest);
        Assoc(['{'], joined, ['}'] + rest);
      case Str(s) => QuoteIs(s, rest);
      case _ =>
    }
  }

  // ---------- the normal form keeps and determines the meaning ----------

  /** What an object maps a key to. */
  lemma {:induction false} MeaningAt(fields: seq<Entry<Json>>)
    requires DistinctKeys(fields)
    ensures forall i :: 0 <= i < |fields| ==>
      fields[i].key in MeaningFields(fields) && MeaningFields(fields)[fields[i].key] == Meaning(fields[i].value)
    ensures forall k :: k in MeaningFields(fields) ==> exists i :: 0 <= i < |fields| && fields[i].key == k
    decreases |fields|
  {
    if fields != [] {
      MeaningAt(fields[1..]);
      forall k | k in MeaningFields(fields) ensures exists i :: 0 <= i < |fields| && fields[i].key == k {
        if k != fields[0].key {
          var i :| 0 <= i < |fields[1..]| && fields[1..][i].key == k;
          assert fields[i + 1].key == k;
        }
      }
    }
  }

  /** Every entry of `a` has a counterpart in `b` with the same key and the same meaning. */
  ghost predicate Covered(a: seq<Entry<Json>>, b: seq<Entry<Json>>) {
    forall i :: 0 <= i < |a| ==> HasCounterpart(a[i], b)
  }

  ghost predicate HasCounterpart(e: Entry<Json>, b: seq<Entry<Json>>) {
    exists j :: 0 <= j < |b| && SameEntry(e, b[j])
  }

  predicate SameEntry(a: Entry<Json>, b: Entry<Json>) {
    a.key == b.key && Meaning(a.value) == Meaning(b.value)
  }

  lemma MeaningFieldsIff(a: seq<Entry<Json>>, b: seq<Entry<Json>>)
    requires DistinctKeys(a) && DistinctKeys(b)
    ensures MeaningFields(a) == MeaningFields(b) <==> Covered(a, b) && Covered(b, a)
  {
    MeaningAt(a);
    MeaningAt(b);
    if MeaningFields(a) == MeaningFields(b) {
      CoveredBy(a, b);
      CoveredBy(b, a);
    }
    if Covered(a, b) && Covered(b, a) {
      assert MeaningFields(a).Keys == MeaningFields(b).Keys;
      assert forall k :: k in MeaningFields(a) ==> MeaningFields(a)[k] == MeaningFields(b)[k];
    }
  }

  lemma CoveredBy(a: seq<Entry<Json>>, b: seq<Entry<Json>>)
    requires DistinctKeys(a) && DistinctKeys(b) && MeaningFields(a) == MeaningFields(b)
    ensures Covered(a, b)
  {
    MeaningAt(a);
    MeaningAt(b);
    forall i | 0 <= i < |a| ensures HasCounterpart(a[i], b) {
      var j :| 0 <= j < |b| && b[j].key == a[i].key;
      assert SameEntry(a[i], b[j]);
    }
  }

  function NormalFields(fields: seq<Entry<Json>>, less: Order): (r: seq<Entry<Json>>)
    ensures DistinctKeys(fields) ==> DistinctKeys(r)
  {
    seq(|fields|, i requires 0 <= i < |fields| => Entry(fields[i].key, Normal(fields[i].value, less)))
  }

  lemma SortIsValid(fields: seq<Entry<Json>>, less: Order)
    requires StrictTotal(less) && DistinctKeys(fields) && ValidFields(fields)
    ensures DistinctKeys(Sort(fields, less)) && ValidFields(Sort(fields, less))
  {
    var sorted := Sort(fields, less);
    SortKeeps(fields, less);
    SortAscends(fields, less);
    forall j | 0 <= j < |sorted| ensures Valid(sorted[j].value) {
      assert sorted[j] in sorted;
    }
  }

  lemma SortCovers(fields: seq<Entry<Json>>, normals: seq<Entry<Json>>, sorted: seq<Entry<Json>>)
    requires |fields| == |normals| && forall e :: e in sorted <==> e in normals
    requires forall i :: 0 <= i < |fields| ==> SameEntry(fields[i], normals[i])
    ensures Covered(sorted, fields) && Covered(fields, sorted)
  {
    forall j | 0 <= j < |sorted| ensures HasCounterpart(sorted[j], fields) {
      assert sorted[j] in sorted;
      var i :| 0 <= i < |normals| && normals[i] == sorted[j];
      assert SameEntry(fields[i], normals[i]);
      assert SameEntry(sorted[j], fields[i]);
    }
    forall i | 0 <= i < |fields| ensures HasCounterpart(fields[i], sorted) {
      assert normals[i] in normals;
      var j :| 0 <= j < |sorted| && sorted[j] == normals[i];
      assert SameEntry(fields[i], normals[i]);
    }
  }

  /** Sorting the fields of a valid object, at every depth, leaves a valid value with the same meaning. */
  lemma {:induction false} NormalKeepsMeaning(v: Json, less: Order)
    requires Valid(v) && StrictTotal(less)
    ensures Valid(Normal(v, less)) && Meaning(Normal(v, less)) == Meaning(v)
    decreases v
  {
    match v
    case Array(items) =>
      forall i | 0 <= i < |items|
        ensures Valid(Normal(items[i], less)) && Meaning(Normal(items[i], less)) == Meaning(items[i])
      {
        NormalKeepsMeaning(items[i], less);
      }
    case Object(fields) =>
      var normals := NormalFields(fields, less);
      forall i | 0 <= i < |fields| ensures Valid(normals[i].value) && SameEntry(fields[i], normals[i]) {
        NormalKeepsMeaning(fields[i].value, less);
      }
      SortKeeps(normals, less);
      SortIsValid(normals, less);
      SortCovers(fields, normals, Sort(normals, less));
      MeaningFieldsIff(Sort(normals, less), fields);
    case _ =>
  }

  /** The meaning determines the normal form. */
  lemma {:induction false} MeaningDeterminesNormal(v: Json, w: Json, less: Order)
    requires Valid(v) && Valid(w) && StrictTotal(less) && Meaning(v) == Meaning(w)
    ensures Normal(v, less) == Normal(w, less)
    decreases v
  {
    match v
    case Array(items) =>
      var m, n := Meaning(v).items, Meaning(w).items;
      assert |m| == |n|;
      forall i | 0 <= i < |items| ensures Normal(items[i], less) == Normal(w.items[i], less) {
        assert m[i] == n[i];
        MeaningDeterminesNormal(items[i], w.items[i], less);
      }
      assert Normal(v, less).items == Normal(w, less).items;
    case Object(fields) =>
      var a, b := NormalFields(fields, less), NormalFields(w.fields, less);
      MeaningFieldsIff(fields, w.fields);
      forall i, j | 0 <= i < |a| && 0 <= j < |b| && SameEntry(fields[i], w.fields[j]) ensures a[i] == b[j] {
        MeaningDeterminesNormal(fields[i].value, w.fields[j].value, less);
      }
      forall e ensures e in a <==> e in b {
        SameElements(fields, w.fields, a, b, e);
        SameElements(w.fields, fields, b, a, e);
      }
      SortIsUnique(a, b, less);
    case _ =>
  }

  /** Fields with the same elements and distinct keys have one sorted order. */
  lemma SortIsUnique(a: seq<Entry<Json>>, b: seq<Entry<Json>>, less: Order)
    requires StrictTotal(less) && DistinctKeys(a) && DistinctKeys(b) && forall e :: e in a <==> e in b
    ensures Sort(a, less) == Sort(b, less)
  {
    SortKeeps(a, less);
    SortKeeps(b, less);
    SortAscends(a, less);
    SortAscends(b, less);
    AscendingIsUnique(Sort(a, less), Sort(b, less), less);
  }

  lemma SameElements(
      from: seq<Entry<Json>>, to: seq<Entry<Json>>, a: seq<Entry<Json>>, b: seq<Entry<Json>>, e: Entry<Json>)
    requires |a| == |from| && |b| == |to| && Covered(from, to)
    requires forall i, j :: 0 <= i < |a| && 0 <= j < |b| && SameEntry(from[i], to[j]) ==> a[i] == b[j]
    ensures e in a ==> e in b
  {
    if e in a {
      var i :| 0 <= i < |a| && a[i] == e;
      var j :| 0 <= j < |to| && SameEntry(from[i], to[j]);
      assert b[j] == e;
    }
  }

  /**
   Equal canonical texts mean equal payloads: the text does not depend on the order of keys at any depth,
   and it distinguishes any two payloads that differ in more than that.
   */
  lemma CanonicalIffSameMeaning(v: Json, w: Json, less: Order)
    requires Valid(v) && Valid(w) && StrictTotal(less)
    ensures Canonical(v, less) == Canonical(w, less) <==> Meaning(v) == Meaning(w)
  {
    CanonicalPrints(v, less);
    CanonicalPrints(w, less);
    assert Canonical(v, less) + "" == TextThen(Normal(v, less), "");
    assert Canonical(w, less) + "" == TextThen(Normal(w, less), "");
    NormalKeepsMeaning(v, less);
    NormalKeepsMeaning(w, less);
    assert Canonical(v, less) + "" == Canonical(v, less) && Canonical(w, less) + "" == Canonical(w, less);
    if Canonical(v, less) == Canonical(w, less) {
      TextPrefixFree(Normal(v, less), Normal(w, less), "", "");
    }
    if Meaning(v) == Meaning(w) {
      MeaningDeterminesNormal(v, w, less);
    }
  }

  /** Canonical text is valid JSON that reads back as the same payload, its fields now sorted. */
  lemma CanonicalReadsBack(v: Json, less: Order)
    requires Valid(v) && StrictTotal(less)
    ensures ReadValue(Canonical(v, less)) == Some(Taken(Normal(v, less), "")) && Meaning(Normal(v, less)) == Meaning(v)
  {
    CanonicalPrints(v, less);
    NormalKeepsMeaning(v, less);
    assert Canonical(v, less) + "" == Canonical(v, less);
    PrintedReadsBack(Normal(v, less));
  }
}
