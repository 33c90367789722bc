/**
 The finding extractor (apps/worker/src/review-findings.ts). A string is read as lines of JSON, wherever it
 occurs, so the recursion goes through `JSON.parse` and is not structural.
 */
module ReviewFindings {
  import opened Wrappers
  import opened Json
  import opened LineReader
  import opened Sequences

  datatype Finding = Finding(severity: string, title: string, body: string)

  // ---------- termination ----------

  /** A string weighs one more than its length, a container one more than its parts. */
  function Weight(v: Json): (w: nat)
    ensures w > 0
  {
    match v
    case Str(s) => |s| + 1
    case Array(items) => 1 + WeightOfItems(items)
    case Object(fields) => 1 + WeightOfFields(fields)
    case _ => 1
  }

  function WeightOfItems(items: seq<Json>): nat {
    if items == [] then 0 else Weight(items[0]) + WeightOfItems(items[1..])
  }

  function WeightOfFields(fields: seq<Entry<Json>>): nat {
    if fields == [] then 0 else Weight(fields[0].value) + WeightOfFields(fields[1..])
  }

  /** JSON text is at least as long as the value it denotes is heavy: a string needs its two quotes. */
  ghost predicate Shrinks(parse: Parser) {
    forall line :: parse(line).Some? ==> Weight(parse(line).value) <= |line|
  }

  /** `value.split("\n")` */
  function Lines(s: string): (lines: seq<string>)
    ensures lines != []
  {
    Terminated(s) + [Remainder(s)]
  }

  lemma {:induction false} LinesAreShort(s: string)
    ensures forall line :: line in Lines(s) ==> |line| <= |s|
    decreases |s|
  {
    var i := IndexOfNewline(s);
    if i < |s| {
      LinesAreShort(s[i + 1..]);
      assert Lines(s) == [s[..i]] + Lines(s[i + 1..]);
    }
  }

  // ---------- visiting ----------

  function OwnFinding(fields: seq<Entry<Json>>): Option<Finding> {
    match (StringField(fields, "severity"), StringField(fields, "title"))
    case (Some(severity), Some(title)) =>
      var body := StringField(fields, "body");
      Some(Finding(severity, title, if body.Some? then body.value else ""))
    case _ => None
  }

  function OwnFindings(fields: seq<Entry<Json>>): seq<Finding> {
    match OwnFinding(fields)
    case Some(f) => [f]
    case None => []
  }

  /** Everything a visit of `v` records, in order. */
  ghost function Findings(v: Json, parse: Parser): seq<Finding>
    requires Shrinks(parse)
    decreases Weight(v), 0
  {
    match v
    case Str(s) => LinesAreShort(s); FindingsOfLines(Lines(s), |s|, parse)
    case Array(items) => FindingsOfItems(items, parse)
    case Object(fields) => OwnFindings(fields) + FindingsOfFields(fields, parse)
    case _ => []
  }

  ghost function FindingsOfLine(line: string, parse: Parser): seq<Finding>
    requires Shrinks(parse)
    decreases |line|, 1
  {
    match parse(line)
    case Some(v) => Findings(v, parse)
    case None => []
  }

  ghost function FindingsOfLines(lines: seq<string>, longest: nat, parse: Parser): seq<Finding>
    requires Shrinks(parse) && forall line :: line in lines ==> |line| <= longest
    decreases longest, 2, |lines|
  {
    if lines == [] then []
    else FindingsOfLine(lines[0], parse) + FindingsOfLines(lines[1..], longest, parse)
  }

  ghost function FindingsOfItems(items: seq<Json>, parse: Parser): seq<Finding>
    requires Shrinks(parse)
    decreases WeightOfItems(items), 1, |items|
  {
    if items == [] then [] else Findings(items[0], parse) + FindingsOfItems(items[1..], parse)
  }

  ghost function FindingsOfFields(fields: seq<Entry<Json>>, parse: Parser): seq<Finding>
    requires Shrinks(parse)
    decreases WeightOfFields(fields), 1, |fields|
  {
    if fields == [] then [] else Findings(fields[0].value, parse) + FindingsOfFields(fields[1..], parse)
  }

  // ---------- the collector ----------

  lemma LineSplit(lines: seq<string>, i: nat, longest: nat, parse: Parser)
    requires Shrinks(parse) && i < |lines| && forall line :: line in lines ==> |line| <= longest
    ensures FindingsOfLines(lines[i..], longest, parse)
         == FindingsOfLine(lines[i], parse) + FindingsOfLines(lines[i + 1..], longest, parse)
  {
    assert lines[i..][1..] == lines[i + 1..];
  }

  lemma ItemSplit(items: seq<Json>, i: nat, parse: Parser)
    requires Shrinks(parse) && i < |items|
    ensures FindingsOfItems(items[i..], parse) == Findings(items[i], parse) + FindingsOfItems(items[i + 1..], parse)
    ensures WeightOfItems(items[i..]) == Weight(items[i]) + WeightOfItems(items[i + 1..])
  {
    assert items[i..][1..] == items[i + 1..];
  }

  lemma FieldSplit(fields: seq<Entry<Json>>, i: nat, parse: Parser)
    requires Shrinks(parse) && i < |fields|
    ensures FindingsOfFields(fields[i..], parse)
         == Findings(fields[i].value, parse) + FindingsOfFields(fields[i + 1..], parse)
    ensures WeightOfFields(fields[i..]) == Weight(fields[i].value) + WeightOfFields(fields[i + 1..])
  {
    assert fields[i..][1..] == fields[i + 1..];
  }

  /** The array that the nested `visit` closes over. */
  class Collector {
    var found: seq<Finding>

    constructor ()
      ensures found == []
    {
      found := [];
    }

    method Visit(v: Json, parse: Parser)
      requires Shrinks(parse)
      modifies this
      ensures found == old(found) + Findings(v, parse)
      decreases Weight(v), 0
    {
      match v {
        case Str(s) =>
          LinesAreShort(s);
          VisitLines(Lines(s), |s|, parse);
        case Array(items) =>
          VisitItems(items, parse);
        case Object(fields) =>
          Assoc(found, OwnFindings(fields), FindingsOfFields(fields, parse));
          found := found + OwnFindings(fields);
          VisitValues(fields, parse);
        case _ =>
      }
    }

    method VisitItems(items: seq<Json>, parse: Parser)
      requires Shrinks(parse)
      modifies this
      ensures found == old(found) + FindingsOfItems(items, parse)
      decreases WeightOfItems(items), 1
    {
      var i := 0;
      while i < |items|
        invariant 0 <= i <= |items|
        invariant WeightOfItems(items[i..]) <= WeightOfItems(items)
        invariant found + FindingsOfItems(items[i..], parse) == old(found) + FindingsOfItems(items, parse)
      {
        ItemSplit(items, i, parse);
        Assoc(found, Findings(items[i], parse), FindingsOfItems(items[i + 1..], parse));
        Visit(items[i], parse);
        i := i + 1;
      }
    }

    method VisitValues(fields: seq<Entry<Json>>, parse: Parser)
      requires Shrinks(parse)
      modifies this
      ensures found == old(found) + FindingsOfFields(fields, parse)
      decreases WeightOfFields(fields), 1
    {
      var i := 0;
      while i < |fields|
        invariant 0 <= i <= |fields|
        invariant WeightOfFields(fields[i..]) <= WeightOfFields(fields)
        invariant found + FindingsOfFields(fields[i..], parse) == old(found) + FindingsOfFields(fields, parse)
      {
        FieldSplit(fields, i, parse);
        Assoc(found, Findings(fields[i].value, parse), FindingsOfFields(fields[i + 1..], parse));
        Visit(fields[i].value, parse);
        i := i + 1;
      }
    }

    method VisitLines(lines: seq<string>, ghost longest: nat, parse: Parser)
      requires Shrinks(parse) && forall line :: line in lines ==> |line| <= longest
      modifies this
      ensures found == old(found) + FindingsOfLines(lines, longest, parse)
      decreases longest, 1
    {
      var i := 0;
      while i < |lines|
        invariant 0 <= i <= |lines|
        invariant found + FindingsOfLines(lines[i..], longest, parse)
               == old(found) + FindingsOfLines(lines, longest, parse)
      {
        LineSplit(lines, i, longest, parse);
        Assoc(found, FindingsOfLine(lines[i], parse), FindingsOfLines(lines[i + 1..], longest, parse));
        var parsed := parse(lines[i]);
        if parsed.Some? {
          Visit(parsed.value, parse);
        }
        i := i + 1;
      }
    }
  }

  // ---------- removing repetitions ----------

  /** `array.findIndex` of an equal item. */
  function FindIndex<T(==)>(s: seq<T>, x: T): (i: nat)
    ensures i <= |s| && x !in s[..i] && (x in s <==> i < |s|)
    ensures i < |s| ==> s[i] == x
  {
    if s == [] || s[0] == x then 0 else 1 + FindIndex(s[1..], x)
  }

  /** Filters the first `n` items to those that stand at the index of their first occurrence. */
  function FirstOccurrences<T(==)>(s: seq<T>, n: nat): seq<T>
    requires n <= |s|
  {
    if n == 0 then []
    else FirstOccurrences(s, n - 1) + (if FindIndex(s, s[n - 1]) == n - 1 then [s[n - 1]] else [])
  }

  /** In order of first occurrence in `s`, and therefore without repetition. */
  predicate OrderedBy<T(==)>(r: seq<T>, s: seq<T>) {
    forall i, j :: 0 <= i < j < |r| ==> FindIndex(s, r[i]) < FindIndex(s, r[j])
  }

  lemma {:induction false} InFirstOccurrences<T>(s: seq<T>, n: nat, x: T)
    requires n <= |s|
    ensures x in FirstOccurrences(s, n) <==> FindIndex(s, x) < n
  {
    if n > 0 {
      InFirstOccurrences(s, n - 1, x);
    }
  }

  lemma {:induction false} FirstOccurrencesAreOrdered<T>(s: seq<T>, n: nat)
    requires n <= |s|
    ensures OrderedBy(FirstOccurrences(s, n), s)
  {
    if n > 0 {
      FirstOccurrencesAreOrdered(s, n - 1);
      var before := FirstOccurrences(s, n - 1);
      forall i | 0 <= i < |before| ensures FindIndex(s, before[i]) < n - 1 {
        InFirstOccurrences(s, n - 1, before[i]);
      }
    }
  }

  method KeepFirstOccurrences(found: seq<Finding>) returns (findings: seq<Finding>)
    ensures findings == FirstOccurrences(found, |found|)
  {
    findings := [];
    var index := 0;
    while index < |found|
      invariant 0 <= index <= |found|
      invariant findings == FirstOccurrences(found, index)
    {
      if FindIndex(found, found[index]) == index {
        findings := findings + [found[index]];
      }
      index := index + 1;
    }
  }

  method ParseReviewFindings(output: string, parse: Parser) returns (findings: seq<Finding>)
    requires Shrinks(parse)
    ensures var all := Findings(Str(output), parse); findings == FirstOccurrences(all, |all|)
  {
    LinesAreShort(output);
    var collector := new Collector();
    collector.VisitLines(Lines(output), |output|, parse);
    assert collector.found == Findings(Str(output), parse);
    findings := KeepFirstOccurrences(collector.found);
  }

  // ---------- what is found ----------

  /** One step of nested visiting: into an item, into a property, or into a line of text that parses. */
  predicate Hop(v: Json, w: Json, parse: Parser) {
    match v
    case Str(s) => exists line :: line in Lines(s) && parse(line) == Some(w)
    case Array(items) => w in items
    case Object(fields) => exists i :: 0 <= i < |fields| && fields[i].value == w
    case _ => false
  }

  ghost predicate IsPath(path: seq<Json>, v: Json, parse: Parser) {
    && path != [] && path[0] == v
    && forall i :: 0 <= i < |path| - 1 ==> Hop(path[i], path[i + 1], parse)
  }

  /** Some chain of hops from `v` ends in an object that is the finding. */
  ghost predicate Reachable(v: Json, f: Finding, parse: Parser) {
    exists path :: IsPath(path, v, parse) && Shows(path[|path| - 1], f)
  }

  predicate Shows(v: Json, f: Finding) {
    && v.Object?
    && Field(v.fields, "severity") == Some(Str(f.severity)) && Field(v.fields, "title") == Some(Str(f.title))
    && (match Field(v.fields, "body")
        case Some(Str(body)) => f.body == body
        case _ => f.body == "")
  }

  lemma ReachableStep(v: Json, f: Finding, parse: Parser)
    ensures Reachable(v, f, parse) <==> Shows(v, f) || exists w :: Hop(v, w, parse) && Reachable(w, f, parse)
  {
    if Reachable(v, f, parse) && !Shows(v, f) {
      var path :| IsPath(path, v, parse) && Shows(path[|path| - 1], f);
      TailIsPath(path, v, parse);
      assert Reachable(path[1], f, parse);
    }
    if Shows(v, f) {
      assert IsPath([v], v, parse);
    } else if w :| Hop(v, w, parse) && Reachable(w, f, parse) {
      var path :| IsPath(path, w, parse) && Shows(path[|path| - 1], f);
      assert IsPath([v] + path, v, parse);
    }
  }

  lemma TailIsPath(path: seq<Json>, v: Json, parse: Parser)
    requires IsPath(path, v, parse) && |path| > 1
    ensures Hop(v, path[1], parse) && IsPath(path[1..], path[1], parse)
  {
    var tail := path[1..];
    assert Hop(path[0], path[0 + 1], parse);
    forall i | 0 <= i < |tail| - 1 ensures Hop(tail[i], tail[i + 1], parse) {
      assert Hop(path[i + 1], path[i + 1 + 1], parse);
    }
  }

  lemma {:induction false} InLines(lines: seq<string>, longest: nat, f: Finding, parse: Parser)
    requires Shrinks(parse) && forall line :: line in lines ==> |line| <= longest
    ensures f in FindingsOfLines(lines, longest, parse)
      <==> exists line :: line in lines && f in FindingsOfLine(line, parse)
    decreases |lines|
  {
    if lines != [] {
      InLines(lines[1..], longest, f, parse);
      if f in FindingsOfLine(lines[0], parse) {
        assert lines[0] in lines;
      } else if line :| line in lines[1..] && f in FindingsOfLine(line, parse) {
        assert line in lines;
      }
      if line :| line in lines && f in FindingsOfLine(line, parse) && line != lines[0] {
        assert line in lines[1..];
      }
    }
  }

  lemma {:induction false} InItems(items: seq<Json>, f: Finding, parse: Parser)
    requires Shrinks(parse)
    ensures f in FindingsOfItems(items, parse) <==> exists v :: v in items && f in Findings(v, parse)
    decreases |items|
  {
    if items != [] {
      InItems(items[1..], f, parse);
      if f in Findings(items[0], parse) {
        assert items[0] in items;
      } else if v :| v in items[1..] && f in Findings(v, parse) {
        assert v in items;
      }
      if v :| v in items && f in Findings(v, parse) && v != items[0] {
        assert v in items[1..];
      }
    }
  }

  lemma {:induction false} InFields(fields: seq<Entry<Json>>, f: Finding, parse: Parser)
    requires Shrinks(parse)
    ensures f in FindingsOfFields(fields, parse) <==> exists e :: e in fields && f in Findings(e.value, parse)
    decreases |fields|
  {
    if fields != [] {
      InFields(fields[1..], f, parse);
      if f in Findings(fields[0].value, parse) {
        assert fields[0] in fields;
      } else if e :| e in fields[1..] && f in Findings(e.value, parse) {
        assert e in fields;
      }
      if e :| e in fields && f in Findings(e.value, parse) && e != fields[0] {
        assert e in fields[1..];
      }
    }
  }

  lemma HopIsLighter(v: Json, w: Json, parse: Parser)
    requires Shrinks(parse) && Hop(v, w, parse)
    ensures Weight(w) < Weight(v)
  {
    match v
    case Str(s) => LinesAreShort(s);
    case Array(items) => ItemIsLighter(items, w);
    case Object(fields) =>
      var i :| 0 <= i < |fields| && fields[i].value == w;
      FieldIsLighter(fields, i);
  }

  lemma {:induction false} ItemIsLighter(items: seq<Json>, w: Json)
    requires w in items
    ensures Weight(w) <= WeightOfItems(items)
    decreases |items|
  {
    if w != items[0] {
      ItemIsLighter(items[1..], w);
    }
  }

  lemma {:induction false} FieldIsLighter(fields: seq<Entry<Json>>, i: nat)
    requires i < |fields|
    ensures Weight(fields[i].value) <= WeightOfFields(fields)
    decreases i
  {
    if i > 0 {
      FieldIsLighter(fields[1..], i - 1);
    }
  }

  /** A visit records its own finding and what the visits one hop away record. */
  lemma FindingsStep(v: Json, f: Finding, parse: Parser)
    requires Shrinks(parse)
    ensures f in Findings(v, parse) <==> Shows(v, f) || exists w :: Hop(v, w, parse) && f in Findings(w, parse)
  {
    match v
    case Str(s) => StringStep(s, f, parse);
    case Array(items) => InItems(items, f, parse);
    case Object(fields) => ObjectStep(fields, f, parse);
    case _ =>
  }

  lemma StringStep(s: string, f: Finding, parse: Parser)
    requires Shrinks(parse)
    ensures f in Findings(Str(s), parse) <==> exists w :: Hop(Str(s), w, parse) && f in Findings(w, parse)
  {
    LinesAreShort(s);
    InLines(Lines(s), |s|, f, parse);
    if line :| line in Lines(s) && f in FindingsOfLine(line, parse) {
      assert Hop(Str(s), parse(line).value, parse);
    }
  }

  lemma ObjectStep(fields: seq<Entry<Json>>, f: Finding, parse: Parser)
    requires Shrinks(parse)
    ensures f in Findings(Object(fields), parse) <==>
      Shows(Object(fields), f) || exists w :: Hop(Object(fields), w, parse) && f in Findings(w, parse)
  {
    InFields(fields, f, parse);
    OwnIsShown(fields, f);
    if e :| e in fields && f in Findings(e.value, parse) {
      assert Hop(Object(fields), e.value, parse);
    }
  }

  lemma OwnIsShown(fields: seq<Entry<Json>>, f: Finding)
    ensures f in OwnFindings(fields) <==> Shows(Object(fields), f)
  {
  }

  lemma {:induction false} FoundIffReachable(v: Json, f: Finding, parse: Parser)
    requires Shrinks(parse)
    ensures f in Findings(v, parse) <==> Reachable(v, f, parse)
    decreases Weight(v)
  {
    FindingsStep(v, f, parse);
    ReachableStep(v, f, parse);
    forall w | Hop(v, w, parse) ensures f in Findings(w, parse) <==> Reachable(w, f, parse) {
      HopIsLighter(v, w, parse);
      FoundIffReachable(w, f, parse);
    }
  }

  /** The result holds exactly the reachable findings, each once, in order of first visit. */
  lemma ResultIsExactlyTheReachable(output: string, parse: Parser)
    requires Shrinks(parse)
    ensures var all := Findings(Str(output), parse);
      var result := FirstOccurrences(all, |all|);
      && OrderedBy(result, all)
      && forall f :: f in result <==> Reachable(Str(output), f, parse)
  {
    var all := Findings(Str(output), parse);
    FirstOccurrencesAreOrdered(all, |all|);
    forall f ensures f in FirstOccurrences(all, |all|) <==> Reachable(Str(output), f, parse) {
      InFirstOccurrences(all, |all|, f);
      FoundIffReachable(Str(output), f, parse);
    }
  }

  // ---------- the order of the visit ----------

  /** Items, and properties, are visited from first to last. */
  lemma {:induction false} ItemsInOrder(a: seq<Json>, b: seq<Json>, parse: Parser)
    requires Shrinks(parse)
    ensures FindingsOfItems(a + b, parse) == FindingsOfItems(a, parse) + FindingsOfItems(b, parse)
    decreases |a|
  {
    if a == [] {
      assert a + b == b;
    } else {
      assert (a + b)[1..] == a[1..] + b;
      ItemsInOrder(a[1..], b, parse);
      Assoc(Findings(a[0], parse), FindingsOfItems(a[1..], parse), FindingsOfItems(b, parse));
    }
  }

  lemma {:induction false} FieldsInOrder(a: seq<Entry<Json>>, b: seq<Entry<Json>>, parse: Parser)
    requires Shrinks(parse)
    ensures FindingsOfFields(a + b, parse) == FindingsOfFields(a, parse) + FindingsOfFields(b, parse)
    decreases |a|
  {
    if a == [] {
      assert a + b == b;
    } else {
      assert (a + b)[1..] == a[1..] + b;
      FieldsInOrder(a[1..], b, parse);
      Assoc(Findings(a[0].value, parse), FindingsOfFields(a[1..], parse), FindingsOfFields(b, parse));
    }
  }

  lemma {:induction false} LongestIsFree(lines: seq<string>, m: nat, n: nat, parse: Parser)
    requires Shrinks(parse) && forall line :: line in lines ==> |line| <= m && |line| <= n
    ensures FindingsOfLines(lines, m, parse) == FindingsOfLines(lines, n, parse)
    decreases |lines|
  {
    if lines != [] {
      LongestIsFree(lines[1..], m, n, parse);
    }
  }

  lemma {:induction false} LinesInOrder(a: seq<string>, b: seq<string>, longest: nat, parse: Parser)
    requires Shrinks(parse) && forall line :: line in a + b ==> |line| <= longest
    requires forall line :: line in a ==> |line| <= longest
    requires forall line :: line in b ==> |line| <= longest
    ensures FindingsOfLines(a + b, longest, parse) == FindingsOfLines(a, longest, parse) + FindingsOfLines(b, longest, parse)
    decreases |a|
  {
    if a == [] {
      assert a + b == b;
    } else {
      assert (a + b)[1..] == a[1..] + b;
      LinesInOrder(a[1..], b, longest, parse);
      Assoc(FindingsOfLine(a[0], parse), FindingsOfLines(a[1..], longest, parse), FindingsOfLines(b, longest, parse));
    }
  }

  lemma FirstLine(x: string)
    ensures IndexOfNewline(x) == |x| ==> Lines(x) == [x]
    ensures IndexOfNewline(x) < |x| ==> Lines(x) == [x[..IndexOfNewline(x)]] + Lines(x[IndexOfNewline(x) + 1..])
  {
    var i := IndexOfNewline(x);
    if i < |x| {
      var tail := x[i + 1..];
      var first, terminated, remainder := [x[..i]], Terminated(tail), [Remainder(tail)];
      assert Terminated(x) == first + terminated && Remainder(x) == Remainder(tail);
      assert Lines(x) == (first + terminated) + remainder;
      assert Lines(tail) == terminated + remainder;
      Assoc(first, terminated, remainder);
    }
  }

  lemma CutConcat(s: string, c: char, u: string, i: nat)
    requires i <= |s|
    ensures (s + ([c] + u))[..i] == s[..i]
    ensures i < |s| ==> (s + ([c] + u))[i + 1..] == s[i + 1..] + ([c] + u)
    ensures i == |s| ==> (s + ([c] + u))[i + 1..] == u
  {
  }

  lemma BreakFirst(u: string)
    ensures IndexOfNewline(['\n'] + u) == 0
  {
  }

  lemma FirstBreak(s: string, u: string)
    ensures IndexOfNewline(s + (['\n'] + u)) == IndexOfNewline(s)
  {
    NewlineOfConcat(s, ['\n'] + u);
    BreakFirst(u);
  }

  lemma {:induction false} LinesOfTwo(s: string, u: string)
    ensures Lines(s + (['\n'] + u)) == Lines(s) + Lines(u)
    decreases |s|
  {
    var i, t := IndexOfNewline(s), s + (['\n'] + u);
    FirstBreak(s, u);
    CutConcat(s, '\n', u, i);
    FirstLine(s);
    FirstLine(t);
    if i < |s| {
      LinesOfTwo(s[i + 1..], u);
      LinesAssoc(s[..i], Lines(s[i + 1..]), Lines(u));
    } else {
      assert s[..i] == s;
    }
  }

  lemma LinesAssoc(first: string, a: seq<string>, b: seq<string>)
    ensures [first] + (a + b) == [first] + a + b
  {
  }

  /** An object's own finding comes before those of its properties. */
  lemma OwnFindingFirst(fields: seq<Entry<Json>>, f: Finding, parse: Parser)
    requires Shrinks(parse) && Shows(Object(fields), f)
    ensures Findings(Object(fields), parse) == [f] + FindingsOfFields(fields, parse)
  {
    OwnIsShown(fields, f);
  }

  /** Lines are visited from first to last. */
  lemma TextInOrder(s: string, u: string, parse: Parser)
    requires Shrinks(parse)
    ensures Findings(Str(s + (['\n'] + u)), parse) == Findings(Str(s), parse) + Findings(Str(u), parse)
  {
    var t := s + (['\n'] + u);
    LinesAreShort(s);
    LinesAreShort(u);
    LinesAreShort(t);
    LinesOfTwo(s, u);
    LinesInOrder(Lines(s), Lines(u), |t|, parse);
    LongestIsFree(Lines(s), |s|, |t|, parse);
    LongestIsFree(Lines(u), |u|, |t|, parse);
  }
}
