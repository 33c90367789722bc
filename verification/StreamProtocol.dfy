/** The two provider protocols and the accumulator (packages/providers/src/stream-parser.ts). */
module StreamProtocol {
  import opened Wrappers
  import opened Json
  import opened LineReader

  datatype Usage = Usage(estimated: bool, inputTokens: Option<string>, outputTokens: Option<string>)

  datatype Note =
    | Unparseable(length: nat)
    | OtherEvent(kind: string)
    | InProgressText(text: string)
    | ParserRaised
    | LineTruncated

  datatype StreamEvent =
    | Assistant(text: string)
    | AssistantFinal(text: string)
    | SessionNamed(id: string)
    | UsageReported(usage: Usage)
    | ModelReported(model: string)
    | Ended(succeeded: bool, reason: Option<string>)
    | Diagnostic(note: Note)

  datatype Protocol = Codex | Claude

  // ---------- one line ----------

  predicate IsSpace(c: char) {
    c in " \t\n\r\U{000B}\U{000C}\U{00A0}\U{1680}\U{2028}\U{2029}\U{202F}\U{205F}\U{3000}\U{FEFF}" || '\U{2000}' <= c <= '\U{200A}'
  }

  function TrimStart(s: string): string {
    if s != "" && IsSpace(s[0]) then TrimStart(s[1..]) else s
  }

  function TrimEnd(s: string): string {
    if s != "" && IsSpace(s[|s| - 1]) then TrimEnd(s[..|s| - 1]) else s
  }

  function Trim(s: string): string {
    TrimEnd(TrimStart(s))
  }

  /** What is left has no space at either end, and only spaces were taken. */
  lemma TrimIs(s: string)
    ensures Trim(s) != "" ==> !IsSpace(Trim(s)[0]) && !IsSpace(Trim(s)[|Trim(s)| - 1])
    ensures exists a, b :: 0 <= a <= b <= |s| && Trimmed(s, a, b)
  {
    var a, start := TrimStartIs(s);
    var n := TrimEndIs(start);
    Cut(s, a, n);
    assert forall i :: a + n <= i < |s| ==> s[i] == start[i - a];
    assert Trimmed(s, a, a + n);
  }

  lemma Cut(s: string, a: nat, n: nat)
    requires a + n <= |s|
    ensures s[a..][..n] == s[a..a + n]
  {
  }

  predicate Trimmed(s: string, a: int, b: int)
    requires 0 <= a <= b <= |s|
  {
    && Trim(s) == s[a..b]
    && (forall i :: 0 <= i < a ==> IsSpace(s[i]))
    && forall i :: b <= i < |s| ==> IsSpace(s[i])
  }

  lemma TrimStartIs(s: string) returns (a: nat, start: string)
    ensures a <= |s| && start == TrimStart(s) == s[a..] && forall i :: 0 <= i < a ==> IsSpace(s[i])
    ensures start != "" ==> !IsSpace(start[0])
  {
    if s != "" && IsSpace(s[0]) {
      a, start := TrimStartIs(s[1..]);
      a := a + 1;
    } else {
      a, start := 0, s;
    }
  }

  lemma TrimEndIs(s: string) returns (n: nat)
    ensures n <= |s| && TrimEnd(s) == s[..n] && forall i :: n <= i < |s| ==> IsSpace(s[i])
    ensures n > 0 ==> !IsSpace(s[n - 1])
  {
    if s != "" && IsSpace(s[|s| - 1]) {
      n := TrimEndIs(s[..|s| - 1]);
    } else {
      n := |s|;
    }
  }

  function OrElse(s: Option<string>, default: string): string {
    if s.Some? then s.value else default
  }

  function CodexEvents(record: seq<Entry<Json>>): seq<StreamEvent> {
    var kind := OrElse(StringField(record, "type"), "unknown");
    if kind == "session_configured" then
      var id := OrElse(StringField(record, "session_id"), "");
      if id == "" then [] else [SessionNamed(id)]
    else if kind == "agent_message" then
      var message := OrElse(StringField(record, "message"), "");
      if message == "" then [] else [Assistant(message)]
    else if kind == "token_count" then
      [UsageReported(Usage(false, NumberField(record, "input_tokens"), NumberField(record, "output_tokens")))]
    else if kind == "error" then
      [Ended(false, Some(OrElse(StringField(record, "message"), "Codex reported an error.")))]
    else if kind == "task_complete" then
      [Ended(true, None)]
    else
      [Diagnostic(OtherEvent(kind))]
  }

  /** The text of one content block, if it is a text block. */
  function BlockText(block: Json): string {
    match block
    case Object(fields) =>
      if StringField(fields, "type") == Some("text") then OrElse(StringField(fields, "text"), "") else ""
    case _ => ""
  }

  function BlockTexts(blocks: seq<Json>): string {
    if blocks == [] then "" else BlockText(blocks[0]) + BlockTexts(blocks[1..])
  }

  /** `message?.content ?? []`; `None` when it is not an array and filtering it throws. */
  function ContentBlocks(record: seq<Entry<Json>>): Option<seq<Json>> {
    match Field(record, "message")
    case Some(Object(fields)) =>
      (match Field(fields, "content")
       case None => Some([])
       case Some(Null) => Some([])
       case Some(Array(items)) => Some(items)
       case Some(_) => None)
    case _ => Some([])
  }

  function TokensOf(usage: Json): Usage {
    match usage
    case Object(fields) => Usage(false, NumberField(fields, "input_tokens"), NumberField(fields, "output_tokens"))
    case _ => Usage(false, None, None)
  }

  function ResultEvents(record: seq<Entry<Json>>): seq<StreamEvent> {
    var isError := Field(record, "is_error") == Some(Bool(true));
    var usage := Field(record, "usage");
    var text := StringField(record, "result");
    (if usage.Some? && IsTruthy(usage.value) then [UsageReported(TokensOf(usage.value))] else [])
    + (if !isError && text.Some? && text.value != "" then [AssistantFinal(text.value)] else [])
    + [Ended(!isError, if isError then Some(OrElse(text, "Claude reported an error.")) else None)]
  }

  /** `None` when the parser throws. */
  function ClaudeEvents(record: seq<Entry<Json>>): Option<seq<StreamEvent>> {
    var id := OrElse(StringField(record, "session_id"), "");
    var named := if id == "" then [] else [SessionNamed(id)];
    var kind := OrElse(StringField(record, "type"), "unknown");
    if kind == "system" then
      var model := OrElse(StringField(record, "model"), "");
      Some(named + (if StringField(record, "subtype") == Some("init") && model != "" then [ModelReported(model)] else []))
    else if kind == "assistant" then
      var blocks := ContentBlocks(record);
      if blocks.None? then None
      else
        var text := BlockTexts(blocks.value);
        Some(named + (if text == "" then [] else [Diagnostic(InProgressText(if |text| > 200 then text[..200] else text))]))
    else if kind == "result" then
      Some(named + ResultEvents(record))
    else
      Some(named + [Diagnostic(OtherEvent(kind))])
  }

  /** `parseLine`, with the diagnostic that stands for a parser that throws. */
  function LineEvents(protocol: Protocol, parse: Parser, line: string): seq<StreamEvent> {
    var trimmed := Trim(line);
    if trimmed == "" then []
    else
      match parse(trimmed)
      case Some(Object(record)) =>
        (match protocol
         case Codex => CodexEvents(record)
         case Claude =>
           var events := ClaudeEvents(record);
           if events.None? then [Diagnostic(ParserRaised)] else events.value)
      case _ => [Diagnostic(Unparseable(|trimmed|))]
  }

  function ReaderLineEvents(protocol: Protocol, parse: Parser, line: ReaderLine): seq<StreamEvent> {
    if line.truncated then [Diagnostic(LineTruncated)] else LineEvents(protocol, parse, line.text)
  }

  function StreamEvents(protocol: Protocol, parse: Parser, lines: seq<ReaderLine>): seq<StreamEvent> {
    if lines == [] then []
    else ReaderLineEvents(protocol, parse, lines[0]) + StreamEvents(protocol, parse, lines[1..])
  }

  // ---------- the accumulator ----------

  datatype Outcome = Outcome(
    assistantText: string,
    usage: Usage,
    externalSessionId: Option<string>,
    resolvedModel: Option<string>,
    terminal: Option<(bool, Option<string>)>,
    diagnostics: seq<Note>)

  const FRESH := Outcome("", Usage(true, None, None), None, None, None, [])

  function After(o: Outcome, e: StreamEvent): Outcome {
    match e
    case Assistant(text) => o.(assistantText := o.assistantText + text)
    case AssistantFinal(text) => o.(assistantText := text)
    case SessionNamed(id) => o.(externalSessionId := Some(id))
    case ModelReported(model) => o.(resolvedModel := Some(model))
    case UsageReported(usage) => o.(usage := usage)
    case Ended(succeeded, reason) => o.(terminal := Some((succeeded, if reason == Some("") then None else reason)))
    case Diagnostic(note) => o.(diagnostics := o.diagnostics + [note])
  }

  function AfterAll(o: Outcome, events: seq<StreamEvent>): Outcome {
    if events == [] then o else After(AfterAll(o, events[..|events| - 1]), events[|events| - 1])
  }

  lemma {:induction false} AfterConcat(o: Outcome, a: seq<StreamEvent>, b: seq<StreamEvent>)
    ensures AfterAll(o, a + b) == AfterAll(AfterAll(o, a), b)
  {
    if b == [] {
      assert a + b == a;
    } else {
      assert (a + b)[..|a + b| - 1] == a + b[..|b| - 1];
      AfterConcat(o, a, b[..|b| - 1]);
    }
  }

  class StructuredStreamAccumulator {
    const protocol: Protocol
    var assistantText: string
    var usage: Usage
    var externalSessionId: Option<string>
    var resolvedModel: Option<string>
    var terminal: Option<(bool, Option<string>)>
    var diagnostics: seq<Note>

    constructor (protocol: Protocol)
      ensures this.protocol == protocol && Snapshot() == FRESH
    {
      this.protocol := protocol;
      assistantText, usage, externalSessionId, resolvedModel, terminal, diagnostics :=
        "", Usage(true, None, None), None, None, None, [];
    }

    function Snapshot(): Outcome
      reads this
    {
      Outcome(assistantText, usage, externalSessionId, resolvedModel, terminal, diagnostics)
    }

    method Record(e: StreamEvent)
      modifies this
      ensures Snapshot() == After(old(Snapshot()), e)
    {
      match e
      case Assistant(text) => assistantText := assistantText + text;
      case AssistantFinal(text) => assistantText := text;
      case SessionNamed(id) => externalSessionId := Some(id);
      case ModelReported(model) => resolvedModel := Some(model);
      case UsageReported(u) => usage := u;
      case Ended(succeeded, reason) => terminal := Some((succeeded, if reason == Some("") then None else reason));
      case Diagnostic(note) => diagnostics := diagnostics + [note];
    }

    method ConsumeReaderLine(parse: Parser, line: ReaderLine) returns (events: seq<StreamEvent>)
      modifies this
      ensures events == ReaderLineEvents(protocol, parse, line)
      ensures Snapshot() == AfterAll(old(Snapshot()), events)
    {
      events := ReaderLineEvents(protocol, parse, line);
      for k := 0 to |events|
        invariant Snapshot() == AfterAll(old(Snapshot()), events[..k])
      {
        assert events[..k + 1][..k] == events[..k];
        Record(events[k]);
      }
      assert events[..|events|] == events;
    }
  }

  // ---------- chunking does not matter ----------

  /**
   However a text that fits is cut into chunks, the events and the final snapshot are those of
   its newline split.
   */
  lemma SameEventsHoweverChunked(protocol: Protocol, parse: Parser, text: string, chunks: seq<string>)
    requires Fits(text) && Concat(chunks) == text
    ensures StreamEvents(protocol, parse, Feed("", chunks)) == StreamEvents(protocol, parse, SplitLines(text))
    ensures AfterAll(FRESH, StreamEvents(protocol, parse, Feed("", chunks)))
      == AfterAll(FRESH, StreamEvents(protocol, parse, SplitLines(text)))
  {
    ChunkInvariantIffFits(text);
  }

  // ---------- what the consumer's transcript contains ----------

  /** The texts that the runner pushes as stdout, in order and joined. */
  function Stdout(events: seq<StreamEvent>): string {
    if events == [] then ""
    else
      var last := events[|events| - 1];
      Stdout(events[..|events| - 1]) + (if last.Assistant? || last.AssistantFinal? then last.text else "")
  }

  function FinalCount(events: seq<StreamEvent>): nat {
    if events == [] then 0
    else FinalCount(events[..|events| - 1]) + (if events[|events| - 1].AssistantFinal? then 1 else 0)
  }

  predicate CodexShape(e: StreamEvent) { !e.AssistantFinal? }

  predicate ClaudeShape(e: StreamEvent) { !e.Assistant? && (e.AssistantFinal? ==> e.text != "") }

  lemma ShapeOfLine(protocol: Protocol, parse: Parser, line: ReaderLine)
    ensures forall e :: e in ReaderLineEvents(protocol, parse, line) ==>
      (if protocol.Codex? then CodexShape(e) else ClaudeShape(e))
  {
    var trimmed := Trim(line.text);
    if !line.truncated && trimmed != "" && parse(trimmed).Some? && parse(trimmed).value.Object? {
      if protocol.Claude? {
        ClaudeRecordShape(parse(trimmed).value.fields);
      }
    }
  }

  lemma ClaudeRecordShape(record: seq<Entry<Json>>)
    ensures ClaudeEvents(record).Some? ==> forall e :: e in ClaudeEvents(record).value ==> ClaudeShape(e)
  {
    assert forall e :: e in ResultEvents(record) ==> ClaudeShape(e);
  }

  lemma {:induction false} ShapeOfStream(protocol: Protocol, parse: Parser, lines: seq<ReaderLine>)
    ensures forall e :: e in StreamEvents(protocol, parse, lines) ==> (if protocol.Codex? then CodexShape(e) else ClaudeShape(e))
  {
    if lines != [] {
      ShapeOfStream(protocol, parse, lines[1..]);
      ShapeOfLine(protocol, parse, lines[0]);
    }
  }

  lemma {:induction false} CodexTextFrom(events: seq<StreamEvent>)
    requires forall e :: e in events ==> CodexShape(e)
    ensures AfterAll(FRESH, events).assistantText == Stdout(events)
  {
    if events != [] {
      assert events[|events| - 1] in events;
      CodexTextFrom(events[..|events| - 1]);
    }
  }

  lemma {:induction false} ClaudeTextFrom(events: seq<StreamEvent>)
    requires forall e :: e in events ==> ClaudeShape(e)
    ensures FinalCount(events) == 0 ==> Stdout(events) == "" && AfterAll(FRESH, events).assistantText == ""
    ensures FinalCount(events) > 0 ==> AfterAll(FRESH, events).assistantText != ""
    ensures FinalCount(events) == 1 ==> Stdout(events) == AfterAll(FRESH, events).assistantText
    ensures FinalCount(events) > 1 ==> |Stdout(events)| > |AfterAll(FRESH, events).assistantText|
  {
    if events != [] {
      assert events[|events| - 1] in events;
      ClaudeTextFrom(events[..|events| - 1]);
    }
  }

  /** For Codex the stdout events joined are the accumulator's text on every stream. */
  lemma CodexTranscriptIsText(parse: Parser, lines: seq<ReaderLine>)
    ensures var events := StreamEvents(Codex, parse, lines);
      Stdout(events) == AfterAll(FRESH, events).assistantText
  {
    ShapeOfStream(Codex, parse, lines);
    CodexTextFrom(StreamEvents(Codex, parse, lines));
  }

  /** For Claude they are exactly when the stream has at most one successful result line. */
  lemma ClaudeTranscriptIsTextIff(parse: Parser, lines: seq<ReaderLine>)
    ensures var events := StreamEvents(Claude, parse, lines);
      Stdout(events) == AfterAll(FRESH, events).assistantText <==> FinalCount(events) <= 1
  {
    ShapeOfStream(Claude, parse, lines);
    ClaudeTextFrom(StreamEvents(Claude, parse, lines));
  }
}
