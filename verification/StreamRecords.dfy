/**
 What a finished stream says, in terms of the records that were printed
 (packages/providers/src/stream-parser.ts): the last record of each kind decides.
 */
module StreamRecords {
  import opened Wrappers
  import opened Json
  import opened LineReader
  import opened StreamProtocol
  import opened Sequences

  // ---------- what one record reports ----------

  function Or<X>(report: Option<X>, default: X): X {
    if report.Some? then report.value else default
  }

  function Later<X>(report: Option<X>, earlier: Option<X>): Option<X> {
    if report.Some? then report else earlier
  }

  /** The line's record: a whole line that parses to an object. */
  function RecordOf(parse: Parser, line: ReaderLine): Option<seq<Entry<Json>>> {
    if line.truncated || Trim(line.text) == "" then None
    else
      match parse(Trim(line.text))
      case Some(Object(record)) => Some(record)
      case _ => None
  }

  predicate IsKind(record: seq<Entry<Json>>, kind: string) {
    Field(record, "type") == Some(Str(kind))
  }

  /** A string property that is there and not empty. */
  function Named(record: seq<Entry<Json>>, key: string): Option<string> {
    match Field(record, key)
    case Some(Str(s)) => if s == "" then None else Some(s)
    case _ => None
  }

  /** A failure's reason: the text given, or the default when there is none; an empty text gives no reason. */
  function Reason(record: seq<Entry<Json>>, key: string, default: string): Option<string> {
    match Field(record, key)
    case Some(Str(s)) => if s == "" then None else Some(s)
    case _ => Some(default)
  }

  /** The only record Claude's parser throws on: an assistant message whose content is there and not a list. */
  predicate Malformed(record: seq<Entry<Json>>) {
    IsKind(record, "assistant") &&
    match Field(record, "message")
    case Some(Object(message)) =>
      var content := Field(message, "content");
      content.Some? && content != Some(Null) && !content.value.Array?
    case _ => false
  }

  /** Succeeded or failed, and why. */
  function Verdict(protocol: Protocol, record: seq<Entry<Json>>): Option<(bool, Option<string>)> {
    match protocol
    case Codex =>
      if IsKind(record, "task_complete") then Some((true, None))
      else if IsKind(record, "error") then Some((false, Reason(record, "message", "Codex reported an error.")))
      else None
    case Claude =>
      if !IsKind(record, "result") then None
      else if Field(record, "is_error") == Some(Bool(true)) then
        Some((false, Reason(record, "result", "Claude reported an error.")))
      else Some((true, None))
  }

  function Tokens(fields: seq<Entry<Json>>): Usage {
    Usage(false, NumberField(fields, "input_tokens"), NumberField(fields, "output_tokens"))
  }

  function TokenReport(protocol: Protocol, record: seq<Entry<Json>>): Option<Usage> {
    match protocol
    case Codex => if IsKind(record, "token_count") then Some(Tokens(record)) else None
    case Claude =>
      if !IsKind(record, "result") then None
      else
        match Field(record, "usage")
        case None => None
        case Some(Object(usage)) => Some(Tokens(usage))
        case Some(other) => if IsTruthy(other) then Some(Usage(false, None, None)) else None
  }

  function SessionReport(protocol: Protocol, record: seq<Entry<Json>>): Option<string> {
    match protocol
    case Codex => if IsKind(record, "session_configured") then Named(record, "session_id") else None
    case Claude => if Malformed(record) then None else Named(record, "session_id")
  }

  function ModelReport(protocol: Protocol, record: seq<Entry<Json>>): Option<string> {
    if protocol.Claude? && IsKind(record, "system") && Field(record, "subtype") == Some(Str("init"))
    then Named(record, "model") else None
  }

  /** Claude's final answer replaces what came before; Codex's messages are joined. */
  function AnswerReport(protocol: Protocol, record: seq<Entry<Json>>): Option<string> {
    if protocol.Claude? && IsKind(record, "result") && Field(record, "is_error") != Some(Bool(true))
    then Named(record, "result") else None
  }

  function MessageOf(protocol: Protocol, record: seq<Entry<Json>>): string {
    if protocol.Codex? && IsKind(record, "agent_message") then Or(Named(record, "message"), "") else ""
  }

  // ---------- one line ----------

  /** What a record makes of a snapshot, but for the diagnostics. */
  predicate RecordReports(protocol: Protocol, record: seq<Entry<Json>>, o: Outcome, o': Outcome) {
    && o'.terminal == Later(Verdict(protocol, record), o.terminal)
    && o'.usage == Or(TokenReport(protocol, record), o.usage)
    && o'.externalSessionId == Later(SessionReport(protocol, record), o.externalSessionId)
    && o'.resolvedModel == Later(ModelReport(protocol, record), o.resolvedModel)
    && o'.assistantText == Or(AnswerReport(protocol, record), o.assistantText) + MessageOf(protocol, record)
  }

  /** A line without a record changes nothing but the diagnostics. */
  predicate LineReports(protocol: Protocol, parse: Parser, line: ReaderLine, o: Outcome, o': Outcome) {
    var record := RecordOf(parse, line);
    if record.None? then o'.(diagnostics := o.diagnostics) == o else RecordReports(protocol, record.value, o, o')
  }

  lemma AfterFew(o: Outcome, a: StreamEvent, b: StreamEvent, rest: seq<StreamEvent>)
    ensures AfterAll(o, [a]) == After(o, a)
    ensures AfterAll(o, [a] + rest) == AfterAll(After(o, a), rest)
    ensures AfterAll(o, rest + [b]) == After(AfterAll(o, rest), b)
    ensures [] + rest == rest
  {
    assert [a][..0] == [] && (rest + [b])[..|rest|] == rest;
    AfterConcat(o, [a], rest);
  }

  /** What a line with these events does to any snapshot. */
  ghost predicate Does(protocol: Protocol, record: seq<Entry<Json>>, events: seq<StreamEvent>) {
    forall o :: RecordReports(protocol, record, o, AfterAll(o, events)) && o.diagnostics <= AfterAll(o, events).diagnostics
  }

  lemma OneDoes(protocol: Protocol, record: seq<Entry<Json>>, e: StreamEvent)
    requires forall o :: RecordReports(protocol, record, o, After(o, e)) && o.diagnostics <= After(o, e).diagnostics
    ensures Does(protocol, record, [e])
  {
    forall o
      ensures RecordReports(protocol, record, o, AfterAll(o, [e])) && o.diagnostics <= AfterAll(o, [e]).diagnostics
    {
      AfterFew(o, e, e, []);
    }
  }

  lemma CodexSession(record: seq<Entry<Json>>)
    requires IsKind(record, "session_configured")
    ensures Does(Codex, record, CodexEvents(record))
  {
    var id := Named(record, "session_id");
    assert CodexEvents(record) == if id.Some? then [SessionNamed(id.value)] else [];
    assert SessionReport(Codex, record) == id && Verdict(Codex, record) == None && TokenReport(Codex, record) == None;
    if id.Some? { OneDoes(Codex, record, SessionNamed(id.value)); }
  }

  lemma CodexMessage(record: seq<Entry<Json>>)
    requires IsKind(record, "agent_message")
    ensures Does(Codex, record, CodexEvents(record))
  {
    var message := Named(record, "message");
    assert CodexEvents(record) == if message.Some? then [Assistant(message.value)] else [];
    assert MessageOf(Codex, record) == Or(message, "");
    assert SessionReport(Codex, record) == None && Verdict(Codex, record) == None && TokenReport(Codex, record) == None;
    if message.Some? { OneDoes(Codex, record, Assistant(message.value)); }
  }

  lemma CodexTokens(record: seq<Entry<Json>>)
    requires IsKind(record, "token_count")
    ensures Does(Codex, record, CodexEvents(record))
  {
    assert CodexEvents(record) == [UsageReported(Tokens(record))];
    assert SessionReport(Codex, record) == None && Verdict(Codex, record) == None && MessageOf(Codex, record) == "";
    OneDoes(Codex, record, UsageReported(Tokens(record)));
  }

  lemma CodexEnd(record: seq<Entry<Json>>)
    requires IsKind(record, "error") || IsKind(record, "task_complete")
    ensures Does(Codex, record, CodexEvents(record))
  {
    assert SessionReport(Codex, record) == None && TokenReport(Codex, record) == None && MessageOf(Codex, record) == "";
    if IsKind(record, "error") {
      var reason := OrElse(StringField(record, "message"), "Codex reported an error.");
      assert CodexEvents(record) == [Ended(false, Some(reason))];
      assert Verdict(Codex, record) == Some((false, if reason == "" then None else Some(reason)));
      OneDoes(Codex, record, Ended(false, Some(reason)));
    } else {
      assert CodexEvents(record) == [Ended(true, None)];
      assert Verdict(Codex, record) == Some((true, None));
      OneDoes(Codex, record, Ended(true, None));
    }
  }

  lemma CodexOther(record: seq<Entry<Json>>)
    requires !IsKind(record, "session_configured") && !IsKind(record, "agent_message") && !IsKind(record, "token_count")
    requires !IsKind(record, "error") && !IsKind(record, "task_complete")
    ensures Does(Codex, record, CodexEvents(record))
  {
    var kind := OrElse(StringField(record, "type"), "unknown");
    assert CodexEvents(record) == [Diagnostic(OtherEvent(kind))];
    OneDoes(Codex, record, Diagnostic(OtherEvent(kind)));
  }

  lemma CodexDoes(record: seq<Entry<Json>>)
    ensures Does(Codex, record, CodexEvents(record))
  {
    if IsKind(record, "session_configured") {
      CodexSession(record);
    } else if IsKind(record, "agent_message") {
      CodexMessage(record);
    } else if IsKind(record, "token_count") {
      CodexTokens(record);
    } else if IsKind(record, "error") || IsKind(record, "task_complete") {
      CodexEnd(record);
    } else {
      CodexOther(record);
    }
  }

  /** Up to three reports after one another. */
  lemma AfterThree(o: Outcome, usage: Option<Usage>, answer: Option<string>, end: StreamEvent)
    requires end.Ended?
    ensures var events := UsageEvents(usage) + AnswerEvents(answer) + [end];
      AfterAll(o, events) == After(o.(usage := Or(usage, o.usage), assistantText := Or(answer, o.assistantText)), end)
  {
    AfterConcat(o, UsageEvents(usage) + AnswerEvents(answer), [end]);
    AfterConcat(o, UsageEvents(usage), AnswerEvents(answer));
    AfterFew(AfterAll(o, UsageEvents(usage) + AnswerEvents(answer)), end, end, []);
    if usage.Some? { AfterFew(o, UsageReported(usage.value), end, []); }
    if answer.Some? { AfterFew(AfterAll(o, UsageEvents(usage)), AssistantFinal(answer.value), end, []); }
  }

  function UsageEvents(usage: Option<Usage>): seq<StreamEvent> {
    if usage.Some? then [UsageReported(usage.value)] else []
  }

  function AnswerEvents(answer: Option<string>): seq<StreamEvent> {
    if answer.Some? then [AssistantFinal(answer.value)] else []
  }

  lemma ResultEventsAre(record: seq<Entry<Json>>, reason: Option<string>)
    requires IsKind(record, "result")
    requires reason == if Field(record, "is_error") == Some(Bool(true))
      then Some(OrElse(StringField(record, "result"), "Claude reported an error.")) else None
    ensures ResultEvents(record) == UsageEvents(TokenReport(Claude, record)) + AnswerEvents(AnswerReport(Claude, record))
      + [Ended(Verdict(Claude, record).value.0, reason)]
    ensures Verdict(Claude, record).value.1 == if reason == Some("") then None else reason
  {
  }

  lemma ResultDoes(record: seq<Entry<Json>>, o: Outcome)
    requires IsKind(record, "result")
    ensures AfterAll(o, ResultEvents(record)) == o.(
      terminal := Verdict(Claude, record),
      usage := Or(TokenReport(Claude, record), o.usage),
      assistantText := Or(AnswerReport(Claude, record), o.assistantText))
  {
    var reason := if Field(record, "is_error") == Some(Bool(true))
      then Some(OrElse(StringField(record, "result"), "Claude reported an error.")) else None;
    ResultEventsAre(record, reason);
    AfterThree(o, TokenReport(Claude, record), AnswerReport(Claude, record), Ended(Verdict(Claude, record).value.0, reason));
  }

  function NameEvents(record: seq<Entry<Json>>): seq<StreamEvent> {
    var id := Named(record, "session_id");
    if id.Some? then [SessionNamed(id.value)] else []
  }

  /** Every record that Claude's parser does not throw on may name the session first. */
  lemma NameDoes(record: seq<Entry<Json>>, rest: seq<StreamEvent>, o: Outcome)
    ensures AfterAll(o, NameEvents(record) + rest) ==
      AfterAll(o.(externalSessionId := Later(Named(record, "session_id"), o.externalSessionId)), rest)
  {
    var id := Named(record, "session_id");
    if id.Some? {
      AfterFew(o, SessionNamed(id.value), SessionNamed(id.value), rest);
    } else {
      assert NameEvents(record) + rest == rest;
    }
  }

  lemma ClaudeResult(record: seq<Entry<Json>>)
    requires IsKind(record, "result")
    ensures ClaudeEvents(record).Some? && Does(Claude, record, ClaudeEvents(record).value)
  {
    assert ClaudeEvents(record) == Some(NameEvents(record) + ResultEvents(record));
    forall o
      ensures RecordReports(Claude, record, o, AfterAll(o, NameEvents(record) + ResultEvents(record)))
      ensures o.diagnostics <= AfterAll(o, NameEvents(record) + ResultEvents(record)).diagnostics
    {
      NameAndResult(record, o);
    }
  }

  lemma ResultIsComplete(record: seq<Entry<Json>>)
    requires IsKind(record, "result")
    ensures !Malformed(record) && ModelReport(Claude, record) == None && MessageOf(Claude, record) == ""
    ensures Verdict(Claude, record).Some?
  {
  }

  lemma NameAndResult(record: seq<Entry<Json>>, o: Outcome)
    requires IsKind(record, "result")
    ensures RecordReports(Claude, record, o, AfterAll(o, NameEvents(record) + ResultEvents(record)))
    ensures o.diagnostics <= AfterAll(o, NameEvents(record) + ResultEvents(record)).diagnostics
  {
    var named := o.(externalSessionId := Later(Named(record, "session_id"), o.externalSessionId));
    NameDoes(record, ResultEvents(record), o);
    ResultDoes(record, named);
    ResultIsComplete(record);
  }

  lemma ClaudeQuiet(record: seq<Entry<Json>>)
    requires !IsKind(record, "result") && !Malformed(record)
    ensures Verdict(Claude, record) == None && TokenReport(Claude, record) == None && AnswerReport(Claude, record) == None
    ensures SessionReport(Claude, record) == Named(record, "session_id") && MessageOf(Claude, record) == ""
  {
  }

  lemma QuietReports(record: seq<Entry<Json>>, o: Outcome, o': Outcome)
    requires !IsKind(record, "result") && !Malformed(record)
    requires o'.externalSessionId == Later(Named(record, "session_id"), o.externalSessionId)
    requires o'.resolvedModel == Later(ModelReport(Claude, record), o.resolvedModel)
    requires o'.terminal == o.terminal && o'.usage == o.usage && o'.assistantText == o.assistantText
    ensures RecordReports(Claude, record, o, o')
  {
    ClaudeQuiet(record);
  }

  /** At most one event after the name, which reports a model or a diagnostic. */
  lemma NameAndOne(record: seq<Entry<Json>>, events: seq<StreamEvent>, model: Option<string>, o: Outcome)
    requires |events| <= 1
    requires events == [] ==> model == None
    requires events != [] ==>
      (events[0].ModelReported? && model == Some(events[0].model)) || (events[0].Diagnostic? && model == None)
    ensures var o' := AfterAll(o, NameEvents(record) + events);
      && o'.externalSessionId == Later(Named(record, "session_id"), o.externalSessionId)
      && o'.resolvedModel == Later(model, o.resolvedModel)
      && o'.terminal == o.terminal && o'.usage == o.usage && o'.assistantText == o.assistantText
      && o.diagnostics <= o'.diagnostics
  {
    NameDoes(record, events, o);
    if events != [] {
      AfterFew(o.(externalSessionId := Later(Named(record, "session_id"), o.externalSessionId)), events[0], events[0], []);
      assert events == [events[0]];
    }
  }

  lemma ClaudeOne(record: seq<Entry<Json>>, events: seq<StreamEvent>, model: Option<string>)
    requires !IsKind(record, "result") && !Malformed(record) && model == ModelReport(Claude, record)
    requires |events| <= 1
    requires events == [] ==> model == None
    requires events != [] ==>
      (events[0].ModelReported? && model == Some(events[0].model)) || (events[0].Diagnostic? && model == None)
    ensures Does(Claude, record, NameEvents(record) + events)
  {
    forall o
      ensures RecordReports(Claude, record, o, AfterAll(o, NameEvents(record) + events))
      ensures o.diagnostics <= AfterAll(o, NameEvents(record) + events).diagnostics
    {
      NameAndOne(record, events, model, o);
      QuietReports(record, o, AfterAll(o, NameEvents(record) + events));
    }
  }

  lemma ClaudeSystem(record: seq<Entry<Json>>)
    requires IsKind(record, "system")
    ensures ClaudeEvents(record).Some? && Does(Claude, record, ClaudeEvents(record).value)
  {
    var model := ModelReport(Claude, record);
    assert ClaudeEvents(record) == Some(NameEvents(record) + if model.Some? then [ModelReported(model.value)] else []);
    ClaudeOne(record, if model.Some? then [ModelReported(model.value)] else [], model);
  }

  lemma ClaudeAssistant(record: seq<Entry<Json>>)
    requires IsKind(record, "assistant")
    ensures ClaudeEvents(record).None? <==> Malformed(record)
    ensures ClaudeEvents(record).Some? ==> Does(Claude, record, ClaudeEvents(record).value)
  {
    var blocks := ContentBlocks(record);
    assert blocks.None? <==> Malformed(record);
    if blocks.Some? {
      var text := BlockTexts(blocks.value);
      var events := if text == "" then [] else [Diagnostic(InProgressText(if |text| > 200 then text[..200] else text))];
      assert ClaudeEvents(record) == Some(NameEvents(record) + events);
      ClaudeOne(record, events, None);
    }
  }

  lemma ClaudeOther(record: seq<Entry<Json>>)
    requires !IsKind(record, "system") && !IsKind(record, "assistant") && !IsKind(record, "result")
    ensures ClaudeEvents(record).Some? && Does(Claude, record, ClaudeEvents(record).value)
  {
    var kind := OrElse(StringField(record, "type"), "unknown");
    assert ClaudeEvents(record) == Some(NameEvents(record) + [Diagnostic(OtherEvent(kind))]);
    ClaudeOne(record, [Diagnostic(OtherEvent(kind))], None);
  }

  lemma ClaudeDoes(record: seq<Entry<Json>>)
    ensures ClaudeEvents(record).None? <==> Malformed(record)
    ensures ClaudeEvents(record).Some? ==> Does(Claude, record, ClaudeEvents(record).value)
  {
    if IsKind(record, "result") {
      ClaudeResult(record);
    } else if IsKind(record, "system") {
      ClaudeSystem(record);
    } else if IsKind(record, "assistant") {
      ClaudeAssistant(record);
    } else {
      ClaudeOther(record);
    }
  }

  /** What is left when the parser throws. */
  lemma MalformedDoes(record: seq<Entry<Json>>)
    requires Malformed(record)
    ensures Does(Claude, record, [Diagnostic(ParserRaised)])
  {
    OneDoes(Claude, record, Diagnostic(ParserRaised));
  }

  lemma EventsOfRecord(protocol: Protocol, parse: Parser, line: ReaderLine)
    requires RecordOf(parse, line).Some?
    ensures Does(protocol, RecordOf(parse, line).value, ReaderLineEvents(protocol, parse, line))
  {
    var record := RecordOf(parse, line).value;
    if protocol.Codex? {
      CodexDoes(record);
      assert ReaderLineEvents(protocol, parse, line) == CodexEvents(record);
    } else {
      ClaudeDoes(record);
      if Malformed(record) {
        MalformedDoes(record);
        assert ReaderLineEvents(protocol, parse, line) == [Diagnostic(ParserRaised)];
      } else {
        assert ReaderLineEvents(protocol, parse, line) == ClaudeEvents(record).value;
      }
    }
  }

  lemma EventsOfNoRecord(protocol: Protocol, parse: Parser, line: ReaderLine)
    requires RecordOf(parse, line).None?
    ensures var events := ReaderLineEvents(protocol, parse, line);
      events == [] || (events == [events[0]] && events[0].Diagnostic?)
  {
  }

  lemma LineDoes(protocol: Protocol, parse: Parser, line: ReaderLine, o: Outcome)
    ensures var o' := AfterAll(o, ReaderLineEvents(protocol, parse, line));
      LineReports(protocol, parse, line, o, o') && o.diagnostics <= o'.diagnostics
  {
    if RecordOf(parse, line).Some? {
      EventsOfRecord(protocol, parse, line);
    } else {
      EventsOfNoRecord(protocol, parse, line);
      DiagnosticOnly(ReaderLineEvents(protocol, parse, line), o);
    }
  }

  lemma DiagnosticOnly(events: seq<StreamEvent>, o: Outcome)
    requires events == [] || (events == [events[0]] && events[0].Diagnostic?)
    ensures AfterAll(o, events).(diagnostics := o.diagnostics) == o && o.diagnostics <= AfterAll(o, events).diagnostics
  {
    if events != [] {
      AfterFew(o, events[0], events[0], []);
    }
  }

  // ---------- the whole stream ----------

  /** What a stretch of the stream reports; `messages` are Codex's, joined. */
  datatype Report = Report(
    verdict: Option<(bool, Option<string>)>,
    tokens: Option<Usage>,
    session: Option<string>,
    model: Option<string>,
    answer: Option<string>,
    messages: string)

  const SILENCE := Report(None, None, None, None, None, "")

  /** A line that is cut, or that is not a JSON object, reports nothing. */
  function ReportOf(protocol: Protocol, parse: Parser, line: ReaderLine): Report {
    var record := RecordOf(parse, line);
    if record.None? then SILENCE
    else
      Report(
        Verdict(protocol, record.value),
        TokenReport(protocol, record.value),
        SessionReport(protocol, record.value),
        ModelReport(protocol, record.value),
        AnswerReport(protocol, record.value),
        MessageOf(protocol, record.value))
  }

  function Followed(r: Report, next: Report): Report {
    Report(
      Later(next.verdict, r.verdict), Later(next.tokens, r.tokens), Later(next.session, r.session),
      Later(next.model, r.model), Later(next.answer, r.answer), r.messages + next.messages)
  }

  function StreamReport(protocol: Protocol, parse: Parser, lines: seq<ReaderLine>): Report {
    if lines == [] then SILENCE
    else
      var n := |lines| - 1;
      Followed(StreamReport(protocol, parse, lines[..n]), ReportOf(protocol, parse, lines[n]))
  }

  /** Each part of the report is that of the last line that reports it. */
  lemma {:induction false} LastLineReports(protocol: Protocol, parse: Parser, lines: seq<ReaderLine>, i: nat)
    requires i < |lines|
    ensures var r, all := ReportOf(protocol, parse, lines[i]), StreamReport(protocol, parse, lines);
      && (r.verdict.Some? && (forall j :: i < j < |lines| ==> ReportOf(protocol, parse, lines[j]).verdict.None?) ==>
           all.verdict == r.verdict)
      && (r.tokens.Some? && (forall j :: i < j < |lines| ==> ReportOf(protocol, parse, lines[j]).tokens.None?) ==>
           all.tokens == r.tokens)
      && (r.session.Some? && (forall j :: i < j < |lines| ==> ReportOf(protocol, parse, lines[j]).session.None?) ==>
           all.session == r.session)
      && (r.model.Some? && (forall j :: i < j < |lines| ==> ReportOf(protocol, parse, lines[j]).model.None?) ==>
           all.model == r.model)
      && (r.answer.Some? && (forall j :: i < j < |lines| ==> ReportOf(protocol, parse, lines[j]).answer.None?) ==>
           all.answer == r.answer)
    decreases |lines|
  {
    var n := |lines| - 1;
    if i < n {
      LastLineReports(protocol, parse, lines[..n], i);
      assert forall j :: 0 <= j < n ==> lines[..n][j] == lines[j];
    }
  }

  /** The snapshot says what the report says. */
  predicate Says(o: Outcome, r: Report) {
    && o.terminal == r.verdict
    && o.usage == Or(r.tokens, Usage(true, None, None))
    && o.externalSessionId == r.session
    && o.resolvedModel == r.model
    && o.assistantText == Or(r.answer, "") + r.messages
  }

  /** Only Claude gives answers, and only Codex messages. */
  predicate OneSided(protocol: Protocol, r: Report) {
    if protocol.Claude? then r.messages == "" else r.answer == None
  }

  lemma ReportIsOneSided(protocol: Protocol, parse: Parser, line: ReaderLine)
    ensures OneSided(protocol, ReportOf(protocol, parse, line))
  {
  }

  lemma LineReportIs(protocol: Protocol, parse: Parser, line: ReaderLine, o: Outcome, o': Outcome)
    requires LineReports(protocol, parse, line, o, o')
    ensures var r := ReportOf(protocol, parse, line);
      && o'.terminal == Later(r.verdict, o.terminal) && o'.usage == Or(r.tokens, o.usage)
      && o'.externalSessionId == Later(r.session, o.externalSessionId)
      && o'.resolvedModel == Later(r.model, o.resolvedModel)
      && o'.assistantText == Or(r.answer, o.assistantText) + r.messages
  {
    if RecordOf(parse, line).None? {
      assert o'.assistantText == o.assistantText + "";
    }
  }

  lemma SaysMore(protocol: Protocol, parse: Parser, line: ReaderLine, r: Report, o: Outcome, o': Outcome)
    requires Says(o, r) && OneSided(protocol, r) && LineReports(protocol, parse, line, o, o')
    ensures Says(o', Followed(r, ReportOf(protocol, parse, line)))
    ensures OneSided(protocol, Followed(r, ReportOf(protocol, parse, line)))
  {
    LineReportIs(protocol, parse, line, o, o');
    ReportIsOneSided(protocol, parse, line);
  }

  lemma {:induction false} StreamSplit(protocol: Protocol, parse: Parser, lines: seq<ReaderLine>)
    requires lines != []
    ensures var n := |lines| - 1;
      StreamEvents(protocol, parse, lines) ==
      StreamEvents(protocol, parse, lines[..n]) + ReaderLineEvents(protocol, parse, lines[n])
    decreases |lines|
  {
    var n := |lines| - 1;
    if n > 0 {
      StreamSplit(protocol, parse, lines[1..]);
      assert lines[1..][..n - 1] == lines[..n][1..];
      Assoc(ReaderLineEvents(protocol, parse, lines[0]), StreamEvents(protocol, parse, lines[..n][1..]),
        ReaderLineEvents(protocol, parse, lines[n]));
    } else {
      assert lines[1..] == [] && lines[..n] == [];
    }
  }

  /**
   The snapshot of a whole stream. The verdict, the tokens, the session and the model are those of the last record
   that reports one; the answer is Claude's last successful one, or all of Codex's messages. Lines that are cut, or
   that are not JSON objects, are as good as absent.
   */
  lemma {:induction false} LastRecordDecides(protocol: Protocol, parse: Parser, lines: seq<ReaderLine>)
    ensures Says(AfterAll(FRESH, StreamEvents(protocol, parse, lines)), StreamReport(protocol, parse, lines))
    ensures OneSided(protocol, StreamReport(protocol, parse, lines))
    decreases |lines|
  {
    if lines != [] {
      var n := |lines| - 1;
      LastRecordDecides(protocol, parse, lines[..n]);
      StreamSplit(protocol, parse, lines);
      AfterConcat(FRESH, StreamEvents(protocol, parse, lines[..n]), ReaderLineEvents(protocol, parse, lines[n]));
      var o := AfterAll(FRESH, StreamEvents(protocol, parse, lines[..n]));
      LineDoes(protocol, parse, lines[n], o);
      SaysMore(protocol, parse, lines[n], StreamReport(protocol, parse, lines[..n]), o,
        AfterAll(o, ReaderLineEvents(protocol, parse, lines[n])));
    }
  }

  // ---------- diagnostics ----------

  function NotesIn(events: seq<StreamEvent>): seq<Note> {
    if events == [] then []
    else
      var n := |events| - 1;
      NotesIn(events[..n]) + (if events[n].Diagnostic? then [events[n].note] else [])
  }

  lemma {:induction false} DiagnosticsAreNotes(o: Outcome, events: seq<StreamEvent>)
    ensures AfterAll(o, events).diagnostics == o.diagnostics + NotesIn(events)
    decreases |events|
  {
    if events != [] {
      DiagnosticsAreNotes(o, events[..|events| - 1]);
    }
  }

  lemma {:induction false} NotesOfConcat(a: seq<StreamEvent>, b: seq<StreamEvent>)
    ensures NotesIn(a + b) == NotesIn(a) + NotesIn(b)
    decreases |b|
  {
    if b == [] {
      assert a + b == a;
    } else {
      assert (a + b)[..|a + b| - 1] == a + b[..|b| - 1];
      NotesOfConcat(a, b[..|b| - 1]);
    }
  }

  lemma NoteOfOne(e: StreamEvent)
    ensures NotesIn([e]) == if e.Diagnostic? then [e.note] else []
  {
    assert [e][..0] == [];
  }

  /** The note that a record leaves: of a kind that is not known, or of Claude's text in progress. */
  function RecordNote(protocol: Protocol, record: seq<Entry<Json>>): Option<Note> {
    var other := OtherEvent(match Field(record, "type") case Some(Str(kind)) => kind case _ => "unknown");
    match protocol
    case Codex =>
      if IsKind(record, "session_configured") || IsKind(record, "agent_message") || IsKind(record, "token_count")
        || IsKind(record, "error") || IsKind(record, "task_complete")
      then None else Some(other)
    case Claude =>
      if IsKind(record, "system") || IsKind(record, "result") then None
      else if !IsKind(record, "assistant") then Some(other)
      else if Malformed(record) then Some(ParserRaised)
      else
        var blocks := ContentBlocks(record);
        var text := if blocks.None? then "" else BlockTexts(blocks.value);
        if text == "" then None else Some(InProgressText(if |text| > 200 then text[..200] else text))
  }

  /** The note that a line leaves, if any. */
  function LineNote(protocol: Protocol, parse: Parser, line: ReaderLine): Option<Note> {
    if line.truncated then Some(LineTruncated)
    else if Trim(line.text) == "" then None
    else
      var record := RecordOf(parse, line);
      if record.None? then Some(Unparseable(|Trim(line.text)|)) else RecordNote(protocol, record.value)
  }

  function Notes(note: Option<Note>): seq<Note> {
    if note.Some? then [note.value] else []
  }

  lemma CodexNotes(record: seq<Entry<Json>>)
    ensures NotesIn(CodexEvents(record)) == Notes(RecordNote(Codex, record))
  {
    var events := CodexEvents(record);
    assert |events| <= 1;
    if events != [] {
      assert events == [events[0]];
      NoteOfOne(events[0]);
    }
  }

  lemma NameNotes(record: seq<Entry<Json>>, rest: seq<StreamEvent>)
    ensures NotesIn(NameEvents(record) + rest) == NotesIn(rest)
  {
    NotesOfConcat(NameEvents(record), rest);
    if Named(record, "session_id").Some? {
      NoteOfOne(SessionNamed(Named(record, "session_id").value));
    }
  }

  lemma ResultNotes(record: seq<Entry<Json>>)
    requires IsKind(record, "result")
    ensures NotesIn(ResultEvents(record)) == []
  {
    var reason := if Field(record, "is_error") == Some(Bool(true))
      then Some(OrElse(StringField(record, "result"), "Claude reported an error.")) else None;
    ResultEventsAre(record, reason);
    var usage, answer := UsageEvents(TokenReport(Claude, record)), AnswerEvents(AnswerReport(Claude, record));
    NotesOfConcat(usage + answer, [Ended(Verdict(Claude, record).value.0, reason)]);
    NotesOfConcat(usage, answer);
    NoteOfOne(Ended(Verdict(Claude, record).value.0, reason));
    if usage != [] { NoteOfOne(usage[0]); }
    if answer != [] { NoteOfOne(answer[0]); }
  }

  lemma SystemNotes(record: seq<Entry<Json>>)
    requires IsKind(record, "system")
    ensures ClaudeEvents(record).Some? && NotesIn(ClaudeEvents(record).value) == []
  {
    var model := ModelReport(Claude, record);
    var rest := if model.Some? then [ModelReported(model.value)] else [];
    assert ClaudeEvents(record) == Some(NameEvents(record) + rest);
    NameNotes(record, rest);
    if model.Some? { NoteOfOne(ModelReported(model.value)); }
  }

  lemma AssistantNotes(record: seq<Entry<Json>>)
    requires IsKind(record, "assistant") && !Malformed(record)
    ensures ClaudeEvents(record).Some? && NotesIn(ClaudeEvents(record).value) == Notes(RecordNote(Claude, record))
  {
    var note := RecordNote(Claude, record);
    assert ContentBlocks(record).Some?;
    var rest := if note.Some? then [Diagnostic(note.value)] else [];
    assert ClaudeEvents(record) == Some(NameEvents(record) + rest);
    NameNotes(record, rest);
    if note.Some? { NoteOfOne(Diagnostic(note.value)); }
  }

  lemma OtherNotes(record: seq<Entry<Json>>)
    requires !IsKind(record, "system") && !IsKind(record, "assistant") && !IsKind(record, "result")
    ensures ClaudeEvents(record).Some? && NotesIn(ClaudeEvents(record).value) == Notes(RecordNote(Claude, record))
  {
    var kind := OrElse(StringField(record, "type"), "unknown");
    assert ClaudeEvents(record) == Some(NameEvents(record) + [Diagnostic(OtherEvent(kind))]);
    assert RecordNote(Claude, record) == Some(OtherEvent(kind));
    NameNotes(record, [Diagnostic(OtherEvent(kind))]);
    NoteOfOne(Diagnostic(OtherEvent(kind)));
  }

  lemma FullResultNotes(record: seq<Entry<Json>>)
    requires IsKind(record, "result")
    ensures ClaudeEvents(record).Some? && NotesIn(ClaudeEvents(record).value) == []
  {
    assert ClaudeEvents(record) == Some(NameEvents(record) + ResultEvents(record));
    NameNotes(record, ResultEvents(record));
    ResultNotes(record);
  }

  lemma ClaudeNotes(record: seq<Entry<Json>>)
    requires !Malformed(record)
    ensures ClaudeEvents(record).Some? && NotesIn(ClaudeEvents(record).value) == Notes(RecordNote(Claude, record))
  {
    if IsKind(record, "result") {
      FullResultNotes(record);
    } else if IsKind(record, "system") {
      SystemNotes(record);
    } else if IsKind(record, "assistant") {
      AssistantNotes(record);
    } else {
      OtherNotes(record);
    }
  }

  /** A line adds exactly its note to the diagnostics, and none otherwise. */
  lemma LineLeavesNote(protocol: Protocol, parse: Parser, line: ReaderLine, o: Outcome)
    ensures AfterAll(o, ReaderLineEvents(protocol, parse, line)).diagnostics ==
      o.diagnostics + Notes(LineNote(protocol, parse, line))
  {
    var events := ReaderLineEvents(protocol, parse, line);
    DiagnosticsAreNotes(o, events);
    var record := RecordOf(parse, line);
    if record.None? {
      EventsOfNoRecord(protocol, parse, line);
      if events != [] { NoteOfOne(events[0]); }
    } else if protocol.Codex? {
      assert events == CodexEvents(record.value);
      CodexNotes(record.value);
    } else if Malformed(record.value) {
      ClaudeDoes(record.value);
      assert events == [Diagnostic(ParserRaised)];
      NoteOfOne(events[0]);
    } else {
      ClaudeNotes(record.value);
      assert events == ClaudeEvents(record.value).value;
    }
  }
}
