/**
 * The streaming translator (ConvertCodexResponseToOpenAI,
 * codex_openai_response.go lines 87-294): one Codex event line in, zero to
 * three Chat-Completions chunks out, with per-request state carried in a
 * record of nine fields. `StepSpec` is the transition as a function of the
 * state; `ConvertParams.Step` is the same transition performed in place.
 */
module StreamTranslator {
  import opened JsonTree
  import opened Shapes
  import opened ReasoningCompat
  import opened ToolNames

  /** The Codex event kinds, keyed in the source by the `type` string. */
  datatype Event =
    | Created(id: string, createdAt: int, model: string)  // response.created: response.id / created_at / model
    | SummaryPartAdded                                     // response.reasoning_summary_part.added
    | SummaryTextDelta(delta: string)                      // response.reasoning_summary_text.delta
    | ReasoningTextDelta(delta: string)                    // response.reasoning_text.delta
    | SummaryTextDone                                      // response.reasoning_summary_text.done
    | OutputTextDelta(text: Option<string>)                // response.output_text.delta (delta may be absent)
    | OutputItemDone(item: Option<OutputItem>)             // response.output_item.done (item may be absent)
    | Completed                                            // response.completed
    | Other(kind: string)                                  // any other type

  /**
   * One line of the event stream: either it lacks the `data:` prefix, or it
   * carries an event together with the event's top-level `model` and its
   * `response.usage`, when present.
   */
  datatype Line = NotData | Data(event: Event, model: Option<string>, usage: Option<VendorUsage>)

  datatype ToolCallDelta = ToolCallDelta(index: int, call: ToolCall)

  /** `choices[0].delta`; None is JSON null or an absent key. */
  datatype Delta = Delta(
    role: Option<string>,
    content: Option<string>,
    reasoning: Option<ReasoningField>,
    reasoningSummary: Option<string>,
    toolCalls: Option<seq<ToolCallDelta>>)

  const NoDelta := Delta(None, None, None, None, None)

  /**
   * One `chat.completion.chunk`. `finishReason` stands for both
   * `finish_reason` and `native_finish_reason`, which are always set together.
   */
  datatype Chunk = Chunk(
    id: string,
    created: int,
    model: string,
    usage: Usage,
    delta: Delta,
    finishReason: Option<string>)

  /**
   * ConvertCliToOpenAIParams as a value. `reasoningCompat` None is the empty
   * string of the source: the mode has not been resolved yet.
   */
  datatype State = State(
    responseId: string,
    createdAt: int,
    model: string,
    functionCallIndex: int,
    reasoningCompat: Option<Compat>,
    thinkOpen: bool,
    thinkClosed: bool,
    sawAnySummary: bool,
    pendingSummary: bool)

  /** The state created on the first call of a request. */
  function Initial(modelName: string): (s: State)
    ensures s.functionCallIndex == -1 && s.reasoningCompat.None?
    ensures !s.thinkOpen && !s.thinkClosed && !s.sawAnySummary && !s.pendingSummary
  {
    State("", 0, modelName, -1, None, false, false, false, false)
  }

  const Assistant := "assistant"
  const OpenTag := "<think>"
  const CloseTag := "</think>"

  /**
   * The chunk every emission starts from: id and created from the state, the
   * model only from the event's own top-level `model` (the placeholder
   * "model" otherwise), usage counters from the event.
   */
  function Template(s: State, model: Option<string>, usage: Option<VendorUsage>): (c: Chunk)
    ensures c.id == s.responseId && c.created == s.createdAt && c.model == model.GetOr("model")
    ensures c.usage == ToChatUsage(usage) && c.delta == NoDelta && c.finishReason.None?
  {
    Chunk(s.responseId, s.createdAt, model.GetOr("model"), ToChatUsage(usage), NoDelta, None)
  }

  function ContentChunk(t: Chunk, text: string): Chunk {
    t.(delta := t.delta.(role := Some(Assistant), content := Some(text)))
  }

  function SummaryChunk(t: Chunk, text: string): Chunk {
    t.(delta := t.delta.(role := Some(Assistant), reasoningSummary := Some(text), reasoning := Some(PlainReasoning(text))))
  }

  function ReasoningChunk(t: Chunk, text: string): Chunk {
    t.(delta := t.delta.(role := Some(Assistant), reasoning := Some(PlainReasoning(text))))
  }

  function O3Chunk(t: Chunk, text: string): Chunk {
    t.(delta := t.delta.(role := Some(Assistant), reasoning := Some(StructuredReasoning(text))))
  }

  function ToolCallChunk(t: Chunk, index: int, call: ToolCall): Chunk {
    t.(delta := t.delta.(role := Some(Assistant), toolCalls := Some([ToolCallDelta(index, call)])))
  }

  /** The tool call a function_call item stands for; the name goes through the reverse map. */
  function StreamCall(item: OutputItem, rev: map<string, string>): ToolCall {
    ToolCall(item.callId.GetOr(""), Restore(rev, item.name.GetOr("")), item.arguments.GetOr(""))
  }

  /** The mode is resolved once, on the first data event after response.created handling. */
  function Resolved(s: State, resolved: Compat): (r: State)
    ensures r.reasoningCompat.Some?
    ensures s.reasoningCompat.Some? ==> r == s
    ensures s.reasoningCompat.None? ==> r == s.(reasoningCompat := Some(resolved))
  {
    if s.reasoningCompat.None? then s.(reasoningCompat := Some(resolved)) else s
  }

  /** Every chunk of one call shares the template's id, created time, model and usage. */
  predicate SameHeader(c: Chunk, t: Chunk) {
    c.id == t.id && c.created == t.created && c.model == t.model && c.usage == t.usage
  }

  /** A reasoning summary or reasoning text delta, by mode. */
  function ReasoningStep(s: State, isSummary: bool, delta: string, t: Chunk): (r: (State, seq<Chunk>))
    requires s.reasoningCompat.Some?
    ensures 1 <= |r.1| <= 3
    ensures r.0.functionCallIndex == s.functionCallIndex && r.0.reasoningCompat == s.reasoningCompat
    ensures r.0.thinkClosed == s.thinkClosed && r.0.sawAnySummary == s.sawAnySummary
    ensures s.reasoningCompat.value in {Legacy, Current} ==> r.0 == s && |r.1| == 1
  {
    match s.reasoningCompat.value
    case O3 =>
      if isSummary && s.pendingSummary then (s.(pendingSummary := false), [O3Chunk(t, "\n"), O3Chunk(t, delta)])
      else (s, [O3Chunk(t, delta)])
    case Legacy | Current =>
      (s, [if isSummary then SummaryChunk(t, delta) else ReasoningChunk(t, delta)])
    case ThinkTags =>
      var opens := !s.thinkOpen && !s.thinkClosed;
      var separates := isSummary && s.pendingSummary;
      (s.(thinkOpen := s.thinkOpen || opens, pendingSummary := s.pendingSummary && !separates),
       (if opens then [ContentChunk(t, OpenTag)] else [])
       + (if separates then [ContentChunk(t, "\n")] else [])
       + [ContentChunk(t, delta)])
  }

  /**
   * response.completed: the finish reason is tool_calls exactly when a
   * function call was seen; an open think block is closed first. The closing
   * chunk is built from the template after the finish reason was set on it,
   * so it carries the finish reason as well.
   */
  function CompletedStep(s: State, t: Chunk): (r: (State, seq<Chunk>))
    ensures 1 <= |r.1| <= 2
    ensures r.1[|r.1| - 1].finishReason == Some(if s.functionCallIndex != -1 then "tool_calls" else "stop")
    ensures r.0.functionCallIndex == s.functionCallIndex && r.0.reasoningCompat == s.reasoningCompat
    ensures r.0.pendingSummary == s.pendingSummary && r.0.sawAnySummary == s.sawAnySummary
  {
    var reason := if s.functionCallIndex != -1 then "tool_calls" else "stop";
    var fin := t.(finishReason := Some(reason));
    if s.reasoningCompat == Some(ThinkTags) && s.thinkOpen && !s.thinkClosed then
      (s.(thinkOpen := false, thinkClosed := true), [ContentChunk(fin, CloseTag), fin])
    else
      (s, [fin])
  }

  /** One data event other than response.created, once the mode is resolved. */
  function EventStep(s: State, ev: Event, t: Chunk, rev: map<string, string>): (r: (State, seq<Chunk>))
    requires s.reasoningCompat.Some? && !ev.Created?
    ensures |r.1| <= 3
    ensures r.0.reasoningCompat == s.reasoningCompat
    ensures forall i :: 0 <= i < |r.1| ==> SameHeader(r.1[i], t)
  {
    match ev
    case SummaryPartAdded =>
      if s.reasoningCompat.value == ThinkTags || s.reasoningCompat.value == O3 then
        if s.sawAnySummary then (s.(pendingSummary := true), []) else (s.(sawAnySummary := true), [])
      else (s, [])
    case SummaryTextDelta(d) => ReasoningStep(s, true, d, t)
    case ReasoningTextDelta(d) => ReasoningStep(s, false, d, t)
    case SummaryTextDone => (s, [])
    case OutputTextDelta(text) => if text.Some? then (s, [ContentChunk(t, text.value)]) else (s, [])
    case Completed => CompletedStep(s, t)
    case OutputItemDone(item) =>
      if item.None? then (s, [t])
      else if item.value.kind != "function_call" then (s, [])
      else
        var index := s.functionCallIndex + 1;
        (s.(functionCallIndex := index), [ToolCallChunk(t, index, StreamCall(item.value, rev))])
    case Other(_) => (s, [])
  }

  /**
   * One call of the translator on an existing state. `resolved` is the mode
   * the original request resolves to and `rev` its reverse tool-name map.
   */
  function StepSpec(s: State, line: Line, resolved: Compat, rev: map<string, string>): (r: (State, seq<Chunk>))
    ensures |r.1| <= 3
    ensures line.NotData? ==> r == (s, [])
    ensures line.Data? && line.event.Created? ==>
              r.1 == [] && r.0 == s.(responseId := line.event.id, createdAt := line.event.createdAt, model := line.event.model)
    ensures line.Data? && !line.event.Created? ==> r.0.reasoningCompat == Resolved(s, resolved).reasoningCompat
    ensures line.Data? ==> forall i :: 0 <= i < |r.1| ==> SameHeader(r.1[i], Template(s, line.model, line.usage))
  {
    match line
    case NotData => (s, [])
    case Data(ev, model, usage) =>
      if ev.Created? then
        (s.(responseId := ev.id, createdAt := ev.createdAt, model := ev.model), [])
      else
        var s1 := Resolved(s, resolved);
        EventStep(s1, ev, Template(s1, model, usage), rev)
  }

  /** ConvertCliToOpenAIParams: the per-request state, updated in place by each call. */
  class ConvertParams {
    var responseId: string
    var createdAt: int
    var model: string
    var functionCallIndex: int
    var reasoningCompat: Option<Compat>
    var thinkOpen: bool
    var thinkClosed: bool
    var sawAnySummary: bool
    var pendingSummary: bool

    /** The nine fields as a value. */
    function Snapshot(): State
      reads this
    {
      State(responseId, createdAt, model, functionCallIndex, reasoningCompat,
            thinkOpen, thinkClosed, sawAnySummary, pendingSummary)
    }

    /** The lazily created state: the request's model name, no id, function-call index -1. */
    constructor (modelName: string)
      ensures Snapshot() == Initial(modelName)
    {
      responseId, createdAt, model, functionCallIndex := "", 0, modelName, -1;
      reasoningCompat := None;
      thinkOpen, thinkClosed, sawAnySummary, pendingSummary := false, false, false, false;
    }

    /** The reasoning-delta branch: emits by mode and updates the think/summary flags. */
    method EmitReasoning(isSummary: bool, delta: string, t: Chunk) returns (chunks: seq<Chunk>)
      requires reasoningCompat.Some?
      modifies this
      ensures Snapshot() == ReasoningStep(old(Snapshot()), isSummary, delta, t).0
      ensures chunks == ReasoningStep(old(Snapshot()), isSummary, delta, t).1
    {
      match reasoningCompat.value
      case O3 =>
        chunks := [];
        if isSummary && pendingSummary {
          chunks := chunks + [O3Chunk(t, "\n")];
          pendingSummary := false;
        }
        chunks := chunks + [O3Chunk(t, delta)];
      case Legacy | Current =>
        if isSummary {
          chunks := [SummaryChunk(t, delta)];
        } else {
          chunks := [ReasoningChunk(t, delta)];
        }
      case ThinkTags =>
        chunks := [];
        if !thinkOpen && !thinkClosed {
          chunks := chunks + [ContentChunk(t, OpenTag)];
          thinkOpen := true;
        }
        if isSummary && pendingSummary {
          chunks := chunks + [ContentChunk(t, "\n")];
          pendingSummary := false;
        }
        chunks := chunks + [ContentChunk(t, delta)];
    }

    /** response.completed: sets the finish reason on the template and closes an open think block. */
    method Complete(t: Chunk) returns (chunks: seq<Chunk>)
      modifies this
      ensures Snapshot() == CompletedStep(old(Snapshot()), t).0
      ensures chunks == CompletedStep(old(Snapshot()), t).1
    {
      var template := t;
      var reason := "stop";
      if functionCallIndex != -1 {
        reason := "tool_calls";
      }
      template := template.(finishReason := Some(reason));
      if reasoningCompat == Some(ThinkTags) && thinkOpen && !thinkClosed {
        thinkOpen := false;
        thinkClosed := true;
        chunks := [ContentChunk(template, CloseTag), template];
      } else {
        chunks := [template];
      }
    }

    /** response.output_item.done: a function_call item becomes the next indexed tool-call delta. */
    method ItemDone(item: Option<OutputItem>, t: Chunk, original: RawDoc, shorten: ShortNamer)
      returns (chunks: seq<Chunk>)
      requires reasoningCompat.Some?
      requires Injective(ShortNames(original, shorten))
      modifies this
      ensures Snapshot() == EventStep(old(Snapshot()), OutputItemDone(item), t, Inverse(ShortNames(original, shorten))).0
      ensures chunks == EventStep(old(Snapshot()), OutputItemDone(item), t, Inverse(ShortNames(original, shorten))).1
    {
      if item.None? {
        chunks := [t];
      } else if item.value.kind != "function_call" {
        chunks := [];
      } else {
        functionCallIndex := functionCallIndex + 1;
        var rev := BuildReverseMap(original, shorten);
        var name := Restore(rev, item.value.name.GetOr(""));
        var call := ToolCall(item.value.callId.GetOr(""), name, item.value.arguments.GetOr(""));
        chunks := [ToolCallChunk(t, functionCallIndex, call)];
      }
    }

    /** The dispatch on the event type, once the mode is resolved. */
    method HandleEvent(ev: Event, t: Chunk, original: RawDoc, shorten: ShortNamer) returns (chunks: seq<Chunk>)
      requires reasoningCompat.Some? && !ev.Created?
      requires Injective(ShortNames(original, shorten))
      modifies this
      ensures Snapshot() == EventStep(old(Snapshot()), ev, t, Inverse(ShortNames(original, shorten))).0
      ensures chunks == EventStep(old(Snapshot()), ev, t, Inverse(ShortNames(original, shorten))).1
    {
      var compat := reasoningCompat.value;
      match ev {
        case SummaryPartAdded =>
          if compat == ThinkTags || compat == O3 {
            if sawAnySummary {
              pendingSummary := true;
            } else {
              sawAnySummary := true;
            }
          }
          chunks := [];
        case SummaryTextDelta(d) =>
          chunks := EmitReasoning(true, d, t);
        case ReasoningTextDelta(d) =>
          chunks := EmitReasoning(false, d, t);
        case SummaryTextDone =>
          chunks := [];
        case OutputTextDelta(text) =>
          if text.Some? {
            chunks := [ContentChunk(t, text.value)];
          } else {
            chunks := [];
          }
        case Completed =>
          chunks := Complete(t);
        case OutputItemDone(item) =>
          chunks := ItemDone(item, t, original, shorten);
        case Other(_) =>
          chunks := [];
      }
    }

    /** ConvertCodexResponseToOpenAI on an existing state. */
    method Step(line: Line, original: RawDoc, shorten: ShortNamer) returns (chunks: seq<Chunk>)
      requires Injective(ShortNames(original, shorten))
      modifies this
      ensures Snapshot() == StepSpec(old(Snapshot()), line, Resolve(original), Inverse(ShortNames(original, shorten))).0
      ensures chunks == StepSpec(old(Snapshot()), line, Resolve(original), Inverse(ShortNames(original, shorten))).1
    {
      if line.NotData? {
        return [];
      }
      var ev := line.event;
      if ev.Created? {
        responseId := ev.id;
        createdAt := ev.createdAt;
        model := ev.model;
        return [];
      }
      chunks := HandleData(ev, line.model, line.usage, Resolve(original), original, shorten);
    }

    /**
     * A data event other than response.created: fix the mode on first use
     * (`mode` is what the original request resolves to), build the template,
     * dispatch.
     */
    method HandleData(ev: Event, eventModel: Option<string>, usage: Option<VendorUsage>, mode: Compat,
                      original: RawDoc, shorten: ShortNamer)
      returns (chunks: seq<Chunk>)
      requires !ev.Created?
      requires Injective(ShortNames(original, shorten))
      modifies this
      ensures Snapshot() == StepSpec(old(Snapshot()), Data(ev, eventModel, usage), mode, Inverse(ShortNames(original, shorten))).0
      ensures chunks == StepSpec(old(Snapshot()), Data(ev, eventModel, usage), mode, Inverse(ShortNames(original, shorten))).1
    {
      ghost var before := Snapshot();
      if reasoningCompat.None? {
        reasoningCompat := Some(mode);
      }
      ghost var resolved := Snapshot();
      assert resolved == Resolved(before, mode);
      var template := Chunk(responseId, createdAt, eventModel.GetOr("model"), ToChatUsage(usage), NoDelta, None);
      assert template == Template(resolved, eventModel, usage);
      chunks := HandleEvent(ev, template, original, shorten);
    }
  }

  /**
   * The entry point: creates the state on the first call of a request (even
   * for a line without the `data:` prefix), then performs the step.
   */
  method Convert(param: ConvertParams?, modelName: string, original: RawDoc, shorten: ShortNamer, line: Line)
    returns (p: ConvertParams, chunks: seq<Chunk>)
    requires Injective(ShortNames(original, shorten))
    modifies if param == null then {} else {param}
    ensures param == null ==> fresh(p)
    ensures param != null ==> p == param
    ensures var before := if param == null then Initial(modelName) else old(param.Snapshot());
            var r := StepSpec(before, line, Resolve(original), Inverse(ShortNames(original, shorten)));
            p.Snapshot() == r.0 && chunks == r.1
  {
    if param == null {
      p := new ConvertParams(modelName);
    } else {
      p := param;
    }
    chunks := p.Step(line, original, shorten);
  }
}
