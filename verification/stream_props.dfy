/**
 * Properties of the streaming translator over a whole sequence of calls on
 * one state: think-tag balance, pending-summary separators, function-call
 * indexing, the finish reason, tool-name restoration, and two end-to-end
 * event sequences: plain text in current mode, and a reasoning delta followed
 * by text in think-tags mode.
 */
module StreamProperties {
  import opened JsonTree
  import opened Shapes
  import opened ReasoningCompat
  import opened ToolNames
  import opened StreamTranslator

  /** Successive calls on one state: the final state and every chunk in emission order. */
  function Run(s: State, lines: seq<Line>, resolved: Compat, rev: map<string, string>): (r: (State, seq<Chunk>))
    decreases |lines|
  {
    if lines == [] then (s, [])
    else
      var p := Run(s, lines[..|lines| - 1], resolved, rev);
      var q := StepSpec(p.0, lines[|lines| - 1], resolved, rev);
      (q.0, p.1 + q.1)
  }

  lemma RunSnoc(s: State, lines: seq<Line>, line: Line, resolved: Compat, rev: map<string, string>)
    ensures var p := Run(s, lines, resolved, rev);
            var q := StepSpec(p.0, line, resolved, rev);
            Run(s, lines + [line], resolved, rev) == (q.0, p.1 + q.1)
  {
    assert (lines + [line])[..|lines|] == lines;
  }

  // ---------------------------------------------------------------------------
  // Mode resolution happens once and sticks

  /** Once resolved, the mode is the one the original request carries. */
  predicate ModeFrom(s: State, resolved: Compat) {
    s.reasoningCompat.Some? ==> s.reasoningCompat.value == resolved
  }

  lemma StepKeepsMode(s: State, line: Line, resolved: Compat, rev: map<string, string>)
    requires ModeFrom(s, resolved)
    ensures ModeFrom(StepSpec(s, line, resolved, rev).0, resolved)
  {
  }

  /** Over any sequence of calls the mode, once resolved, is the request's. */
  lemma {:induction false} RunKeepsMode(s: State, lines: seq<Line>, resolved: Compat, rev: map<string, string>)
    requires ModeFrom(s, resolved)
    ensures ModeFrom(Run(s, lines, resolved, rev).0, resolved)
    decreases |lines|
  {
    if lines != [] {
      var init := lines[..|lines| - 1];
      RunKeepsMode(s, init, resolved, rev);
      StepKeepsMode(Run(s, init, resolved, rev).0, lines[|lines| - 1], resolved, rev);
    }
  }

  // ---------------------------------------------------------------------------
  // Think-tag balance

  /** Number of chunks whose content delta is exactly `text`. */
  function CountText(chunks: seq<Chunk>, text: string): nat
    decreases |chunks|
  {
    if chunks == [] then 0
    else CountText(chunks[..|chunks| - 1], text) + (if chunks[|chunks| - 1].delta.content == Some(text) then 1 else 0)
  }

  lemma {:induction false} CountTextConcat(a: seq<Chunk>, b: seq<Chunk>, text: string)
    ensures CountText(a + b, text) == CountText(a, text) + CountText(b, text)
    decreases |b|
  {
    if b == [] {
      assert a + b == a;
    } else {
      var b' := b[..|b| - 1];
      assert (a + b)[..|a + b| - 1] == a + b';
      CountTextConcat(a, b', text);
    }
  }

  lemma CountTextOne(c: Chunk, text: string)
    ensures CountText([c], text) == if c.delta.content == Some(text) then 1 else 0
  {
    assert [c][..0] == [];
  }

  /** A chunk list none of whose content deltas is `text` counts zero of it. */
  lemma {:induction false} CountTextNone(chunks: seq<Chunk>, text: string)
    requires forall i :: 0 <= i < |chunks| ==> chunks[i].delta.content != Some(text)
    ensures CountText(chunks, text) == 0
    decreases |chunks|
  {
    if chunks != [] {
      CountTextNone(chunks[..|chunks| - 1], text);
    }
  }

  /** The event text itself is never exactly one of the two tags. */
  predicate NoTagText(line: Line) {
    line.Data? ==>
      match line.event
      case SummaryTextDelta(d) => d != OpenTag && d != CloseTag
      case ReasoningTextDelta(d) => d != OpenTag && d != CloseTag
      case OutputTextDelta(t) => t != Some(OpenTag) && t != Some(CloseTag)
      case _ => true
  }

  /**
   * The think block state agrees with what was emitted: "<think>" once the
   * block was opened, "</think>" once it was closed, never both flags at once,
   * only in think-tags mode, and every close preceded by the open.
   */
  predicate ThinkInv(s: State, chunks: seq<Chunk>, resolved: Compat) {
    && ModeFrom(s, resolved)
    && !(s.thinkOpen && s.thinkClosed)
    && (s.thinkOpen || s.thinkClosed ==> s.reasoningCompat == Some(ThinkTags))
    && CountText(chunks, OpenTag) == (if s.thinkOpen || s.thinkClosed then 1 else 0)
    && CountText(chunks, CloseTag) == (if s.thinkClosed then 1 else 0)
    && (forall i :: 0 <= i < |chunks| && chunks[i].delta.content == Some(CloseTag) ==>
          CountText(chunks[..i], OpenTag) == 1)
  }

  /** What one call emits in tags: an open only when it opens the block, a close only when it closes it. */
  lemma StepTags(s: State, line: Line, resolved: Compat, rev: map<string, string>)
    requires ModeFrom(s, resolved) && !(s.thinkOpen && s.thinkClosed)
    requires s.thinkOpen || s.thinkClosed ==> s.reasoningCompat == Some(ThinkTags)
    requires NoTagText(line)
    ensures var q := StepSpec(s, line, resolved, rev);
            && q.0.thinkClosed == (s.thinkClosed || (line.Data? && line.event.Completed? && s.thinkOpen))
            && q.0.thinkOpen == (if line.Data? && line.event.Completed? then false
                                 else s.thinkOpen || (line.Data? && (line.event.SummaryTextDelta? || line.event.ReasoningTextDelta?)
                                                      && resolved == ThinkTags && !s.thinkClosed))
            && CountText(q.1, OpenTag) == (if !(s.thinkOpen || s.thinkClosed) && (q.0.thinkOpen || q.0.thinkClosed) then 1 else 0)
            && CountText(q.1, CloseTag) == (if q.0.thinkClosed && !s.thinkClosed then 1 else 0)
            && (forall i :: 0 <= i < |q.1| && q.1[i].delta.content == Some(CloseTag) ==> i == 0 && s.thinkOpen)
  {
    if line.Data? && !line.event.Created? {
      var s1 := Resolved(s, resolved);
      var t := Template(s1, line.model, line.usage);
      assert StepSpec(s, line, resolved, rev) == EventStep(s1, line.event, t, rev);
      EventTags(s1, line.event, t, rev);
    }
  }

  /** `StepTags` for one event once the mode is resolved. */
  lemma EventTags(s: State, ev: Event, t: Chunk, rev: map<string, string>)
    requires s.reasoningCompat.Some? && !ev.Created? && !(s.thinkOpen && s.thinkClosed)
    requires s.thinkOpen || s.thinkClosed ==> s.reasoningCompat == Some(ThinkTags)
    requires t.delta == NoDelta && NoTagText(Data(ev, None, None))
    ensures var q := EventStep(s, ev, t, rev);
            && q.0.thinkClosed == (s.thinkClosed || (ev.Completed? && s.thinkOpen))
            && q.0.thinkOpen == (if ev.Completed? then false
                                 else s.thinkOpen || ((ev.SummaryTextDelta? || ev.ReasoningTextDelta?)
                                                      && s.reasoningCompat == Some(ThinkTags) && !s.thinkClosed))
            && CountText(q.1, OpenTag) == (if !(s.thinkOpen || s.thinkClosed) && (q.0.thinkOpen || q.0.thinkClosed) then 1 else 0)
            && CountText(q.1, CloseTag) == (if q.0.thinkClosed && !s.thinkClosed then 1 else 0)
            && (forall i :: 0 <= i < |q.1| && q.1[i].delta.content == Some(CloseTag) ==> i == 0 && s.thinkOpen)
  {
    match ev
    case SummaryTextDelta(d) => ReasoningTags(s, true, d, t);
    case ReasoningTextDelta(d) => ReasoningTags(s, false, d, t);
    case Completed => CompletedTags(s, t);
    case OutputTextDelta(text) =>
      if text.Some? {
        CountTextOne(ContentChunk(t, text.value), OpenTag);
        CountTextOne(ContentChunk(t, text.value), CloseTag);
      }
    case OutputItemDone(item) =>
      if item.None? {
        CountTextOne(t, OpenTag);
        CountTextOne(t, CloseTag);
      } else if item.value.kind == "function_call" {
        var c := ToolCallChunk(t, s.functionCallIndex + 1, StreamCall(item.value, rev));
        CountTextOne(c, OpenTag);
        CountTextOne(c, CloseTag);
      }
    case _ =>
  }

  /** response.completed emits a close tag exactly when the block is open, as its first chunk. */
  lemma CompletedTags(s: State, t: Chunk)
    requires !(s.thinkOpen && s.thinkClosed)
    requires s.thinkOpen || s.thinkClosed ==> s.reasoningCompat == Some(ThinkTags)
    requires t.delta == NoDelta
    ensures var q := CompletedStep(s, t);
            && q.0.thinkClosed == (s.thinkClosed || s.thinkOpen) && !q.0.thinkOpen
            && CountText(q.1, OpenTag) == 0
            && CountText(q.1, CloseTag) == (if s.thinkOpen then 1 else 0)
            && (forall i :: 0 <= i < |q.1| && q.1[i].delta.content == Some(CloseTag) ==> i == 0 && s.thinkOpen)
  {
    var fin := t.(finishReason := Some(if s.functionCallIndex != -1 then "tool_calls" else "stop"));
    CountTextOne(fin, OpenTag);
    CountTextOne(fin, CloseTag);
    if s.thinkOpen {
      var q := CompletedStep(s, t);
      assert q.1 == [ContentChunk(fin, CloseTag)] + [fin];
      CountTextConcat([ContentChunk(fin, CloseTag)], [fin], OpenTag);
      CountTextConcat([ContentChunk(fin, CloseTag)], [fin], CloseTag);
      CountTextOne(ContentChunk(fin, CloseTag), OpenTag);
      CountTextOne(ContentChunk(fin, CloseTag), CloseTag);
    }
  }

  /**
   * Every chunk of a reasoning delta is an assistant delta built from the
   * template: no tool calls, no finish reason, and content only in
   * think-tags mode, where the delta text is the last chunk.
   */
  lemma ReasoningChunks(s: State, isSummary: bool, delta: string, t: Chunk)
    requires s.reasoningCompat.Some?
    ensures var r := ReasoningStep(s, isSummary, delta, t);
            && (forall i :: 0 <= i < |r.1| ==>
                  && SameHeader(r.1[i], t) && r.1[i].delta.role == Some(Assistant)
                  && r.1[i].delta.toolCalls == t.delta.toolCalls && r.1[i].finishReason == t.finishReason)
            && (s.reasoningCompat.value != ThinkTags ==> forall i :: 0 <= i < |r.1| ==> r.1[i].delta.content == t.delta.content)
            && r.1[|r.1| - 1].delta.content == (if s.reasoningCompat.value == ThinkTags then Some(delta) else t.delta.content)
  {
  }

  /** The tag count of a reasoning delta's chunks. */
  lemma ReasoningTags(s: State, isSummary: bool, delta: string, t: Chunk)
    requires s.reasoningCompat.Some? && !(s.thinkOpen && s.thinkClosed)
    requires s.thinkOpen || s.thinkClosed ==> s.reasoningCompat == Some(ThinkTags)
    requires delta != OpenTag && delta != CloseTag && t.delta.content.None?
    ensures var q := ReasoningStep(s, isSummary, delta, t);
            && q.0.thinkOpen == (s.thinkOpen || (s.reasoningCompat == Some(ThinkTags) && !s.thinkClosed))
            && CountText(q.1, OpenTag) == (if s.reasoningCompat == Some(ThinkTags) && !s.thinkOpen && !s.thinkClosed then 1 else 0)
            && CountText(q.1, CloseTag) == 0
            && (forall i :: 0 <= i < |q.1| ==> q.1[i].delta.content != Some(CloseTag))
  {
    var q := ReasoningStep(s, isSummary, delta, t);
    ReasoningChunks(s, isSummary, delta, t);
    if s.reasoningCompat == Some(ThinkTags) {
      ThinkTagsReasoningTags(s, isSummary, delta, t);
    } else {
      CountTextNone(q.1, OpenTag);
      CountTextNone(q.1, CloseTag);
    }
  }

  lemma ThinkTagsReasoningTags(s: State, isSummary: bool, delta: string, t: Chunk)
    requires s.reasoningCompat == Some(ThinkTags) && !(s.thinkOpen && s.thinkClosed)
    requires delta != OpenTag && delta != CloseTag
    ensures var q := ReasoningStep(s, isSummary, delta, t);
            && CountText(q.1, OpenTag) == (if !s.thinkOpen && !s.thinkClosed then 1 else 0)
            && CountText(q.1, CloseTag) == 0
            && (forall i :: 0 <= i < |q.1| ==> q.1[i].delta.content != Some(CloseTag))
  {
    var q := ReasoningStep(s, isSummary, delta, t);
    var c := ContentChunk(t, delta);
    var o := ContentChunk(t, OpenTag);
    var n := ContentChunk(t, "\n");
    CountTextOne(c, OpenTag);
    CountTextOne(c, CloseTag);
    CountTextOne(n, OpenTag);
    CountTextOne(n, CloseTag);
    CountTextOne(o, OpenTag);
    CountTextOne(o, CloseTag);
    var opens := !s.thinkOpen && !s.thinkClosed;
    var separates := isSummary && s.pendingSummary;
    if opens && separates {
      assert q.1 == [o] + ([n] + [c]);
      CountTextConcat([n], [c], OpenTag);
      CountTextConcat([n], [c], CloseTag);
      CountTextConcat([o], [n] + [c], OpenTag);
      CountTextConcat([o], [n] + [c], CloseTag);
    } else if opens {
      assert q.1 == [o] + [c];
      CountTextConcat([o], [c], OpenTag);
      CountTextConcat([o], [c], CloseTag);
    } else if separates {
      assert q.1 == [n] + [c];
      CountTextConcat([n], [c], OpenTag);
      CountTextConcat([n], [c], CloseTag);
    } else {
      assert q.1 == [c];
    }
  }

  /** One call keeps the think-block invariant. */
  lemma StepKeepsThinkInv(s: State, chunks: seq<Chunk>, line: Line, resolved: Compat, rev: map<string, string>)
    requires ThinkInv(s, chunks, resolved) && NoTagText(line)
    ensures var q := StepSpec(s, line, resolved, rev);
            ThinkInv(q.0, chunks + q.1, resolved)
  {
    var q := StepSpec(s, line, resolved, rev);
    StepKeepsMode(s, line, resolved, rev);
    StepTags(s, line, resolved, rev);
    CountTextConcat(chunks, q.1, OpenTag);
    CountTextConcat(chunks, q.1, CloseTag);
    var all := chunks + q.1;
    forall i | 0 <= i < |all| && all[i].delta.content == Some(CloseTag)
      ensures CountText(all[..i], OpenTag) == 1
    {
      if i < |chunks| {
        assert all[..i] == chunks[..i];
      } else {
        assert q.1[i - |chunks|] == all[i];
        assert all[..i] == chunks;
      }
    }
  }

  lemma {:induction false} RunKeepsThinkInv(s: State, lines: seq<Line>, resolved: Compat, rev: map<string, string>)
    requires ThinkInv(s, [], resolved)
    requires forall i :: 0 <= i < |lines| ==> NoTagText(lines[i])
    ensures ThinkInv(Run(s, lines, resolved, rev).0, Run(s, lines, resolved, rev).1, resolved)
    decreases |lines|
  {
    if lines != [] {
      var init := lines[..|lines| - 1];
      RunKeepsThinkInv(s, init, resolved, rev);
      var p := Run(s, init, resolved, rev);
      StepKeepsThinkInv(p.0, p.1, lines[|lines| - 1], resolved, rev);
    }
  }

  /**
   * Think-tag balance: over a whole response ending in response.completed,
   * "<think>" and "</think>" are emitted equally often, at most once each, the
   * open before the close; outside think-tags mode neither is emitted.
   */
  lemma ThinkTagsBalanced(modelName: string, lines: seq<Line>, m: Option<string>, u: Option<VendorUsage>,
                          resolved: Compat, rev: map<string, string>)
    requires forall i :: 0 <= i < |lines| ==> NoTagText(lines[i])
    ensures var r := Run(Initial(modelName), lines + [Data(Completed, m, u)], resolved, rev);
            && CountText(r.1, OpenTag) == CountText(r.1, CloseTag) <= 1
            && (resolved != ThinkTags ==> CountText(r.1, OpenTag) == 0)
            && (forall i :: 0 <= i < |r.1| && r.1[i].delta.content == Some(CloseTag) ==>
                  CountText(r.1[..i], OpenTag) == 1)
  {
    var s := Initial(modelName);
    var all := lines + [Data(Completed, m, u)];
    assert ThinkInv(s, [], resolved);
    forall i | 0 <= i < |all|
      ensures NoTagText(all[i])
    {
      if i < |lines| {
        assert all[i] == lines[i];
      }
    }
    RunKeepsThinkInv(s, all, resolved, rev);
    RunSnoc(s, lines, Data(Completed, m, u), resolved, rev);
    var p := Run(s, lines, resolved, rev);
    RunKeepsThinkInv(s, lines, resolved, rev);
    StepTags(p.0, Data(Completed, m, u), resolved, rev);
  }

  // ---------------------------------------------------------------------------
  // Function-call indexing and the finish reason

  /** The function_call item a line carries, if any. */
  function LineCall(line: Line): Option<OutputItem> {
    if line.Data? && line.event.OutputItemDone? && line.event.item.Some? && line.event.item.value.kind == "function_call"
    then line.event.item
    else None
  }

  /** The function_call items of a sequence of lines, in order. */
  function FunctionCalls(lines: seq<Line>): seq<OutputItem>
    decreases |lines|
  {
    if lines == [] then []
    else
      var last := LineCall(lines[|lines| - 1]);
      FunctionCalls(lines[..|lines| - 1]) + (if last.Some? then [last.value] else [])
  }

  /** Every tool-call delta entry of a chunk list, in emission order. */
  function ToolCallDeltas(chunks: seq<Chunk>): seq<ToolCallDelta>
    decreases |chunks|
  {
    if chunks == [] then []
    else ToolCallDeltas(chunks[..|chunks| - 1]) + chunks[|chunks| - 1].delta.toolCalls.GetOr([])
  }

  lemma {:induction false} ToolCallDeltasConcat(a: seq<Chunk>, b: seq<Chunk>)
    ensures ToolCallDeltas(a + b) == ToolCallDeltas(a) + ToolCallDeltas(b)
    decreases |b|
  {
    if b == [] {
      assert a + b == a;
    } else {
      var b' := b[..|b| - 1];
      assert (a + b)[..|a + b| - 1] == a + b';
      ToolCallDeltasConcat(a, b');
    }
  }

  lemma {:induction false} NoToolCallDeltas(chunks: seq<Chunk>)
    requires forall i :: 0 <= i < |chunks| ==> chunks[i].delta.toolCalls.None?
    ensures ToolCallDeltas(chunks) == []
    decreases |chunks|
  {
    if chunks != [] {
      NoToolCallDeltas(chunks[..|chunks| - 1]);
    }
  }

  /** One call: a function_call item advances the index by one and emits its delta at the new index; nothing else does either. */
  lemma StepToolCalls(s: State, line: Line, resolved: Compat, rev: map<string, string>)
    ensures var q := StepSpec(s, line, resolved, rev);
            && q.0.functionCallIndex == s.functionCallIndex + (if LineCall(line).Some? then 1 else 0)
            && ToolCallDeltas(q.1) == (if LineCall(line).Some?
                                      then [ToolCallDelta(s.functionCallIndex + 1, StreamCall(LineCall(line).value, rev))]
                                      else [])
  {
    var q := StepSpec(s, line, resolved, rev);
    if LineCall(line).Some? {
      assert [q.1[0]][..0] == [];
    } else {
      ReasoningStepChunks(s, line, resolved);
      NoToolCallDeltas(q.1);
    }
  }

  /**
   * Function-call indexing: the n-th function_call item of the sequence is
   * emitted as a tool-call delta at index (start + 1 + n), and the index
   * ends (start + number of items); nothing else emits tool-call deltas.
   */
  lemma {:induction false} FunctionCallIndexing(s: State, lines: seq<Line>, resolved: Compat, rev: map<string, string>)
    ensures var r := Run(s, lines, resolved, rev);
            && r.0.functionCallIndex == s.functionCallIndex + |FunctionCalls(lines)|
            && |ToolCallDeltas(r.1)| == |FunctionCalls(lines)|
            && forall i :: 0 <= i < |FunctionCalls(lines)| ==>
                 ToolCallDeltas(r.1)[i] == ToolCallDelta(s.functionCallIndex + 1 + i, StreamCall(FunctionCalls(lines)[i], rev))
    decreases |lines|
  {
    if lines != [] {
      var init := lines[..|lines| - 1];
      var line := lines[|lines| - 1];
      FunctionCallIndexing(s, init, resolved, rev);
      var p := Run(s, init, resolved, rev);
      StepToolCalls(p.0, line, resolved, rev);
      var q := StepSpec(p.0, line, resolved, rev);
      ToolCallDeltasConcat(p.1, q.1);
    }
  }

  /** From a fresh state the n-th function call (0-based) is at index n. */
  lemma FreshIndexing(modelName: string, lines: seq<Line>, resolved: Compat, rev: map<string, string>, n: int)
    requires 0 <= n < |FunctionCalls(lines)|
    ensures var r := Run(Initial(modelName), lines, resolved, rev);
            && |ToolCallDeltas(r.1)| == |FunctionCalls(lines)|
            && ToolCallDeltas(r.1)[n].index == n && r.0.functionCallIndex == |FunctionCalls(lines)| - 1
  {
    FunctionCallIndexing(Initial(modelName), lines, resolved, rev);
  }

  /**
   * The finish reason at response.completed is tool_calls exactly when some
   * function_call item came before it in the response, and stop otherwise.
   */
  lemma FinishReasonTracksCalls(modelName: string, lines: seq<Line>, m: Option<string>, u: Option<VendorUsage>,
                                resolved: Compat, rev: map<string, string>)
    ensures var r := Run(Initial(modelName), lines + [Data(Completed, m, u)], resolved, rev);
            && r.1 != []
            && r.1[|r.1| - 1].finishReason == Some(if |FunctionCalls(lines)| > 0 then "tool_calls" else "stop")
  {
    var s := Initial(modelName);
    FunctionCallIndexing(s, lines, resolved, rev);
    RunSnoc(s, lines, Data(Completed, m, u), resolved, rev);
  }

  /** Only response.completed produces chunks with a finish reason. */
  lemma FinishOnlyOnCompleted(s: State, line: Line, resolved: Compat, rev: map<string, string>)
    requires !(line.Data? && line.event.Completed?)
    ensures var q := StepSpec(s, line, resolved, rev);
            forall i :: 0 <= i < |q.1| ==> q.1[i].finishReason.None?
  {
    ReasoningStepChunks(s, line, resolved);
  }

  /** For a reasoning-delta line, the chunk facts of its reasoning step. */
  lemma ReasoningStepChunks(s: State, line: Line, resolved: Compat)
    ensures line.Data? && (line.event.SummaryTextDelta? || line.event.ReasoningTextDelta?) ==>
              var s1 := Resolved(s, resolved);
              var t := Template(s1, line.model, line.usage);
              var r := ReasoningStep(s1, line.event.SummaryTextDelta?, line.event.delta, t);
              forall i :: 0 <= i < |r.1| ==> r.1[i].delta.toolCalls.None? && r.1[i].finishReason.None?
  {
    if line.Data? && (line.event.SummaryTextDelta? || line.event.ReasoningTextDelta?) {
      var s1 := Resolved(s, resolved);
      ReasoningChunks(s1, line.event.SummaryTextDelta?, line.event.delta, Template(s1, line.model, line.usage));
    }
  }

  // ---------------------------------------------------------------------------
  // Tool-name restoration

  /**
   * A function_call item reporting the shortened form of a declared tool name
   * surfaces with the declared name, its call id and its arguments.
   */
  lemma StreamRestoresName(s: State, line: Line, resolved: Compat, m: map<string, string>, declared: string)
    requires Injective(m) && declared in m
    requires LineCall(line).Some? && LineCall(line).value.name == Some(m[declared])
    ensures var q := StepSpec(s, line, resolved, Inverse(m));
            var it := LineCall(line).value;
            && |q.1| == 1
            && q.1[0].delta.role == Some(Assistant)
            && q.1[0].delta.toolCalls == Some([ToolCallDelta(s.functionCallIndex + 1,
                                                             ToolCall(it.callId.GetOr(""), declared, it.arguments.GetOr("")))])
  {
    RestoreInverts(m, declared);
  }

  // ---------------------------------------------------------------------------
  // Pending summary

  /**
   * In o3 and think-tags mode, a summary part that is not the first of the
   * response makes the next summary delta emit a newline separator directly
   * before the delta text, and the flag is spent.
   */
  lemma SecondSummaryPartSeparates(s: State, m1: Option<string>, u1: Option<VendorUsage>,
                                   m2: Option<string>, u2: Option<VendorUsage>, d: string,
                                   resolved: Compat, rev: map<string, string>)
    requires s.sawAnySummary
    requires Resolved(s, resolved).reasoningCompat.value in {O3, ThinkTags}
    ensures var r := Run(s, [Data(SummaryPartAdded, m1, u1), Data(SummaryTextDelta(d), m2, u2)], resolved, rev);
            var t := Template(s, m2, u2);
            && |r.1| >= 2 && !r.0.pendingSummary
            && (Resolved(s, resolved).reasoningCompat.value == O3 ==> r.1 == [O3Chunk(t, "\n"), O3Chunk(t, d)])
            && (Resolved(s, resolved).reasoningCompat.value == ThinkTags ==>
                  r.1[|r.1| - 2..] == [ContentChunk(t, "\n"), ContentChunk(t, d)])
  {
    var l1 := Data(SummaryPartAdded, m1, u1);
    var l2 := Data(SummaryTextDelta(d), m2, u2);
    RunTwo(s, l1, l2, resolved, rev);
    var p := Resolved(s, resolved).(pendingSummary := true);
    PartAddedPends(s, m1, u1, resolved, rev);
    var t := Template(s, m2, u2);
    var q := ReasoningStep(p, true, d, t);
    SummaryDeltaStep(p, d, m2, u2, resolved, rev);
    assert Template(p, m2, u2) == t;
    PendingDeltaSeparates(p, d, t);
    assert [] + q.1 == q.1;
  }

  /** A summary part after the first one, in o3 or think-tags mode, only sets the separator flag. */
  lemma PartAddedPends(s: State, m: Option<string>, u: Option<VendorUsage>, resolved: Compat, rev: map<string, string>)
    requires s.sawAnySummary
    requires Resolved(s, resolved).reasoningCompat.value in {O3, ThinkTags}
    ensures StepSpec(s, Data(SummaryPartAdded, m, u), resolved, rev) == (Resolved(s, resolved).(pendingSummary := true), [])
  {
  }

  /** On a resolved state a summary delta is the reasoning step of the summary branch. */
  lemma SummaryDeltaStep(p: State, d: string, m: Option<string>, u: Option<VendorUsage>, resolved: Compat, rev: map<string, string>)
    requires p.reasoningCompat.Some?
    ensures StepSpec(p, Data(SummaryTextDelta(d), m, u), resolved, rev) == ReasoningStep(p, true, d, Template(p, m, u))
  {
  }

  /** Two successive calls. */
  lemma RunTwo(s: State, l1: Line, l2: Line, resolved: Compat, rev: map<string, string>)
    ensures var q1 := StepSpec(s, l1, resolved, rev);
            var q2 := StepSpec(q1.0, l2, resolved, rev);
            Run(s, [l1, l2], resolved, rev) == (q2.0, q1.1 + q2.1)
  {
    RunSnoc(s, [], l1, resolved, rev);
    RunSnoc(s, [l1], l2, resolved, rev);
    assert [l1] + [l2] == [l1, l2];
    assert [] + StepSpec(s, l1, resolved, rev).1 == StepSpec(s, l1, resolved, rev).1;
  }

  /** A summary delta while a separator is pending emits the separator first, then the delta. */
  lemma PendingDeltaSeparates(p: State, d: string, t: Chunk)
    requires p.reasoningCompat.Some? && p.reasoningCompat.value in {O3, ThinkTags} && p.pendingSummary
    ensures var q := ReasoningStep(p, true, d, t);
            && |q.1| >= 2 && !q.0.pendingSummary
            && (p.reasoningCompat.value == O3 ==> q.1 == [O3Chunk(t, "\n"), O3Chunk(t, d)])
            && (p.reasoningCompat.value == ThinkTags ==> q.1[|q.1| - 2..] == [ContentChunk(t, "\n"), ContentChunk(t, d)])
  {
    if p.reasoningCompat.value == ThinkTags {
      var opens := !p.thinkOpen && !p.thinkClosed;
      var pre: seq<Chunk> := if opens then [ContentChunk(t, OpenTag)] else [];
      var chunks := pre + [ContentChunk(t, "\n")] + [ContentChunk(t, d)];
      assert ReasoningStep(p, true, d, t).1 == chunks;
      assert chunks[|chunks| - 2..] == [ContentChunk(t, "\n"), ContentChunk(t, d)];
    }
  }

  /** The first summary part of a response never sets the separator flag. */
  lemma FirstSummaryPartDoesNotSeparate(s: State, m: Option<string>, u: Option<VendorUsage>,
                                        resolved: Compat, rev: map<string, string>)
    requires !s.sawAnySummary && !s.pendingSummary
    ensures var q := StepSpec(s, Data(SummaryPartAdded, m, u), resolved, rev);
            q.1 == [] && !q.0.pendingSummary
  {
  }

  /**
   * The separator flag is only ever set in o3 or think-tags mode, and only
   * once a summary has been seen.
   */
  predicate PendingInv(s: State) {
    s.pendingSummary ==> s.sawAnySummary && s.reasoningCompat.Some? && s.reasoningCompat.value in {O3, ThinkTags}
  }

  /**
   * One call sets the separator flag only on a summary part that follows an
   * earlier one, in o3 or think-tags mode; every call keeps PendingInv.
   */
  lemma StepPending(s: State, line: Line, resolved: Compat, rev: map<string, string>)
    requires PendingInv(s)
    ensures var q := StepSpec(s, line, resolved, rev);
            && PendingInv(q.0)
            && (q.0.pendingSummary && !s.pendingSummary ==>
                  && line.Data? && line.event.SummaryPartAdded? && s.sawAnySummary
                  && Resolved(s, resolved).reasoningCompat.value in {O3, ThinkTags})
  {
    if line.Data? && !line.event.Created? {
      var s1 := Resolved(s, resolved);
      var t := Template(s1, line.model, line.usage);
      assert StepSpec(s, line, resolved, rev) == EventStep(s1, line.event, t, rev);
    }
  }

  /** PendingInv holds after any sequence of calls that starts where it holds. */
  lemma {:induction false} RunKeepsPendingInv(s: State, lines: seq<Line>, resolved: Compat, rev: map<string, string>)
    requires PendingInv(s)
    ensures PendingInv(Run(s, lines, resolved, rev).0)
    decreases |lines|
  {
    if lines != [] {
      var init := lines[..|lines| - 1];
      RunKeepsPendingInv(s, init, resolved, rev);
      StepPending(Run(s, init, resolved, rev).0, lines[|lines| - 1], resolved, rev);
    }
  }

  /** From a fresh state, a pending separator means o3 or think-tags mode and an earlier summary. */
  lemma FreshPendingInv(modelName: string, lines: seq<Line>, resolved: Compat, rev: map<string, string>)
    ensures var r := Run(Initial(modelName), lines, resolved, rev).0;
            r.pendingSummary ==> r.sawAnySummary && r.reasoningCompat == Some(resolved) && resolved in {O3, ThinkTags}
  {
    RunKeepsPendingInv(Initial(modelName), lines, resolved, rev);
    RunKeepsMode(Initial(modelName), lines, resolved, rev);
  }

  /** The "\n" separator chunk of a mode. */
  function SeparatorChunk(mode: Compat, t: Chunk): Chunk {
    if mode == O3 then O3Chunk(t, "\n") else ContentChunk(t, "\n")
  }

  /**
   * A reasoning delta emits an optional open tag, then the separator exactly
   * when it is a summary delta and the flag is pending, then the delta; the
   * flag is cleared exactly when the separator is emitted.
   */
  lemma ReasoningDeltaSeparator(s: State, line: Line, resolved: Compat, rev: map<string, string>)
    requires PendingInv(s)
    requires line.Data? && (line.event.SummaryTextDelta? || line.event.ReasoningTextDelta?)
    ensures var s1 := Resolved(s, resolved);
            var mode := s1.reasoningCompat.value;
            var t := Template(s1, line.model, line.usage);
            var q := StepSpec(s, line, resolved, rev);
            var sep := line.event.SummaryTextDelta? && s.pendingSummary;
            var opens := mode == ThinkTags && !s.thinkOpen && !s.thinkClosed;
            && |q.1| == (if opens then 1 else 0) + (if sep then 1 else 0) + 1
            && (sep ==> q.1[|q.1| - 2] == SeparatorChunk(mode, t))
            && q.0.pendingSummary == (s.pendingSummary && !sep)
  {
    var s1 := Resolved(s, resolved);
    var t := Template(s1, line.model, line.usage);
    assert StepSpec(s, line, resolved, rev) == ReasoningStep(s1, line.event.SummaryTextDelta?, line.event.delta, t);
  }

  /** In legacy and current mode the summary flags never change. */
  lemma {:induction false} LegacyNeverPending(s: State, lines: seq<Line>, resolved: Compat, rev: map<string, string>)
    requires resolved in {Legacy, Current} && ModeFrom(s, resolved)
    ensures var r := Run(s, lines, resolved, rev);
            r.0.pendingSummary == s.pendingSummary && r.0.sawAnySummary == s.sawAnySummary && ModeFrom(r.0, resolved)
    decreases |lines|
  {
    if lines != [] {
      var init := lines[..|lines| - 1];
      LegacyNeverPending(s, init, resolved, rev);
      LegacyStep(Run(s, init, resolved, rev).0, lines[|lines| - 1], resolved, rev);
    }
  }

  lemma LegacyStep(s: State, line: Line, resolved: Compat, rev: map<string, string>)
    requires resolved in {Legacy, Current} && ModeFrom(s, resolved)
    ensures var q := StepSpec(s, line, resolved, rev);
            q.0.pendingSummary == s.pendingSummary && q.0.sawAnySummary == s.sawAnySummary && ModeFrom(q.0, resolved)
  {
    StepKeepsMode(s, line, resolved, rev);
    if line.Data? && !line.event.Created? {
      var s1 := Resolved(s, resolved);
      assert s1.reasoningCompat.value in {Legacy, Current};
    }
  }

  /**
   * Legacy and current mode: after any sequence of lines from a fresh state,
   * a reasoning delta emits exactly one chunk, carrying the delta untouched
   * (as summary and reasoning for a summary delta, as reasoning otherwise).
   */
  lemma LegacyOneChunkPerDelta(modelName: string, lines: seq<Line>, line: Line, resolved: Compat, rev: map<string, string>)
    requires resolved in {Legacy, Current}
    requires line.Data? && (line.event.SummaryTextDelta? || line.event.ReasoningTextDelta?)
    ensures var p := Run(Initial(modelName), lines, resolved, rev);
            var q := StepSpec(p.0, line, resolved, rev);
            var t := Template(p.0, line.model, line.usage);
            && |q.1| == 1
            && q.1[0].delta.reasoning == Some(PlainReasoning(line.event.delta))
            && q.1[0].delta.reasoningSummary == (if line.event.SummaryTextDelta? then Some(line.event.delta) else None)
            && q.1[0].delta.content.None?
  {
    LegacyNeverPending(Initial(modelName), lines, resolved, rev);
  }

  // ---------------------------------------------------------------------------
  // End-to-end sequences

  /**
   * response.created, one output-text delta "Hi", response.completed in
   * current mode: a content chunk and a stop chunk, both with the response id.
   * The events carry no top-level model, so the chunks carry the placeholder.
   */
  lemma PlainTextScenario(modelName: string, rev: map<string, string>)
    ensures var r := Run(Initial(modelName),
                         [Data(Created("r1", 7, "m1"), None, None),
                          Data(OutputTextDelta(Some("Hi")), None, None),
                          Data(Completed, None, None)], Current, rev);
            r.1 == [Chunk("r1", 7, "model", NoUsage, NoDelta.(role := Some(Assistant), content := Some("Hi")), None),
                    Chunk("r1", 7, "model", NoUsage, NoDelta, Some("stop"))]
  {
    var s := Initial(modelName);
    var l1 := Data(Created("r1", 7, "m1"), None, None);
    var l2 := Data(OutputTextDelta(Some("Hi")), None, None);
    var l3 := Data(Completed, None, None);
    RunSnoc(s, [], l1, Current, rev);
    RunSnoc(s, [l1], l2, Current, rev);
    RunSnoc(s, [l1, l2], l3, Current, rev);
    assert [l1] + [l2] == [l1, l2];
    assert [l1, l2] + [l3] == [l1, l2, l3];
  }

  /**
   * The same sequence in think-tags mode with a reasoning delta "thinking"
   * before the text: open tag, the reasoning as content, the text, the close
   * tag, the stop chunk. The close chunk also carries the stop reason.
   */
  lemma ThinkTagsScenario(modelName: string, rev: map<string, string>)
    ensures var r := Run(Initial(modelName),
                         [Data(Created("r1", 7, "m1"), None, None),
                          Data(ReasoningTextDelta("thinking"), None, None),
                          Data(OutputTextDelta(Some("Hi")), None, None),
                          Data(Completed, None, None)], ThinkTags, rev);
            && |r.1| == 5
            && r.1[0].delta.content == Some(OpenTag)
            && r.1[1].delta.content == Some("thinking")
            && r.1[2].delta.content == Some("Hi")
            && r.1[3].delta.content == Some(CloseTag)
            && r.1[4].delta == NoDelta
            && r.1[3].finishReason == Some("stop") && r.1[4].finishReason == Some("stop")
            && forall i :: 0 <= i < 3 ==> r.1[i].finishReason.None?
  {
    var s := Initial(modelName);
    var l1 := Data(Created("r1", 7, "m1"), None, None);
    var l2 := Data(ReasoningTextDelta("thinking"), None, None);
    var l3 := Data(OutputTextDelta(Some("Hi")), None, None);
    var l4 := Data(Completed, None, None);
    var s1 := s.(responseId := "r1", createdAt := 7, model := "m1");
    var s2 := s1.(reasoningCompat := Some(ThinkTags));
    var t := Template(s2, None, None);
    var fin := t.(finishReason := Some("stop"));
    RunSnoc(s, [], l1, ThinkTags, rev);
    assert Run(s, [l1], ThinkTags, rev) == (s1, []);
    RunSnoc(s, [l1], l2, ThinkTags, rev);
    assert [l1] + [l2] == [l1, l2];
    assert StepSpec(s1, l2, ThinkTags, rev) == ReasoningStep(s2, false, "thinking", t);
    assert ReasoningStep(s2, false, "thinking", t).0 == s2.(thinkOpen := true);
    assert ReasoningStep(s2, false, "thinking", t).1 == [ContentChunk(t, OpenTag)] + [] + [ContentChunk(t, "thinking")];
    var s3 := s2.(thinkOpen := true);
    RunSnoc(s, [l1, l2], l3, ThinkTags, rev);
    assert [l1, l2] + [l3] == [l1, l2, l3];
    assert StepSpec(s3, l3, ThinkTags, rev) == (s3, [ContentChunk(t, "Hi")]);
    RunSnoc(s, [l1, l2, l3], l4, ThinkTags, rev);
    assert [l1, l2, l3] + [l4] == [l1, l2, l3, l4];
    assert Template(s3, None, None) == t;
    assert StepSpec(s3, l4, ThinkTags, rev) == CompletedStep(s3, t);
    assert CompletedStep(s3, t).1 == [ContentChunk(fin, CloseTag), fin];
  }
}
