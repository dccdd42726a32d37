/**
 * The non-streaming translator (ConvertCodexResponseToOpenAINonStream,
 * codex_openai_response.go lines 296-471): one complete response.completed
 * object in, one `chat.completion` object out. The walk over `output`
 * accumulates the reasoning texts with the separator-joining step of the
 * source; `Join` over the non-blank trimmed segments is the reference it is
 * proved against.
 */
module NonStreamTranslator {
  import opened TextUtil
  import opened JsonTree
  import opened Shapes
  import opened ReasoningCompat
  import opened ToolNames
  import StreamTranslator

  /** The `response` object of the final event; None is an absent key, `output` None a non-array. */
  datatype FinalResponse = FinalResponse(
    id: Option<string>,
    model: Option<string>,
    createdAt: Option<int>,
    usage: Option<VendorUsage>,
    output: Option<seq<OutputItem>>,
    status: Option<string>)

  /** The whole body: its `type` and its `response`. */
  datatype FinalEvent = FinalEvent(kind: string, response: FinalResponse)

  /** The `chat.completion` object, or the empty string the source returns for another event type. */
  datatype Completion =
    | NoCompletion
    | Completion(id: string, created: int, model: string, message: Message, finishReason: Option<string>, usage: Usage)

  const Separator := "\n\n"

  /** The message of the template, kept as it is when `output` is not an array. */
  const BareMessage := Message(StreamTranslator.Assistant, None, [], None, None)

  // ---------------------------------------------------------------------------
  // The reference join

  /** The non-empty segments, in order. */
  function NonBlank(segs: seq<string>): (r: seq<string>)
    ensures forall i :: 0 <= i < |r| ==> r[i] != []
    ensures |r| <= |segs|
    decreases |segs|
  {
    if segs == [] then []
    else NonBlank(segs[..|segs| - 1]) + (if segs[|segs| - 1] == [] then [] else [segs[|segs| - 1]])
  }

  /** Segments separated by one blank line. */
  function Join(segs: seq<string>): string
    decreases |segs|
  {
    if segs == [] then ""
    else if |segs| == 1 then segs[0]
    else Join(segs[..|segs| - 1]) + Separator + segs[|segs| - 1]
  }

  /**
   * The accumulation step of the source: a non-empty text is appended,
   * preceded by the separator unless nothing was accumulated yet.
   */
  function Accumulate(acc: string, text: string): string {
    if text == [] then acc else (if acc != [] then acc + Separator else acc) + text
  }

  lemma NonBlankSnoc(xs: seq<string>, t: string)
    ensures NonBlank(xs + [t]) == NonBlank(xs) + (if t == [] then [] else [t])
  {
    assert (xs + [t])[..|xs|] == xs;
  }

  lemma NonBlankConcat(xs: seq<string>, ys: seq<string>)
    ensures NonBlank(xs + ys) == NonBlank(xs) + NonBlank(ys)
    decreases |ys|
  {
    if ys == [] {
      assert xs + ys == xs;
    } else {
      var ys' := ys[..|ys| - 1];
      assert xs + ys == (xs + ys') + [ys[|ys| - 1]];
      NonBlankSnoc(xs + ys', ys[|ys| - 1]);
      NonBlankSnoc(ys', ys[|ys| - 1]);
      assert ys == ys' + [ys[|ys| - 1]];
      NonBlankConcat(xs, ys');
    }
  }

  /** A join of non-empty segments is empty only when there are none. */
  lemma {:induction false} JoinEmpty(segs: seq<string>)
    requires forall i :: 0 <= i < |segs| ==> segs[i] != []
    ensures Join(segs) == [] <==> segs == []
    decreases |segs|
  {
    if |segs| > 1 {
      JoinEmpty(segs[..|segs| - 1]);
    }
  }

  /** One accumulation step extends the join of the non-blank segments by the new segment. */
  lemma JoinStep(xs: seq<string>, t: string)
    ensures Accumulate(Join(NonBlank(xs)), t) == Join(NonBlank(xs + [t]))
  {
    NonBlankSnoc(xs, t);
    var nb := NonBlank(xs);
    JoinEmpty(nb);
    if t == [] {
      assert nb + [] == nb;
    } else {
      var all := nb + [t];
      assert all[..|all| - 1] == nb && all[|all| - 1] == t;
      if nb == [] {
        assert all == [t];
      } else {
        assert Join(all) == Join(nb) + Separator + t;
      }
    }
  }

  /** The join starts with the first segment and ends with the last. */
  lemma {:induction false} JoinEnds(segs: seq<string>)
    requires segs != [] && forall i :: 0 <= i < |segs| ==> segs[i] != []
    ensures Join(segs) != []
    ensures Join(segs)[0] == segs[0][0]
    ensures Join(segs)[|Join(segs)| - 1] == segs[|segs| - 1][|segs[|segs| - 1]| - 1]
    decreases |segs|
  {
    if |segs| > 1 {
      var init := segs[..|segs| - 1];
      var last := segs[|segs| - 1];
      JoinEnds(init);
      var j := Join(init) + Separator + last;
      assert Join(segs) == j;
      assert j[|j| - 1] == last[|last| - 1];
    }
  }

  /** Joining trimmed segments gives a trimmed text, so the later re-trim changes nothing. */
  lemma JoinTrimmed(segs: seq<string>)
    requires forall i :: 0 <= i < |segs| ==> IsTrimmed(segs[i])
    ensures IsTrimmed(Join(NonBlank(segs)))
  {
    var nb := NonBlank(segs);
    NonBlankTrimmed(segs);
    if nb != [] {
      JoinEnds(nb);
    }
  }

  lemma {:induction false} NonBlankTrimmed(segs: seq<string>)
    requires forall i :: 0 <= i < |segs| ==> IsTrimmed(segs[i])
    ensures forall i :: 0 <= i < |NonBlank(segs)| ==> IsTrimmed(NonBlank(segs)[i])
    decreases |segs|
  {
    if segs != [] {
      NonBlankTrimmed(segs[..|segs| - 1]);
    }
  }

  // ---------------------------------------------------------------------------
  // What the walk over `output` collects

  /** The trimmed texts of the `summary_text` parts of a summary. */
  function SummaryTexts(parts: seq<Part>): seq<string>
    decreases |parts|
  {
    if parts == [] then []
    else
      var last := parts[|parts| - 1];
      SummaryTexts(parts[..|parts| - 1]) + (if last.kind == "summary_text" then [TrimSpace(last.text)] else [])
  }

  /** The trimmed texts of all parts of a reasoning item's content, whatever their type. */
  function ContentTexts(parts: seq<Part>): seq<string>
    decreases |parts|
  {
    if parts == [] then [] else ContentTexts(parts[..|parts| - 1]) + [TrimSpace(parts[|parts| - 1].text)]
  }

  function ItemSummary(item: OutputItem): seq<string> {
    if item.kind == "reasoning" && item.summary.Some? then SummaryTexts(item.summary.value) else []
  }

  /** A reasoning item's content texts, then its flat `text`. */
  function ItemFull(item: OutputItem): seq<string> {
    if item.kind == "reasoning"
    then (if item.content.Some? then ContentTexts(item.content.value) else []) + [TrimSpace(item.text)]
    else []
  }

  function SummarySegments(items: seq<OutputItem>): seq<string>
    decreases |items|
  {
    if items == [] then [] else SummarySegments(items[..|items| - 1]) + ItemSummary(items[|items| - 1])
  }

  function FullSegments(items: seq<OutputItem>): seq<string>
    decreases |items|
  {
    if items == [] then [] else FullSegments(items[..|items| - 1]) + ItemFull(items[|items| - 1])
  }

  /** The text of the first `output_text` part. */
  function FirstOutputText(parts: seq<Part>): (r: Option<string>)
    ensures r.Some? <==> exists i :: 0 <= i < |parts| && parts[i].kind == "output_text"
    ensures r.Some? ==> exists i :: 0 <= i < |parts| && parts[i].kind == "output_text" && parts[i].text == r.value
                                     && forall j :: 0 <= j < i ==> parts[j].kind != "output_text"
    decreases |parts|
  {
    if parts == [] then None
    else if parts[0].kind == "output_text" then Some(parts[0].text)
    else
      var r := FirstOutputText(parts[1..]);
      assert forall i :: 1 <= i < |parts| ==> parts[i] == parts[1..][i - 1];
      r
  }

  /** The text a message item contributes, if it has an `output_text` part. */
  function ItemText(item: OutputItem): Option<string> {
    if item.kind == "message" && item.content.Some? then FirstOutputText(item.content.value) else None
  }

  /** Each message item with text overwrites the previous one: the last such item wins. */
  function LastOutputText(items: seq<OutputItem>): (r: string)
    ensures r != [] ==> exists i :: 0 <= i < |items| && ItemText(items[i]) == Some(r)
    decreases |items|
  {
    if items == [] then ""
    else if ItemText(items[|items| - 1]).Some? then ItemText(items[|items| - 1]).value
    else LastOutputText(items[..|items| - 1])
  }

  /**
   * A function_call item as a tool call. Unlike the streaming path, a
   * missing name stays empty and is not looked up.
   */
  function NonStreamCall(item: OutputItem, rev: map<string, string>): ToolCall {
    ToolCall(item.callId.GetOr(""), if item.name.Some? then Restore(rev, item.name.value) else "", item.arguments.GetOr(""))
  }

  function CallsOf(items: seq<OutputItem>, rev: map<string, string>): (r: seq<ToolCall>)
    ensures |r| <= |items|
    decreases |items|
  {
    if items == [] then []
    else
      var last := items[|items| - 1];
      CallsOf(items[..|items| - 1], rev) + (if last.kind == "function_call" then [NonStreamCall(last, rev)] else [])
  }

  /** The final message the walk and the mode formatting produce. */
  function FinalMessage(items: seq<OutputItem>, compat: Compat, rev: map<string, string>): Message {
    var text := LastOutputText(items);
    ApplyToMessage(Message(StreamTranslator.Assistant, if text != [] then Some(text) else None, CallsOf(items, rev), None, None),
                   Join(NonBlank(SummarySegments(items))), Join(NonBlank(FullSegments(items))), compat)
  }

  /** The final message is the mode formatting of what the walk collected. */
  lemma FinalMessageOf(items: seq<OutputItem>, compat: Compat, rev: map<string, string>,
                       text: string, summary: string, full: string, calls: seq<ToolCall>)
    requires text == LastOutputText(items) && calls == CallsOf(items, rev)
    requires summary == Join(NonBlank(SummarySegments(items))) && full == Join(NonBlank(FullSegments(items)))
    ensures FinalMessage(items, compat, rev)
            == ApplyToMessage(Message(StreamTranslator.Assistant, if text != "" then Some(text) else None, calls, None, None),
                              summary, full, compat)
  {
  }

  /** The part-level definitions on one more part, appended after earlier segments. */
  lemma PartsSnoc(segs: seq<string>, parts: seq<Part>, j: int)
    requires 0 <= j < |parts|
    ensures segs + SummaryTexts(parts[..j + 1]) ==
              segs + SummaryTexts(parts[..j]) + (if parts[j].kind == "summary_text" then [TrimSpace(parts[j].text)] else [])
    ensures segs + ContentTexts(parts[..j + 1]) == segs + ContentTexts(parts[..j]) + [TrimSpace(parts[j].text)]
  {
    var p := parts[..j + 1];
    assert p[..j] == parts[..j] && p[j] == parts[j];
    var extra := if parts[j].kind == "summary_text" then [TrimSpace(parts[j].text)] else [];
    assert SummaryTexts(p) == SummaryTexts(parts[..j]) + extra;
    ConcatAssoc(segs, SummaryTexts(parts[..j]), extra);
    assert ContentTexts(p) == ContentTexts(parts[..j]) + [TrimSpace(parts[j].text)];
    ConcatAssoc(segs, ContentTexts(parts[..j]), [TrimSpace(parts[j].text)]);
  }

  // ---------------------------------------------------------------------------
  // The walk, as the source performs it

  /** The loop over a summary array: trimmed non-empty summary_text texts are accumulated. */
  method AppendSummaryParts(acc: string, parts: seq<Part>, ghost segs: seq<string>) returns (r: string)
    requires acc == Join(NonBlank(segs))
    ensures r == Join(NonBlank(segs + SummaryTexts(parts)))
  {
    r := acc;
    assert segs + SummaryTexts(parts[..0]) == segs;
    for j := 0 to |parts|
      invariant r == Join(NonBlank(segs + SummaryTexts(parts[..j])))
    {
      PartsSnoc(segs, parts, j);
      if parts[j].kind == "summary_text" {
        var text := TrimSpace(parts[j].text);
        JoinStep(segs + SummaryTexts(parts[..j]), text);
        if text != "" {
          if r != "" {
            r := r + Separator;
          }
          r := r + text;
        }
      } else {
        assert segs + SummaryTexts(parts[..j]) + [] == segs + SummaryTexts(parts[..j]);
      }
    }
    assert parts[..|parts|] == parts;
  }

  /** The loop over a reasoning content array: every part's trimmed non-empty text is accumulated. */
  method AppendContentParts(acc: string, parts: seq<Part>, ghost segs: seq<string>) returns (r: string)
    requires acc == Join(NonBlank(segs))
    ensures r == Join(NonBlank(segs + ContentTexts(parts)))
  {
    r := acc;
    assert segs + ContentTexts(parts[..0]) == segs;
    for j := 0 to |parts|
      invariant r == Join(NonBlank(segs + ContentTexts(parts[..j])))
    {
      PartsSnoc(segs, parts, j);
      var text := TrimSpace(parts[j].text);
      JoinStep(segs + ContentTexts(parts[..j]), text);
      if text != "" {
        if r != "" {
          r := r + Separator;
        }
        r := r + text;
      }
    }
    assert parts[..|parts|] == parts;
  }

  /** The loop over a message's content that stops at the first output_text part. */
  method FindOutputText(parts: seq<Part>) returns (found: Option<string>)
    ensures found == FirstOutputText(parts)
  {
    var j := 0;
    while j < |parts|
      invariant 0 <= j <= |parts|
      invariant FirstOutputText(parts) == FirstOutputText(parts[j..])
    {
      assert parts[j..][1..] == parts[j + 1..];
      if parts[j].kind == "output_text" {
        return Some(parts[j].text);
      }
      j := j + 1;
    }
    return None;
  }

  /** The reasoning branch of the walk: the summary array, the content array, then the flat text. */
  method CollectReasoning(item: OutputItem, summary: string, full: string, ghost sSegs: seq<string>, ghost fSegs: seq<string>)
    returns (summary': string, full': string)
    requires item.kind == "reasoning"
    requires summary == Join(NonBlank(sSegs)) && full == Join(NonBlank(fSegs))
    ensures summary' == Join(NonBlank(sSegs + ItemSummary(item)))
    ensures full' == Join(NonBlank(fSegs + ItemFull(item)))
  {
    summary', full' := summary, full;
    if item.summary.Some? {
      summary' := AppendSummaryParts(summary', item.summary.value, sSegs);
    } else {
      assert sSegs + ItemSummary(item) == sSegs;
    }
    ghost var contents := if item.content.Some? then ContentTexts(item.content.value) else [];
    if item.content.Some? {
      full' := AppendContentParts(full', item.content.value, fSegs);
    } else {
      assert fSegs + contents == fSegs;
    }
    var t := TrimSpace(item.text);
    JoinStep(fSegs + contents, t);
    if t != "" {
      if full' != "" {
        full' := full' + Separator;
      }
      full' := full' + t;
    }
    assert ItemFull(item) == contents + [t];
    ConcatAssoc(fSegs, contents, [t]);
  }

  lemma ConcatAssoc(a: seq<string>, b: seq<string>, c: seq<string>)
    ensures a + b + c == a + (b + c)
  {
  }

  /** The reference definitions on one more item. */
  lemma WalkSnoc(items: seq<OutputItem>, i: int, rev: map<string, string>)
    requires 0 <= i < |items|
    ensures var item := items[i];
            && SummarySegments(items[..i + 1]) == SummarySegments(items[..i]) + ItemSummary(item)
            && FullSegments(items[..i + 1]) == FullSegments(items[..i]) + ItemFull(item)
            && CallsOf(items[..i + 1], rev) ==
                 CallsOf(items[..i], rev) + (if item.kind == "function_call" then [NonStreamCall(item, rev)] else [])
            && LastOutputText(items[..i + 1]) == (if ItemText(item).Some? then ItemText(item).value else LastOutputText(items[..i]))
  {
    assert items[..i + 1][..i] == items[..i];
  }

  /**
   * The walk over `output`: the message text, the two reasoning texts and
   * the tool calls in order, each equal to its reference definition.
   */
  method CollectOutput(items: seq<OutputItem>, original: RawDoc, shorten: ShortNamer)
    returns (text: string, summary: string, full: string, calls: seq<ToolCall>)
    requires Injective(ShortNames(original, shorten))
    ensures text == LastOutputText(items)
    ensures summary == Join(NonBlank(SummarySegments(items)))
    ensures full == Join(NonBlank(FullSegments(items)))
    ensures calls == CallsOf(items, Inverse(ShortNames(original, shorten)))
  {
    ghost var rev := Inverse(ShortNames(original, shorten));
    text, summary, full, calls := "", "", "", [];
    for i := 0 to |items|
      invariant text == LastOutputText(items[..i])
      invariant summary == Join(NonBlank(SummarySegments(items[..i])))
      invariant full == Join(NonBlank(FullSegments(items[..i])))
      invariant calls == CallsOf(items[..i], rev)
    {
      var item := items[i];
      WalkSnoc(items, i, rev);
      if item.kind == "reasoning" {
        summary, full := CollectReasoning(item, summary, full, SummarySegments(items[..i]), FullSegments(items[..i]));
      } else if item.kind == "message" {
        if item.content.Some? {
          var found := FindOutputText(item.content.value);
          if found.Some? {
            text := found.value;
          }
        }
        assert SummarySegments(items[..i]) + [] == SummarySegments(items[..i]);
        assert FullSegments(items[..i]) + [] == FullSegments(items[..i]);
      } else {
        if item.kind == "function_call" {
          var name := "";
          if item.name.Some? {
            var rm := BuildReverseMap(original, shorten);
            name := Restore(rm, item.name.value);
          }
          calls := calls + [ToolCall(item.callId.GetOr(""), name, item.arguments.GetOr(""))];
        }
        assert SummarySegments(items[..i]) + [] == SummarySegments(items[..i]);
        assert FullSegments(items[..i]) + [] == FullSegments(items[..i]);
      }
    }
    assert items[..|items|] == items;
  }

  /**
   * ConvertCodexResponseToOpenAINonStream. Another event type gives no
   * completion. Otherwise: id and model from the response (model falls back
   * to the placeholder), created from `created_at` or the current time,
   * usage counters copied, finish reason stop exactly for status completed,
   * and the message built from `output` when it is an array.
   */
  method ConvertNonStream(ev: FinalEvent, original: RawDoc, shorten: ShortNamer, now: int) returns (c: Completion)
    requires Injective(ShortNames(original, shorten))
    ensures c.NoCompletion? <==> ev.kind != "response.completed"
    ensures c.Completion? ==>
              && c.id == ev.response.id.GetOr("")
              && c.created == ev.response.createdAt.GetOr(now)
              && c.model == ev.response.model.GetOr("model")
              && c.usage == ToChatUsage(ev.response.usage)
              && c.finishReason == (if ev.response.status == Some("completed") then Some("stop") else None)
    ensures c.Completion? ==>
              c.message == (if ev.response.output.Some?
                            then FinalMessage(ev.response.output.value, Resolve(original), Inverse(ShortNames(original, shorten)))
                            else BareMessage)
  {
    if ev.kind != "response.completed" {
      return NoCompletion;
    }
    var compat := Resolve(original);
    var response := ev.response;
    var message := BareMessage;
    if response.output.Some? {
      var text, summary, full, calls := CollectOutput(response.output.value, original, shorten);
      var m := Message(StreamTranslator.Assistant, if text != "" then Some(text) else None, calls, None, None);
      message := ApplyToMessage(m, summary, full, compat);
      FinalMessageOf(response.output.value, compat, Inverse(ShortNames(original, shorten)), text, summary, full, calls);
    }
    var finish: Option<string> := None;
    if response.status.Some? && response.status.value == "completed" {
      finish := Some("stop");
    }
    c := Completion(response.id.GetOr(""), response.createdAt.GetOr(now), response.model.GetOr("model"),
                    message, finish, ToChatUsage(response.usage));
  }

  // ---------------------------------------------------------------------------
  // Properties of the final message

  /** Every collected segment is trimmed. */
  predicate AllTrimmed(segs: seq<string>) {
    forall i :: 0 <= i < |segs| ==> IsTrimmed(segs[i])
  }

  lemma AllTrimmedConcat(a: seq<string>, b: seq<string>)
    requires AllTrimmed(a) && AllTrimmed(b)
    ensures AllTrimmed(a + b)
  {
    forall i | 0 <= i < |a + b|
      ensures IsTrimmed((a + b)[i])
    {
      if i < |a| {
        assert (a + b)[i] == a[i];
      } else {
        assert (a + b)[i] == b[i - |a|];
      }
    }
  }

  lemma {:induction false} PartTextsTrimmed(parts: seq<Part>)
    ensures AllTrimmed(SummaryTexts(parts)) && AllTrimmed(ContentTexts(parts))
  {
    SummaryTextsTrimmed(parts);
    ContentTextsTrimmed(parts);
  }

  lemma {:induction false} SummaryTextsTrimmed(parts: seq<Part>)
    ensures AllTrimmed(SummaryTexts(parts))
    decreases |parts|
  {
    if parts != [] {
      var init := parts[..|parts| - 1];
      var last := parts[|parts| - 1];
      SummaryTextsTrimmed(init);
      var tail := if last.kind == "summary_text" then [TrimSpace(last.text)] else [];
      assert AllTrimmed(tail);
      AllTrimmedConcat(SummaryTexts(init), tail);
    }
  }

  lemma {:induction false} ContentTextsTrimmed(parts: seq<Part>)
    ensures AllTrimmed(ContentTexts(parts))
    decreases |parts|
  {
    if parts != [] {
      var init := parts[..|parts| - 1];
      var last := parts[|parts| - 1];
      ContentTextsTrimmed(init);
      assert AllTrimmed([TrimSpace(last.text)]);
      AllTrimmedConcat(ContentTexts(init), [TrimSpace(last.text)]);
    }
  }

  lemma ItemTextsTrimmed(item: OutputItem)
    ensures AllTrimmed(ItemSummary(item)) && AllTrimmed(ItemFull(item))
  {
    if item.summary.Some? {
      PartTextsTrimmed(item.summary.value);
    }
    if item.content.Some? {
      PartTextsTrimmed(item.content.value);
      AllTrimmedConcat(ContentTexts(item.content.value), [TrimSpace(item.text)]);
    } else {
      assert [] + [TrimSpace(item.text)] == [TrimSpace(item.text)];
    }
  }

  lemma {:induction false} SegmentsTrimmed(items: seq<OutputItem>)
    ensures AllTrimmed(SummarySegments(items)) && AllTrimmed(FullSegments(items))
    decreases |items|
  {
    if items != [] {
      var init := items[..|items| - 1];
      var last := items[|items| - 1];
      SegmentsTrimmed(init);
      ItemTextsTrimmed(last);
      AllTrimmedConcat(SummarySegments(init), ItemSummary(last));
      AllTrimmedConcat(FullSegments(init), ItemFull(last));
    }
  }

  /** The reasoning texts handed to the mode formatting are already trimmed. */
  lemma CollectedTextsTrimmed(items: seq<OutputItem>)
    ensures IsTrimmed(Join(NonBlank(SummarySegments(items))))
    ensures IsTrimmed(Join(NonBlank(FullSegments(items))))
  {
    SegmentsTrimmed(items);
    JoinTrimmed(SummarySegments(items));
    JoinTrimmed(FullSegments(items));
  }

  /**
   * In o3 mode with both texts present, the structured reasoning is the
   * summary text, a blank line, and the full text, as collected.
   */
  lemma O3CombinesCollected(items: seq<OutputItem>, rev: map<string, string>)
    requires Join(NonBlank(SummarySegments(items))) != [] && Join(NonBlank(FullSegments(items))) != []
    ensures FinalMessage(items, O3, rev).reasoning ==
              Some(StructuredReasoning(Join(NonBlank(SummarySegments(items))) + Separator + Join(NonBlank(FullSegments(items)))))
  {
    var s := Join(NonBlank(SummarySegments(items)));
    var f := Join(NonBlank(FullSegments(items)));
    CollectedTextsTrimmed(items);
    var text := LastOutputText(items);
    var m := Message(StreamTranslator.Assistant, if text != [] then Some(text) else None, CallsOf(items, rev), None, None);
    O3OfTrimmed(m, s, f);
  }

  lemma O3OfTrimmed(m: Message, s: string, f: string)
    requires IsTrimmed(s) && IsTrimmed(f) && s != [] && f != []
    ensures ApplyToMessage(m, s, f, O3).reasoning == Some(StructuredReasoning(s + Separator + f))
  {
    TrimSpaceOfTrimmed(s);
    TrimSpaceOfTrimmed(f);
    assert !IsBlank(s) && !IsBlank(f);
  }

  /** The tool calls of the final message are the function_call items, in order, in every mode. */
  lemma FinalMessageCalls(items: seq<OutputItem>, compat: Compat, rev: map<string, string>)
    ensures FinalMessage(items, compat, rev).toolCalls == CallsOf(items, rev)
    ensures FinalMessage(items, compat, rev).role == StreamTranslator.Assistant
  {
  }

  /** The calls are exactly the function_call items, one per item, in order. */
  lemma {:induction false} CallsOfItems(items: seq<OutputItem>, rev: map<string, string>, k: int)
    requires 0 <= k < |items| && items[k].kind == "function_call"
    ensures var before := CallsOf(items[..k], rev);
            |before| < |CallsOf(items, rev)| && CallsOf(items, rev)[|before|] == NonStreamCall(items[k], rev)
    decreases |items|
  {
    var init := items[..|items| - 1];
    if k < |items| - 1 {
      assert init[..k] == items[..k];
      CallsOfItems(init, rev, k);
    } else {
      assert init == items[..k];
    }
  }

  /** A function_call item naming the shortened form of a declared tool is reported with the declared name. */
  lemma NonStreamRestoresName(item: OutputItem, m: map<string, string>, declared: string)
    requires Injective(m) && declared in m && item.name == Some(m[declared])
    ensures NonStreamCall(item, Inverse(m)).name == declared
  {
    RestoreInverts(m, declared);
  }

  /**
   * The two paths report the same tool call for a function_call item, except
   * when the item has no name and the empty name is a shortened name.
   */
  lemma StreamAgreesOnCalls(item: OutputItem, rev: map<string, string>)
    ensures item.name.Some? || "" !in rev ==> StreamTranslator.StreamCall(item, rev) == NonStreamCall(item, rev)
    ensures item.name.None? && "" in rev ==> StreamTranslator.StreamCall(item, rev).name == rev[""] && NonStreamCall(item, rev).name == ""
  {
  }

  /**
   * With no reasoning text collected (every summary and content segment
   * blank) the message holds only the collected content and calls, in every
   * mode.
   */
  lemma NoReasoningPlainMessage(items: seq<OutputItem>, compat: Compat, rev: map<string, string>)
    requires Join(NonBlank(SummarySegments(items))) == [] && Join(NonBlank(FullSegments(items))) == []
    ensures var text := LastOutputText(items);
            FinalMessage(items, compat, rev) ==
              Message(StreamTranslator.Assistant, if text != [] then Some(text) else None, CallsOf(items, rev), None, None)
  {
    assert IsBlank([]);
  }

  /**
   * A reasoning item that carries nothing readable (only encrypted content,
   * say) collects no reasoning text, so the plain-message case covers it.
   */
  lemma OpaqueReasoningCollectsNothing(item: OutputItem)
    requires item.kind == "reasoning" && IsBlank(item.text)
    requires item.summary.None? || item.summary == Some([])
    requires item.content.None? || item.content == Some([])
    ensures Join(NonBlank(SummarySegments([item]))) == [] && Join(NonBlank(FullSegments([item]))) == []
  {
    assert [item][..0] == [];
    assert ItemSummary(item) == [];
    assert SummarySegments([item]) == [];
    var inner := if item.content.Some? then ContentTexts(item.content.value) else [];
    assert inner == [];
    assert ItemFull(item) == [TrimSpace(item.text)] == [""];
    assert FullSegments([item]) == [""];
    assert [""][..0] == [];
    assert NonBlank([""]) == [];
  }

  /** A later message item with output text replaces the text of every earlier one. */
  lemma {:induction false} LastMessageWins(items: seq<OutputItem>, k: int)
    requires 0 <= k < |items| && ItemText(items[k]).Some?
    requires forall j :: k < j < |items| ==> ItemText(items[j]).None?
    ensures LastOutputText(items) == ItemText(items[k]).value
    decreases |items|
  {
    if k < |items| - 1 {
      var init := items[..|items| - 1];
      LastMessageWins(init, k);
    }
  }
}
