/**
 * The reasoning-compatibility mode: parsing a configured name into one of the
 * four modes, recovering it from the annotated original request, joining the
 * two reasoning texts, and shaping a final message by mode
 * (codex_openai_response.go, lines 22-85).
 */
module ReasoningCompat {
  import opened TextUtil
  import opened JsonTree
  import opened Shapes

  datatype Compat = Legacy | O3 | ThinkTags | Current {
    /** The canonical (lower-case) name of the mode. */
    function Name(): string {
      match this
      case Legacy => "legacy"
      case O3 => "o3"
      case ThinkTags => "think-tags"
      case Current => "current"
    }
  }

  const ModeNames: set<string> := {"legacy", "o3", "think-tags", "current"}

  /** The key under which the executor annotates the original request. */
  const AnnotationKey := "__codex_settings"
  /** The older spelling that is still honoured when the annotation is missing. */
  const LegacySettingsKey := "codex_settings"
  const CompatField := "reasoning_compat"

  /**
   * normalizeCodexReasoningCompat: the trimmed, lower-cased input names the
   * result, or names no mode at all and the result is think-tags.
   */
  function Normalize(raw: string): (r: Compat)
    ensures r.Name() == ToLower(TrimSpace(raw)) || (r == ThinkTags && ToLower(TrimSpace(raw)) !in ModeNames)
  {
    ModeOf(ToLower(TrimSpace(raw)))
  }

  /** The mode a trimmed, lower-cased name selects. */
  function ModeOf(key: string): (r: Compat)
    ensures r.Name() == key || (r == ThinkTags && key !in ModeNames)
  {
    if key == "legacy" then Legacy
    else if key == "o3" then O3
    else if key == "think-tags" then ThinkTags
    else if key == "current" then Current
    else ThinkTags
  }

  /** Every mode's canonical name parses back to that mode. */
  lemma NormalizeName(m: Compat)
    ensures Normalize(m.Name()) == m
  {
    var n := m.Name();
    match m
    case Legacy => CanonicalText("legacy");
    case O3 => CanonicalText("o3");
    case ThinkTags => CanonicalText("think-tags");
    case Current => CanonicalText("current");
  }

  /** A trimmed lower-case text is its own normal form. */
  lemma CanonicalText(n: string)
    requires n != [] && 'a' <= n[0] <= 'z' && ('a' <= n[|n| - 1] <= 'z' || '0' <= n[|n| - 1] <= '9')
    requires forall i :: 0 <= i < |n| ==> !('A' <= n[i] <= 'Z')
    ensures ToLower(TrimSpace(n)) == n
  {
    TrimSpaceOfTrimmed(n);
    ToLowerOfLower(n);
  }

  /** Normalizing the name of a normalized value changes nothing. */
  lemma NormalizeIdempotent(raw: string)
    ensures Normalize(Normalize(raw).Name()) == Normalize(raw)
  {
    NormalizeName(Normalize(raw));
  }

  /** Two inputs that differ only in ASCII letter case normalize alike. */
  lemma NormalizeIgnoresCase(a: string, b: string)
    requires EqualFold(a, b)
    ensures Normalize(a) == Normalize(b)
  {
    TrimSpaceToLower(a);
    TrimSpaceToLower(b);
  }

  /** Upper-casing the input does not change the mode. */
  lemma NormalizeUpper(raw: string)
    ensures Normalize(ToUpper(raw)) == Normalize(raw)
  {
    ToLowerOfUpper(raw);
    NormalizeIgnoresCase(ToUpper(raw), raw);
  }

  /** White space around the input does not change the mode. */
  lemma NormalizeIgnoresPadding(l: string, raw: string, t: string)
    requires AllSpace(l) && AllSpace(t)
    ensures Normalize(l + raw + t) == Normalize(raw)
  {
    TrimSpaceIgnoresPadding(l, raw, t);
  }

  /** The empty string, and anything blank, selects think-tags. */
  lemma NormalizeBlank(raw: string)
    requires IsBlank(raw)
    ensures Normalize(raw) == ThinkTags
  {
    assert ToLower(TrimSpace(raw)) == [];
  }

  /**
   * resolveCodexReasoningCompat: `__codex_settings.reasoning_compat` wins over
   * `codex_settings.reasoning_compat`; with neither the mode is think-tags.
   */
  function Resolve(original: RawDoc): (r: Compat)
    ensures GetDoc(original, [AnnotationKey, CompatField]).Some? ==>
              r == Normalize(Text(GetDoc(original, [AnnotationKey, CompatField]).value))
    ensures GetDoc(original, [AnnotationKey, CompatField]).None? && GetDoc(original, [LegacySettingsKey, CompatField]).Some? ==>
              r == Normalize(Text(GetDoc(original, [LegacySettingsKey, CompatField]).value))
    ensures GetDoc(original, [AnnotationKey, CompatField]).None? && GetDoc(original, [LegacySettingsKey, CompatField]).None? ==>
              r == ThinkTags
  {
    match GetDoc(original, [AnnotationKey, CompatField])
    case Some(v) => Normalize(Text(v))
    case None =>
      match GetDoc(original, [LegacySettingsKey, CompatField])
      case Some(v) => Normalize(Text(v))
      case None => NormalizeBlank(""); Normalize("")
  }

  /** When the annotation carries a mode, whatever the older key holds is ignored. */
  lemma ResolvePrefersAnnotation(fields: map<string, Json>, legacy: Json)
    requires AnnotationKey in fields && fields[AnnotationKey].JObj? && CompatField in fields[AnnotationKey].fields
    ensures Resolve(Parsed(JObj(fields[LegacySettingsKey := legacy]))) == Resolve(Parsed(JObj(fields)))
  {
    var with := fields[LegacySettingsKey := legacy];
    var settings := fields[AnnotationKey];
    assert with[AnnotationKey] == settings;
    var v := settings.fields[CompatField];
    GetTwoLevels(with, AnnotationKey, CompatField);
    GetTwoLevels(fields, AnnotationKey, CompatField);
  }

  /** A request body that is empty or not JSON resolves to think-tags. */
  lemma ResolveUnparsed(original: RawDoc)
    requires !original.Parsed?
    ensures Resolve(original) == ThinkTags
  {
  }

  /**
   * joinReasoningText: both sides are trimmed; a blank side contributes
   * nothing; two non-blank sides are separated by one blank line.
   */
  function JoinReasoningText(summary: string, full: string): (r: string)
    ensures IsTrimmed(r)
    ensures r == [] <==> IsBlank(summary) && IsBlank(full)
    ensures IsBlank(summary) ==> r == TrimSpace(full)
    ensures IsBlank(full) ==> r == TrimSpace(summary)
    ensures !IsBlank(summary) && !IsBlank(full) ==> r == TrimSpace(summary) + "\n\n" + TrimSpace(full)
  {
    var s := TrimSpace(summary);
    var f := TrimSpace(full);
    if s == [] then f
    else if f == [] then s
    else
      JoinTrimmed(s, f);
      s + "\n\n" + f
  }

  lemma JoinTrimmed(s: string, f: string)
    requires IsTrimmed(s) && IsTrimmed(f) && s != [] && f != []
    ensures IsTrimmed(s + "\n\n" + f)
  {
    var j := s + "\n\n" + f;
    assert j[0] == s[0] && j[|j| - 1] == f[|f| - 1];
  }

  /** The literal think block prepended to message content in think-tags mode. */
  function ThinkBlock(combined: string): string {
    "<think>" + combined + "</think>"
  }

  /**
   * applyCodexReasoningCompatToMessage. o3 puts the joined text into a
   * structured `reasoning`; legacy/current set `reasoning_summary` and
   * `reasoning` each only when that side is not blank (untrimmed); think-tags
   * prepends a think block to the content. Role and tool calls never change,
   * and a mode with nothing to add leaves the message as it was.
   */
  function ApplyToMessage(m: Message, summary: string, full: string, compat: Compat): (r: Message)
    ensures r.role == m.role && r.toolCalls == m.toolCalls
    ensures compat == O3 ==>
              r.content == m.content && r.reasoningSummary == m.reasoningSummary
              && r.reasoning == (if IsBlank(summary) && IsBlank(full) then m.reasoning
                                 else Some(StructuredReasoning(JoinReasoningText(summary, full))))
    ensures compat == Legacy || compat == Current ==>
              r.content == m.content
              && r.reasoningSummary == (if IsBlank(summary) then m.reasoningSummary else Some(summary))
              && r.reasoning == (if IsBlank(full) then m.reasoning else Some(PlainReasoning(full)))
    ensures compat == ThinkTags ==>
              r.reasoningSummary == m.reasoningSummary && r.reasoning == m.reasoning
              && r.content == (if IsBlank(summary) && IsBlank(full) then m.content
                               else Some(ThinkBlock(JoinReasoningText(summary, full)) + m.content.GetOr("")))
    ensures IsBlank(summary) && IsBlank(full) ==> r == m
  {
    match compat
    case O3 =>
      var combined := JoinReasoningText(summary, full);
      if combined != [] then m.(reasoning := Some(StructuredReasoning(combined))) else m
    case Legacy | Current =>
      var m1 := if !IsBlank(summary) then m.(reasoningSummary := Some(summary)) else m;
      if !IsBlank(full) then m1.(reasoning := Some(PlainReasoning(full))) else m1
    case ThinkTags =>
      var combined := JoinReasoningText(summary, full);
      if combined == [] then m
      else m.(content := Some(ThinkBlock(combined) + m.content.GetOr("")))
  }

  /**
   * `c` reads as the open tag, `inner`, the close tag and then `rest`, each
   * at its own fixed position.
   */
  predicate SplitsAsThinkBlock(c: string, inner: string, rest: string) {
    && |c| == 15 + |inner| + |rest|
    && c[..7] == "<think>"
    && c[7..7 + |inner|] == inner
    && c[7 + |inner|..15 + |inner|] == "</think>"
    && c[15 + |inner|..] == rest
  }

  /**
   * In think-tags mode the original content survives as the text after the
   * think block, and the block's inner text is the trimmed join.
   */
  lemma ThinkBlockIsSeparable(m: Message, summary: string, full: string)
    requires !(IsBlank(summary) && IsBlank(full))
    ensures ApplyToMessage(m, summary, full, ThinkTags).content.Some?
    ensures SplitsAsThinkBlock(ApplyToMessage(m, summary, full, ThinkTags).content.value,
                               JoinReasoningText(summary, full), m.content.GetOr(""))
  {
    var inner := JoinReasoningText(summary, full);
    var r := ApplyToMessage(m, summary, full, ThinkTags);
    assert r.content == Some(ThinkBlock(inner) + m.content.GetOr(""));
    ThinkBlockPieces(inner, m.content.GetOr(""));
  }

  lemma ThinkBlockPieces(inner: string, rest: string)
    ensures SplitsAsThinkBlock(ThinkBlock(inner) + rest, inner, rest)
  {
    assert ThinkBlock(inner) + rest == "<think>" + inner + "</think>" + rest;
    assert |"<think>"| == 7 && |"</think>"| == 8;
    FourPieces("<think>", inner, "</think>", rest);
  }

  lemma FourPieces(a: string, b: string, c: string, d: string)
    ensures var s := a + b + c + d;
            && s[..|a|] == a
            && s[|a|..|a| + |b|] == b
            && s[|a| + |b|..|a| + |b| + |c|] == c
            && s[|a| + |b| + |c|..] == d
  {
  }
}
