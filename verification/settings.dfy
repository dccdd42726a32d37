/**
 * The request-side Codex settings (codex_settings.go): field patches on the
 * outgoing payload, the compatibility-mode rewrite, the annotation of the
 * original request that the response translators read back, and the split
 * of a reasoning-effort suffix off a model name.
 */
module CodexSettings {
  import opened TextUtil
  import opened JsonTree
  import opened ReasoningCompat

  /** config.CodexSettings, as far as these operations read it. */
  datatype Settings = Settings(
    reasoningEffort: string,
    reasoningSummary: string,
    compatibilityMode: bool,
    enableWebSearch: bool,
    reasoningCompat: string,
    verbose: bool,
    verboseObfuscation: bool)

  /** Nothing to patch: no effort, no summary, neither switch on. */
  predicate NoPatches(s: Settings) {
    s.reasoningEffort == "" && s.reasoningSummary == "" && !s.compatibilityMode && !s.enableWebSearch
  }

  // ---------------------------------------------------------------------------
  // Compatibility mode

  /** An `input` element whose `role`, read as text, equals "system" ignoring ASCII case. */
  predicate IsSystemRole(item: Json) {
    EqualFold(TextOr(Get(item, ["role"])), "system")
  }

  /** One element as the compatibility rewrite leaves it: a system role becomes "user". */
  function RewriteRole(item: Json): (r: Json)
    ensures IsSystemRole(item) ==> item.JObj? && r == JObj(item.fields["role" := JStr("user")])
    ensures !IsSystemRole(item) ==> r == item
  {
    if IsSystemRole(item) then JObj(item.fields["role" := JStr("user")]) else item
  }

  /** The whole `input` array rewritten element by element. */
  function RewriteSystemRoles(items: seq<Json>): (r: seq<Json>)
    ensures |r| == |items|
    ensures forall k :: 0 <= k < |items| ==> r[k] == RewriteRole(items[k])
  {
    seq(|items|, k requires 0 <= k < |items| => RewriteRole(items[k]))
  }

  /** `input` after the rewrite: an array is rewritten, anything else (or nothing) stays. */
  function RewrittenInput(v: Option<Json>): Option<Json> {
    if v.Some? && v.value.JArr? then Some(JArr(RewriteSystemRoles(v.value.items))) else v
  }

  /** "user" is not "system" in any casing. */
  lemma UserIsNotSystem()
    ensures !EqualFold("user", "system")
  {
    assert |ToLower("user")| == 4 && |ToLower("system")| == 6;
  }

  /** After the rewrite no element has a system role. */
  lemma RewriteLeavesNoSystemRole(items: seq<Json>)
    ensures forall k :: 0 <= k < |items| ==> !IsSystemRole(RewriteSystemRoles(items)[k])
  {
    UserIsNotSystem();
    forall k | 0 <= k < |items|
      ensures !IsSystemRole(RewriteSystemRoles(items)[k])
    {
      var it := items[k];
      if IsSystemRole(it) {
        var r := JObj(it.fields["role" := JStr("user")]);
        assert Get(r, ["role"]) == Some(JStr("user")) by {
          assert ["role"][1..] == [];
        }
      }
    }
  }

  /** The rewrite changes nothing but roles: every other field of every element stays. */
  lemma RewriteKeepsOtherFields(items: seq<Json>, k: int)
    requires 0 <= k < |items| && items[k].JObj?
    ensures RewriteSystemRoles(items)[k].JObj?
    ensures RewriteSystemRoles(items)[k].fields - {"role"} == items[k].fields - {"role"}
    ensures RewriteSystemRoles(items)[k].fields.Keys == items[k].fields.Keys + (if IsSystemRole(items[k]) then {"role"} else {})
  {
  }

  /** Rewriting twice is rewriting once. */
  lemma RewriteIdempotent(items: seq<Json>)
    ensures RewriteSystemRoles(RewriteSystemRoles(items)) == RewriteSystemRoles(items)
  {
    RewriteLeavesNoSystemRole(items);
  }

  /**
   * applyCodexCompatibilityMode: `instructions` is removed, and each element
   * of an `input` array with a system role gets role "user"; every other
   * key, element and field is kept. A payload that is not an object is left
   * as it is.
   */
  method ApplyCompatibilityMode(payload: Json) returns (out: Json)
    ensures !payload.JObj? ==> out == payload
    ensures payload.JObj? ==> out.JObj? && "instructions" !in out.fields
    ensures payload.JObj? ==> AgreeOutside(out.fields, payload.fields, {"instructions", "input"})
    ensures payload.JObj? ==> Get(out, ["input"]) == RewrittenInput(Get(payload, ["input"]))
  {
    out := Delete(payload, "instructions");
    var input := Get(out, ["input"]);
    if input.None? || !input.value.JArr? {
      if payload.JObj? {
        DeleteOther(payload.fields, "instructions", "input");
      }
      return;
    }
    var items := input.value.items;
    ghost var base := payload.fields - {"instructions"};
    assert "input" in base && base["input"] == JArr(items) by {
      assert ["input"][1..] == [];
    }
    assert PartlyRewritten(items, 0) == items by {
      assert items[..0] == [] && items[0..] == items;
    }
    assert out == JObj(base["input" := JArr(PartlyRewritten(items, 0))]);
    for i := 0 to |items|
      invariant out == JObj(base["input" := JArr(PartlyRewritten(items, i))])
    {
      PartlyRewrittenStep(items, i);
      if !EqualFold(TextOr(Get(items[i], ["role"])), "system") {
        continue;
      }
      // input.<i>.role := "user"
      var arr := out.fields["input"].items;
      var next := JArr(arr[i := JObj(items[i].fields["role" := JStr("user")])]);
      ReplaceTwice(base, "input", JArr(arr), next);
      out := JObj(out.fields["input" := next]);
    }
    assert PartlyRewritten(items, |items|) == RewriteSystemRoles(items);
    InputReplaced(payload.fields, JArr(RewriteSystemRoles(items)));
  }

  /** The `input` array with its first `i` elements rewritten. */
  function PartlyRewritten(items: seq<Json>, i: nat): (r: seq<Json>)
    requires i <= |items|
    ensures |r| == |items|
    ensures forall k :: 0 <= k < |items| ==> r[k] == if k < i then RewriteRole(items[k]) else items[k]
  {
    RewriteSystemRoles(items[..i]) + items[i..]
  }

  lemma PartlyRewrittenStep(items: seq<Json>, i: nat)
    requires i < |items|
    ensures !IsSystemRole(items[i]) ==> PartlyRewritten(items, i + 1) == PartlyRewritten(items, i)
    ensures IsSystemRole(items[i]) ==>
              && items[i].JObj?
              && PartlyRewritten(items, i + 1) == PartlyRewritten(items, i)[i := JObj(items[i].fields["role" := JStr("user")])]
  {
    assert PartlyRewritten(items, i + 1) == PartlyRewritten(items, i)[i := RewriteRole(items[i])];
  }

  lemma ReplaceTwice(m: map<string, Json>, k: string, a: Json, b: Json)
    ensures m[k := a][k := b] == m[k := b]
  {
  }

  /** Deleting one key keeps another key's lookup and every other field. */
  lemma DeleteOther(m: map<string, Json>, key: string, other: string)
    requires key != other
    ensures Get(Delete(JObj(m), key), [other]) == Get(JObj(m), [other])
    ensures AgreeOutside(m - {key}, m, {key, other})
  {
  }

  /** Dropping `instructions` and replacing `input` agrees with the payload elsewhere, and reads back. */
  lemma InputReplaced(m: map<string, Json>, v: Json)
    ensures var r := (m - {"instructions"})["input" := v];
            && AgreeOutside(r, m, {"instructions", "input"})
            && Get(JObj(r), ["input"]) == Some(v)
  {
    assert ["input"][1..] == [];
  }

  // ---------------------------------------------------------------------------
  // Command settings

  /** The default tools list: one web-search tool. */
  const WebSearchTools := JArr([JObj(map["type" := JStr("web_search")])])

  /** `tools` is absent, not an array, or an empty array. */
  predicate LacksTools(tools: Option<Json>) {
    tools.None? || !tools.value.JArr? || |tools.value.items| == 0
  }

  /** Setting one field of `reasoning` keeps the other top-level keys and every other reasoning field. */
  lemma SetReasoningField(m: map<string, Json>, key: string, v: Json)
    ensures var r := SetField(m, ["reasoning", key], v);
            && Get(JObj(r), ["reasoning", key]) == Some(v)
            && (forall other :: other != key ==> Get(JObj(r), ["reasoning", other]) == Get(JObj(m), ["reasoning", other]))
            && AgreeOutside(r, m, {"reasoning"})
  {
    forall other | other != key
      ensures Get(JObj(SetField(m, ["reasoning", key], v)), ["reasoning", other]) == Get(JObj(m), ["reasoning", other])
    {
      SetFieldKeepsSiblings(m, "reasoning", key, other, v);
    }
  }

  /** Agreement outside some keys, read at one key. */
  lemma AgreeAt(a: map<string, Json>, b: map<string, Json>, keys: set<string>, k: string)
    requires AgreeOutside(a, b, keys) && k !in keys
    ensures k in a <==> k in b
    ensures k in a ==> a[k] == b[k]
  {
    assert k in a.Keys ==> k in a.Keys - keys;
    assert k in b.Keys ==> k in b.Keys - keys;
  }

  /** Agreement outside keys composes, widening the keys. */
  lemma AgreeTrans(a: map<string, Json>, b: map<string, Json>, c: map<string, Json>, k1: set<string>, k2: set<string>)
    requires AgreeOutside(a, b, k1) && AgreeOutside(b, c, k2)
    ensures AgreeOutside(a, c, k1 + k2)
  {
    forall k | k !in k1 + k2
      ensures (k in a <==> k in c) && (k in a ==> a[k] == c[k])
    {
      AgreeAt(a, b, k1, k);
      AgreeAt(b, c, k2, k);
    }
  }

  /** A one-step lookup reads the field itself. */
  lemma TopLevel(m: map<string, Json>, key: string)
    ensures Get(JObj(m), [key]) == if key in m then Some(m[key]) else None
  {
    assert [key][1..] == [];
  }

  /** A two-step lookup under `reasoning` only depends on the `reasoning` key. */
  lemma ReasoningLookupLocal(a: map<string, Json>, b: map<string, Json>, key: string)
    requires ("reasoning" in a <==> "reasoning" in b) && ("reasoning" in a ==> a["reasoning"] == b["reasoning"])
    ensures Get(JObj(a), ["reasoning", key]) == Get(JObj(b), ["reasoning", key])
  {
    GetTwoLevels(a, "reasoning", key);
    GetTwoLevels(b, "reasoning", key);
  }

  /** The effort and summary patches: each written exactly when configured, nothing else touched. */
  ghost predicate ReasoningPatched(payload: Json, mid: Json, s: Settings) {
    && (!payload.JObj? || (s.reasoningEffort == "" && s.reasoningSummary == "") ==> mid == payload)
    && (payload.JObj? ==>
          && mid.JObj?
          && AgreeOutside(mid.fields, payload.fields, {"reasoning"})
          && Get(mid, ["reasoning", "effort"]) ==
               (if s.reasoningEffort != "" then Some(JStr(s.reasoningEffort)) else Get(payload, ["reasoning", "effort"]))
          && Get(mid, ["reasoning", "summary"]) ==
               (if s.reasoningSummary != "" then Some(JStr(s.reasoningSummary)) else Get(payload, ["reasoning", "summary"]))
          && ReasoningSiblingsKept(payload, mid))
  }

  /** Every field of `reasoning` other than `effort` and `summary` reads the same in both. */
  ghost predicate ReasoningSiblingsKept(before: Json, after: Json) {
    forall k :: k != "effort" && k != "summary" ==> Get(after, ["reasoning", k]) == Get(before, ["reasoning", k])
  }

  /** The compatibility stage: `ApplyCompatibilityMode`'s promise when on, no change when off. */
  predicate CompatApplied(before: Json, after: Json, on: bool) {
    if !on || !before.JObj? then after == before
    else
      && after.JObj? && "instructions" !in after.fields
      && AgreeOutside(after.fields, before.fields, {"instructions", "input"})
      && Get(after, ["input"]) == RewrittenInput(Get(before, ["input"]))
  }

  /** The web-search stage: the default tools replace a missing or empty list when on. */
  predicate ToolsApplied(before: Json, after: Json, on: bool) {
    if on && before.JObj? && LacksTools(Get(before, ["tools"])) then after == JObj(before.fields["tools" := WebSearchTools])
    else after == before
  }

  /** The stages keep every key they do not name. */
  lemma StagesFrame(payload: Json, mid: Json, compat: Json, out: Json, s: Settings)
    requires payload.JObj?
    requires ReasoningPatched(payload, mid, s)
    requires CompatApplied(mid, compat, s.compatibilityMode)
    requires ToolsApplied(compat, out, s.enableWebSearch)
    ensures out.JObj? && AgreeOutside(out.fields, payload.fields, {"reasoning", "instructions", "input", "tools"})
    ensures AgreeOutside(out.fields, mid.fields, {"tools", "instructions", "input"})
  {
    assert AgreeOutside(out.fields, compat.fields, {"tools"});
    assert AgreeOutside(compat.fields, mid.fields, {"instructions", "input"});
    AgreeTrans(out.fields, compat.fields, mid.fields, {"tools"}, {"instructions", "input"});
    assert {"tools"} + {"instructions", "input"} == {"tools", "instructions", "input"};
    AgreeTrans(out.fields, mid.fields, payload.fields, {"tools", "instructions", "input"}, {"reasoning"});
    assert {"tools", "instructions", "input"} + {"reasoning"} == {"reasoning", "instructions", "input", "tools"};
  }

  /** Only the web-search stage touches `tools`. */
  lemma StagesTools(payload: Json, mid: Json, compat: Json, out: Json, s: Settings)
    requires payload.JObj?
    requires ReasoningPatched(payload, mid, s)
    requires CompatApplied(mid, compat, s.compatibilityMode)
    requires ToolsApplied(compat, out, s.enableWebSearch)
    ensures Get(out, ["tools"]) == (if s.enableWebSearch && LacksTools(Get(payload, ["tools"])) then Some(WebSearchTools)
                                    else Get(payload, ["tools"]))
  {
    AgreeAt(compat.fields, mid.fields, {"instructions", "input"}, "tools");
    AgreeAt(mid.fields, payload.fields, {"reasoning"}, "tools");
    TopLevel(payload.fields, "tools");
    TopLevel(mid.fields, "tools");
    TopLevel(compat.fields, "tools");
    TopLevel(out.fields, "tools");
  }

  /** Only the compatibility stage touches `instructions` and `input`. */
  lemma StagesCompat(payload: Json, mid: Json, compat: Json, out: Json, s: Settings)
    requires payload.JObj?
    requires ReasoningPatched(payload, mid, s)
    requires CompatApplied(mid, compat, s.compatibilityMode)
    requires ToolsApplied(compat, out, s.enableWebSearch)
    ensures Get(out, ["instructions"]) == (if s.compatibilityMode then None else Get(payload, ["instructions"]))
    ensures Get(out, ["input"]) == (if s.compatibilityMode then RewrittenInput(Get(payload, ["input"])) else Get(payload, ["input"]))
  {
    AgreeAt(mid.fields, payload.fields, {"reasoning"}, "instructions");
    AgreeAt(mid.fields, payload.fields, {"reasoning"}, "input");
    assert AgreeOutside(out.fields, compat.fields, {"tools"});
    AgreeAt(out.fields, compat.fields, {"tools"}, "instructions");
    AgreeAt(out.fields, compat.fields, {"tools"}, "input");
    TopLevel(payload.fields, "instructions");
    TopLevel(mid.fields, "instructions");
    TopLevel(compat.fields, "instructions");
    TopLevel(out.fields, "instructions");
    TopLevel(payload.fields, "input");
    TopLevel(mid.fields, "input");
    TopLevel(compat.fields, "input");
    TopLevel(out.fields, "input");
  }

  /** Only the reasoning stage touches `reasoning`. */
  lemma StagesReasoning(payload: Json, mid: Json, compat: Json, out: Json, s: Settings)
    requires payload.JObj?
    requires ReasoningPatched(payload, mid, s)
    requires CompatApplied(mid, compat, s.compatibilityMode)
    requires ToolsApplied(compat, out, s.enableWebSearch)
    ensures forall k :: Get(out, ["reasoning", k]) == Get(mid, ["reasoning", k])
  {
    StagesFrame(payload, mid, compat, out, s);
    AgreeAt(out.fields, mid.fields, {"tools", "instructions", "input"}, "reasoning");
    forall k
      ensures Get(out, ["reasoning", k]) == Get(mid, ["reasoning", k])
    {
      ReasoningLookupLocal(out.fields, mid.fields, k);
    }
  }

  /**
   * applyCodexCommandSettings: `reasoning.effort` and `reasoning.summary`
   * are written exactly when configured; compatibility mode removes
   * `instructions` and rewrites system roles in `input`; web search installs
   * the default tools only when the payload has no non-empty tools array.
   * Every other top-level key is kept, and a payload that is not an object,
   * or settings that ask for nothing, leave the payload as it is.
   */
  method ApplyCommandSettings(payload: Json, s: Settings) returns (out: Json)
    ensures !payload.JObj? || NoPatches(s) ==> out == payload
    ensures payload.JObj? ==> out.JObj?
    ensures payload.JObj? ==>
              Get(out, ["reasoning", "effort"]) ==
                (if s.reasoningEffort != "" then Some(JStr(s.reasoningEffort)) else Get(payload, ["reasoning", "effort"]))
    ensures payload.JObj? ==>
              Get(out, ["reasoning", "summary"]) ==
                (if s.reasoningSummary != "" then Some(JStr(s.reasoningSummary)) else Get(payload, ["reasoning", "summary"]))
    ensures payload.JObj? ==>
              Get(out, ["instructions"]) == (if s.compatibilityMode then None else Get(payload, ["instructions"]))
    ensures payload.JObj? ==>
              Get(out, ["input"]) == (if s.compatibilityMode then RewrittenInput(Get(payload, ["input"])) else Get(payload, ["input"]))
    ensures payload.JObj? ==>
              Get(out, ["tools"]) == (if s.enableWebSearch && LacksTools(Get(payload, ["tools"])) then Some(WebSearchTools)
                                      else Get(payload, ["tools"]))
    ensures payload.JObj? ==> ReasoningSiblingsKept(payload, out)
    ensures payload.JObj? ==> AgreeOutside(out.fields, payload.fields, {"reasoning", "instructions", "input", "tools"})
    ensures payload.JObj? && s.reasoningEffort == "" && s.reasoningSummary == "" ==>
              AgreeOutside(out.fields, payload.fields, {"instructions", "input", "tools"})
  {
    out := PatchReasoning(payload, s);
    ghost var mid := out;
    if s.compatibilityMode {
      out := ApplyCompatibilityMode(out);
    }
    assert CompatApplied(mid, out, s.compatibilityMode);
    ghost var compat := out;
    if s.enableWebSearch {
      var tools := Get(out, ["tools"]);
      if !tools.Some? || !tools.value.JArr? || |tools.value.items| == 0 {
        var updated := Set(out, ["tools"], WebSearchTools);
        if updated.Some? {
          out := updated.value;
        }
      }
    }
    assert ToolsApplied(compat, out, s.enableWebSearch);
    if payload.JObj? {
      StagesFrame(payload, mid, compat, out, s);
      StagesTools(payload, mid, compat, out, s);
      StagesCompat(payload, mid, compat, out, s);
      StagesReasoning(payload, mid, compat, out, s);
      if s.reasoningEffort == "" && s.reasoningSummary == "" {
        assert mid == payload;
        assert {"tools", "instructions", "input"} == {"instructions", "input", "tools"};
      }
    }
  }

  /** The first two steps of applyCodexCommandSettings: `reasoning.effort`, then `reasoning.summary`. */
  method PatchReasoning(payload: Json, s: Settings) returns (out: Json)
    ensures ReasoningPatched(payload, out, s)
  {
    out := payload;
    if s.reasoningEffort != "" {
      var updated := Set(out, ["reasoning", "effort"], JStr(s.reasoningEffort));
      if updated.Some? {
        SetReasoningField(out.fields, "effort", JStr(s.reasoningEffort));
        out := updated.value;
      }
    }
    ghost var afterEffort := out;
    if s.reasoningSummary != "" {
      var updated := Set(out, ["reasoning", "summary"], JStr(s.reasoningSummary));
      if updated.Some? {
        SetReasoningField(out.fields, "summary", JStr(s.reasoningSummary));
        AgreeTrans(updated.value.fields, afterEffort.fields, payload.fields, {"reasoning"}, {"reasoning"});
        assert {"reasoning"} + {"reasoning"} == {"reasoning"};
        out := updated.value;
      }
    }
  }

  // ---------------------------------------------------------------------------
  // Annotation of the original request

  const VerboseField := "verbose"
  const VerboseObfuscationField := "verbose_obfuscation"
  const CompatibilityModeField := "compatibility_mode"

  /** The annotation object: the mode text always, each switch only when it is on. */
  function AnnotationPayload(s: Settings): (r: Json)
    ensures r.JObj? && CompatField in r.fields && r.fields[CompatField] == JStr(s.reasoningCompat)
    ensures VerboseField in r.fields <==> s.verbose
    ensures VerboseObfuscationField in r.fields <==> s.verboseObfuscation
    ensures CompatibilityModeField in r.fields <==> s.compatibilityMode
    ensures forall k :: k in r.fields && k != CompatField ==> r.fields[k] == JBool(true)
    ensures r.fields.Keys <= {CompatField, VerboseField, VerboseObfuscationField, CompatibilityModeField}
  {
    var m := map[CompatField := JStr(s.reasoningCompat)];
    var m := if s.verbose then m[VerboseField := JBool(true)] else m;
    var m := if s.verboseObfuscation then m[VerboseObfuscationField := JBool(true)] else m;
    var m := if s.compatibilityMode then m[CompatibilityModeField := JBool(true)] else m;
    JObj(m)
  }

  /**
   * annotateCodexOriginalRequest: an empty or invalid body is returned as
   * it is; otherwise the annotation object replaces `__codex_settings`,
   * which is the only key that changes. A document whose root is not an
   * object cannot take the key and is returned as it is.
   */
  function Annotate(original: RawDoc, s: Settings): (r: RawDoc)
    ensures !original.Parsed? || !original.value.JObj? ==> r == original
    ensures original.Parsed? && original.value.JObj? ==>
              && r.Parsed? && r.value.JObj?
              && r.value.fields == original.value.fields[AnnotationKey := AnnotationPayload(s)]
  {
    match original
    case Parsed(j) =>
      var updated := Set(j, [AnnotationKey], AnnotationPayload(s));
      if updated.Some? then Parsed(updated.value) else original
    case _ => original
  }

  /** The annotated request resolves to the mode named in the settings, whatever it held before. */
  lemma AnnotateResolveRoundTrip(fields: map<string, Json>, s: Settings)
    ensures Resolve(Annotate(Parsed(JObj(fields)), s)) == Normalize(s.reasoningCompat)
  {
    var r := Annotate(Parsed(JObj(fields)), s);
    var p := AnnotationPayload(s);
    assert r.value.fields[AnnotationKey] == p;
    GetTwoLevels(r.value.fields, AnnotationKey, CompatField);
    assert GetDoc(r, [AnnotationKey, CompatField]) == Some(JStr(s.reasoningCompat));
    assert Text(JStr(s.reasoningCompat)) == s.reasoningCompat;
  }

  /** Annotating with a mode's own name and resolving gives back exactly that mode. */
  lemma AnnotateModeRoundTrip(fields: map<string, Json>, s: Settings, m: Compat)
    requires s.reasoningCompat == m.Name()
    ensures Resolve(Annotate(Parsed(JObj(fields)), s)) == m
  {
    AnnotateResolveRoundTrip(fields, s);
    NormalizeName(m);
  }

  /** Annotating again replaces the earlier annotation: the last settings win. */
  lemma AnnotateLastWins(original: RawDoc, s1: Settings, s2: Settings)
    ensures Annotate(Annotate(original, s1), s2) == Annotate(original, s2)
  {
    if original.Parsed? && original.value.JObj? {
      var m := original.value.fields;
      assert m[AnnotationKey := AnnotationPayload(s1)][AnnotationKey := AnnotationPayload(s2)]
          == m[AnnotationKey := AnnotationPayload(s2)];
    }
  }

  /** The switches appear in the annotation exactly when they are on, always as true. */
  lemma AnnotationSwitches(fields: map<string, Json>, s: Settings)
    ensures var r := Annotate(Parsed(JObj(fields)), s);
            && GetDoc(r, [AnnotationKey, VerboseField]) == (if s.verbose then Some(JBool(true)) else None)
            && GetDoc(r, [AnnotationKey, VerboseObfuscationField]) == (if s.verboseObfuscation then Some(JBool(true)) else None)
            && GetDoc(r, [AnnotationKey, CompatibilityModeField]) == (if s.compatibilityMode then Some(JBool(true)) else None)
  {
    var r := Annotate(Parsed(JObj(fields)), s);
    GetTwoLevels(r.value.fields, AnnotationKey, VerboseField);
    GetTwoLevels(r.value.fields, AnnotationKey, VerboseObfuscationField);
    GetTwoLevels(r.value.fields, AnnotationKey, CompatibilityModeField);
  }

  // ---------------------------------------------------------------------------
  // Reasoning-effort suffix of a model name

  const Efforts: seq<string> := ["minimal", "low", "medium", "high", "xhigh"]

  datatype Split = Split(base: string, effort: string, ok: bool)

  const NoSplit := Split("", "", false)

  /** The dash and underscore suffixes in the order they are tried: each effort with "-", then with "_". */
  function SuffixAt(c: nat): (r: string)
    requires c < 2 * |Efforts|
    ensures |r| == |Efforts[c / 2]| + 1
  {
    [SeparatorAt(c)] + Efforts[c / 2]
  }

  function SeparatorAt(c: nat): char {
    if c % 2 == 0 then '-' else '_'
  }

  /** The first suffix, from position `c` on, that the text ends with. */
  function FirstSuffix(normalized: string, c: nat): (r: Option<nat>)
    requires c <= 2 * |Efforts|
    ensures r.Some? ==> c <= r.value < 2 * |Efforts| && HasSuffix(normalized, SuffixAt(r.value))
    ensures r.Some? ==> forall d :: c <= d < r.value ==> !HasSuffix(normalized, SuffixAt(d))
    ensures r.None? ==> forall d :: c <= d < 2 * |Efforts| ==> !HasSuffix(normalized, SuffixAt(d))
    decreases 2 * |Efforts| - c
  {
    if c == 2 * |Efforts| then None
    else if HasSuffix(normalized, SuffixAt(c)) then Some(c)
    else FirstSuffix(normalized, c + 1)
  }

  /**
   * splitCodexReasoningSuffix. The model name is trimmed and matched in lower
   * case: first a ":effort" after the last colon (at a position past the
   * first), then "-effort" or "_effort" in the order of `SuffixAt`. The base
   * is cut from the trimmed name, so it keeps its casing; an empty base is
   * no match.
   */
  function SplitReasoningSuffix(model: string): (r: Split)
    ensures IsBlank(model) ==> !r.ok
    ensures r.ok ==> r.effort in Efforts && r.base != [] && IsTrimmed(r.base)
    ensures !r.ok ==> r == NoSplit
  {
    var trimmed := TrimSpace(model);
    if trimmed == [] then NoSplit else SplitTrimmed(trimmed)
  }

  /** The split of a non-blank trimmed name: the colon form first, then the separator forms. */
  function SplitTrimmed(trimmed: string): (r: Split)
    requires trimmed != [] && IsTrimmed(trimmed)
    ensures r.ok ==> r.effort in Efforts && r.base != [] && IsTrimmed(r.base)
    ensures !r.ok ==> r == NoSplit
  {
    var normalized := ToLower(trimmed);
    var idx := ColonAt(normalized);
    if idx > 0 then
      TrimSpaceKeepsFirst(trimmed[..idx]);
      Split(TrimSpace(trimmed[..idx]), TrimSpace(normalized[idx + 1..]), true)
    else
      SeparatorSplit(trimmed, FirstSuffix(normalized, 0))
  }

  /** Where the colon form applies: the last colon, past the first position, followed by an effort; -1 otherwise. */
  function ColonAt(normalized: string): (r: int)
    ensures r == -1 || (0 < r < |normalized| && TrimSpace(normalized[r + 1..]) in Efforts)
  {
    var idx := LastIndexOf(normalized, ':');
    if idx > 0 && TrimSpace(normalized[idx + 1..]) in Efforts then idx else -1
  }

  /** The separator form, given the first candidate suffix the lower-cased name ends with. */
  function SeparatorSplit(trimmed: string, found: Option<nat>): (r: Split)
    requires found.Some? ==> found.value < 2 * |Efforts| && |SuffixAt(found.value)| <= |trimmed|
    ensures r.ok ==> r.effort in Efforts && r.base != [] && IsTrimmed(r.base)
    ensures !r.ok ==> r == NoSplit
  {
    match found
    case None => NoSplit
    case Some(c) =>
      var base := TrimSpace(trimmed[..|trimmed| - |SuffixAt(c)|]);
      if base == [] then NoSplit else Split(base, Efforts[c / 2], true)
  }

  /** A non-empty run of lower-case ASCII letters. */
  predicate IsWord(s: string) {
    s != [] && forall i :: 0 <= i < |s| ==> 'a' <= s[i] <= 'z'
  }

  /** The effort levels are distinct words. */
  lemma EffortsAreWords()
    ensures forall i :: 0 <= i < |Efforts| ==> IsWord(Efforts[i])
    ensures forall i, j :: 0 <= i < j < |Efforts| ==> Efforts[i] != Efforts[j]
  {
    assert IsWord("minimal") && IsWord("low") && IsWord("medium") && IsWord("high") && IsWord("xhigh");
  }

  /** A word is already lower case and already trimmed. */
  lemma WordIsPlain(w: string)
    requires IsWord(w)
    ensures ToLower(w) == w && IsTrimmed(w) && ':' !in w
  {
    ToLowerOfLower(w);
  }

  /** Of two texts with the same ending, the shorter ending is an ending of the longer. */
  lemma SuffixOfSuffix(t: string, a: string, b: string)
    requires HasSuffix(t, a) && HasSuffix(t, b) && |b| <= |a|
    ensures HasSuffix(a, b)
  {
    assert a[|a| - |b|..] == t[|t| - |b|..];
  }

  /** A separator followed by a word ends another only when both are the same. */
  lemma TaggedWordsNest(s1: char, e1: string, s2: char, e2: string)
    requires !('a' <= s1 <= 'z') && IsWord(e1) && IsWord(e2)
    requires HasSuffix([s2] + e2, [s1] + e1)
    ensures s1 == s2 && e1 == e2
  {
    var a := [s2] + e2;
    var b := [s1] + e1;
    assert b[0] == a[|a| - |b|];
    if |e1| < |e2| {
      assert false;
    } else {
      assert a == b;
      assert a[1..] == e2 && b[1..] == e1;
    }
  }

  /** A text ending in one candidate suffix does not end in any candidate tried before it. */
  lemma EarlierSuffixesMiss(x: string, c: nat, d: nat)
    requires d < c < 2 * |Efforts|
    ensures !HasSuffix(x + SuffixAt(c), SuffixAt(d))
  {
    EffortsAreWords();
    var t := x + SuffixAt(c);
    assert HasSuffix(t, SuffixAt(c));
    if HasSuffix(t, SuffixAt(d)) {
      if |SuffixAt(d)| <= |SuffixAt(c)| {
        SuffixOfSuffix(t, SuffixAt(c), SuffixAt(d));
        TaggedWordsNest(SeparatorAt(d), Efforts[d / 2], SeparatorAt(c), Efforts[c / 2]);
      } else {
        SuffixOfSuffix(t, SuffixAt(d), SuffixAt(c));
        TaggedWordsNest(SeparatorAt(c), Efforts[c / 2], SeparatorAt(d), Efforts[d / 2]);
      }
    }
  }

  /** Lower-casing never produces a colon from anything else. */
  lemma NoColonAfterLower(s: string)
    requires ':' !in s
    ensures ':' !in ToLower(s)
  {
  }

  /** With a word after the only colon, the colon form applies at that colon. */
  lemma ColonAtWord(lowBase: string, e: string)
    requires lowBase != [] && ':' !in lowBase && IsWord(e) && e in Efforts
    ensures ColonAt(lowBase + ":" + e) == |lowBase|
  {
    WordIsPlain(e);
    var normalized := lowBase + ":" + e;
    assert normalized[|lowBase|] == ':';
    assert forall i :: |lowBase| < i < |normalized| ==> normalized[i] == e[i - |lowBase| - 1];
    assert forall i :: 0 <= i < |lowBase| ==> normalized[i] == lowBase[i];
    assert LastIndexOf(normalized, ':') == |lowBase|;
    assert normalized[|lowBase| + 1..] == e;
    TrimSpaceOfTrimmed(e);
  }

  /** Without a colon the colon form never applies. */
  lemma ColonAtNone(normalized: string)
    requires ':' !in normalized
    ensures ColonAt(normalized) == -1
  {
    assert LastIndexOf(normalized, ':') == -1;
  }

  /** The last colon of a base without colons, then a lower-case effort. */
  lemma ColonSuffixShape(base: string, word: string)
    requires base != [] && ':' !in base && ToLower(word) in Efforts
    ensures ToLower(base + ":" + word) == ToLower(base) + ":" + ToLower(word)
    ensures IsWord(ToLower(word)) && word != [] && !IsSpace(word[|word| - 1])
  {
    EffortsAreWords();
    var e := ToLower(word);
    assert IsWord(e);
    assert e[|e| - 1] == LowerChar(word[|word| - 1]);
    ToLowerConcat(base, ":");
    ToLowerConcat(base + ":", word);
  }

  lemma BeforeColon(base: string, word: string)
    ensures (base + ":" + word)[..|base|] == base
  {
    assert base + ":" + word == base + (":" + word);
  }

  /**
   * "<base>:<effort>" splits at the colon, whatever the effort's casing; the
   * base keeps its own casing. A base without a colon is the usual case; a
   * base that itself ends in "-<effort>" still splits at the colon.
   */
  lemma SplitColonSuffix(base: string, word: string)
    requires base != [] && IsTrimmed(base) && ':' !in base && ToLower(word) in Efforts
    ensures SplitReasoningSuffix(base + ":" + word) == Split(base, ToLower(word), true)
  {
    ColonSuffixShape(base, word);
    var e := ToLower(word);
    var model := base + ":" + word;
    assert model[|model| - 1] == word[|word| - 1];
    TrimSpaceOfTrimmed(model);
    NoColonAfterLower(base);
    ColonAtWord(ToLower(base), e);
    var normalized := ToLower(model);
    assert ColonAt(normalized) == |base|;
    assert normalized[|base| + 1..] == e;
    WordIsPlain(e);
    TrimSpaceOfTrimmed(e);
    BeforeColon(base, word);
    TrimSpaceOfTrimmed(base);
    assert SplitTrimmed(model) == Split(base, e, true);
  }

  /** The first candidate suffix of a name ending in candidate `c` is `c`. */
  lemma FirstSuffixOf(x: string, c: nat)
    requires c < 2 * |Efforts|
    ensures FirstSuffix(x + SuffixAt(c), 0) == Some(c)
  {
    var t := x + SuffixAt(c);
    assert t[|t| - |SuffixAt(c)|..] == SuffixAt(c);
    forall d | 0 <= d < c
      ensures !HasSuffix(t, SuffixAt(d))
    {
      EarlierSuffixesMiss(x, c, d);
    }
  }

  /** A candidate suffix is lower case, has no colon and does not end in space. */
  lemma SuffixIsPlain(c: nat)
    requires c < 2 * |Efforts|
    ensures ToLower(SuffixAt(c)) == SuffixAt(c) && ':' !in SuffixAt(c)
    ensures !IsSpace(SuffixAt(c)[|SuffixAt(c)| - 1]) && !IsSpace(SuffixAt(c)[0])
  {
    EffortsAreWords();
    var e := Efforts[c / 2];
    WordIsPlain(e);
    ToLowerConcat([SeparatorAt(c)], e);
    assert SuffixAt(c)[|SuffixAt(c)| - 1] == e[|e| - 1];
  }

  /**
   * "<base>-<effort>" and "<base>_<effort>" split off the effort when the
   * base has no colon; the base keeps its own casing.
   */
  lemma SplitSeparatorSuffix(base: string, c: nat)
    requires base != [] && IsTrimmed(base) && ':' !in base && c < 2 * |Efforts|
    ensures SplitReasoningSuffix(base + SuffixAt(c)) == Split(base, Efforts[c / 2], true)
  {
    SuffixIsPlain(c);
    var model := base + SuffixAt(c);
    assert model[|model| - 1] == SuffixAt(c)[|SuffixAt(c)| - 1];
    TrimSpaceOfTrimmed(model);
    ToLowerConcat(base, SuffixAt(c));
    var normalized := ToLower(model);
    assert normalized == ToLower(base) + SuffixAt(c);
    NoColonAfterLower(base);
    ColonAtNone(normalized);
    FirstSuffixOf(ToLower(base), c);
    assert model[..|model| - |SuffixAt(c)|] == base;
    TrimSpaceOfTrimmed(base);
  }

  /** A candidate suffix with nothing before it is not a split: the base would be empty. */
  lemma BareSuffixDoesNotSplit(c: nat)
    requires c < 2 * |Efforts|
    ensures !SplitReasoningSuffix(SuffixAt(c)).ok
  {
    SuffixIsPlain(c);
    var model := SuffixAt(c);
    TrimSpaceOfTrimmed(model);
    ColonAtNone(model);
    FirstSuffixOf([], c);
    assert [] + model == model;
    assert model[..0] == [];
  }

  /**
   * Matching is case-insensitive: two names equal up to ASCII case split
   * alike, into the same effort and bases equal up to case.
   */
  lemma SplitIgnoresCase(a: string, b: string)
    requires EqualFold(a, b)
    ensures SplitReasoningSuffix(a).ok == SplitReasoningSuffix(b).ok
    ensures SplitReasoningSuffix(a).effort == SplitReasoningSuffix(b).effort
    ensures EqualFold(SplitReasoningSuffix(a).base, SplitReasoningSuffix(b).base)
  {
    var ta, tb := TrimSpace(a), TrimSpace(b);
    TrimSpaceToLower(a);
    TrimSpaceToLower(b);
    assert ToLower(ta) == ToLower(tb);
    assert |ta| == |tb|;
    if ta != [] {
      SplitTrimmedIgnoresCase(ta, tb);
    }
  }

  lemma SplitTrimmedIgnoresCase(ta: string, tb: string)
    requires ta != [] && IsTrimmed(ta) && tb != [] && IsTrimmed(tb) && ToLower(ta) == ToLower(tb)
    ensures SplitTrimmed(ta).ok == SplitTrimmed(tb).ok
    ensures SplitTrimmed(ta).effort == SplitTrimmed(tb).effort
    ensures EqualFold(SplitTrimmed(ta).base, SplitTrimmed(tb).base)
  {
    var normalized := ToLower(ta);
    assert |ta| == |normalized| == |tb|;
    var idx := ColonAt(normalized);
    if idx > 0 {
      BasesFold(ta, tb, idx);
    } else {
      SeparatorSplitIgnoresCase(ta, tb, FirstSuffix(normalized, 0));
    }
  }

  lemma SeparatorSplitIgnoresCase(ta: string, tb: string, found: Option<nat>)
    requires ToLower(ta) == ToLower(tb)
    requires found.Some? ==> found.value < 2 * |Efforts| && |SuffixAt(found.value)| <= |ta|
    ensures |ta| == |tb|
    ensures SeparatorSplit(ta, found).ok == SeparatorSplit(tb, found).ok
    ensures SeparatorSplit(ta, found).effort == SeparatorSplit(tb, found).effort
    ensures EqualFold(SeparatorSplit(ta, found).base, SeparatorSplit(tb, found).base)
  {
    assert |ta| == |ToLower(ta)| == |tb|;
    if found.Some? {
      BasesFold(ta, tb, |ta| - |SuffixAt(found.value)|);
    }
  }

  /** Cutting two texts equal up to case at the same place leaves trimmed bases equal up to case. */
  lemma BasesFold(ta: string, tb: string, k: nat)
    requires ToLower(ta) == ToLower(tb) && k <= |ta|
    ensures EqualFold(TrimSpace(ta[..k]), TrimSpace(tb[..k]))
    ensures TrimSpace(ta[..k]) == [] <==> TrimSpace(tb[..k]) == []
  {
    ToLowerSlice(ta, 0, k);
    ToLowerSlice(tb, 0, k);
    assert ta[0..k] == ta[..k] && tb[0..k] == tb[..k];
    TrimSpaceToLower(ta[..k]);
    TrimSpaceToLower(tb[..k]);
  }
}
