/**
 * Restoring original tool names (buildReverseMapFromOriginalOpenAI,
 * codex_openai_response.go lines 473-502). The shortening map itself
 * (buildShortNameMap) is not part of this model: it is a parameter.
 */
module ToolNames {
  import opened JsonTree

  /** buildShortNameMap: declared names to original-name -> shortened-name. */
  type ShortNamer = seq<string> -> map<string, string>

  /** The name of one `tools` entry when it is a function tool with a `function.name`. */
  function DeclaredName(t: Json): (r: Option<string>)
    ensures r.Some? ==> Get(t, ["function", "name"]).Some? && r.value == Text(Get(t, ["function", "name"]).value)
    ensures r.Some? <==> TextOr(Get(t, ["type"])) == "function" && Get(t, ["function", "name"]).Some?
  {
    if TextOr(Get(t, ["type"])) == "function" && Get(t, ["function"]).Some? && Get(t, ["function", "name"]).Some?
    then Some(Text(Get(t, ["function", "name"]).value))
    else None
  }

  /** Names of the function tools among `tools`, in declaration order. */
  function NamesOf(tools: seq<Json>): (r: seq<string>)
    ensures |r| <= |tools|
    decreases |tools|
  {
    if tools == [] then []
    else
      var last := tools[|tools| - 1];
      NamesOf(tools[..|tools| - 1]) + (if DeclaredName(last).Some? then [DeclaredName(last).value] else [])
  }

  /** The declared function-tool names of the original request. */
  function FunctionToolNames(original: RawDoc): seq<string> {
    match GetDoc(original, ["tools"])
    case Some(JArr(tools)) => NamesOf(tools)
    case _ => []
  }

  /** The shortening map for the request; the shortener is not consulted when no name is declared. */
  function ShortNames(original: RawDoc, shorten: ShortNamer): map<string, string> {
    var names := FunctionToolNames(original);
    if names == [] then map[] else shorten(names)
  }

  /** No two original names share a shortened name. */
  predicate Injective(m: map<string, string>) {
    forall a, b :: a in m && b in m && m[a] == m[b] ==> a == b
  }

  /** The inverse of an injective map: shortened name -> original name. */
  ghost function Inverse(m: map<string, string>): (rev: map<string, string>)
    requires Injective(m)
    ensures rev.Keys == m.Values
    ensures forall s :: s in rev ==> rev[s] in m && m[rev[s]] == s
  {
    map s | s in m.Values :: var o :| o in m && m[o] == s; o
  }

  /** Looks a reported name up in the reverse map; unknown names pass through. */
  function Restore(rev: map<string, string>, name: string): (r: string)
    ensures name in rev ==> r == rev[name]
    ensures name !in rev ==> r == name
  {
    if name in rev then rev[name] else name
  }

  /** The reverse map turns every shortened name back into its original. */
  lemma RestoreInverts(m: map<string, string>, original: string)
    requires Injective(m) && original in m
    ensures Restore(Inverse(m), m[original]) == original
  {
    var rev := Inverse(m);
    assert m[original] in m.Values;
    assert m[rev[m[original]]] == m[original];
  }

  /** A name the shortener never produced is reported as it is. */
  lemma RestoreKeepsUnknown(m: map<string, string>, name: string)
    requires Injective(m) && name !in m.Values
    ensures Restore(Inverse(m), name) == name
  {
  }

  /**
   * buildReverseMapFromOriginalOpenAI: collects the function-tool names in
   * declaration order, shortens them, and inverts the result. Every shortened
   * name is a key, and each key leads back to an original whose shortened form
   * it is; when the shortener is injective this is exactly the inverse.
   */
  method BuildReverseMap(original: RawDoc, shorten: ShortNamer) returns (rev: map<string, string>)
    ensures rev.Keys == ShortNames(original, shorten).Values
    ensures forall s :: s in rev ==>
              rev[s] in ShortNames(original, shorten) && ShortNames(original, shorten)[rev[s]] == s
    ensures Injective(ShortNames(original, shorten)) ==> rev == Inverse(ShortNames(original, shorten))
  {
    var names := CollectFunctionToolNames(original);
    if |names| > 0 {
      rev := InvertNames(shorten(names));
    } else {
      rev := map[];
    }
    ghost var m := ShortNames(original, shorten);
    if Injective(m) {
      InverseUnique(m, rev);
    }
  }

  /** The loop over `tools`: the name of every function tool that has one, in order. */
  method CollectFunctionToolNames(original: RawDoc) returns (names: seq<string>)
    ensures names == FunctionToolNames(original)
  {
    names := [];
    var tools := GetDoc(original, ["tools"]);
    if tools.Some? && tools.value.JArr? && |tools.value.items| > 0 {
      var arr := tools.value.items;
      var i := 0;
      while i < |arr|
        invariant 0 <= i <= |arr|
        invariant names == NamesOf(arr[..i])
      {
        var t := arr[i];
        assert arr[..i + 1][..i] == arr[..i];
        if TextOr(Get(t, ["type"])) != "function" {
          i := i + 1;
          continue;
        }
        var fn := Get(t, ["function"]);
        if fn.None? {
          i := i + 1;
          continue;
        }
        var v := Get(t, ["function", "name"]);
        if v.Some? {
          names := names + [Text(v.value)];
        }
        i := i + 1;
      }
      assert arr[..|arr|] == arr;
    }
  }

  /** The loop over the shortening map: each shortened name keyed to an original it came from. */
  method InvertNames(m: map<string, string>) returns (rev: map<string, string>)
    ensures rev.Keys == m.Values
    ensures forall s :: s in rev ==> rev[s] in m && m[rev[s]] == s
  {
    rev := map[];
    var pending := m.Keys;
    while pending != {}
      invariant pending <= m.Keys
      invariant rev.Keys == set o | o in m.Keys - pending :: m[o]
      invariant forall s :: s in rev ==> rev[s] in m.Keys - pending && m[rev[s]] == s
      decreases pending
    {
      var orig :| orig in pending;
      rev := rev[m[orig] := orig];
      pending := pending - {orig};
    }
  }

  /** An injective map has exactly one map that sends each shortened name back. */
  lemma InverseUnique(m: map<string, string>, rev: map<string, string>)
    requires Injective(m)
    requires rev.Keys == m.Values
    requires forall s :: s in rev ==> rev[s] in m && m[rev[s]] == s
    ensures rev == Inverse(m)
  {
    var inv := Inverse(m);
    forall s | s in rev
      ensures rev[s] == inv[s]
    {
      assert m[rev[s]] == s == m[inv[s]];
    }
  }
}
