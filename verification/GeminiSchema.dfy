/** The Gemini tool-schema adapter: local references are inlined, definition maps and keywords the
    provider rejects are dropped. */
module GeminiSchema {
  import opened Prelude
  import opened Json
  import opened JsonPointer

  const MAX_REF_DEPTH: nat := 64
  const MAX_REF_EXPANSIONS: nat := 256

  /** What a keyword means to the adapter. */
  datatype Kind =
    | Ref
    | Definitions        // $defs, definitions
    | Properties
    | Items
    | AllOf
    | AnyOf
    | Enum
    | Const
    | Opaque             // default, example, examples
    | Additional         // additionalProperties
    | ItemBounds         // enforceItemBounds
    | Pattern            // patternProperties
    | Dependent          // dependentSchemas
    | Other

  function KindOf(key: string): Kind {
    if key == "$ref" then Ref
    else if key == "$defs" || key == "definitions" then Definitions
    else if key == "properties" then Properties
    else if key == "items" then Items
    else if key == "allOf" then AllOf
    else if key == "anyOf" then AnyOf
    else if key == "enum" then Enum
    else if key == "const" then Const
    else if key == "default" || key == "example" || key == "examples" then Opaque
    else if key == "additionalProperties" then Additional
    else if key == "enforceItemBounds" then ItemBounds
    else if key == "patternProperties" then Pattern
    else if key == "dependentSchemas" then Dependent
    else Other
  }

  function FindRef(fs: seq<Field>): Option<Json> {
    if fs == [] then None
    else if KindOf(fs[0].key) == Ref then Some(fs[0].value)
    else FindRef(fs[1..])
  }

  function DropRef(fs: seq<Field>): (r: seq<Field>)
    ensures FindRef(r) == None
  {
    if fs == [] then []
    else if KindOf(fs[0].key) == Ref then DropRef(fs[1..])
    else [fs[0]] + DropRef(fs[1..])
  }

  /** A reference and its siblings hold together. */
  function Conjoin(target: Json, siblings: seq<Field>): Json {
    if siblings == [] then target else Obj([Field("allOf", Arr([target, Obj(siblings)]))])
  }

  /** What a local reference names; the references of a schema are looked up in its root. */
  type Resolver = string -> Option<Json>

  function ResolverOf(root: Json): Resolver {
    ref => Resolve(root, ref)
  }

  // ---- inlining.  `None` is the fallback signal; the number is the running expansion count.

  function Inline(res: Resolver, s: Json, stack: seq<string>, count: nat): (r: Option<(Json, nat)>)
    requires count <= MAX_REF_EXPANSIONS
    ensures r.Some? ==> count <= r.value.1 <= MAX_REF_EXPANSIONS
    ensures r.Some? ==> (r.value.0.Obj? <==> s.Obj?)
    decreases MAX_REF_EXPANSIONS - count, Size(s), 1
  {
    if !s.Obj? then Some((s, count))
    else
      var ref := FindRef(s.fields);
      if ref.None? then
        var fs := InlineFields(res, s.fields, stack, count);
        if fs.None? then None else Some((Obj(fs.value.0), fs.value.1))
      else if !ref.value.Str? || ref.value.s in stack || |stack| >= MAX_REF_DEPTH || count >= MAX_REF_EXPANSIONS then
        None
      else
        var target := res(ref.value.s);
        if target.None? || !target.value.Obj? then None
        else
          var t := Inline(res, target.value, stack + [ref.value.s], count + 1);
          if t.None? then None
          else
            var fs := InlineFields(res, DropRef(s.fields), stack, t.value.1);
            if fs.None? then None else Some((Conjoin(t.value.0, fs.value.0), fs.value.1))
  }

  /** The members of a schema object without a reference. */
  function InlineFields(res: Resolver, fs: seq<Field>, stack: seq<string>, count: nat): (r: Option<(seq<Field>, nat)>)
    requires count <= MAX_REF_EXPANSIONS
    ensures r.Some? ==> count <= r.value.1 <= MAX_REF_EXPANSIONS
    decreases MAX_REF_EXPANSIONS - count, SizeFields(fs), 0
  {
    if fs == [] then Some(([], count))
    else
      var f := fs[0];
      var kind := KindOf(f.key);
      if kind == Definitions || kind == Pattern || kind == Dependent then InlineFields(res, fs[1..], stack, count)
      else
        var v := InlineValue(res, kind, f.value, stack, count);
        if v.None? then None
        else
          var rest := InlineFields(res, fs[1..], stack, v.value.1);
          if rest.None? then None
          else Some(([Field(f.key, v.value.0)] + rest.value.0, rest.value.1))
  }

  function InlineValue(res: Resolver, kind: Kind, v: Json, stack: seq<string>, count: nat): (r: Option<(Json, nat)>)
    requires count <= MAX_REF_EXPANSIONS
    ensures r.Some? ==> count <= r.value.1 <= MAX_REF_EXPANSIONS
    decreases MAX_REF_EXPANSIONS - count, Size(v), 2
  {
    if kind == Enum || kind == Const || kind == Opaque then Some((v, count))
    else if kind == Properties && v.Obj? then
      var m := InlineMap(res, v.fields, stack, count);
      if m.None? then None else Some((Obj(m.value.0), m.value.1))
    else if v.Obj? then Inline(res, v, stack, count)
    else if v.Arr? then
      var l := InlineList(res, v.items, stack, count);
      if l.None? then None else Some((Arr(l.value.0), l.value.1))
    else Some((v, count))
  }

  /** A map from parameter names to schemas: the names are not keywords. */
  function InlineMap(res: Resolver, fs: seq<Field>, stack: seq<string>, count: nat): (r: Option<(seq<Field>, nat)>)
    requires count <= MAX_REF_EXPANSIONS
    ensures r.Some? ==> count <= r.value.1 <= MAX_REF_EXPANSIONS
    decreases MAX_REF_EXPANSIONS - count, SizeFields(fs), 0
  {
    if fs == [] then Some(([], count))
    else
      var v := Inline(res, fs[0].value, stack, count);
      if v.None? then None
      else
        var rest := InlineMap(res, fs[1..], stack, v.value.1);
        if rest.None? then None
        else Some(([Field(fs[0].key, v.value.0)] + rest.value.0, rest.value.1))
  }

  function InlineList(res: Resolver, js: seq<Json>, stack: seq<string>, count: nat): (r: Option<(seq<Json>, nat)>)
    requires count <= MAX_REF_EXPANSIONS
    ensures r.Some? ==> count <= r.value.1 <= MAX_REF_EXPANSIONS
    decreases MAX_REF_EXPANSIONS - count, SizeItems(js), 0
  {
    if js == [] then Some(([], count))
    else
      var v := Inline(res, js[0], stack, count);
      if v.None? then None
      else
        var rest := InlineList(res, js[1..], stack, v.value.1);
        if rest.None? then None
        else Some(([v.value.0] + rest.value.0, rest.value.1))
  }

  // ---- the sanitizer applied to the inlined schema, or to the source when inlining gives up

  predicate AllStrings(js: seq<Json>) {
    forall i :: 0 <= i < |js| ==> js[i].Str?
  }

  predicate KeepsEnum(v: Json) {
    v.Arr? && AllStrings(v.items)
  }

  predicate Sanitized(kind: Kind, v: Json) {
    kind == Additional || kind == ItemBounds || (kind == Enum && !KeepsEnum(v))
  }

  function Legacy(s: Json): (r: Json)
    ensures r.Obj? <==> s.Obj?
    decreases Size(s), 1
  {
    if s.Obj? then Obj(LegacyFields(s.fields)) else s
  }

  function LegacyFields(fs: seq<Field>): seq<Field>
    decreases SizeFields(fs), 0
  {
    if fs == [] then []
    else
      var f := fs[0];
      if Sanitized(KindOf(f.key), f.value) then LegacyFields(fs[1..])
      else [Field(f.key, LegacyValue(KindOf(f.key), f.value))] + LegacyFields(fs[1..])
  }

  predicate SchemaMap(kind: Kind) {
    kind == Definitions || kind == Dependent || kind == Pattern || kind == Properties
  }

  function LegacyValue(kind: Kind, v: Json): Json
    decreases Size(v), 2
  {
    if kind == Enum || kind == Const || kind == Opaque then v
    else if SchemaMap(kind) && v.Obj? then Obj(LegacyMap(v.fields))
    else if v.Obj? then Legacy(v)
    else if v.Arr? then Arr(LegacyList(v.items))
    else v
  }

  function LegacyMap(fs: seq<Field>): seq<Field>
    decreases SizeFields(fs), 0
  {
    if fs == [] then [] else [Field(fs[0].key, Legacy(fs[0].value))] + LegacyMap(fs[1..])
  }

  function LegacyList(js: seq<Json>): seq<Json>
    decreases SizeItems(js), 0
  {
    if js == [] then [] else [Legacy(js[0])] + LegacyList(js[1..])
  }

  /** `_adapt_tool_schema_gemini`. */
  function Adapt(schema: Json): Json {
    if !schema.Obj? then schema
    else
      var inlined := Inline(ResolverOf(schema), schema, [], 0);
      Legacy(if inlined.Some? then inlined.value.0 else schema)
  }

  // ---- shape of the result

  /** At every schema position, none of the keywords `bad` refuses. */
  predicate Free(s: Json, bad: set<Kind>)
    decreases Size(s), 1
  {
    s.Obj? ==> FreeFields(s.fields, bad)
  }

  predicate FreeFields(fs: seq<Field>, bad: set<Kind>)
    decreases SizeFields(fs), 0
  {
    fs != [] ==> KindOf(fs[0].key) !in bad && FreeValue(KindOf(fs[0].key), fs[0].value, bad) && FreeFields(fs[1..], bad)
  }

  predicate FreeValue(kind: Kind, v: Json, bad: set<Kind>)
    decreases Size(v), 2
  {
    if kind == Enum || kind == Const || kind == Opaque then true
    else if kind == Properties && v.Obj? then FreeMap(v.fields, bad)
    else if v.Obj? then Free(v, bad)
    else v.Arr? ==> FreeList(v.items, bad)
  }

  predicate FreeMap(fs: seq<Field>, bad: set<Kind>)
    decreases SizeFields(fs), 0
  {
    fs != [] ==> Free(fs[0].value, bad) && FreeMap(fs[1..], bad)
  }

  predicate FreeList(js: seq<Json>, bad: set<Kind>)
    decreases SizeItems(js), 0
  {
    js != [] ==> Free(js[0], bad) && FreeList(js[1..], bad)
  }

  const InlineDrops: set<Kind> := {Ref, Definitions, Pattern, Dependent}
  const Rejected: set<Kind> := {Ref, Definitions, Pattern, Dependent, Additional, ItemBounds}
}
