/** After a successful inlining, no schema position of the adapted schema holds a keyword the
    provider rejects. */
module GeminiShape {
  import opened Prelude
  import opened Json
  import opened GeminiSchema

  /** What a successful expansion of a reference is made of. */
  lemma InlineRef(res: Resolver, s: Json, stack: seq<string>, count: nat)
    returns (ref: string, target: Json, t: (Json, nat), fs: (seq<Field>, nat))
    requires count <= MAX_REF_EXPANSIONS && Inline(res, s, stack, count).Some? && s.Obj? && FindRef(s.fields).Some?
    ensures FindRef(s.fields) == Some(Str(ref)) && res(ref) == Some(target)
    ensures |stack| < MAX_REF_DEPTH && count < MAX_REF_EXPANSIONS && count + 1 <= t.1 <= MAX_REF_EXPANSIONS
    ensures Inline(res, target, stack + [ref], count + 1) == Some(t)
    ensures InlineFields(res, DropRef(s.fields), stack, t.1) == Some(fs)
    ensures Inline(res, s, stack, count) == Some((Conjoin(t.0, fs.0), fs.1))
  {
    ref := FindRef(s.fields).value.s;
    target := res(ref).value;
    t := Inline(res, target, stack + [ref], count + 1).value;
    fs := InlineFields(res, DropRef(s.fields), stack, t.1).value;
  }

  lemma InlinePlain(res: Resolver, s: Json, stack: seq<string>, count: nat) returns (fs: (seq<Field>, nat))
    requires count <= MAX_REF_EXPANSIONS && Inline(res, s, stack, count).Some? && s.Obj? && FindRef(s.fields).None?
    ensures InlineFields(res, s.fields, stack, count) == Some(fs)
    ensures Inline(res, s, stack, count) == Some((Obj(fs.0), fs.1))
  {
    fs := InlineFields(res, s.fields, stack, count).value;
  }

  lemma {:induction false} InlineIsFree(res: Resolver, s: Json, stack: seq<string>, count: nat, e: Json, c: nat)
    requires count <= MAX_REF_EXPANSIONS && Inline(res, s, stack, count) == Some((e, c))
    ensures Free(e, InlineDrops)
    decreases MAX_REF_EXPANSIONS - count, Size(s), 1
  {
    if s.Obj? {
      if FindRef(s.fields).None? {
        var fs := InlinePlain(res, s, stack, count);
        InlineFieldsFree(res, s.fields, stack, count, fs.0, fs.1);
      } else {
        InlineRefIsFree(res, s, stack, count, e, c);
      }
    }
  }

  lemma {:induction false} InlineRefIsFree(res: Resolver, s: Json, stack: seq<string>, count: nat, e: Json, c: nat)
    requires count <= MAX_REF_EXPANSIONS && Inline(res, s, stack, count) == Some((e, c))
    requires s.Obj? && FindRef(s.fields).Some?
    ensures Free(e, InlineDrops)
    decreases MAX_REF_EXPANSIONS - count, Size(s), 0
  {
    var ref, target, t, fs := InlineRef(res, s, stack, count);
    InlineIsFree(res, target, stack + [ref], count + 1, t.0, t.1);
    InlineFieldsFree(res, DropRef(s.fields), stack, t.1, fs.0, fs.1);
    ConjoinFree(t.0, fs.0, InlineDrops);
  }

  lemma ConjoinFree(t: Json, fs: seq<Field>, bad: set<Kind>)
    requires Free(t, bad) && FreeFields(fs, bad) && AllOf !in bad
    ensures Free(Conjoin(t, fs), bad)
  {
    if fs != [] {
      var both := [t, Obj(fs)];
      assert both[1..][1..] == [] && FreeList(both[1..][1..], bad);
      assert FreeList(both[1..], bad);
      var f := Field("allOf", Arr(both));
      assert KindOf(f.key) == AllOf && [f][1..] == [];
      assert FreeValue(AllOf, f.value, bad);
      assert FreeFields([f][1..], bad);
      assert FreeFields([f], bad);
    }
  }

  lemma {:induction false} InlineFieldsFree(res: Resolver, fs: seq<Field>, stack: seq<string>, count: nat,
                                           es: seq<Field>, c: nat)
    requires count <= MAX_REF_EXPANSIONS && InlineFields(res, fs, stack, count) == Some((es, c)) && FindRef(fs) == None
    ensures FreeFields(es, InlineDrops)
    decreases MAX_REF_EXPANSIONS - count, SizeFields(fs), 0
  {
    if fs != [] {
      var kind := KindOf(fs[0].key);
      if kind == Definitions || kind == Pattern || kind == Dependent {
        InlineFieldsFree(res, fs[1..], stack, count, es, c);
      } else {
        var v := InlineValue(res, kind, fs[0].value, stack, count).value;
        InlineValueFree(res, kind, fs[0].value, stack, count, v.0, v.1);
        InlineFieldsFree(res, fs[1..], stack, v.1, es[1..], c);
      }
    }
  }

  lemma {:induction false} InlineValueFree(res: Resolver, kind: Kind, v: Json, stack: seq<string>, count: nat,
                                          e: Json, c: nat)
    requires count <= MAX_REF_EXPANSIONS && InlineValue(res, kind, v, stack, count) == Some((e, c))
    ensures FreeValue(kind, e, InlineDrops)
    decreases MAX_REF_EXPANSIONS - count, Size(v), 2
  {
    if kind == Enum || kind == Const || kind == Opaque {
    } else if kind == Properties && v.Obj? {
      InlineMapFree(res, v.fields, stack, count, e.fields, c);
    } else if v.Obj? {
      InlineIsFree(res, v, stack, count, e, c);
    } else if v.Arr? {
      InlineListFree(res, v.items, stack, count, e.items, c);
    }
  }

  lemma {:induction false} InlineMapFree(res: Resolver, fs: seq<Field>, stack: seq<string>, count: nat,
                                        es: seq<Field>, c: nat)
    requires count <= MAX_REF_EXPANSIONS && InlineMap(res, fs, stack, count) == Some((es, c))
    ensures FreeMap(es, InlineDrops)
    decreases MAX_REF_EXPANSIONS - count, SizeFields(fs), 0
  {
    if fs != [] {
      var v := Inline(res, fs[0].value, stack, count).value;
      InlineIsFree(res, fs[0].value, stack, count, v.0, v.1);
      InlineMapFree(res, fs[1..], stack, v.1, es[1..], c);
    }
  }

  lemma {:induction false} InlineListFree(res: Resolver, js: seq<Json>, stack: seq<string>, count: nat,
                                         es: seq<Json>, c: nat)
    requires count <= MAX_REF_EXPANSIONS && InlineList(res, js, stack, count) == Some((es, c))
    ensures FreeList(es, InlineDrops)
    decreases MAX_REF_EXPANSIONS - count, SizeItems(js), 0
  {
    if js != [] {
      var v := Inline(res, js[0], stack, count).value;
      InlineIsFree(res, js[0], stack, count, v.0, v.1);
      InlineListFree(res, js[1..], stack, v.1, es[1..], c);
    }
  }

  lemma {:induction false} LegacyIsFree(s: Json)
    requires Free(s, InlineDrops)
    ensures Free(Legacy(s), Rejected)
    decreases Size(s), 1
  {
    if s.Obj? {
      LegacyFieldsFree(s.fields);
    }
  }

  lemma {:induction false} LegacyFieldsFree(fs: seq<Field>)
    requires FreeFields(fs, InlineDrops)
    ensures FreeFields(LegacyFields(fs), Rejected)
    decreases SizeFields(fs), 0
  {
    if fs != [] {
      LegacyFieldsFree(fs[1..]);
      var kind := KindOf(fs[0].key);
      if !Sanitized(kind, fs[0].value) {
        LegacyValueFree(kind, fs[0].value);
        var rest := LegacyFields(fs[1..]);
        assert ([Field(fs[0].key, LegacyValue(kind, fs[0].value))] + rest)[1..] == rest;
      }
    }
  }

  lemma {:induction false} LegacyValueFree(kind: Kind, v: Json)
    requires FreeValue(kind, v, InlineDrops) && kind !in InlineDrops
    ensures FreeValue(kind, LegacyValue(kind, v), Rejected)
    decreases Size(v), 2
  {
    if kind == Enum || kind == Const || kind == Opaque {
    } else if kind == Properties && v.Obj? {
      LegacyMapFree(v.fields);
    } else if v.Obj? {
      LegacyIsFree(v);
    } else if v.Arr? {
      LegacyListFree(v.items);
    }
  }

  lemma {:induction false} LegacyMapFree(fs: seq<Field>)
    requires FreeMap(fs, InlineDrops)
    ensures FreeMap(LegacyMap(fs), Rejected)
    decreases SizeFields(fs), 0
  {
    if fs != [] {
      LegacyIsFree(fs[0].value);
      LegacyMapFree(fs[1..]);
      assert ([Field(fs[0].key, Legacy(fs[0].value))] + LegacyMap(fs[1..]))[1..] == LegacyMap(fs[1..]);
    }
  }

  lemma {:induction false} LegacyListFree(js: seq<Json>)
    requires FreeList(js, InlineDrops)
    ensures FreeList(LegacyList(js), Rejected)
    decreases SizeItems(js), 0
  {
    if js != [] {
      LegacyIsFree(js[0]);
      LegacyListFree(js[1..]);
      assert ([Legacy(js[0])] + LegacyList(js[1..]))[1..] == LegacyList(js[1..]);
    }
  }

  /** Whenever the references could be inlined, the wire schema has no reference, definition map,
      or keyword the provider rejects at any schema position. */
  lemma AdaptedIsAccepted(schema: Json)
    requires schema.Obj? && Inline(ResolverOf(schema), schema, [], 0).Some?
    ensures Free(Adapt(schema), Rejected)
  {
    var e := Inline(ResolverOf(schema), schema, [], 0).value;
    InlineIsFree(ResolverOf(schema), schema, [], 0, e.0, e.1);
    LegacyIsFree(e.0);
  }
}
