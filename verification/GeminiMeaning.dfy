/** What the adapter does to the meaning of a schema. */
module GeminiMeaning {
  import opened Prelude
  import opened Json
  import opened GeminiSchema
  import opened GeminiShape
  import opened SchemaValidity

  // ---- inlining keeps the meaning, the loosened keywords aside

  lemma {:induction false} InlineListPlain(res: Resolver, js: seq<Json>, stack: seq<string>, count: nat,
                                          es: seq<Json>, c: nat)
    requires count <= MAX_REF_EXPANSIONS && InlineList(res, js, stack, count) == Some((es, c))
    ensures NoObjects(js) <==> NoObjects(es)
    ensures NoObjects(js) ==> es == js
    decreases SizeItems(js)
  {
    if js != [] {
      var v := Inline(res, js[0], stack, count).value;
      var rest := InlineList(res, js[1..], stack, v.1).value.0;
      assert es == [v.0] + rest && es[1..] == rest;
      InlineListPlain(res, js[1..], stack, v.1, rest, c);
      if NoObjects(js) {
        assert js == [js[0]] + js[1..];
      }
    }
  }

  lemma ConjoinMeans(env: Env, m: nat, sem: Resolver, t: Json, fs: seq<Field>, v: Json)
    requires FindRef(fs).None?
    ensures Valid(env, true, m, sem, Conjoin(t, fs), v) <==>
            Valid(env, true, m, sem, t, v) && KeywordsValid(env, true, m, sem, fs, fs, v)
  {
    if fs != [] {
      var both := [t, Obj(fs)];
      var f := Field("allOf", Arr(both));
      assert KindOf(f.key) == AllOf;
      assert both[1..][1..] == [] && AllValid(env, true, m, sem, both[1..][1..], v);
      assert AllValid(env, true, m, sem, both[1..], v) <==> Valid(env, true, m, sem, Obj(fs), v);
      assert AllValid(env, true, m, sem, both, v) <==>
             Valid(env, true, m, sem, t, v) && Valid(env, true, m, sem, Obj(fs), v);
      assert [f][1..] == [] && KeywordsValid(env, true, m, sem, [f], [f][1..], v);
      assert FindRef([f][1..]).None? && FindRef([f]).None?;
      assert KeywordsValid(env, true, m, sem, [f], [f], v) <==> KeywordValid(env, true, m, sem, [f], f, v);
      assert Conjoin(t, fs) == Obj([f]);
      assert KeywordValid(env, true, m, sem, [f], f, v) <==> AllValid(env, true, m, sem, both, v);
      assert Valid(env, true, m, sem, Obj(fs), v) <==> KeywordsValid(env, true, m, sem, fs, fs, v);
      assert Valid(env, true, m, sem, Obj([f]), v) <==> KeywordsValid(env, true, m, sem, [f], [f], v);
    }
  }

  lemma {:induction false} FreeHasNoRef(fs: seq<Field>)
    requires FreeFields(fs, InlineDrops)
    ensures FindRef(fs).None?
  {
    if fs != [] {
      FreeHasNoRef(fs[1..]);
    }
  }

  /** Loosely, the members say the same whichever object they are judged within. */
  lemma {:induction false} LooseAlone(env: Env, n: nat, sem: Resolver, all: seq<Field>, all': seq<Field>,
                                     fs: seq<Field>, v: Json)
    ensures KeywordsValid(env, true, n, sem, all, fs, v) <==> KeywordsValid(env, true, n, sem, all', fs, v)
  {
    if fs != [] {
      LooseAlone(env, n, sem, all, all', fs[1..], v);
    }
  }

  /** Siblings without the reference mean what they mean beside it. */
  lemma {:induction false} DropRefMeans(env: Env, n: nat, sem: Resolver, all: seq<Field>, fs: seq<Field>, v: Json)
    ensures KeywordsValid(env, true, n, sem, all, DropRef(fs), v) <==> KeywordsValid(env, true, n, sem, all, fs, v)
  {
    if fs != [] {
      DropRefMeans(env, n, sem, all, fs[1..], v);
      if KindOf(fs[0].key) != Ref {
        assert ([fs[0]] + DropRef(fs[1..]))[1..] == DropRef(fs[1..]);
      }
    }
  }

  /** A successful inlining keeps exactly the loose meaning: `n` unfoldings of the source agree with
      any number of unfoldings, under any resolver, of the result. */
  lemma {:induction false} InlineMeans(env: Env, sem: Resolver, res: Resolver, s: Json, stack: seq<string>, count: nat,
                                      e: Json, c: nat, n: nat, m: nat, sem': Resolver, v: Json)
    requires count <= MAX_REF_EXPANSIONS && Inline(res, s, stack, count) == Some((e, c))
    requires n + |stack| > MAX_REF_DEPTH && Extends(sem, res)
    ensures Valid(env, true, n, sem, s, v) <==> Valid(env, true, m, sem', e, v)
    decreases MAX_REF_EXPANSIONS - count, Size(s), 3
  {
    if s.Obj? {
      if FindRef(s.fields).None? {
        var fs := InlinePlain(res, s, stack, count);
        InlineFieldsMeans(env, sem, res, s.fields, s.fields, stack, count, fs.0, fs.0, fs.1, n, m, sem', v);
        InlineFieldsFree(res, s.fields, stack, count, fs.0, fs.1);
        FreeHasNoRef(fs.0);
      } else {
        InlineRefMeans(env, sem, res, s, stack, count, e, c, n, m, sem', v);
      }
    }
  }

  /** A reference unfolds to its target beside the siblings. */
  lemma RefUnfolds(env: Env, n: nat, sem: Resolver, s: Json, ref: string, target: Json, v: Json)
    requires s.Obj? && n > 0 && FindRef(s.fields) == Some(Str(ref)) && sem(ref) == Some(target)
    ensures Valid(env, true, n, sem, s, v) <==>
            Valid(env, true, n - 1, sem, target, v) && KeywordsValid(env, true, n, sem, s.fields, s.fields, v)
  {
  }

  lemma SiblingsMean(env: Env, n: nat, sem: Resolver, fs: seq<Field>, v: Json)
    ensures KeywordsValid(env, true, n, sem, fs, fs, v) <==>
            KeywordsValid(env, true, n, sem, DropRef(fs), DropRef(fs), v)
  {
    DropRefMeans(env, n, sem, fs, fs, v);
    LooseAlone(env, n, sem, DropRef(fs), fs, DropRef(fs), v);
  }

  lemma RefSplits(env: Env, n: nat, sem: Resolver, s: Json, ref: string, target: Json, v: Json)
    requires s.Obj? && n > 0 && FindRef(s.fields) == Some(Str(ref)) && sem(ref) == Some(target)
    ensures Valid(env, true, n, sem, s, v) <==>
            Valid(env, true, n - 1, sem, target, v) &&
            KeywordsValid(env, true, n, sem, DropRef(s.fields), DropRef(s.fields), v)
  {
    RefUnfolds(env, n, sem, s, ref, target, v);
    SiblingsMean(env, n, sem, s.fields, v);
  }

  lemma RefCombines(env: Env, n: nat, sem: Resolver, s: Json, ref: string, target: Json,
                    m: nat, sem': Resolver, t: Json, fs: seq<Field>, v: Json)
    requires s.Obj? && n > 0 && FindRef(s.fields) == Some(Str(ref)) && sem(ref) == Some(target)
    requires FindRef(fs).None?
    requires Valid(env, true, n - 1, sem, target, v) <==> Valid(env, true, m, sem', t, v)
    requires KeywordsValid(env, true, n, sem, DropRef(s.fields), DropRef(s.fields), v) <==>
             KeywordsValid(env, true, m, sem', fs, fs, v)
    ensures Valid(env, true, n, sem, s, v) <==> Valid(env, true, m, sem', Conjoin(t, fs), v)
  {
    RefSplits(env, n, sem, s, ref, target, v);
    ConjoinMeans(env, m, sem', t, fs, v);
  }

  lemma {:induction false} InlineRefMeans(env: Env, sem: Resolver, res: Resolver, s: Json, stack: seq<string>,
                                          count: nat,
                                         e: Json, c: nat, n: nat, m: nat, sem': Resolver, v: Json)
    requires count <= MAX_REF_EXPANSIONS && Inline(res, s, stack, count) == Some((e, c))
    requires n + |stack| > MAX_REF_DEPTH && Extends(sem, res) && s.Obj? && FindRef(s.fields).Some?
    ensures Valid(env, true, n, sem, s, v) <==> Valid(env, true, m, sem', e, v)
    decreases MAX_REF_EXPANSIONS - count, Size(s), 2
  {
    var ref, target, t, fs := InlineRef(res, s, stack, count);
    InlinePartsMean(env, sem, res, DropRef(s.fields), stack, count, stack + [ref], target, t, fs, n, m, sem', v);
    InlineFieldsFree(res, DropRef(s.fields), stack, t.1, fs.0, fs.1);
    FreeHasNoRef(fs.0);
    RefCombines(env, n, sem, s, ref, target, m, sem', t.0, fs.0, v);
  }

  lemma {:induction false} InlinePartsMean(
    env: Env, sem: Resolver, res: Resolver, siblings: seq<Field>, stack: seq<string>, count: nat, deeper: seq<string>,
    target: Json, t: (Json, nat), fs: (seq<Field>, nat), n: nat, m: nat, sem': Resolver, v: Json)
    requires count < MAX_REF_EXPANSIONS && count + 1 <= t.1 <= MAX_REF_EXPANSIONS && n > 0
    requires Inline(res, target, deeper, count + 1) == Some(t) && |deeper| == |stack| + 1
    requires InlineFields(res, siblings, stack, t.1) == Some(fs)
    requires n + |stack| > MAX_REF_DEPTH && Extends(sem, res)
    ensures Valid(env, true, n - 1, sem, target, v) <==> Valid(env, true, m, sem', t.0, v)
    ensures KeywordsValid(env, true, n, sem, siblings, siblings, v) <==>
            KeywordsValid(env, true, m, sem', fs.0, fs.0, v)
    decreases MAX_REF_EXPANSIONS - count, 0, 1
  {
    assert Valid(env, true, n - 1, sem, target, v) <==> Valid(env, true, m, sem', t.0, v) by {
      InlineMeans(env, sem, res, target, deeper, count + 1, t.0, t.1, n - 1, m, sem', v);
    }
    InlineFieldsMeans(env, sem, res, siblings, siblings, stack, t.1, fs.0, fs.0, fs.1, n, m, sem', v);
  }

  lemma {:induction false} InlineFieldsMeans(
    env: Env, sem: Resolver, res: Resolver, all: seq<Field>, fs: seq<Field>, stack: seq<string>, count: nat,
    all': seq<Field>, es: seq<Field>, c: nat, n: nat, m: nat, sem': Resolver, v: Json)
    requires count <= MAX_REF_EXPANSIONS && InlineFields(res, fs, stack, count) == Some((es, c))
    requires n + |stack| > MAX_REF_DEPTH && Extends(sem, res)
    ensures KeywordsValid(env, true, n, sem, all, fs, v) <==> KeywordsValid(env, true, m, sem', all', es, v)
    decreases MAX_REF_EXPANSIONS - count, SizeFields(fs), 0
  {
    if fs != [] {
      var f, kind := fs[0], KindOf(fs[0].key);
      if kind == Definitions || kind == Pattern || kind == Dependent {
        InlineFieldsMeans(env, sem, res, all, fs[1..], stack, count, all', es, c, n, m, sem', v);
      } else {
        var e := InlineValue(res, kind, f.value, stack, count).value;
        InlineValueMeans(env, sem, res, all, f, stack, count, all', e.0, e.1, n, m, sem', v);
        InlineFieldsMeans(env, sem, res, all, fs[1..], stack, e.1, all', es[1..], c, n, m, sem', v);
      }
    }
  }

  lemma {:induction false} InlineValueMeans(
    env: Env, sem: Resolver, res: Resolver, all: seq<Field>, f: Field, stack: seq<string>, count: nat,
    all': seq<Field>, e: Json, c: nat, n: nat, m: nat, sem': Resolver, v: Json)
    requires count <= MAX_REF_EXPANSIONS && InlineValue(res, KindOf(f.key), f.value, stack, count) == Some((e, c))
    requires n + |stack| > MAX_REF_DEPTH && Extends(sem, res)
    ensures KeywordValid(env, true, n, sem, all, f, v) <==>
            KeywordValid(env, true, m, sem', all', Field(f.key, e), v)
    decreases MAX_REF_EXPANSIONS - count, Size(f.value), 6
  {
    match KindOf(f.key)
    case Properties => InlineNestedMeans(env, sem, res, all, f, stack, count, all', e, c, n, m, sem', v);
    case Items => InlineNestedMeans(env, sem, res, all, f, stack, count, all', e, c, n, m, sem', v);
    case AllOf => InlineCombinedMeans(env, sem, res, all, f, stack, count, all', e, c, n, m, sem', v);
    case AnyOf => InlineCombinedMeans(env, sem, res, all, f, stack, count, all', e, c, n, m, sem', v);
    case Other =>
      if f.value.Arr? {
        InlineListPlain(res, f.value.items, stack, count, e.items, c);
      }
    case _ =>
  }

  lemma {:induction false} InlineNestedMeans(
    env: Env, sem: Resolver, res: Resolver, all: seq<Field>, f: Field, stack: seq<string>, count: nat,
    all': seq<Field>, e: Json, c: nat, n: nat, m: nat, sem': Resolver, v: Json)
    requires count <= MAX_REF_EXPANSIONS && InlineValue(res, KindOf(f.key), f.value, stack, count) == Some((e, c))
    requires n + |stack| > MAX_REF_DEPTH && Extends(sem, res)
    requires KindOf(f.key) == Properties || KindOf(f.key) == Items
    ensures KeywordValid(env, true, n, sem, all, f, v) <==>
            KeywordValid(env, true, m, sem', all', Field(f.key, e), v)
    decreases MAX_REF_EXPANSIONS - count, Size(f.value), 5
  {
    var w := f.value;
    if KindOf(f.key) == Properties {
      if w.Obj? && v.Obj? {
        InlineMapMeans(env, sem, res, w.fields, stack, count, e.fields, c, n, m, sem', v.fields);
      }
    } else if IsSchema(w) && v.Arr? {
      InlineItemsMean(env, sem, res, w, stack, count, e, c, n, m, sem', v.items);
    }
  }

  lemma {:induction false} InlineCombinedMeans(
    env: Env, sem: Resolver, res: Resolver, all: seq<Field>, f: Field, stack: seq<string>, count: nat,
    all': seq<Field>, e: Json, c: nat, n: nat, m: nat, sem': Resolver, v: Json)
    requires count <= MAX_REF_EXPANSIONS && InlineValue(res, KindOf(f.key), f.value, stack, count) == Some((e, c))
    requires n + |stack| > MAX_REF_DEPTH && Extends(sem, res)
    requires KindOf(f.key) == AllOf || KindOf(f.key) == AnyOf
    ensures KeywordValid(env, true, n, sem, all, f, v) <==>
            KeywordValid(env, true, m, sem', all', Field(f.key, e), v)
    decreases MAX_REF_EXPANSIONS - count, Size(f.value), 5
  {
    if f.value.Arr? {
      InlineListMeans(env, sem, res, f.value.items, stack, count, e.items, c, n, m, sem', v);
    }
  }

  lemma {:induction false} InlineItemsMean(
    env: Env, sem: Resolver, res: Resolver, w: Json, stack: seq<string>, count: nat,
    e: Json, c: nat, n: nat, m: nat, sem': Resolver, vs: seq<Json>)
    requires count <= MAX_REF_EXPANSIONS && Inline(res, w, stack, count) == Some((e, c))
    requires n + |stack| > MAX_REF_DEPTH && Extends(sem, res)
    ensures (forall i :: 0 <= i < |vs| ==> Valid(env, true, n, sem, w, vs[i])) <==>
            (forall i :: 0 <= i < |vs| ==> Valid(env, true, m, sem', e, vs[i]))
    decreases MAX_REF_EXPANSIONS - count, Size(w), 4
  {
    forall i | 0 <= i < |vs|
      ensures Valid(env, true, n, sem, w, vs[i]) <==> Valid(env, true, m, sem', e, vs[i])
    {
      InlineMeans(env, sem, res, w, stack, count, e, c, n, m, sem', vs[i]);
    }
  }

  lemma {:induction false} InlineMapMeans(
    env: Env, sem: Resolver, res: Resolver, fs: seq<Field>, stack: seq<string>, count: nat,
    es: seq<Field>, c: nat, n: nat, m: nat, sem': Resolver, vs: seq<Field>)
    requires count <= MAX_REF_EXPANSIONS && InlineMap(res, fs, stack, count) == Some((es, c))
    requires n + |stack| > MAX_REF_DEPTH && Extends(sem, res)
    ensures PropsValid(env, true, n, sem, fs, vs) <==> PropsValid(env, true, m, sem', es, vs)
    decreases MAX_REF_EXPANSIONS - count, SizeFields(fs), 0
  {
    if fs != [] {
      var e := Inline(res, fs[0].value, stack, count).value;
      if Has(vs, fs[0].key) {
        InlineMeans(env, sem, res, fs[0].value, stack, count, e.0, e.1, n, m, sem', Get(vs, fs[0].key).value);
      }
      InlineMapMeans(env, sem, res, fs[1..], stack, e.1, es[1..], c, n, m, sem', vs);
    }
  }

  lemma {:induction false} InlineListMeans(
    env: Env, sem: Resolver, res: Resolver, js: seq<Json>, stack: seq<string>, count: nat,
    es: seq<Json>, c: nat, n: nat, m: nat, sem': Resolver, v: Json)
    requires count <= MAX_REF_EXPANSIONS && InlineList(res, js, stack, count) == Some((es, c))
    requires n + |stack| > MAX_REF_DEPTH && Extends(sem, res)
    ensures AllValid(env, true, n, sem, js, v) <==> AllValid(env, true, m, sem', es, v)
    ensures AnyValid(env, true, n, sem, js, v) <==> AnyValid(env, true, m, sem', es, v)
    decreases MAX_REF_EXPANSIONS - count, SizeItems(js), 0
  {
    if js != [] {
      var e := Inline(res, js[0], stack, count).value;
      InlineMeans(env, sem, res, js[0], stack, count, e.0, e.1, n, m, sem', v);
      InlineListMeans(env, sem, res, js[1..], stack, e.1, es[1..], c, n, m, sem', v);
    }
  }

  // ---- the sanitizer drops exactly what the loose reading disregards

  lemma {:induction false} LegacyListPlain(js: seq<Json>)
    ensures NoObjects(js) <==> NoObjects(LegacyList(js))
    ensures NoObjects(js) ==> LegacyList(js) == js
  {
    if js != [] {
      LegacyListPlain(js[1..]);
      assert ([Legacy(js[0])] + LegacyList(js[1..]))[1..] == LegacyList(js[1..]);
      assert js == [js[0]] + js[1..];
    }
  }

  lemma {:induction false} LegacyMeans(env: Env, m: nat, sem: Resolver, k: nat, sem': Resolver, e: Json, v: Json)
    requires Free(e, InlineDrops)
    ensures Valid(env, true, m, sem, e, v) <==> Valid(env, false, k, sem', Legacy(e), v)
    decreases Size(e), 3
  {
    if e.Obj? {
      LegacyFieldsMeans(env, m, sem, k, sem', e.fields, LegacyFields(e.fields), e.fields, v);
      FreeHasNoRef(e.fields);
      LegacyNoRef(e.fields);
    }
  }

  lemma {:induction false} LegacyNoRef(fs: seq<Field>)
    requires FindRef(fs).None?
    ensures FindRef(LegacyFields(fs)).None?
  {
    if fs != [] {
      LegacyNoRef(fs[1..]);
      if !Sanitized(KindOf(fs[0].key), fs[0].value) {
        var rest := LegacyFields(fs[1..]);
        assert ([Field(fs[0].key, LegacyValue(KindOf(fs[0].key), fs[0].value))] + rest)[1..] == rest;
      }
    }
  }

  lemma {:induction false} LegacyFieldsMeans(env: Env, m: nat, sem: Resolver, k: nat, sem': Resolver,
                                            all: seq<Field>, all': seq<Field>, fs: seq<Field>, v: Json)
    requires FreeFields(fs, InlineDrops)
    ensures KeywordsValid(env, true, m, sem, all, fs, v) <==>
            KeywordsValid(env, false, k, sem', all', LegacyFields(fs), v)
    decreases SizeFields(fs), 0
  {
    if fs != [] {
      var f, rest := fs[0], LegacyFields(fs[1..]);
      LegacyFieldsMeans(env, m, sem, k, sem', all, all', fs[1..], v);
      if Sanitized(KindOf(f.key), f.value) {
        assert KeywordValid(env, true, m, sem, all, f, v);
      } else {
        LegacyFieldMeans(env, m, sem, k, sem', all, all', f, v);
        assert ([Field(f.key, LegacyValue(KindOf(f.key), f.value))] + rest)[1..] == rest;
      }
    }
  }

  lemma {:induction false} LegacyFieldMeans(env: Env, m: nat, sem: Resolver, k: nat, sem': Resolver,
                           all: seq<Field>, all': seq<Field>, f: Field, v: Json)
    requires FreeValue(KindOf(f.key), f.value, InlineDrops) && KindOf(f.key) !in InlineDrops
    requires !Sanitized(KindOf(f.key), f.value)
    ensures KeywordValid(env, true, m, sem, all, f, v) <==>
            KeywordValid(env, false, k, sem', all', Field(f.key, LegacyValue(KindOf(f.key), f.value)), v)
    decreases Size(f.value), 6
  {
    match KindOf(f.key)
    case Properties => LegacyNestedMeans(env, m, sem, k, sem', all, all', f, v);
    case Items => LegacyNestedMeans(env, m, sem, k, sem', all, all', f, v);
    case AllOf => LegacyCombinedMeans(env, m, sem, k, sem', all, all', f, v);
    case AnyOf => LegacyCombinedMeans(env, m, sem, k, sem', all, all', f, v);
    case Other =>
      if f.value.Arr? {
        LegacyListPlain(f.value.items);
      }
    case _ =>
  }

  lemma {:induction false} LegacyNestedMeans(env: Env, m: nat, sem: Resolver, k: nat, sem': Resolver,
                           all: seq<Field>, all': seq<Field>, f: Field, v: Json)
    requires FreeValue(KindOf(f.key), f.value, InlineDrops) && KindOf(f.key) !in InlineDrops
    requires !Sanitized(KindOf(f.key), f.value)
    requires KindOf(f.key) == Properties || KindOf(f.key) == Items
    ensures KeywordValid(env, true, m, sem, all, f, v) <==>
            KeywordValid(env, false, k, sem', all', Field(f.key, LegacyValue(KindOf(f.key), f.value)), v)
    decreases Size(f.value), 5
  {
    var w := f.value;
    if KindOf(f.key) == Properties {
      if w.Obj? && v.Obj? {
        LegacyMapMeans(env, m, sem, k, sem', w.fields, v.fields);
      }
    } else if IsSchema(w) && v.Arr? {
      LegacyItemsMean(env, m, sem, k, sem', w, v.items);
    }
  }

  lemma {:induction false} LegacyCombinedMeans(env: Env, m: nat, sem: Resolver, k: nat, sem': Resolver,
                           all: seq<Field>, all': seq<Field>, f: Field, v: Json)
    requires FreeValue(KindOf(f.key), f.value, InlineDrops) && KindOf(f.key) !in InlineDrops
    requires !Sanitized(KindOf(f.key), f.value)
    requires KindOf(f.key) == AllOf || KindOf(f.key) == AnyOf
    ensures KeywordValid(env, true, m, sem, all, f, v) <==>
            KeywordValid(env, false, k, sem', all', Field(f.key, LegacyValue(KindOf(f.key), f.value)), v)
    decreases Size(f.value), 5
  {
    if f.value.Arr? {
      LegacyListMeans(env, m, sem, k, sem', f.value.items, v);
    }
  }

  lemma {:induction false} LegacyItemsMean(env: Env, m: nat, sem: Resolver, k: nat, sem': Resolver, w: Json,
                                           vs: seq<Json>)
    requires IsSchema(w) && Free(w, InlineDrops)
    ensures (forall i :: 0 <= i < |vs| ==> Valid(env, true, m, sem, w, vs[i])) <==>
            (forall i :: 0 <= i < |vs| ==> Valid(env, false, k, sem', Legacy(w), vs[i]))
    decreases Size(w), 4
  {
    forall i | 0 <= i < |vs|
      ensures Valid(env, true, m, sem, w, vs[i]) <==> Valid(env, false, k, sem', Legacy(w), vs[i])
    {
      LegacyMeans(env, m, sem, k, sem', w, vs[i]);
    }
  }

  lemma {:induction false} LegacyMapMeans(env: Env, m: nat, sem: Resolver, k: nat, sem': Resolver,
                                         fs: seq<Field>, vs: seq<Field>)
    requires FreeMap(fs, InlineDrops)
    ensures PropsValid(env, true, m, sem, fs, vs) <==> PropsValid(env, false, k, sem', LegacyMap(fs), vs)
    decreases SizeFields(fs), 0
  {
    if fs != [] {
      var rest := LegacyMap(fs[1..]);
      if Has(vs, fs[0].key) {
        LegacyMeans(env, m, sem, k, sem', fs[0].value, Get(vs, fs[0].key).value);
      }
      LegacyMapMeans(env, m, sem, k, sem', fs[1..], vs);
      assert ([Field(fs[0].key, Legacy(fs[0].value))] + rest)[1..] == rest;
    }
  }

  lemma {:induction false} LegacyListMeans(env: Env, m: nat, sem: Resolver, k: nat, sem': Resolver,
                                          js: seq<Json>, v: Json)
    requires FreeList(js, InlineDrops)
    ensures AllValid(env, true, m, sem, js, v) <==> AllValid(env, false, k, sem', LegacyList(js), v)
    ensures AnyValid(env, true, m, sem, js, v) <==> AnyValid(env, false, k, sem', LegacyList(js), v)
    decreases SizeItems(js), 0
  {
    if js != [] {
      var rest := LegacyList(js[1..]);
      LegacyMeans(env, m, sem, k, sem', js[0], v);
      LegacyListMeans(env, m, sem, k, sem', js[1..], v);
      assert ([Legacy(js[0])] + rest)[1..] == rest;
    }
  }

  // ---- the adapter, when the references could be inlined

  predicate Inlines(schema: Json) {
    schema.Obj? && Inline(ResolverOf(schema), schema, [], 0).Some?
  }

  lemma AdaptMeans(env: Env, sem: Resolver, schema: Json, n: nat, k: nat, sem': Resolver, v: Json)
    requires Inlines(schema) && Extends(sem, ResolverOf(schema)) && n > MAX_REF_DEPTH
    ensures Valid(env, true, n, sem, schema, v) <==> Valid(env, false, k, sem', Adapt(schema), v)
  {
    var res := ResolverOf(schema);
    var e := Inline(res, schema, [], 0).value;
    InlineMeans(env, sem, res, schema, [], 0, e.0, e.1, n, 0, sem, v);
    InlineIsFree(res, schema, [], 0, e.0, e.1);
    LegacyMeans(env, 0, sem, k, sem', e.0, v);
  }

  /** The wire schema accepts exactly what the source accepts once the dropped keywords are
      disregarded, under every meaning of the remaining keywords and of unsupported references. */
  lemma AdaptIsExact(env: Env, sem: Resolver, schema: Json, sem': Resolver, v: Json)
    requires Inlines(schema) && Extends(sem, ResolverOf(schema))
    ensures Accepts(env, false, sem', Adapt(schema), v) <==> Accepts(env, true, sem, schema, v)
  {
    forall n: nat, k: nat | n > MAX_REF_DEPTH
      ensures Valid(env, true, n, sem, schema, v) <==> Valid(env, false, k, sem', Adapt(schema), v)
    {
      AdaptMeans(env, sem, schema, n, k, sem', v);
    }
    assert Valid(env, true, MAX_REF_DEPTH + 1, sem, schema, v) <==> Valid(env, false, 0, sem', Adapt(schema), v);
    if Accepts(env, false, sem', Adapt(schema), v) {
      AcceptsFromDepth(env, sem, schema, v, MAX_REF_DEPTH);
    }
  }

  lemma AcceptsLoosely(env: Env, sem: Resolver, s: Json, v: Json)
    requires Accepts(env, false, sem, s, v)
    ensures Accepts(env, true, sem, s, v)
  {
    forall n: nat ensures Valid(env, true, n, sem, s, v) {
      assert Valid(env, false, n, sem, s, v);
      Loosens(env, n, sem, s, v);
    }
  }

  /** Nothing the source accepts is refused on the wire. */
  lemma AdaptOnlyRelaxes(env: Env, sem: Resolver, schema: Json, sem': Resolver, v: Json)
    requires Inlines(schema) && Extends(sem, ResolverOf(schema)) && Accepts(env, false, sem, schema, v)
    ensures Accepts(env, false, sem', Adapt(schema), v)
  {
    AcceptsLoosely(env, sem, schema, v);
    AdaptIsExact(env, sem, schema, sem', v);
  }
}
