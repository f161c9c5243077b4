/** Exactly when references inline.  The unfolding is described by the references a schema holds at its
    own positions and by what those lead to, without any reference to how it is computed. */
module GeminiReach {
  import opened Prelude
  import opened Json
  import opened GeminiSchema
  import opened GeminiShape
  import opened GeminiMeaning

  // ---- the references of one schema, nothing followed

  /** The values of `$ref` at the positions that go on the wire. */
  function Sites(s: Json): seq<Json>
    decreases Size(s), 1
  {
    if !s.Obj? then []
    else (if FindRef(s.fields).Some? then [FindRef(s.fields).value] else []) + SitesFields(s.fields)
  }

  function SitesFields(fs: seq<Field>): seq<Json>
    decreases SizeFields(fs), 0
  {
    if fs == [] then []
    else SitesValue(KindOf(fs[0].key), fs[0].value) + SitesFields(fs[1..])
  }

  function SitesValue(kind: Kind, v: Json): seq<Json>
    decreases Size(v), 2
  {
    if kind in {Ref, Definitions, Pattern, Dependent, Enum, Const, Opaque} then []
    else if kind == Properties && v.Obj? then SitesMap(v.fields)
    else if v.Arr? then SitesList(v.items)
    else Sites(v)
  }

  function SitesMap(fs: seq<Field>): seq<Json>
    decreases SizeFields(fs), 0
  {
    if fs == [] then [] else Sites(fs[0].value) + SitesMap(fs[1..])
  }

  function SitesList(js: seq<Json>): seq<Json>
    decreases SizeItems(js), 0
  {
    if js == [] then [] else Sites(js[0]) + SitesList(js[1..])
  }

  // ---- the unfolding

  predicate Resolves(res: Resolver, r: Json) {
    r.Str? && res(r.s).Some? && res(r.s).value.Obj?
  }

  /** Every reference reached resolves to an object, none recurs on its own path, and no path passes
      more than 64; `path` are the references followed so far. */
  predicate Tame(res: Resolver, refs: seq<Json>, path: seq<string>)
    decreases 64 - |path|, |refs|
  {
    refs != [] ==>
      && Resolves(res, refs[0]) && refs[0].s !in path && |path| < 64
      && Tame(res, Sites(res(refs[0].s).value), path + [refs[0].s])
      && Tame(res, refs[1..], path)
  }

  /** How many references the unfolding meets in all, `depth` of them deep. */
  function Met(res: Resolver, refs: seq<Json>, depth: nat): nat
    decreases depth, |refs|
  {
    if refs == [] then 0
    else
      1 + (if depth > 0 && Resolves(res, refs[0]) then Met(res, Sites(res(refs[0].s).value), depth - 1) else 0)
      + Met(res, refs[1..], depth)
  }

  /** The unfolding is tame and meets at most 256 references. */
  predicate Unfolds(schema: Json) {
    && schema.Obj?
    && Tame(ResolverOf(schema), Sites(schema), [])
    && Met(ResolverOf(schema), Sites(schema), 64) <= 256
  }

  // ---- budgets add up

  lemma {:induction false} MetAppend(res: Resolver, a: seq<Json>, b: seq<Json>, depth: nat)
    ensures Met(res, a + b, depth) == Met(res, a, depth) + Met(res, b, depth)
    decreases |a|
  {
    if a == [] {
      assert a + b == b;
    } else {
      assert (a + b)[1..] == a[1..] + b;
      MetAppend(res, a[1..], b, depth);
    }
  }

  lemma {:induction false} TameAppend(res: Resolver, a: seq<Json>, b: seq<Json>, path: seq<string>)
    ensures Tame(res, a + b, path) <==> Tame(res, a, path) && Tame(res, b, path)
    decreases |a|
  {
    if a == [] {
      assert a + b == b;
    } else {
      assert (a + b)[1..] == a[1..] + b;
      TameAppend(res, a[1..], b, path);
    }
  }

  lemma {:induction false} SitesDropRef(fs: seq<Field>)
    ensures SitesFields(DropRef(fs)) == SitesFields(fs)
  {
    if fs != [] {
      SitesDropRef(fs[1..]);
      if KindOf(fs[0].key) != Ref {
        assert ([fs[0]] + DropRef(fs[1..]))[1..] == DropRef(fs[1..]);
      } else {
        assert [] + SitesFields(fs[1..]) == SitesFields(fs[1..]);
      }
    }
  }

  // ---- inlining succeeds exactly within the budget, and uses exactly that much

  /** From `count` references on, `r` succeeds exactly when the unfolding is tame and fits, and counts it. */
  predicate Within<T>(tame: bool, met: nat, count: nat, r: Option<(T, nat)>) {
    && (r.Some? <==> tame && count + met <= 256)
    && (r.Some? ==> r.value.1 == count + met)
  }

  predicate Agrees<T>(res: Resolver, refs: seq<Json>, path: seq<string>, count: nat, r: Option<(T, nat)>)
    requires |path| <= 64
  {
    Within(Tame(res, refs, path), Met(res, refs, 64 - |path|), count, r)
  }

  lemma AgreesEmpty<T>(res: Resolver, path: seq<string>, count: nat, x: T)
    requires |path| <= 64 && count <= 256
    ensures Agrees(res, [], path, count, Some((x, count)))
  {
  }

  /** First `a`, then `b` from where `a` left the count. */
  lemma AgreesThen<S, T, U>(res: Resolver, a: seq<Json>, b: seq<Json>, path: seq<string>, count: nat,
                            ra: Option<(S, nat)>, rb: Option<(T, nat)>, r: Option<(U, nat)>)
    requires |path| <= 64
    requires Agrees(res, a, path, count, ra)
    requires ra.Some? ==> Agrees(res, b, path, ra.value.1, rb)
    requires r.Some? <==> ra.Some? && rb.Some?
    requires r.Some? ==> r.value.1 == rb.value.1
    ensures Agrees(res, a + b, path, count, r)
  {
    MetAppend(res, a, b, 64 - |path|);
    TameAppend(res, a, b, path);
  }

  lemma {:induction false} InlineAgrees(res: Resolver, s: Json, stack: seq<string>, count: nat)
    requires count <= MAX_REF_EXPANSIONS && |stack| <= 64
    ensures Agrees(res, Sites(s), stack, count, Inline(res, s, stack, count))
    decreases MAX_REF_EXPANSIONS - count, Size(s), 1
  {
    if s.Obj? {
      if FindRef(s.fields).None? {
        FieldsAgree(res, s.fields, stack, count);
        assert [] + SitesFields(s.fields) == SitesFields(s.fields);
      } else {
        RefAgrees(res, s, stack, count);
      }
    } else {
      AgreesEmpty(res, stack, count, s);
    }
  }

  /** One reference: itself, what it leads to, and nothing else. */
  lemma TameOne(res: Resolver, r: Json, path: seq<string>)
    ensures Tame(res, [r], path) <==>
            && Resolves(res, r) && r.s !in path && |path| < 64
            && Tame(res, Sites(res(r.s).value), path + [r.s])
  {
    assert [r][1..] == [];
  }

  lemma MetOne(res: Resolver, r: Json, depth: nat)
    requires Resolves(res, r) && depth > 0
    ensures Met(res, [r], depth) == 1 + Met(res, Sites(res(r.s).value), depth - 1)
  {
    assert [r][1..] == [];
  }

  lemma AgreesOne<T>(res: Resolver, r: Json, path: seq<string>, count: nat, t: Option<(T, nat)>)
    requires Resolves(res, r) && r.s !in path && |path| < 64
    requires Agrees(res, Sites(res(r.s).value), path + [r.s], count + 1, t)
    ensures Agrees(res, [r], path, count, t)
  {
    TameOne(res, r, path);
    MetOne(res, r, 64 - |path|);
    assert 64 - |path| - 1 == 64 - |path + [r.s]|;
  }

  /** A reference that is not followed gives up. */
  lemma AgreesNone<T>(res: Resolver, r: Json, path: seq<string>, count: nat, t: Option<(T, nat)>)
    requires |path| <= 64 && t.None?
    requires !Resolves(res, r) || r.s in path || |path| == 64 || count >= 256
    ensures Agrees(res, [r], path, count, t)
  {
    TameOne(res, r, path);
    assert Met(res, [r], 64 - |path|) >= 1;
  }

  predicate Follows(res: Resolver, r: Json, stack: seq<string>, count: nat) {
    Resolves(res, r) && r.s !in stack && |stack| < 64 && count < 256
  }

  /** The branches of `Inline` at a reference. */
  lemma InlineAtRef(res: Resolver, s: Json, stack: seq<string>, count: nat)
    requires count <= MAX_REF_EXPANSIONS && |stack| <= 64 && s.Obj? && FindRef(s.fields).Some?
    ensures var ref := FindRef(s.fields).value;
            var r := Inline(res, s, stack, count);
            if !Follows(res, ref, stack, count) then r.None?
            else
              var t := Inline(res, res(ref.s).value, stack + [ref.s], count + 1);
              if t.None? then r.None?
              else
                var rest := InlineFields(res, DropRef(s.fields), stack, t.value.1);
                (r.Some? <==> rest.Some?) && (r.Some? ==> r.value.1 == rest.value.1)
  {
  }

  lemma {:induction false} RefAgrees(res: Resolver, s: Json, stack: seq<string>, count: nat)
    requires count <= MAX_REF_EXPANSIONS && |stack| <= 64 && s.Obj? && FindRef(s.fields).Some?
    ensures Agrees(res, [FindRef(s.fields).value] + SitesFields(s.fields), stack, count, Inline(res, s, stack, count))
    decreases MAX_REF_EXPANSIONS - count, Size(s), 0
  {
    var ref := FindRef(s.fields).value;
    var t: Option<(Json, nat)> := None;
    var rest: Option<(seq<Field>, nat)> := None;
    InlineAtRef(res, s, stack, count);
    if Follows(res, ref, stack, count) {
      t := Inline(res, res(ref.s).value, stack + [ref.s], count + 1);
      TargetAgrees(res, ref, stack, count);
      if t.Some? {
        SitesDropRef(s.fields);
        FieldsAgree(res, DropRef(s.fields), stack, t.value.1);
        rest := InlineFields(res, DropRef(s.fields), stack, t.value.1);
      }
    } else {
      AgreesNone(res, ref, stack, count, t);
    }
    AgreesThen(res, [ref], SitesFields(s.fields), stack, count, t, rest, Inline(res, s, stack, count));
  }

  lemma {:induction false} TargetAgrees(res: Resolver, ref: Json, stack: seq<string>, count: nat)
    requires Follows(res, ref, stack, count)
    ensures Agrees(res, [ref], stack, count, Inline(res, res(ref.s).value, stack + [ref.s], count + 1))
    decreases MAX_REF_EXPANSIONS - count, 0, 0
  {
    InlineAgrees(res, res(ref.s).value, stack + [ref.s], count + 1);
    AgreesOne(res, ref, stack, count, Inline(res, res(ref.s).value, stack + [ref.s], count + 1));
  }

  lemma {:induction false} FieldsAgree(res: Resolver, fs: seq<Field>, stack: seq<string>, count: nat)
    requires count <= MAX_REF_EXPANSIONS && |stack| <= 64 && FindRef(fs).None?
    ensures Agrees(res, SitesFields(fs), stack, count, InlineFields(res, fs, stack, count))
    decreases MAX_REF_EXPANSIONS - count, SizeFields(fs), 0
  {
    if fs == [] {
      AgreesEmpty(res, stack, count, fs);
    } else {
      var kind := KindOf(fs[0].key);
      var r := InlineFields(res, fs, stack, count);
      if kind == Definitions || kind == Pattern || kind == Dependent {
        FieldsAgree(res, fs[1..], stack, count);
        assert [] + SitesFields(fs[1..]) == SitesFields(fs[1..]);
      } else {
        ValueAgrees(res, kind, fs[0].value, stack, count);
        var v := InlineValue(res, kind, fs[0].value, stack, count);
        var rest: Option<(seq<Field>, nat)> := None;
        if v.Some? {
          FieldsAgree(res, fs[1..], stack, v.value.1);
          rest := InlineFields(res, fs[1..], stack, v.value.1);
        }
        AgreesThen(res, SitesValue(kind, fs[0].value), SitesFields(fs[1..]), stack, count, v, rest, r);
      }
    }
  }

  lemma {:induction false} ValueAgrees(res: Resolver, kind: Kind, v: Json, stack: seq<string>, count: nat)
    requires count <= MAX_REF_EXPANSIONS && |stack| <= 64
    requires kind !in {Ref, Definitions, Pattern, Dependent}
    ensures Agrees(res, SitesValue(kind, v), stack, count, InlineValue(res, kind, v, stack, count))
    decreases MAX_REF_EXPANSIONS - count, Size(v), 2
  {
    if kind == Enum || kind == Const || kind == Opaque {
      AgreesEmpty(res, stack, count, v);
    } else if kind == Properties && v.Obj? {
      MapAgrees(res, v.fields, stack, count);
    } else if v.Arr? {
      ListAgrees(res, v.items, stack, count);
    } else {
      InlineAgrees(res, v, stack, count);
    }
  }

  lemma {:induction false} MapAgrees(res: Resolver, fs: seq<Field>, stack: seq<string>, count: nat)
    requires count <= MAX_REF_EXPANSIONS && |stack| <= 64
    ensures Agrees(res, SitesMap(fs), stack, count, InlineMap(res, fs, stack, count))
    decreases MAX_REF_EXPANSIONS - count, SizeFields(fs), 0
  {
    if fs == [] {
      AgreesEmpty(res, stack, count, fs);
    } else {
      InlineAgrees(res, fs[0].value, stack, count);
      var v := Inline(res, fs[0].value, stack, count);
      var rest: Option<(seq<Field>, nat)> := None;
      if v.Some? {
        MapAgrees(res, fs[1..], stack, v.value.1);
        rest := InlineMap(res, fs[1..], stack, v.value.1);
      }
      AgreesThen(res, Sites(fs[0].value), SitesMap(fs[1..]), stack, count, v, rest, InlineMap(res, fs, stack, count));
    }
  }

  lemma {:induction false} ListAgrees(res: Resolver, js: seq<Json>, stack: seq<string>, count: nat)
    requires count <= MAX_REF_EXPANSIONS && |stack| <= 64
    ensures Agrees(res, SitesList(js), stack, count, InlineList(res, js, stack, count))
    decreases MAX_REF_EXPANSIONS - count, SizeItems(js), 0
  {
    if js == [] {
      AgreesEmpty(res, stack, count, js);
    } else {
      InlineAgrees(res, js[0], stack, count);
      var v := Inline(res, js[0], stack, count);
      var rest: Option<(seq<Json>, nat)> := None;
      if v.Some? {
        ListAgrees(res, js[1..], stack, v.value.1);
        rest := InlineList(res, js[1..], stack, v.value.1);
      }
      AgreesThen(res, Sites(js[0]), SitesList(js[1..]), stack, count, v, rest, InlineList(res, js, stack, count));
    }
  }

  /** References inline exactly when the unfolding is tame and meets at most 256 of them. */
  lemma InlinesIff(schema: Json)
    ensures Inlines(schema) <==> Unfolds(schema)
  {
    if schema.Obj? { InlineAgrees(ResolverOf(schema), schema, [], 0); }
  }

  /** The adapted form of such a schema holds no reference, definition map or rejected keyword; every
      other schema goes through the sanitizer as it is. */
  lemma AdaptedIsFreeOrSanitized(schema: Json)
    requires schema.Obj?
    ensures Unfolds(schema) ==> Free(Adapt(schema), Rejected)
    ensures !Unfolds(schema) ==> Adapt(schema) == Legacy(schema)
  {
    InlinesIff(schema);
    if Unfolds(schema) { AdaptedIsAccepted(schema); }
  }
}
