/** Schemas that use none of the dropped keywords keep their meaning both ways. */
module GeminiKept {
  import opened Json
  import opened GeminiSchema
  import opened SchemaValidity
  import opened GeminiMeaning

  /** A member the adapter drops although it constrains values. */
  predicate Drops(kind: Kind, v: Json) {
    match kind
    case Additional => IsSchema(v) && v != Bool(true)
    case ItemBounds => Plain(v)
    case Enum => v.Arr? && !AllStrings(v.items)
    case Pattern => v.Obj?
    case Dependent => v.Obj?
    case _ => false
  }

  /** No such member at any schema position of `s`, and the references there are among `refs`.  Names
      of properties and plain data are no schema positions. */
  predicate Undropped(s: Json, refs: set<string>)
    decreases Size(s), 1
  {
    s.Obj? ==> UndroppedFields(s.fields, refs)
  }

  predicate UndroppedFields(fs: seq<Field>, refs: set<string>)
    decreases SizeFields(fs), 0
  {
    fs != [] ==> UndroppedField(KindOf(fs[0].key), fs[0].value, refs) && UndroppedFields(fs[1..], refs)
  }

  predicate UndroppedField(kind: Kind, v: Json, refs: set<string>)
    decreases Size(v), 2
  {
    && !Drops(kind, v)
    && (kind == Ref && v.Str? ==> v.s in refs)
    && (kind == Properties && v.Obj? ==> UndroppedMap(v.fields, refs))
    && (kind == Items ==> Undropped(v, refs))
    && ((kind == AllOf || kind == AnyOf) && v.Arr? ==> UndroppedItems(v.items, refs))
  }

  predicate UndroppedMap(ps: seq<Field>, refs: set<string>)
    decreases SizeFields(ps), 0
  {
    ps != [] ==> Undropped(ps[0].value, refs) && UndroppedMap(ps[1..], refs)
  }

  predicate UndroppedItems(js: seq<Json>, refs: set<string>)
    decreases SizeItems(js), 0
  {
    js != [] ==> Undropped(js[0], refs) && UndroppedItems(js[1..], refs)
  }

  /** Following `refs` never leads to a dropped member either. */
  ghost predicate UndroppedTargets(sem: Resolver, refs: set<string>) {
    forall ref :: ref in refs && sem(ref).Some? ==> Undropped(sem(ref).value, refs)
  }

  lemma {:induction false} RefIsListed(fs: seq<Field>, refs: set<string>)
    requires UndroppedFields(fs, refs) && FindRef(fs).Some? && FindRef(fs).value.Str?
    ensures FindRef(fs).value.s in refs
  {
    if KindOf(fs[0].key) != Ref { RefIsListed(fs[1..], refs); }
  }

  lemma {:induction false} Tightens(env: Env, n: nat, refs: set<string>, sem: Resolver, s: Json, v: Json)
    requires Undropped(s, refs) && UndroppedTargets(sem, refs) && Valid(env, true, n, sem, s, v)
    ensures Valid(env, false, n, sem, s, v)
    decreases n, Size(s), 3
  {
    if s.Obj? {
      var ref := FindRef(s.fields);
      if n > 0 && ref.Some? && ref.value.Str? && sem(ref.value.s).Some? {
        RefIsListed(s.fields, refs);
        Tightens(env, n - 1, refs, sem, sem(ref.value.s).value, v);
      }
      TightensFields(env, n, refs, sem, s.fields, s.fields, v);
    }
  }

  lemma {:induction false} TightensFields(env: Env, n: nat, refs: set<string>, sem: Resolver, all: seq<Field>,
                                          fs: seq<Field>, v: Json)
    requires UndroppedFields(fs, refs) && UndroppedTargets(sem, refs) && KeywordsValid(env, true, n, sem, all, fs, v)
    ensures KeywordsValid(env, false, n, sem, all, fs, v)
    decreases n, SizeFields(fs), 0
  {
    if fs != [] {
      TightensField(env, n, refs, sem, all, fs[0], v);
      TightensFields(env, n, refs, sem, all, fs[1..], v);
    }
  }

  lemma {:induction false} TightensField(env: Env, n: nat, refs: set<string>, sem: Resolver, all: seq<Field>, f: Field,
                                         v: Json)
    requires UndroppedField(KindOf(f.key), f.value, refs) && UndroppedTargets(sem, refs)
    requires KeywordValid(env, true, n, sem, all, f, v)
    ensures KeywordValid(env, false, n, sem, all, f, v)
    decreases n, Size(f.value), 4
  {
    var w := f.value;
    match KindOf(f.key)
    case Properties =>
      if w.Obj? && v.Obj? {
        TightensProps(env, n, refs, sem, w.fields, v.fields);
      }
    case Items =>
      if IsSchema(w) && v.Arr? {
        forall i | 0 <= i < |v.items| ensures Valid(env, false, n, sem, w, v.items[i]) {
          Tightens(env, n, refs, sem, w, v.items[i]);
        }
      }
    case AllOf =>
      if w.Arr? {
        TightensAll(env, n, refs, sem, w.items, v);
      }
    case AnyOf =>
      if w.Arr? {
        TightensAny(env, n, refs, sem, w.items, v);
      }
    case _ =>
  }

  lemma {:induction false} TightensProps(env: Env, n: nat, refs: set<string>, sem: Resolver, ps: seq<Field>,
                                         vs: seq<Field>)
    requires UndroppedMap(ps, refs) && UndroppedTargets(sem, refs) && PropsValid(env, true, n, sem, ps, vs)
    ensures PropsValid(env, false, n, sem, ps, vs)
    decreases n, SizeFields(ps), 0
  {
    if ps != [] {
      if Has(vs, ps[0].key) {
        Tightens(env, n, refs, sem, ps[0].value, Get(vs, ps[0].key).value);
      }
      TightensProps(env, n, refs, sem, ps[1..], vs);
    }
  }

  lemma {:induction false} TightensAll(env: Env, n: nat, refs: set<string>, sem: Resolver, ss: seq<Json>, v: Json)
    requires UndroppedItems(ss, refs) && UndroppedTargets(sem, refs) && AllValid(env, true, n, sem, ss, v)
    ensures AllValid(env, false, n, sem, ss, v)
    decreases n, SizeItems(ss), 0
  {
    if ss != [] {
      Tightens(env, n, refs, sem, ss[0], v);
      TightensAll(env, n, refs, sem, ss[1..], v);
    }
  }

  lemma {:induction false} TightensAny(env: Env, n: nat, refs: set<string>, sem: Resolver, ss: seq<Json>, v: Json)
    requires UndroppedItems(ss, refs) && UndroppedTargets(sem, refs) && AnyValid(env, true, n, sem, ss, v)
    ensures AnyValid(env, false, n, sem, ss, v)
    decreases n, SizeItems(ss), 0
  {
    if Valid(env, true, n, sem, ss[0], v) {
      Tightens(env, n, refs, sem, ss[0], v);
    } else {
      TightensAny(env, n, refs, sem, ss[1..], v);
    }
  }

  lemma AcceptsTightly(env: Env, refs: set<string>, sem: Resolver, s: Json, v: Json)
    requires Undropped(s, refs) && UndroppedTargets(sem, refs) && Accepts(env, true, sem, s, v)
    ensures Accepts(env, false, sem, s, v)
  {
    forall n: nat ensures Valid(env, false, n, sem, s, v) {
      Tightens(env, n, refs, sem, s, v);
    }
  }

  /** Where no keyword is dropped, the wire schema accepts exactly what the source accepts. */
  lemma AdaptPreserves(env: Env, refs: set<string>, sem: Resolver, schema: Json, sem': Resolver, v: Json)
    requires Inlines(schema) && Extends(sem, ResolverOf(schema)) && Undropped(schema, refs) &&
               UndroppedTargets(sem, refs)
    ensures Accepts(env, false, sem', Adapt(schema), v) <==> Accepts(env, false, sem, schema, v)
  {
    if Accepts(env, false, sem, schema, v) {
      AdaptOnlyRelaxes(env, sem, schema, sem', v);
    }
    if Accepts(env, false, sem', Adapt(schema), v) {
      AdaptIsExact(env, sem, schema, sem', v);
      AcceptsTightly(env, refs, sem, schema, v);
    }
  }

  /** The same for a document and the references it can resolve by itself. */
  lemma DocumentPreserves(env: Env, refs: set<string>, schema: Json, v: Json)
    requires Inlines(schema) && Undropped(schema, refs) && UndroppedTargets(ResolverOf(schema), refs)
    ensures Accepts(env, false, ResolverOf(Adapt(schema)), Adapt(schema), v)
            <==> Accepts(env, false, ResolverOf(schema), schema, v)
  {
    AdaptPreserves(env, refs, ResolverOf(schema), schema, ResolverOf(Adapt(schema)), v);
  }
}
