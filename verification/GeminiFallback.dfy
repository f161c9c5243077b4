/** When references cannot be inlined the source goes through the sanitizer alone, references and
    definition maps included; that, too, only relaxes. */
module GeminiFallback {
  import opened Prelude
  import opened Json
  import opened JsonPointer
  import opened GeminiSchema
  import opened SchemaValidity
  import opened GeminiMeaning

  /** The tokens of any reference into the document itself; "#" is the whole of it. */
  function LocalTokens(ref: string): Option<seq<string>> {
    if ref == "#" then Some([])
    else if |ref| < 2 || ref[..2] != "#/" || Unquote(ref[1..]) == "" then None
    else ParsePointer(Unquote(ref[1..]))
  }

  /** What such a reference means: the schema its tokens lead to, definition or not. */
  function LocalTarget(root: Json, ref: string): Option<Json> {
    var tokens := LocalTokens(ref);
    if tokens.None? then None
    else
      var target := Walk(root, tokens.value);
      if target.Some? && IsSchema(target.value) then target else None
  }

  function LocalResolver(root: Json): Resolver {
    ref => LocalTarget(root, ref)
  }

  /** The definitions the adapter resolves are among the local references. */
  lemma LocalExtends(root: Json)
    ensures Extends(LocalResolver(root), ResolverOf(root))
  {
    forall ref | ResolverOf(root)(ref).Some?
      ensures LocalResolver(root)(ref) == ResolverOf(root)(ref)
    {
      assert RefTokens(ref) == LocalTokens(ref);
    }
  }

  /** What the sanitizer takes a location for. */
  datatype Place = SchemaAt | MapAt | ListAt | DataAt

  function PlaceOf(kind: Kind, v: Json): Place {
    if kind == Enum || kind == Const || kind == Opaque then DataAt
    else if SchemaMap(kind) && v.Obj? then MapAt
    else if v.Obj? then SchemaAt
    else if v.Arr? then ListAt
    else DataAt
  }

  function Within(place: Place, token: string, next: Json): Place {
    match place
    case SchemaAt => PlaceOf(KindOf(token), next)
    case MapAt => if next.Obj? then SchemaAt else DataAt
    case ListAt => if next.Obj? then SchemaAt else DataAt
    case DataAt => DataAt
  }

  /** The tokens do not end at a map of schemas, such as the whole `properties` of a definition.  They
      may end at a schema, in plain data, or nowhere. */
  predicate Aims(place: Place, j: Json, tokens: seq<string>)
    decreases |tokens|
  {
    if tokens == [] then place != MapAt
    else
      var next := Enter(j, tokens[0]);
      next.Some? ==> Aims(Within(place, tokens[0], next.value), next.value, tokens[1..])
  }

  /** `j'` is what the sanitizer leaves at a place that held `j`. */
  predicate Leaves(place: Place, j: Json, j': Json) {
    match place
    case SchemaAt => j.Obj? && j' == Legacy(j)
    case MapAt => j.Obj? && j' == Obj(LegacyMap(j.fields))
    case ListAt => j.Arr? && j' == Arr(LegacyList(j.items))
    case DataAt => j' == j
  }

  lemma {:induction false} GetLegacyMap(fs: seq<Field>, key: string)
    ensures Get(LegacyMap(fs), key).Some? <==> Get(fs, key).Some?
    ensures Get(fs, key).Some? ==> Get(LegacyMap(fs), key).value == Legacy(Get(fs, key).value)
  {
    if fs != [] {
      GetLegacyMap(fs[1..], key);
      assert ([Field(fs[0].key, Legacy(fs[0].value))] + LegacyMap(fs[1..]))[1..] == LegacyMap(fs[1..]);
    }
  }

  /** A member that survives was there before. */
  lemma {:induction false} StillThere(fs: seq<Field>, key: string)
    requires Get(LegacyFields(fs), key).Some?
    ensures Get(fs, key).Some?
  {
    if fs != [] && fs[0].key != key {
      if !Sanitized(KindOf(fs[0].key), fs[0].value) {
        var rest := LegacyFields(fs[1..]);
        assert ([Field(fs[0].key, LegacyValue(KindOf(fs[0].key), fs[0].value))] + rest)[1..] == rest;
      }
      StillThere(fs[1..], key);
    }
  }

  lemma {:induction false} GetLegacyFields(fs: seq<Field>, key: string)
    requires KindOf(key) != Enum && Get(LegacyFields(fs), key).Some?
    ensures Get(fs, key).Some?
    ensures Get(LegacyFields(fs), key).value == LegacyValue(KindOf(key), Get(fs, key).value)
  {
    if fs != [] {
      var f, rest := fs[0], LegacyFields(fs[1..]);
      if Sanitized(KindOf(f.key), f.value) {
        if f.key == key {
          SanitizedNameIsGone(fs[1..], key);
        }
        GetLegacyFields(fs[1..], key);
      } else {
        assert ([Field(f.key, LegacyValue(KindOf(f.key), f.value))] + rest)[1..] == rest;
        if f.key != key {
          GetLegacyFields(fs[1..], key);
        }
      }
    }
  }

  lemma {:induction false} SanitizedNameIsGone(fs: seq<Field>, key: string)
    requires KindOf(key) == Additional || KindOf(key) == ItemBounds
    ensures Get(LegacyFields(fs), key).None?
  {
    if fs != [] {
      SanitizedNameIsGone(fs[1..], key);
      if !Sanitized(KindOf(fs[0].key), fs[0].value) {
        var rest := LegacyFields(fs[1..]);
        assert ([Field(fs[0].key, LegacyValue(KindOf(fs[0].key), fs[0].value))] + rest)[1..] == rest;
      }
    }
  }

  lemma {:induction false} LegacyListAt(js: seq<Json>, i: nat)
    requires i < |js|
    ensures |LegacyList(js)| == |js| && LegacyList(js)[i] == Legacy(js[i])
  {
    if i == 0 {
      LegacyListLength(js);
    } else {
      LegacyListAt(js[1..], i - 1);
    }
  }

  lemma {:induction false} LegacyListLength(js: seq<Json>)
    ensures |LegacyList(js)| == |js|
  {
    if js != [] {
      LegacyListLength(js[1..]);
    }
  }

  lemma StepLeaves(place: Place, j: Json, j': Json, token: string)
    requires Leaves(place, j, j') && Enter(j', token).Some?
    requires place == SchemaAt ==> KindOf(token) != Enum
    ensures Enter(j, token).Some?
    ensures var next := Enter(j, token).value;
            Leaves(Within(place, token, next), next, Enter(j', token).value)
  {
    match place
    case SchemaAt =>
      StillThere(j.fields, token);
      GetLegacyFields(j.fields, token);
    case MapAt => GetLegacyMap(j.fields, token);
    case ListAt =>
      LegacyListLength(j.items);
      LegacyListAt(j.items, Decimal(token).value);
    case DataAt =>
  }

  /** An `enum` that is left holds strings. */
  lemma {:induction false} EnumIsLeft(fs: seq<Field>, key: string)
    requires KindOf(key) == Enum && Get(LegacyFields(fs), key).Some?
    ensures KeepsEnum(Get(LegacyFields(fs), key).value)
  {
    if fs != [] {
      if Sanitized(KindOf(fs[0].key), fs[0].value) {
        EnumIsLeft(fs[1..], key);
      } else {
        var rest := LegacyFields(fs[1..]);
        assert ([Field(fs[0].key, LegacyValue(KindOf(fs[0].key), fs[0].value))] + rest)[1..] == rest;
        if fs[0].key != key { EnumIsLeft(fs[1..], key); }
      }
    }
  }

  /** Strings lead to no schema. */
  lemma StringsLeadNowhere(v: Json, tokens: seq<string>)
    requires KeepsEnum(v) && Walk(v, tokens).Some?
    ensures !IsSchema(Walk(v, tokens).value)
  {
    if tokens != [] {
      var next := Enter(v, tokens[0]).value;
      assert next.Str?;
    }
  }

  /** A schema that a reference finds in the sanitized document is what it found in the source, or the
      sanitized form of that. */
  lemma {:induction false} WalkLeaves(place: Place, j: Json, j': Json, tokens: seq<string>)
    requires Leaves(place, j, j') && Aims(place, j, tokens)
    requires Walk(j', tokens).Some? && IsSchema(Walk(j', tokens).value)
    ensures Walk(j, tokens).Some?
    ensures Walk(j', tokens).value == Legacy(Walk(j, tokens).value) || Walk(j', tokens).value == Walk(j, tokens).value
    decreases |tokens|
  {
    if tokens != [] {
      if place == SchemaAt && KindOf(tokens[0]) == Enum {
        EnumIsLeft(j.fields, tokens[0]);
        StringsLeadNowhere(Enter(j', tokens[0]).value, tokens[1..]);
      }
      StepLeaves(place, j, j', tokens[0]);
      var next := Enter(j, tokens[0]).value;
      WalkLeaves(Within(place, tokens[0], next), next, Enter(j', tokens[0]).value, tokens[1..]);
    }
  }

  // ---- the references in use

  /** The references at the schema positions of `s` are among `refs`. */
  predicate Calls(s: Json, refs: set<string>)
    decreases Size(s), 1
  {
    s.Obj? ==> CallsFields(s.fields, refs)
  }

  predicate CallsFields(fs: seq<Field>, refs: set<string>)
    decreases SizeFields(fs), 0
  {
    fs != [] ==> CallsField(KindOf(fs[0].key), fs[0].value, refs) && CallsFields(fs[1..], refs)
  }

  predicate CallsField(kind: Kind, v: Json, refs: set<string>)
    decreases Size(v), 2
  {
    && (kind == Ref && v.Str? ==> v.s in refs)
    && ((kind == Properties || kind == Pattern || kind == Dependent) && v.Obj? ==> CallsMap(v.fields, refs))
    && (kind == Items || kind == Additional ==> Calls(v, refs))
    && ((kind == AllOf || kind == AnyOf) && v.Arr? ==> CallsItems(v.items, refs))
  }

  predicate CallsMap(ps: seq<Field>, refs: set<string>)
    decreases SizeFields(ps), 0
  {
    ps != [] ==> Calls(ps[0].value, refs) && CallsMap(ps[1..], refs)
  }

  predicate CallsItems(js: seq<Json>, refs: set<string>)
    decreases SizeItems(js), 0
  {
    js != [] ==> Calls(js[0], refs) && CallsItems(js[1..], refs)
  }

  lemma {:induction false} CalledRef(fs: seq<Field>, refs: set<string>)
    requires CallsFields(fs, refs) && FindRef(fs).Some? && FindRef(fs).value.Str?
    ensures FindRef(fs).value.s in refs
  {
    if KindOf(fs[0].key) != Ref { CalledRef(fs[1..], refs); }
  }

  /** `refs` are all the references in use from the root on, and none of them names a map of schemas. */
  predicate RefsAim(root: Json, refs: set<string>) {
    && Calls(root, refs)
    && (forall ref :: ref in refs && LocalTarget(root, ref).Some? ==> Calls(LocalTarget(root, ref).value, refs))
    && (forall ref :: ref in refs && LocalTokens(ref).Some? ==> Aims(SchemaAt, root, LocalTokens(ref).value))
  }

  /** References name what they named, or its sanitized form, or nothing any more. */
  ghost predicate Follows(refs: set<string>, sem: Resolver, sem': Resolver) {
    forall ref :: ref in refs && sem'(ref).Some? ==>
      && sem(ref).Some? && Calls(sem(ref).value, refs)
      && (sem'(ref).value == Legacy(sem(ref).value) || sem'(ref).value == sem(ref).value)
  }

  lemma ReferenceFollows(root: Json, refs: set<string>, ref: string)
    requires root.Obj? && RefsAim(root, refs) && ref in refs && LocalTarget(Legacy(root), ref).Some?
    ensures LocalTarget(root, ref).Some? && Calls(LocalTarget(root, ref).value, refs)
    ensures var t, t' := LocalTarget(root, ref).value, LocalTarget(Legacy(root), ref).value; t' == Legacy(t) || t' == t
  {
    WalkLeaves(SchemaAt, root, Legacy(root), LocalTokens(ref).value);
  }

  lemma ReferencesFollow(root: Json, refs: set<string>)
    requires root.Obj? && RefsAim(root, refs)
    ensures Follows(refs, LocalResolver(root), LocalResolver(Legacy(root)))
  {
    var sem, sem' := LocalResolver(root), LocalResolver(Legacy(root));
    forall ref | ref in refs && sem'(ref).Some?
      ensures sem(ref).Some? && Calls(sem(ref).value, refs)
      ensures sem'(ref).value == Legacy(sem(ref).value) || sem'(ref).value == sem(ref).value
    {
      ReferenceFollows(root, refs, ref);
    }
  }

  // ---- sanitized or copied, a schema only relaxes

  function Shape(clean: bool, s: Json): Json {
    if clean then Legacy(s) else s
  }

  function ShapeFields(clean: bool, fs: seq<Field>): seq<Field> {
    if clean then LegacyFields(fs) else fs
  }

  function ShapeMap(clean: bool, fs: seq<Field>): seq<Field> {
    if clean then LegacyMap(fs) else fs
  }

  function ShapeList(clean: bool, js: seq<Json>): seq<Json> {
    if clean then LegacyList(js) else js
  }

  function ShapeField(clean: bool, f: Field): Field {
    if clean then Field(f.key, LegacyValue(KindOf(f.key), f.value)) else f
  }

  lemma FieldsSplit(clean: bool, fs: seq<Field>)
    requires fs != []
    ensures ShapeFields(clean, fs) ==
            if clean && Sanitized(KindOf(fs[0].key), fs[0].value) then ShapeFields(clean, fs[1..])
            else [ShapeField(clean, fs[0])] + ShapeFields(clean, fs[1..])
  {
  }

  lemma MapSplit(clean: bool, fs: seq<Field>)
    requires fs != []
    ensures ShapeMap(clean, fs) == [Field(fs[0].key, Shape(clean, fs[0].value))] + ShapeMap(clean, fs[1..])
    ensures ShapeMap(clean, fs)[1..] == ShapeMap(clean, fs[1..])
  {
  }

  lemma ListSplit(clean: bool, js: seq<Json>)
    requires js != []
    ensures ShapeList(clean, js) == [Shape(clean, js[0])] + ShapeList(clean, js[1..])
    ensures ShapeList(clean, js)[1..] == ShapeList(clean, js[1..])
  {
  }

  lemma {:induction false} Relaxes(env: Env, n: nat, refs: set<string>, sem: Resolver, sem': Resolver,
                                  clean: bool, s: Json, v: Json)
    requires Follows(refs, sem, sem') && Calls(s, refs) && Valid(env, false, n, sem, s, v)
    ensures Valid(env, false, n, sem', Shape(clean, s), v)
    decreases n, Size(s), 2
  {
    if s.Obj? {
      RelaxesRef(env, n, refs, sem, sem', clean, s.fields, v);
      RelaxesFields(env, n, refs, sem, sem', clean, s.fields, ShapeFields(clean, s.fields), s.fields, v);
    }
  }

  lemma {:induction false} LegacyKeepsRef(fs: seq<Field>)
    ensures FindRef(LegacyFields(fs)).Some? <==> FindRef(fs).Some?
    ensures FindRef(fs).Some? ==> FindRef(LegacyFields(fs)).value == LegacyValue(Ref, FindRef(fs).value)
  {
    if fs != [] {
      LegacyKeepsRef(fs[1..]);
      if !Sanitized(KindOf(fs[0].key), fs[0].value) {
        var rest := LegacyFields(fs[1..]);
        assert ([Field(fs[0].key, LegacyValue(KindOf(fs[0].key), fs[0].value))] + rest)[1..] == rest;
      }
    }
  }

  lemma {:induction false} RelaxesRef(env: Env, n: nat, refs: set<string>, sem: Resolver, sem': Resolver,
                                     clean: bool, fs: seq<Field>, v: Json)
    requires Follows(refs, sem, sem') && CallsFields(fs, refs) && RefValid(env, false, n, sem, FindRef(fs), v)
    ensures RefValid(env, false, n, sem', FindRef(ShapeFields(clean, fs)), v)
    decreases n, 0, 0
  {
    LegacyKeepsRef(fs);
    var ref := FindRef(fs);
    if n > 0 && ref.Some? && ref.value.Str? {
      CalledRef(fs, refs);
      if sem'(ref.value.s).Some? {
        var t := sem(ref.value.s).value;
        Relaxes(env, n - 1, refs, sem, sem', sem'(ref.value.s).value != t, t, v);
      }
    }
  }

  lemma {:induction false} RelaxesFields(env: Env, n: nat, refs: set<string>, sem: Resolver, sem': Resolver,
                                        clean: bool, all: seq<Field>, all': seq<Field>, fs: seq<Field>, v: Json)
    requires Follows(refs, sem, sem') && CallsFields(fs, refs) && KeywordsValid(env, false, n, sem, all, fs, v)
    requires !clean ==> all' == all
    ensures KeywordsValid(env, false, n, sem', all', ShapeFields(clean, fs), v)
    decreases n, SizeFields(fs), 0
  {
    if fs != [] {
      var f, rest := fs[0], ShapeFields(clean, fs[1..]);
      RelaxesFields(env, n, refs, sem, sem', clean, all, all', fs[1..], v);
      FieldsSplit(clean, fs);
      if !(clean && Sanitized(KindOf(f.key), f.value)) {
        RelaxesField(env, n, refs, sem, sem', clean, all, all', f, v);
        assert ([ShapeField(clean, f)] + rest)[1..] == rest;
      }
    }
  }

  lemma {:induction false} RelaxesField(env: Env, n: nat, refs: set<string>, sem: Resolver, sem': Resolver,
                                       clean: bool, all: seq<Field>, all': seq<Field>, f: Field, v: Json)
    requires Follows(refs, sem, sem') && CallsField(KindOf(f.key), f.value, refs)
    requires (clean ==> !Sanitized(KindOf(f.key), f.value)) && (!clean ==> all' == all)
    requires KeywordValid(env, false, n, sem, all, f, v)
    ensures KeywordValid(env, false, n, sem', all', ShapeField(clean, f), v)
    decreases n, Size(f.value), 4
  {
    var kind := KindOf(f.key);
    if kind in {Additional, Items, AllOf, AnyOf} {
      RelaxesNested(env, n, refs, sem, sem', clean, all, all', f, v);
    } else if kind in {Properties, Pattern, Dependent} {
      RelaxesMaps(env, n, refs, sem, sem', clean, all, all', f, v);
    } else {
      RelaxesPlain(env, n, sem, sem', clean, all, all', f, v);
    }
  }

  lemma RelaxesPlain(env: Env, n: nat, sem: Resolver, sem': Resolver, clean: bool,
                     all: seq<Field>, all': seq<Field>, f: Field, v: Json)
    requires KindOf(f.key) !in {Additional, Items, AllOf, AnyOf, Properties, Pattern, Dependent}
    requires (clean ==> !Sanitized(KindOf(f.key), f.value)) && KeywordValid(env, false, n, sem, all, f, v)
    ensures KeywordValid(env, false, n, sem', all', ShapeField(clean, f), v)
  {
    if KindOf(f.key) == Other && f.value.Arr? { LegacyListPlain(f.value.items); }
  }

  lemma {:induction false} RelaxesMaps(env: Env, n: nat, refs: set<string>, sem: Resolver, sem': Resolver,
                                      clean: bool, all: seq<Field>, all': seq<Field>, f: Field, v: Json)
    requires Follows(refs, sem, sem') && CallsField(KindOf(f.key), f.value, refs)
    requires KindOf(f.key) in {Properties, Pattern, Dependent}
    requires KeywordValid(env, false, n, sem, all, f, v)
    ensures KeywordValid(env, false, n, sem', all', ShapeField(clean, f), v)
    decreases n, Size(f.value), 3
  {
    var w := f.value;
    if w.Obj? && v.Obj? {
      match KindOf(f.key)
      case Properties => RelaxesProps(env, n, refs, sem, sem', clean, w.fields, v.fields);
      case Pattern => RelaxesPattern(env, n, refs, sem, sem', clean, w.fields, v.fields);
      case Dependent => RelaxesDependent(env, n, refs, sem, sem', clean, w.fields, v);
    }
  }

  lemma {:induction false} RelaxesNested(env: Env, n: nat, refs: set<string>, sem: Resolver, sem': Resolver,
                                        clean: bool, all: seq<Field>, all': seq<Field>, f: Field, v: Json)
    requires Follows(refs, sem, sem') && CallsField(KindOf(f.key), f.value, refs)
    requires KindOf(f.key) in {Additional, Items, AllOf, AnyOf}
    requires (clean ==> KindOf(f.key) != Additional) && (!clean ==> all' == all)
    requires KeywordValid(env, false, n, sem, all, f, v)
    ensures KeywordValid(env, false, n, sem', all', ShapeField(clean, f), v)
    decreases n, Size(f.value), 3
  {
    var w := f.value;
    match KindOf(f.key)
    case Additional =>
      if IsSchema(w) && v.Obj? {
        forall i | 0 <= i < |v.fields| && !Covered(env, all, v.fields[i].key)
          ensures Valid(env, false, n, sem', w, v.fields[i].value)
        {
          Relaxes(env, n, refs, sem, sem', false, w, v.fields[i].value);
        }
      }
    case Items =>
      if IsSchema(w) && v.Arr? {
        forall i | 0 <= i < |v.items|
          ensures Valid(env, false, n, sem', Shape(clean, w), v.items[i])
        {
          Relaxes(env, n, refs, sem, sem', clean, w, v.items[i]);
        }
      }
    case AllOf =>
      if w.Arr? {
        RelaxesAll(env, n, refs, sem, sem', clean, w.items, v);
      }
    case AnyOf =>
      if w.Arr? {
        RelaxesAny(env, n, refs, sem, sem', clean, w.items, v);
      }
  }

  lemma {:induction false} RelaxesProps(env: Env, n: nat, refs: set<string>, sem: Resolver, sem': Resolver,
                                       clean: bool, ps: seq<Field>, vs: seq<Field>)
    requires Follows(refs, sem, sem') && CallsMap(ps, refs) && PropsValid(env, false, n, sem, ps, vs)
    ensures PropsValid(env, false, n, sem', ShapeMap(clean, ps), vs)
    decreases n, SizeFields(ps), 0
  {
    if ps != [] {
      if Has(vs, ps[0].key) {
        Relaxes(env, n, refs, sem, sem', clean, ps[0].value, Get(vs, ps[0].key).value);
      }
      RelaxesProps(env, n, refs, sem, sem', clean, ps[1..], vs);
      MapSplit(clean, ps);
    }
  }

  lemma {:induction false} RelaxesPattern(env: Env, n: nat, refs: set<string>, sem: Resolver, sem': Resolver,
                                         clean: bool, ps: seq<Field>, vs: seq<Field>)
    requires Follows(refs, sem, sem') && CallsMap(ps, refs) && PatternValid(env, false, n, sem, ps, vs)
    ensures PatternValid(env, false, n, sem', ShapeMap(clean, ps), vs)
    decreases n, SizeFields(ps), 0
  {
    if ps != [] {
      forall i | 0 <= i < |vs| && env.matches(ps[0].key, vs[i].key)
        ensures Valid(env, false, n, sem', Shape(clean, ps[0].value), vs[i].value)
      {
        Relaxes(env, n, refs, sem, sem', clean, ps[0].value, vs[i].value);
      }
      RelaxesPattern(env, n, refs, sem, sem', clean, ps[1..], vs);
      MapSplit(clean, ps);
    }
  }

  lemma {:induction false} RelaxesDependent(env: Env, n: nat, refs: set<string>, sem: Resolver, sem': Resolver,
                                           clean: bool, ps: seq<Field>, v: Json)
    requires v.Obj? && Follows(refs, sem, sem') && CallsMap(ps, refs) && DependentValid(env, false, n, sem, ps, v)
    ensures DependentValid(env, false, n, sem', ShapeMap(clean, ps), v)
    decreases n, SizeFields(ps), 0
  {
    if ps != [] {
      if Has(v.fields, ps[0].key) {
        Relaxes(env, n, refs, sem, sem', clean, ps[0].value, v);
      }
      RelaxesDependent(env, n, refs, sem, sem', clean, ps[1..], v);
      MapSplit(clean, ps);
    }
  }

  lemma {:induction false} RelaxesAll(env: Env, n: nat, refs: set<string>, sem: Resolver, sem': Resolver,
                                     clean: bool, ss: seq<Json>, v: Json)
    requires Follows(refs, sem, sem') && CallsItems(ss, refs) && AllValid(env, false, n, sem, ss, v)
    ensures AllValid(env, false, n, sem', ShapeList(clean, ss), v)
    decreases n, SizeItems(ss), 0
  {
    if ss != [] {
      Relaxes(env, n, refs, sem, sem', clean, ss[0], v);
      RelaxesAll(env, n, refs, sem, sem', clean, ss[1..], v);
      ListSplit(clean, ss);
    }
  }

  lemma {:induction false} RelaxesAny(env: Env, n: nat, refs: set<string>, sem: Resolver, sem': Resolver,
                                     clean: bool, ss: seq<Json>, v: Json)
    requires Follows(refs, sem, sem') && CallsItems(ss, refs) && AnyValid(env, false, n, sem, ss, v)
    ensures AnyValid(env, false, n, sem', ShapeList(clean, ss), v)
    decreases n, SizeItems(ss), 0
  {
    ListSplit(clean, ss);
    if Valid(env, false, n, sem, ss[0], v) {
      Relaxes(env, n, refs, sem, sem', clean, ss[0], v);
    } else {
      RelaxesAny(env, n, refs, sem, sem', clean, ss[1..], v);
    }
  }

  /** Root, cyclic, over-deep or external references: the sanitized source still accepts everything
      the source accepts, where every reference into the document means what it points to, unless a
      reference in use names a map of schemas. */
  lemma FallbackOnlyRelaxes(env: Env, schema: Json, refs: set<string>, v: Json)
    requires schema.Obj? && !Inlines(schema) && RefsAim(schema, refs)
    requires Accepts(env, false, LocalResolver(schema), schema, v)
    ensures Accepts(env, false, LocalResolver(Adapt(schema)), Adapt(schema), v)
  {
    ReferencesFollow(schema, refs);
    assert Adapt(schema) == Legacy(schema);
    FallbackAccepts(env, refs, LocalResolver(schema), LocalResolver(Legacy(schema)), schema, v);
  }

  /** Both ways of the adapter together. */
  lemma AdaptNeverTightens(env: Env, schema: Json, refs: set<string>, v: Json)
    requires schema.Obj? && (!Inlines(schema) ==> RefsAim(schema, refs))
    requires Accepts(env, false, LocalResolver(schema), schema, v)
    ensures Accepts(env, false, LocalResolver(Adapt(schema)), Adapt(schema), v)
  {
    if Inlines(schema) {
      LocalExtends(schema);
      AdaptOnlyRelaxes(env, LocalResolver(schema), schema, LocalResolver(Adapt(schema)), v);
    } else {
      FallbackOnlyRelaxes(env, schema, refs, v);
    }
  }

  lemma FallbackAccepts(env: Env, refs: set<string>, sem: Resolver, sem': Resolver, s: Json, v: Json)
    requires Follows(refs, sem, sem') && Calls(s, refs) && Accepts(env, false, sem, s, v)
    ensures Accepts(env, false, sem', Legacy(s), v)
  {
    forall n: nat
      ensures Valid(env, false, n, sem', Legacy(s), v)
    {
      Relaxes(env, n, refs, sem, sem', true, s, v);
    }
  }
}
