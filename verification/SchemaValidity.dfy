/** What a tool schema accepts, on the positive fragment of JSON Schema: `properties`, `items`,
    `allOf`, `anyOf`, `enum`, `const`, `$ref` beside its siblings (section 8.2.3.1 of JSON Schema
    Core 2020-12), `additionalProperties`, `patternProperties`, `dependentSchemas`, and every keyword
    whose value is plain data (`type`, `required`, bounds, formats), whatever those mean. */
module SchemaValidity {
  import opened Prelude
  import opened Json
  import opened GeminiSchema

  /** The meaning of equality, of property patterns, and of each keyword with plain data. */
  datatype Env = Env(
    eq: (Json, Json) -> bool,
    matches: (string, string) -> bool,
    plain: (string, Json, Json) -> bool)

  predicate NoObjects(js: seq<Json>) {
    js != [] ==> !js[0].Obj? && NoObjects(js[1..])
  }

  predicate Plain(j: Json) {
    !j.Obj? && (j.Arr? ==> NoObjects(j.items))
  }

  predicate IsSchema(j: Json) {
    j.Obj? || j.Bool?
  }

  /** A name some `properties` or `patternProperties` member of the same object speaks about. */
  predicate Covered(env: Env, all: seq<Field>, name: string) {
    all != [] &&
    ((KindOf(all[0].key) == Properties && all[0].value.Obj? && Has(all[0].value.fields, name))
     || (KindOf(all[0].key) == Pattern && all[0].value.Obj? && MatchesSome(env, all[0].value.fields, name))
     || Covered(env, all[1..], name))
  }

  predicate MatchesSome(env: Env, ps: seq<Field>, name: string) {
    ps != [] && (env.matches(ps[0].key, name) || MatchesSome(env, ps[1..], name))
  }

  /** `v` passes schema `s` when references are unfolded up to `n` deep; a reference that cannot be
      resolved constrains nothing.  With `loose`, the keywords the adapter drops are disregarded. */
  ghost predicate Valid(env: Env, loose: bool, n: nat, res: Resolver, s: Json, v: Json)
    decreases n, Size(s), 3
  {
    match s
    case Bool(b) => b
    case Obj(fs) => RefValid(env, loose, n, res, FindRef(fs), v) && KeywordsValid(env, loose, n, res, fs, fs, v)
    case _ => true
  }

  ghost predicate RefValid(env: Env, loose: bool, n: nat, res: Resolver, ref: Option<Json>, v: Json)
    decreases n, 0, 0
  {
    n > 0 && ref.Some? && ref.value.Str? && res(ref.value.s).Some? ==>
      Valid(env, loose, n - 1, res, res(ref.value.s).value, v)
  }

  ghost predicate KeywordsValid(env: Env, loose: bool, n: nat, res: Resolver, all: seq<Field>, fs: seq<Field>, v: Json)
    decreases n, SizeFields(fs), 0
  {
    fs != [] ==>
      && KeywordValid(env, loose, n, res, all, fs[0], v)
      && KeywordsValid(env, loose, n, res, all, fs[1..], v)
  }

  ghost predicate KeywordValid(env: Env, loose: bool, n: nat, res: Resolver, all: seq<Field>, f: Field, v: Json)
    decreases n, Size(f.value), 4
  {
    var w := f.value;
    match KindOf(f.key)
    case Ref => true
    case Definitions => true
    case Opaque => true
    case Properties => w.Obj? && v.Obj? ==> PropsValid(env, loose, n, res, w.fields, v.fields)
    case Items =>
      IsSchema(w) && v.Arr? ==> forall i :: 0 <= i < |v.items| ==> Valid(env, loose, n, res, w, v.items[i])
    case AllOf => w.Arr? ==> AllValid(env, loose, n, res, w.items, v)
    case AnyOf => w.Arr? ==> AnyValid(env, loose, n, res, w.items, v)
    case Enum =>
      w.Arr? && !(loose && !AllStrings(w.items)) ==> exists i :: 0 <= i < |w.items| && env.eq(w.items[i], v)
    case Const => env.eq(w, v)
    case Additional =>
      !loose && IsSchema(w) && v.Obj? ==>
        forall i :: 0 <= i < |v.fields| && !Covered(env, all, v.fields[i].key) ==>
                      Valid(env, loose, n, res, w, v.fields[i].value)
    case ItemBounds => !loose && Plain(w) ==> env.plain(f.key, w, v)
    case Pattern => !loose && w.Obj? && v.Obj? ==> PatternValid(env, loose, n, res, w.fields, v.fields)
    case Dependent => !loose && w.Obj? && v.Obj? ==> DependentValid(env, loose, n, res, w.fields, v)
    case Other => Plain(w) ==> env.plain(f.key, w, v)
  }

  ghost predicate PropsValid(env: Env, loose: bool, n: nat, res: Resolver, ps: seq<Field>, vs: seq<Field>)
    decreases n, SizeFields(ps), 0
  {
    ps != [] ==>
      && (Has(vs, ps[0].key) ==> Valid(env, loose, n, res, ps[0].value, Get(vs, ps[0].key).value))
      && PropsValid(env, loose, n, res, ps[1..], vs)
  }

  ghost predicate PatternValid(env: Env, loose: bool, n: nat, res: Resolver, ps: seq<Field>, vs: seq<Field>)
    decreases n, SizeFields(ps), 0
  {
    ps != [] ==>
      && (forall i :: 0 <= i < |vs| && env.matches(ps[0].key, vs[i].key) ==>
                        Valid(env, loose, n, res, ps[0].value, vs[i].value))
      && PatternValid(env, loose, n, res, ps[1..], vs)
  }

  ghost predicate DependentValid(env: Env, loose: bool, n: nat, res: Resolver, ps: seq<Field>, v: Json)
    requires v.Obj?
    decreases n, SizeFields(ps), 0
  {
    ps != [] ==>
      && (Has(v.fields, ps[0].key) ==> Valid(env, loose, n, res, ps[0].value, v))
      && DependentValid(env, loose, n, res, ps[1..], v)
  }

  ghost predicate AllValid(env: Env, loose: bool, n: nat, res: Resolver, ss: seq<Json>, v: Json)
    decreases n, SizeItems(ss), 0
  {
    ss != [] ==> Valid(env, loose, n, res, ss[0], v) && AllValid(env, loose, n, res, ss[1..], v)
  }

  ghost predicate AnyValid(env: Env, loose: bool, n: nat, res: Resolver, ss: seq<Json>, v: Json)
    decreases n, SizeItems(ss), 0
  {
    ss != [] && (Valid(env, loose, n, res, ss[0], v) || AnyValid(env, loose, n, res, ss[1..], v))
  }

  /** No finite unfolding of the references refutes `v`. */
  ghost predicate Accepts(env: Env, loose: bool, sem: Resolver, root: Json, v: Json) {
    forall n: nat :: Valid(env, loose, n, sem, root, v)
  }

  /** `sem` may also give meaning to references that `res` does not resolve: external ones, or the
      whole document. */
  ghost predicate Extends(sem: Resolver, res: Resolver) {
    forall ref :: res(ref).Some? ==> sem(ref) == res(ref)
  }

  // ---- disregarding keywords only accepts more

  lemma {:induction false} Loosens(env: Env, n: nat, res: Resolver, s: Json, v: Json)
    requires Valid(env, false, n, res, s, v)
    ensures Valid(env, true, n, res, s, v)
    decreases n, Size(s), 3
  {
    if s.Obj? {
      var ref := FindRef(s.fields);
      if n > 0 && ref.Some? && ref.value.Str? && res(ref.value.s).Some? {
        Loosens(env, n - 1, res, res(ref.value.s).value, v);
      }
      LoosensFields(env, n, res, s.fields, s.fields, v);
    }
  }

  lemma {:induction false} LoosensFields(env: Env, n: nat, res: Resolver, all: seq<Field>, fs: seq<Field>, v: Json)
    requires KeywordsValid(env, false, n, res, all, fs, v)
    ensures KeywordsValid(env, true, n, res, all, fs, v)
    decreases n, SizeFields(fs), 0
  {
    if fs != [] {
      LoosensField(env, n, res, all, fs[0], v);
      LoosensFields(env, n, res, all, fs[1..], v);
    }
  }

  lemma {:induction false} LoosensField(env: Env, n: nat, res: Resolver, all: seq<Field>, f: Field, v: Json)
    requires KeywordValid(env, false, n, res, all, f, v)
    ensures KeywordValid(env, true, n, res, all, f, v)
    decreases n, Size(f.value), 4
  {
    var w := f.value;
    match KindOf(f.key)
    case Properties =>
      if w.Obj? && v.Obj? {
        LoosensProps(env, n, res, w.fields, v.fields);
      }
    case Items =>
      if IsSchema(w) && v.Arr? {
        forall i | 0 <= i < |v.items| ensures Valid(env, true, n, res, w, v.items[i]) {
          Loosens(env, n, res, w, v.items[i]);
        }
      }
    case AllOf =>
      if w.Arr? {
        LoosensAll(env, n, res, w.items, v);
      }
    case AnyOf =>
      if w.Arr? {
        LoosensAny(env, n, res, w.items, v);
      }
    case _ =>
  }

  lemma {:induction false} LoosensProps(env: Env, n: nat, res: Resolver, ps: seq<Field>, vs: seq<Field>)
    requires PropsValid(env, false, n, res, ps, vs)
    ensures PropsValid(env, true, n, res, ps, vs)
    decreases n, SizeFields(ps), 0
  {
    if ps != [] {
      if Has(vs, ps[0].key) {
        Loosens(env, n, res, ps[0].value, Get(vs, ps[0].key).value);
      }
      LoosensProps(env, n, res, ps[1..], vs);
    }
  }

  lemma {:induction false} LoosensAll(env: Env, n: nat, res: Resolver, ss: seq<Json>, v: Json)
    requires AllValid(env, false, n, res, ss, v)
    ensures AllValid(env, true, n, res, ss, v)
    decreases n, SizeItems(ss), 0
  {
    if ss != [] {
      Loosens(env, n, res, ss[0], v);
      LoosensAll(env, n, res, ss[1..], v);
    }
  }

  lemma {:induction false} LoosensAny(env: Env, n: nat, res: Resolver, ss: seq<Json>, v: Json)
    requires AnyValid(env, false, n, res, ss, v)
    ensures AnyValid(env, true, n, res, ss, v)
    decreases n, SizeItems(ss), 0
  {
    if Valid(env, false, n, res, ss[0], v) {
      Loosens(env, n, res, ss[0], v);
    } else {
      LoosensAny(env, n, res, ss[1..], v);
    }
  }

  // ---- unfolding less constrains less

  lemma {:induction false} FewerUnfoldings(env: Env, n: nat, m: nat, sem: Resolver, s: Json, v: Json)
    requires n <= m && Valid(env, true, m, sem, s, v)
    ensures Valid(env, true, n, sem, s, v)
    decreases n, Size(s), 3
  {
    if s.Obj? {
      var ref := FindRef(s.fields);
      if n > 0 && ref.Some? && ref.value.Str? && sem(ref.value.s).Some? {
        FewerUnfoldings(env, n - 1, m - 1, sem, sem(ref.value.s).value, v);
      }
      FewerFields(env, n, m, sem, s.fields, s.fields, v);
    }
  }

  lemma {:induction false} FewerFields(env: Env, n: nat, m: nat, sem: Resolver, all: seq<Field>, fs: seq<Field>,
                                       v: Json)
    requires n <= m && KeywordsValid(env, true, m, sem, all, fs, v)
    ensures KeywordsValid(env, true, n, sem, all, fs, v)
    decreases n, SizeFields(fs), 0
  {
    if fs != [] {
      FewerField(env, n, m, sem, all, fs[0], v);
      FewerFields(env, n, m, sem, all, fs[1..], v);
    }
  }

  lemma {:induction false} FewerField(env: Env, n: nat, m: nat, sem: Resolver, all: seq<Field>, f: Field, v: Json)
    requires n <= m && KeywordValid(env, true, m, sem, all, f, v)
    ensures KeywordValid(env, true, n, sem, all, f, v)
    decreases n, Size(f.value), 4
  {
    var w := f.value;
    match KindOf(f.key)
    case Properties =>
      if w.Obj? && v.Obj? {
        FewerProps(env, n, m, sem, w.fields, v.fields);
      }
    case Items =>
      if IsSchema(w) && v.Arr? {
        forall i | 0 <= i < |v.items| ensures Valid(env, true, n, sem, w, v.items[i]) {
          FewerUnfoldings(env, n, m, sem, w, v.items[i]);
        }
      }
    case AllOf =>
      if w.Arr? {
        FewerAll(env, n, m, sem, w.items, v);
      }
    case AnyOf =>
      if w.Arr? {
        FewerAny(env, n, m, sem, w.items, v);
      }
    case _ =>
  }

  lemma {:induction false} FewerProps(env: Env, n: nat, m: nat, sem: Resolver, ps: seq<Field>, vs: seq<Field>)
    requires n <= m && PropsValid(env, true, m, sem, ps, vs)
    ensures PropsValid(env, true, n, sem, ps, vs)
    decreases n, SizeFields(ps), 0
  {
    if ps != [] {
      if Has(vs, ps[0].key) {
        FewerUnfoldings(env, n, m, sem, ps[0].value, Get(vs, ps[0].key).value);
      }
      FewerProps(env, n, m, sem, ps[1..], vs);
    }
  }

  lemma {:induction false} FewerAll(env: Env, n: nat, m: nat, sem: Resolver, ss: seq<Json>, v: Json)
    requires n <= m && AllValid(env, true, m, sem, ss, v)
    ensures AllValid(env, true, n, sem, ss, v)
    decreases n, SizeItems(ss), 0
  {
    if ss != [] {
      FewerUnfoldings(env, n, m, sem, ss[0], v);
      FewerAll(env, n, m, sem, ss[1..], v);
    }
  }

  lemma {:induction false} FewerAny(env: Env, n: nat, m: nat, sem: Resolver, ss: seq<Json>, v: Json)
    requires n <= m && AnyValid(env, true, m, sem, ss, v)
    ensures AnyValid(env, true, n, sem, ss, v)
    decreases n, SizeItems(ss), 0
  {
    if Valid(env, true, m, sem, ss[0], v) {
      FewerUnfoldings(env, n, m, sem, ss[0], v);
    } else {
      FewerAny(env, n, m, sem, ss[1..], v);
    }
  }

  /** Beyond the depth bound nothing new is learnt if deeper unfoldings agree with it. */
  lemma AcceptsFromDepth(env: Env, sem: Resolver, s: Json, v: Json, depth: nat)
    requires forall n: nat :: n > depth ==> Valid(env, true, n, sem, s, v)
    ensures Accepts(env, true, sem, s, v)
  {
    forall n: nat ensures Valid(env, true, n, sem, s, v) {
      assert Valid(env, true, n + depth + 1, sem, s, v);
      FewerUnfoldings(env, n, n + depth + 1, sem, s, v);
    }
  }
}
