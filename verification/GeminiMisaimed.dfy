/** Why the fallback asks that references aim at schemas: one that names a property map lets the
    sanitizer tighten the schema. */
module GeminiMisaimed {
  import opened Prelude
  import opened Json
  import opened JsonPointer
  import opened GeminiSchema
  import opened SchemaValidity
  import opened GeminiMeaning
  import opened GeminiFallback

  /** The keywords the example uses, and two names that are none. */
  datatype Words = Words(ref: string, defs: string, props: string, more: string, enumeration: string, p: string,
                         x: string)

  predicate Proper(k: Words) {
    && KindOf(k.ref) == Ref && KindOf(k.defs) == Definitions && KindOf(k.props) == Properties
    && KindOf(k.more) == Additional && KindOf(k.enumeration) == Enum && KindOf(k.p) == Other && KindOf(k.x) == Other
  }

  /** The reference to the properties of definition `x`. */
  function Aim(k: Words): string {
    "#" + Quote(Pointer([k.defs, k.x, k.props]), {'/'})
  }

  /** Refers to the whole document, so nothing inlines. */
  function Whole(k: Words): Json {
    Obj([Field(k.ref, Str("#"))])
  }

  /** A property map whose properties happen to be named like keywords; `named` are the members of
      the schema of the one called "properties". */
  function PropertyMap(k: Words, named: seq<Field>): Json {
    Obj([Field(k.p, Whole(k)), Field(k.more, Bool(false)), Field(k.props, Obj(named))])
  }

  function Document(k: Words, target: Json): Json {
    Obj([Field(k.ref, Str(Aim(k))), Field(k.defs, Obj([Field(k.x, Obj([Field(k.props, target)]))]))])
  }

  function Named(k: Words): seq<Field> {
    [Field(k.enumeration, Obj([]))]
  }

  function Value(k: Words): Json {
    Obj([Field(k.enumeration, Null)])
  }

  lemma Single(key: string, v: Json)
    ensures Get([Field(key, v)], key) == Some(v) && [Field(key, v)][1..] == []
  {
  }

  lemma Walks(k: Words, target: Json)
    requires Proper(k)
    ensures Walk(Document(k, target), [k.defs, k.x, k.props]) == Some(target)
  {
    var inner := Obj([Field(k.props, target)]);
    var defs := Obj([Field(k.x, inner)]);
    var root := Document(k, target);
    assert root.fields[1..] == [Field(k.defs, defs)];
    Single(k.defs, defs);
    Single(k.x, inner);
    Single(k.props, target);
    assert Get(root.fields, k.defs) == Some(defs);
    assert Walk(target, []) == Some(target);
    assert [k.props][1..] == [] && Walk(inner, [k.props]) == Some(target);
    assert [k.x, k.props][1..] == [k.props] && Walk(defs, [k.x, k.props]) == Some(target);
    assert [k.defs, k.x, k.props][1..] == [k.x, k.props];
  }

  lemma Resolves(k: Words, target: Json)
    requires Proper(k) && target.Obj?
    ensures ResolverOf(Document(k, target))(Aim(k)) == Some(target)
    ensures LocalResolver(Document(k, target))(Aim(k)) == Some(target)
  {
    LocalExtends(Document(k, target));
    ResolveReachesTokens(Document(k, target), [k.defs, k.x, k.props], {'/'});
    Walks(k, target);
  }

  lemma MapFields(k: Words, named: seq<Field>)
    requires Proper(k)
    ensures var fs := PropertyMap(k, named).fields;
            && fs[1..] == [Field(k.more, Bool(false)), Field(k.props, Obj(named))]
            && fs[1..][1..] == [Field(k.props, Obj(named))] && fs[1..][1..][1..] == [] && FindRef(fs) == None
  {
    var fs := PropertyMap(k, named).fields;
    assert fs[1..] == [Field(k.more, Bool(false)), Field(k.props, Obj(named))];
    assert fs[1..][1..] == [Field(k.props, Obj(named))] && fs[1..][1..][1..] == [];
    assert FindRef(fs[1..][1..][1..]) == None && FindRef(fs[1..][1..]) == None && FindRef(fs[1..]) == None;
  }

  lemma NothingInlines(k: Words)
    requires Proper(k)
    ensures !Inlines(Document(k, PropertyMap(k, Named(k))))
  {
    var t := PropertyMap(k, Named(k));
    var root := Document(k, t);
    var res := ResolverOf(root);
    Resolves(k, t);
    MapFields(k, Named(k));
    StopsAtWhole(k, res, t.fields);
    assert [] + [Aim(k)] == [Aim(k)];
    assert FindRef(root.fields) == Some(Str(Aim(k)));
  }

  lemma StopsAtWhole(k: Words, res: Resolver, fs: seq<Field>)
    requires Proper(k) && fs != [] && fs[0] == Field(k.p, Whole(k)) && FindRef(fs) == None && res("#") == None
    ensures Inline(res, Obj(fs), [Aim(k)], 1) == None
  {
    assert FindRef(Whole(k).fields) == Some(Str("#"));
    assert Inline(res, Whole(k), [Aim(k)], 1) == None;
    assert InlineFields(res, fs, [Aim(k)], 1) == None;
  }

  lemma FieldsOne(key: string, v: Json)
    ensures LegacyFields([Field(key, v)]) == if Sanitized(KindOf(key), v) then []
              else [Field(key, LegacyValue(KindOf(key), v))]
  {
    assert [Field(key, v)][1..] == [] && LegacyFields([]) == [];
  }

  lemma MapOne(key: string, v: Json)
    ensures LegacyMap([Field(key, v)]) == [Field(key, Legacy(v))]
  {
    assert [Field(key, v)][1..] == [] && LegacyMap([]) == [];
  }

  lemma MapThree(a: Field, b: Field, c: Field)
    ensures LegacyMap([a, b, c]) == [Field(a.key, Legacy(a.value)), Field(b.key, Legacy(b.value)),
              Field(c.key, Legacy(c.value))]
  {
    MapOne(c.key, c.value);
    assert [a, b, c][1..] == [b, c] && [b, c][1..] == [c];
  }

  lemma SanitizesMap(k: Words)
    requires Proper(k)
    ensures Obj(LegacyMap(PropertyMap(k, Named(k)).fields)) == PropertyMap(k, [])
  {
    FieldsOne(k.enumeration, Obj([]));
    FieldsOne(k.ref, Str("#"));
    MapThree(Field(k.p, Whole(k)), Field(k.more, Bool(false)), Field(k.props, Obj(Named(k))));
  }

  /** The sanitizer takes the schema of "properties" for a schema and drops its member "enum". */
  lemma Sanitizes(k: Words)
    requires Proper(k)
    ensures Legacy(Document(k, PropertyMap(k, Named(k)))) == Document(k, PropertyMap(k, []))
  {
    SanitizesMap(k);
    var t := PropertyMap(k, Named(k));
    var inner := Obj([Field(k.props, t)]);
    FieldsOne(k.props, t);
    MapOne(k.x, inner);
    FieldsTwo(Field(k.ref, Str(Aim(k))), Field(k.defs, Obj([Field(k.x, inner)])));
  }

  lemma FieldsTwo(a: Field, b: Field)
    requires KindOf(a.key) == Ref && KindOf(b.key) == Definitions
    ensures LegacyFields([a, b]) == [Field(a.key, LegacyValue(Ref, a.value)),
              Field(b.key, LegacyValue(Definitions, b.value))]
  {
    FieldsOne(b.key, b.value);
    assert [a, b][1..] == [b];
  }

  lemma EmptyAccepts(env: Env, n: nat, sem: Resolver, v: Json)
    ensures Valid(env, false, n, sem, Obj([]), v)
  {
    var none: seq<Field> := [];
    assert FindRef(none) == None && KeywordsValid(env, false, n, sem, none, none, v);
    assert Obj([]).fields == none;
  }

  lemma MapAccepts(env: Env, k: Words, n: nat, sem: Resolver)
    requires Proper(k)
    ensures Valid(env, false, n, sem, PropertyMap(k, Named(k)), Value(k))
  {
    MapFields(k, Named(k));
    var fs, v := PropertyMap(k, Named(k)).fields, Value(k);
    Single(k.enumeration, Obj([]));
    Single(k.enumeration, Null);
    assert Covered(env, fs[1..][1..], k.enumeration) && Covered(env, fs[1..], k.enumeration) &&
      Covered(env, fs, k.enumeration);
    EmptyAccepts(env, n, sem, Null);
    assert PropsValid(env, false, n, sem, Named(k)[1..], v.fields);
    assert PropsValid(env, false, n, sem, Named(k), v.fields);
    assert KeywordsValid(env, false, n, sem, fs, fs[1..][1..][1..], v);
    assert KeywordsValid(env, false, n, sem, fs, fs[1..][1..], v);
    assert KeywordsValid(env, false, n, sem, fs, fs[1..], v);
    assert KeywordsValid(env, false, n, sem, fs, fs, v);
  }

  lemma SourceAccepts(env: Env, k: Words, n: nat)
    requires Proper(k)
    ensures var root := Document(k, PropertyMap(k, Named(k))); Valid(env, false, n, LocalResolver(root), root, Value(k))
  {
    var root := Document(k, PropertyMap(k, Named(k)));
    var sem := LocalResolver(root);
    Resolves(k, PropertyMap(k, Named(k)));
    if n > 0 { MapAccepts(env, k, n - 1, sem); }
    DocumentMeans(env, k, n, sem, PropertyMap(k, Named(k)), Value(k));
  }

  /** The document means what its reference means. */
  lemma DocumentMeans(env: Env, k: Words, n: nat, sem: Resolver, target: Json, v: Json)
    requires Proper(k) && sem(Aim(k)) == Some(target)
    ensures Valid(env, false, n, sem, Document(k, target), v) <==> (n > 0 ==> Valid(env, false, n - 1, sem, target, v))
  {
    var fs := Document(k, target).fields;
    assert fs[1..][1..] == [];
    assert KeywordsValid(env, false, n, sem, fs, fs[1..][1..], v);
    assert KeywordsValid(env, false, n, sem, fs, fs[1..], v);
    assert KeywordsValid(env, false, n, sem, fs, fs, v);
    assert FindRef(fs) == Some(Str(Aim(k)));
  }

  lemma MapRejects(env: Env, k: Words, n: nat, sem: Resolver)
    requires Proper(k)
    ensures !Valid(env, false, n, sem, PropertyMap(k, []), Value(k))
  {
    MapFields(k, []);
    var fs, v := PropertyMap(k, []).fields, Value(k);
    assert !Covered(env, fs[1..][1..][1..], k.enumeration) && !Covered(env, fs[1..][1..], k.enumeration);
    assert !Covered(env, fs[1..], k.enumeration) && !Covered(env, fs, k.enumeration);
    assert v.fields[0].key == k.enumeration && !Valid(env, false, n, sem, Bool(false), v.fields[0].value);
    assert !KeywordValid(env, false, n, sem, fs, fs[1], v);
    assert !KeywordsValid(env, false, n, sem, fs, fs[1..], v);
    assert !KeywordsValid(env, false, n, sem, fs, fs, v);
  }

  lemma WireRejects(env: Env, k: Words)
    requires Proper(k)
    ensures !Valid(env, false, 1, LocalResolver(Document(k, PropertyMap(k, []))), Document(k, PropertyMap(k, [])),
              Value(k))
  {
    var sem := LocalResolver(Document(k, PropertyMap(k, [])));
    Resolves(k, PropertyMap(k, []));
    MapRejects(env, k, 0, sem);
    DocumentMeans(env, k, 1, sem, PropertyMap(k, []), Value(k));
  }

  /** The document accepts the value, its adapted form does not: without the condition on references
      the fallback does not only relax. */
  lemma MisaimedReferenceTightens(env: Env, k: Words)
    requires Proper(k)
    ensures var schema := Document(k, PropertyMap(k, Named(k)));
            && !Inlines(schema) && Accepts(env, false, LocalResolver(schema), schema, Value(k))
            && !Accepts(env, false, LocalResolver(Adapt(schema)), Adapt(schema), Value(k))
  {
    var schema := Document(k, PropertyMap(k, Named(k)));
    NothingInlines(k);
    Sanitizes(k);
    forall n: nat
      ensures Valid(env, false, n, LocalResolver(schema), schema, Value(k))
    {
      SourceAccepts(env, k, n);
    }
    WireRejects(env, k);
  }

  /** The words of the example. */
  lemma WordsExist()
    ensures Proper(Words("$ref", "$defs", "properties", "additionalProperties", "enum", "p", "x"))
  {
    assert |"$ref"| == 4 && |"$defs"| == 5 && |"definitions"| == 11 && |"properties"| == 10 && |"items"| == 5;
    assert |"allOf"| == 5 && |"anyOf"| == 5 && |"enum"| == 4 && |"const"| == 5 && |"default"| == 7 && |"example"| == 7;
    assert |"examples"| == 8 && |"additionalProperties"| == 20 && |"p"| == 1 && |"x"| == 1;
    assert |"enforceItemBounds"| == 17 && |"patternProperties"| == 17 && |"dependentSchemas"| == 16;
    assert "$ref"[0] == '$' && "enum"[0] == 'e';
  }
}
