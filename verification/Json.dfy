/** JSON values.  An object keeps its members in insertion order, as the provider payloads do. */
module Json {
  import opened Prelude

  datatype Json =
    | Null
    | Bool(b: bool)
    | Num(n: int)
    | Str(s: string)
    | Arr(items: seq<Json>)
    | Obj(fields: seq<Field>)

  datatype Field = Field(key: string, value: Json)

  function Get(fs: seq<Field>, key: string): Option<Json> {
    if fs == [] then None
    else if fs[0].key == key then Some(fs[0].value)
    else Get(fs[1..], key)
  }

  predicate Has(fs: seq<Field>, key: string) {
    Get(fs, key).Some?
  }

  /** `pop(key)`. */
  function Without(fs: seq<Field>, key: string): seq<Field> {
    if fs == [] then []
    else if fs[0].key == key then Without(fs[1..], key)
    else [fs[0]] + Without(fs[1..], key)
  }

  /** Assignment to an existing key. */
  function With(fs: seq<Field>, key: string, value: Json): seq<Field> {
    if fs == [] then []
    else if fs[0].key == key then [Field(key, value)] + With(fs[1..], key, value)
    else [fs[0]] + With(fs[1..], key, value)
  }

  function Size(j: Json): nat {
    match j
    case Arr(items) => 1 + SizeItems(items)
    case Obj(fields) => 1 + SizeFields(fields)
    case _ => 1
  }

  function SizeItems(js: seq<Json>): nat {
    if js == [] then 0 else 1 + Size(js[0]) + SizeItems(js[1..])
  }

  function SizeFields(fs: seq<Field>): nat {
    if fs == [] then 0 else 1 + Size(fs[0].value) + SizeFields(fs[1..])
  }

  lemma {:induction false} GetWithout(fs: seq<Field>, key: string, k: string)
    ensures Get(Without(fs, key), k) == if k == key then None else Get(fs, k)
  {
    if fs != [] {
      GetWithout(fs[1..], key, k);
      if fs[0].key != key {
        assert ([fs[0]] + Without(fs[1..], key))[1..] == Without(fs[1..], key);
      }
    }
  }

  lemma {:induction false} GetWith(fs: seq<Field>, key: string, value: Json, k: string)
    ensures Get(With(fs, key, value), k) == if k == key && Has(fs, k) then Some(value) else Get(fs, k)
  {
    if fs != [] {
      GetWith(fs[1..], key, value, k);
      var head := if fs[0].key == key then Field(key, value) else fs[0];
      assert ([head] + With(fs[1..], key, value))[1..] == With(fs[1..], key, value);
    }
  }

  lemma {:induction false} WithoutAbsent(fs: seq<Field>, key: string)
    requires !Has(fs, key)
    ensures Without(fs, key) == fs
  {
    if fs != [] { WithoutAbsent(fs[1..], key); }
  }

  lemma {:induction false} GetAppend(fs: seq<Field>, f: Field, key: string)
    ensures Get(fs + [f], key) == if Has(fs, key) then Get(fs, key) else if f.key == key then Some(f.value) else None
  {
    if fs == [] {
      assert (fs + [f])[1..] == [];
    } else {
      assert (fs + [f])[1..] == fs[1..] + [f];
      GetAppend(fs[1..], f, key);
    }
  }
}
