/** Local `$ref` strings: percent-decoding, RFC 6901 token escapes and resolution. */
module JsonPointer {
  import opened Prelude
  import opened Json

  /** Section 4 of RFC 6901: `~` is written `~0` and `/` is written `~1`. */
  function EscapeToken(t: string): string {
    if t == "" then ""
    else (if t[0] == '~' then "~0" else if t[0] == '/' then "~1" else [t[0]]) + EscapeToken(t[1..])
  }

  /** The decoding loop of the resolver; a stray `~` is an error. */
  function UnescapeToken(t: string): Option<string>
    decreases |t|
  {
    if t == "" then Some("")
    else if t[0] != '~' then
      var rest := UnescapeToken(t[1..]);
      if rest.None? then None else Some([t[0]] + rest.value)
    else if |t| < 2 || (t[1] != '0' && t[1] != '1') then None
    else
      var rest := UnescapeToken(t[2..]);
      if rest.None? then None else Some([if t[1] == '0' then '~' else '/'] + rest.value)
  }

  lemma {:induction false} UnescapeEscape(t: string)
    ensures UnescapeToken(EscapeToken(t)) == Some(t)
  {
    if t != "" {
      UnescapeEscape(t[1..]);
      var rest, e := EscapeToken(t[1..]), EscapeToken(t);
      assert t == [t[0]] + t[1..];
      if t[0] == '~' || t[0] == '/' {
        assert e[2..] == rest;
      } else {
        assert e[1..] == rest;
      }
    }
  }

  lemma {:induction false} EscapedHasNoSlash(t: string)
    ensures '/' !in EscapeToken(t)
  {
    if t != "" {
      EscapedHasNoSlash(t[1..]);
    }
  }

  /** The pointer `/a/b/...` of a token list. */
  function Pointer(tokens: seq<string>): string {
    if tokens == [] then "" else "/" + EscapeToken(tokens[0]) + Pointer(tokens[1..])
  }

  /** Python's `split("/")`. */
  function SplitSlash(cur: string, s: string): seq<string>
    decreases |s|
  {
    if s == "" then [cur]
    else if s[0] == '/' then [cur] + SplitSlash("", s[1..])
    else SplitSlash(cur + [s[0]], s[1..])
  }

  lemma {:induction false} SplitPlain(cur: string, t: string, rest: string)
    requires '/' !in t && (rest == "" || rest[0] == '/')
    ensures SplitSlash(cur, t + rest) ==
            if rest == "" then [cur + t] else [cur + t] + SplitSlash("", rest[1..])
    decreases |t|
  {
    if t == "" {
      assert t + rest == rest && cur + t == cur;
    } else {
      assert (t + rest)[1..] == t[1..] + rest;
      assert cur + t == (cur + [t[0]]) + t[1..];
      SplitPlain(cur + [t[0]], t[1..], rest);
    }
  }

  function UnescapeAll(raw: seq<string>): Option<seq<string>> {
    if raw == [] then Some([])
    else
      var head, rest := UnescapeToken(raw[0]), UnescapeAll(raw[1..]);
      if head.None? || rest.None? then None else Some([head.value] + rest.value)
  }

  function ParsePointer(pointer: string): Option<seq<string>>
    requires pointer != ""
  {
    UnescapeAll(SplitSlash("", pointer[1..]))
  }

  function EscapeAll(tokens: seq<string>): seq<string> {
    if tokens == [] then [] else [EscapeToken(tokens[0])] + EscapeAll(tokens[1..])
  }

  lemma {:induction false} UnescapeAllEscaped(tokens: seq<string>)
    ensures UnescapeAll(EscapeAll(tokens)) == Some(tokens)
  {
    if tokens != [] {
      UnescapeEscape(tokens[0]);
      UnescapeAllEscaped(tokens[1..]);
      assert ([EscapeToken(tokens[0])] + EscapeAll(tokens[1..]))[1..] == EscapeAll(tokens[1..]);
      assert tokens == [tokens[0]] + tokens[1..];
    }
  }

  lemma {:induction false} PointerSplits(tokens: seq<string>)
    requires tokens != []
    ensures Pointer(tokens) != "" && Pointer(tokens)[0] == '/'
    ensures SplitSlash("", Pointer(tokens)[1..]) == EscapeAll(tokens)
    decreases |tokens|
  {
    var t, rest := EscapeToken(tokens[0]), Pointer(tokens[1..]);
    EscapedHasNoSlash(tokens[0]);
    assert Pointer(tokens)[1..] == t + rest;
    assert "" + t == t;
    if tokens[1..] == [] {
      SplitPlain("", t, rest);
      assert [t] + [] == [t];
    } else {
      PointerSplits(tokens[1..]);
      SplitPlain("", t, rest);
    }
  }

  /** Parsing undoes escaping for every token list. */
  lemma ParseUndoesEscape(tokens: seq<string>)
    requires tokens != []
    ensures Pointer(tokens) != "" && ParsePointer(Pointer(tokens)) == Some(tokens)
  {
    PointerSplits(tokens);
    UnescapeAllEscaped(tokens);
  }

  // ---- the URI fragment form (section 6 of RFC 6901)

  function Hex(n: nat): char
    requires n < 16
  {
    "0123456789ABCDEF"[n]
  }

  function HexValue(c: char): int {
    if '0' <= c <= '9' then c as int - '0' as int
    else if 'A' <= c <= 'F' then c as int - 'A' as int + 10
    else if 'a' <= c <= 'f' then c as int - 'a' as int + 10
    else -1
  }

  /** Percent-encode every ASCII character outside `keep`. */
  function Quote(s: string, keep: set<char>): string {
    if s == "" then ""
    else if s[0] !in keep && (s[0] as int) < 128 then
      ['%', Hex(s[0] as int / 16), Hex(s[0] as int % 16)] + Quote(s[1..], keep)
    else [s[0]] + Quote(s[1..], keep)
  }

  /** `unquote` for ASCII escapes; anything that is not an escape stands for itself. */
  function Unquote(s: string): string
    decreases |s|
  {
    if s == "" then ""
    else if s[0] == '%' && |s| >= 3 && HexValue(s[1]) >= 0 && HexValue(s[2]) >= 0 && HexValue(s[1]) < 8 then
      [(16 * HexValue(s[1]) + HexValue(s[2])) as char] + Unquote(s[3..])
    else [s[0]] + Unquote(s[1..])
  }

  lemma HexRoundTrip(n: nat)
    requires n < 16
    ensures HexValue(Hex(n)) == n
  {
  }

  lemma {:induction false} UnquoteQuote(s: string, keep: set<char>)
    requires '%' !in keep
    ensures Unquote(Quote(s, keep)) == s
  {
    if s != "" {
      UnquoteQuote(s[1..], keep);
      var q, rest := Quote(s, keep), Quote(s[1..], keep);
      if s[0] !in keep && (s[0] as int) < 128 {
        var n := s[0] as int;
        HexRoundTrip(n / 16);
        HexRoundTrip(n % 16);
        assert q[3..] == rest;
        assert 16 * (n / 16) + n % 16 == n;
      } else {
        assert q[1..] == rest;
      }
      assert s == [s[0]] + s[1..];
    }
  }

  // ---- resolution

  /** A decimal index, as `isdecimal` and `int` read it. */
  function Decimal(t: string): Option<nat> {
    if t == "" then None
    else if !('0' <= t[|t| - 1] <= '9') then None
    else
      var d := t[|t| - 1] as int - '0' as int;
      if |t| == 1 then Some(d)
      else
        var head := Decimal(t[..|t| - 1]);
        if head.None? then None else Some(10 * head.value + d)
  }

  /** One step into an object member or an array element. */
  function Enter(j: Json, token: string): Option<Json> {
    match j
    case Obj(fields) => Get(fields, token)
    case Arr(items) =>
      var i := Decimal(token);
      if i.Some? && i.value < |items| then Some(items[i.value]) else None
    case _ => None
  }

  function Numeral(n: nat): (t: string)
    ensures t != ""
  {
    var last := [(n % 10 + '0' as int) as char];
    if n < 10 then last else Numeral(n / 10) + last
  }

  lemma {:induction false} DecimalNumeral(n: nat)
    ensures Decimal(Numeral(n)) == Some(n)
  {
    if n >= 10 {
      DecimalNumeral(n / 10);
      var t := Numeral(n);
      assert t[..|t| - 1] == Numeral(n / 10);
    }
  }

  /** An array element is reached by its number, and none beyond the end. */
  lemma ElementIsReached(items: seq<Json>, n: nat)
    ensures Enter(Arr(items), Numeral(n)) == if n < |items| then Some(items[n]) else None
  {
    DecimalNumeral(n);
  }

  function Walk(j: Json, tokens: seq<string>): Option<Json>
    decreases |tokens|
  {
    if tokens == [] then Some(j)
    else
      var next := Enter(j, tokens[0]);
      if next.None? then None else Walk(next.value, tokens[1..])
  }

  /** The tokens of a supported local reference. */
  function RefTokens(ref: string): Option<seq<string>> {
    if |ref| < 2 || ref[..2] != "#/" then None
    else
      var pointer := Unquote(ref[1..]);
      if pointer == "" then None
      else
        var tokens := ParsePointer(pointer);
        if tokens.None? || |tokens.value| < 2 || (tokens.value[0] != "$defs" && tokens.value[0] != "definitions")
        then None else tokens
  }

  /** `_resolve_local_schema_ref_gemini`: a definition inside `root`, which must be an object. */
  function Resolve(root: Json, ref: string): Option<Json> {
    var tokens := RefTokens(ref);
    if tokens.None? then None
    else
      var target := Walk(root, tokens.value);
      if target.Some? && target.value.Obj? then target else None
  }

  /** Every reference written for a token list under a definition map reaches what the tokens name. */
  lemma ResolveReachesTokens(root: Json, tokens: seq<string>, keep: set<char>)
    requires |tokens| >= 2 && (tokens[0] == "$defs" || tokens[0] == "definitions")
    requires '%' !in keep && '/' in keep
    ensures var ref := "#" + Quote(Pointer(tokens), keep);
            Resolve(root, ref) ==
            (var t := Walk(root, tokens); if t.Some? && t.value.Obj? then t else None)
  {
    var p := Pointer(tokens);
    ParseUndoesEscape(tokens);
    UnquoteQuote(p, keep);
    var ref := "#" + Quote(p, keep);
    assert p[0] == '/';
    assert ref[1..] == Quote(p, keep);
    assert ref[..2] == "#/";
  }

  /** And nothing else resolves: a reference that does is local and names, by two tokens or more from a
      definition map on, an object of the document. */
  lemma ResolvedIsDefinition(root: Json, ref: string)
    requires Resolve(root, ref).Some?
    ensures "#/" <= ref && Resolve(root, ref).value.Obj?
    ensures exists tokens ::
              && |tokens| >= 2 && (tokens[0] == "$defs" || tokens[0] == "definitions")
              && Walk(root, tokens) == Resolve(root, ref)
  {
    var tokens := RefTokens(ref).value;
    assert |tokens| >= 2 && Walk(root, tokens) == Resolve(root, ref);
  }

  // ---- the loops of the resolver

  function Prepend(token: string, rest: Option<string>): Option<string> {
    if rest.None? then None else Some(token + rest.value)
  }

  lemma PrependOne(token: string, c: char, rest: Option<string>)
    ensures Prepend(token, Prepend([c], rest)) == Prepend(token + [c], rest)
  {
    if rest.Some? {
      assert token + ([c] + rest.value) == token + [c] + rest.value;
    }
  }

  method DecodeToken(raw: string) returns (result: Option<string>)
    ensures result == UnescapeToken(raw)
  {
    var token, index := "", 0;
    assert raw[0..] == raw;
    assert UnescapeToken(raw).Some? ==> "" + UnescapeToken(raw).value == UnescapeToken(raw).value;
    while index < |raw|
      invariant 0 <= index <= |raw| && UnescapeToken(raw) == Prepend(token, UnescapeToken(raw[index..]))
    {
      ghost var left := raw[index..];
      if raw[index] != '~' {
        assert left[1..] == raw[index + 1..];
        PrependOne(token, raw[index], UnescapeToken(left[1..]));
        token := token + [raw[index]];
        index := index + 1;
      } else {
        if index + 1 >= |raw| || (raw[index + 1] != '0' && raw[index + 1] != '1') {
          return None;
        }
        var c := if raw[index + 1] == '0' then '~' else '/';
        assert left[2..] == raw[index + 2..];
        PrependOne(token, c, UnescapeToken(left[2..]));
        token := token + [c];
        index := index + 2;
      }
    }
    assert token + "" == token;
    return Some(token);
  }

  method ResolveRef(root: Json, ref: string) returns (result: Option<Json>)
    ensures result == Resolve(root, ref)
  {
    var tokens := RefTokens(ref);
    if tokens.None? {
      return None;
    }
    var target := root;
    var i := 0;
    assert tokens.value[0..] == tokens.value;
    while i < |tokens.value|
      invariant 0 <= i <= |tokens.value| && Walk(root, tokens.value) == Walk(target, tokens.value[i..])
    {
      assert tokens.value[i..][1..] == tokens.value[i + 1..];
      var next := Enter(target, tokens.value[i]);
      if next.None? {
        return None;
      }
      target := next.value;
      i := i + 1;
    }
    if !target.Obj? {
      return None;
    }
    return Some(target);
  }
}
