/** The compatibility fallback of provider requests: after a rejection, drop one optional field and
    post again.  The server is an adversary that picks every reply. */
module CompatFallback {
  import opened Prelude
  import opened Json

  /** What a fallback may remove from a payload. */
  datatype Removable =
    | CacheControl | PromptCacheKey | SessionId | PromptCacheOptions
    | Reasoning | ModelFields | Temperature | NestedTemperature

  /** A rejection, as far as the choice of a fallback depends on it: the status and what the error
      text mentions.  `named` is the first cache field whose alias occurs in the text. */
  datatype Reply = Reply(status: int, named: Option<Removable>, cacheHint: bool, schemaHint: bool,
                         otherField: bool, region: bool, reasoning: bool, temperature: bool)

  /** `Responses` is the wire whose loop offers only the generic cache fallback. */
  datatype Provider = OpenRouter | Bedrock | Responses | Other

  /** The provider called and whether reasoning was asked for. */
  datatype Setup = Setup(provider: Provider, withReasoning: bool)

  datatype Code =
    | RegionRejected(field: Removable)
    | CacheRejected(field: Removable)
    | ReasoningRejected
    | TemperatureRejected

  // ---- cache markers inside content blocks

  predicate MarkedBlock(block: Json) {
    block.Obj? && (Has(block.fields, "cache_control") || Has(block.fields, "cachePoint"))
  }

  predicate MarkedBlocks(value: Json) {
    value.Arr? && exists i :: 0 <= i < |value.items| && MarkedBlock(value.items[i])
  }

  function Member(value: Json, key: string): Json {
    if value.Obj? && Has(value.fields, key) then Get(value.fields, key).value else Null
  }

  predicate MarkedMessages(value: Json) {
    value.Arr? && exists i :: 0 <= i < |value.items| && MarkedBlocks(Member(value.items[i], "content"))
  }

  predicate Marked(payload: seq<Field>) {
    || Has(payload, "cache_control")
    || (Has(payload, "system") && MarkedBlocks(Get(payload, "system").value))
    || (Has(payload, "messages") && MarkedMessages(Get(payload, "messages").value))
    || (Has(payload, "toolConfig") && MarkedBlocks(Member(Get(payload, "toolConfig").value, "tools")))
  }

  /** Drops `cachePoint` blocks and takes `cache_control` off the others. */
  function Unmarked(blocks: seq<Json>): seq<Json> {
    if blocks == [] then []
    else if blocks[0].Obj? && Has(blocks[0].fields, "cachePoint") then Unmarked(blocks[1..])
    else
      [if blocks[0].Obj? then Obj(Without(blocks[0].fields, "cache_control")) else blocks[0]]
      + Unmarked(blocks[1..])
  }

  function UnmarkList(value: Json): Json {
    if value.Arr? then Arr(Unmarked(value.items)) else value
  }

  function UnmarkMember(value: Json, key: string): Json {
    if value.Obj? && Has(value.fields, key)
    then Obj(With(value.fields, key, UnmarkList(Get(value.fields, key).value)))
    else value
  }

  function UnmarkMessages(messages: seq<Json>): seq<Json> {
    if messages == [] then [] else [UnmarkMember(messages[0], "content")] + UnmarkMessages(messages[1..])
  }

  function UnmarkMessageList(value: Json): Json {
    if value.Arr? then Arr(UnmarkMessages(value.items)) else value
  }

  /** The unmarked form of one top-level value; only three keys hold content blocks. */
  function UnmarkValue(key: string, value: Json): Json {
    if key == "system" then UnmarkList(value)
    else if key == "messages" then UnmarkMessageList(value)
    else if key == "toolConfig" then UnmarkMember(value, "tools")
    else value
  }

  function Edited(payload: seq<Field>, key: string): seq<Field> {
    if Has(payload, key) then With(payload, key, UnmarkValue(key, Get(payload, key).value)) else payload
  }

  /** `_without_provider_cache_control`. */
  function WithoutMarkers(payload: seq<Field>): seq<Field> {
    Edited(Edited(Edited(Without(payload, "cache_control"), "system"), "messages"), "toolConfig")
  }

  // ---- the choice

  function Key(r: Removable): string {
    match r
    case CacheControl => "cache_control"
    case PromptCacheKey => "prompt_cache_key"
    case SessionId => "session_id"
    case PromptCacheOptions => "prompt_cache_options"
    case Reasoning => "reasoning"
    case ModelFields => "additionalModelRequestFields"
    case Temperature => "temperature"
    case NestedTemperature => "inferenceConfig"
  }

  predicate Present(payload: seq<Field>, r: Removable) {
    match r
    case CacheControl => Marked(payload)
    case NestedTemperature =>
      Has(payload, Key(r)) && Get(payload, Key(r)).value.Obj? && Has(Get(payload, Key(r)).value.fields, "temperature")
    case _ => Has(payload, Key(r))
  }

  function Drop(payload: seq<Field>, r: Removable): seq<Field>
    requires Present(payload, r)
  {
    match r
    case CacheControl => WithoutMarkers(payload)
    case NestedTemperature =>
      With(payload, Key(r), Obj(Without(Get(payload, Key(r)).value.fields, "temperature")))
    case _ => Without(payload, Key(r))
  }

  predicate IsCacheField(r: Removable) {
    r == CacheControl || r == PromptCacheKey || r == SessionId || r == PromptCacheOptions
  }

  /** The first cache field present, in the fixed order. */
  function FirstCacheField(payload: seq<Field>): Option<Removable> {
    if Present(payload, CacheControl) then Some(CacheControl)
    else if Present(payload, PromptCacheKey) then Some(PromptCacheKey)
    else if Present(payload, SessionId) then Some(SessionId)
    else if Present(payload, PromptCacheOptions) then Some(PromptCacheOptions)
    else None
  }

  predicate SchemaStatus(reply: Reply) {
    reply.status == 400 || reply.status == 422
  }

  function RegionChoice(payload: seq<Field>, reply: Reply, how: Setup): Option<Removable> {
    if how.provider != OpenRouter || reply.status != 403 || !reply.region then None
    else if Present(payload, SessionId) then Some(SessionId)
    else if Present(payload, Reasoning) then Some(Reasoning)
    else if Present(payload, CacheControl) then Some(CacheControl)
    else None
  }

  function CacheChoice(payload: seq<Field>, reply: Reply, requireHint: bool): Option<Removable> {
    if !SchemaStatus(reply) || FirstCacheField(payload).None? then None
    else if reply.named.Some? && IsCacheField(reply.named.value) && Present(payload, reply.named.value)
    then reply.named
    else if requireHint && !reply.cacheHint then None
    else if !requireHint && (!reply.schemaHint || reply.otherField) then None
    else FirstCacheField(payload)
  }

  function ReasoningChoice(payload: seq<Field>, reply: Reply, how: Setup): Option<Removable> {
    if !how.withReasoning || !SchemaStatus(reply) || !reply.reasoning then None
    else if how.provider == Bedrock && Present(payload, ModelFields) then Some(ModelFields)
    else if how.provider == OpenRouter && Present(payload, Reasoning) then Some(Reasoning)
    else None
  }

  function TemperatureChoice(payload: seq<Field>, reply: Reply): Option<Removable> {
    if !SchemaStatus(reply) || !reply.temperature then None
    else if Present(payload, Temperature) then Some(Temperature)
    else if Present(payload, NestedTemperature) then Some(NestedTemperature)
    else None
  }

  /** `_compatibility_fallback`: which field goes, and under which code. */
  function Choose(payload: seq<Field>, reply: Reply, how: Setup): (c: Option<(Removable, Code)>)
    ensures c.Some? ==> Usable(payload, how, c.value.0)
  {
    var region := RegionChoice(payload, reply, how);
    if how.provider == Responses then
      var only := CacheChoice(payload, reply, false);
      if only.Some? then Some((only.value, CacheRejected(only.value))) else None
    else if region.Some? then Some((region.value, RegionRejected(region.value)))
    else
      var cache := CacheChoice(payload, reply, true);
      if cache.Some? then Some((cache.value, CacheRejected(cache.value)))
      else
        var reasoning := ReasoningChoice(payload, reply, how);
        if reasoning.Some? then Some((reasoning.value, ReasoningRejected))
        else
          var temperature := TemperatureChoice(payload, reply);
          if temperature.Some? then Some((temperature.value, TemperatureRejected))
          else
            var generic := CacheChoice(payload, reply, false);
            if generic.Some? then Some((generic.value, CacheRejected(generic.value))) else None
  }

  /** The fields some reply can take off this payload. */
  predicate Usable(payload: seq<Field>, how: Setup, r: Removable) {
    && Present(payload, r)
    && (r == Reasoning ==> how.provider == OpenRouter)
    && (r == ModelFields ==> how.provider == Bedrock && how.withReasoning)
    && (how.provider == Responses ==> IsCacheField(r))
  }

  function Count(p: Removable -> bool): nat {
    One(p(CacheControl)) + One(p(PromptCacheKey)) + One(p(SessionId)) + One(p(PromptCacheOptions))
    + One(p(Reasoning)) + One(p(ModelFields)) + One(p(Temperature)) + One(p(NestedTemperature))
  }

  /** How many fields are left to remove. */
  function Remaining(payload: seq<Field>, how: Setup): nat {
    Count(r => Usable(payload, how, r))
  }

  /** `_compatibility_attempt_limit`. */
  function AttemptLimit(payload: seq<Field>): nat {
    1 + One(Present(payload, CacheControl)) + One(Present(payload, PromptCacheKey))
    + One(Present(payload, SessionId)) + One(Present(payload, PromptCacheOptions))
    + One(Present(payload, Reasoning) || Present(payload, ModelFields))
    + One(Present(payload, Temperature) || Present(payload, NestedTemperature))
  }

  // ---- what removal means, key by key

  /** The value of `key` once the fields in `gone` are removed. */
  function Kept(value: Option<Json>, key: string, gone: set<Removable>): Option<Json> {
    if value.None? then None
    else if exists r :: r in gone && r != NestedTemperature && key == Key(r) then None
    else if NestedTemperature in gone && key == "inferenceConfig" && value.value.Obj?
    then Some(Obj(Without(value.value.fields, "temperature")))
    else if CacheControl in gone then Some(UnmarkValue(key, value.value))
    else value
  }

  /** `after` is `before` minus exactly the fields in `gone`. */
  ghost predicate Minus(after: seq<Field>, before: seq<Field>, gone: set<Removable>) {
    forall key :: Get(after, key) == Kept(Get(before, key), key, gone)
  }

  lemma KeysDiffer(r: Removable, r': Removable)
    requires r != r'
    ensures Key(r) != Key(r')
  {
    assert |Key(CacheControl)| == 13 && |Key(PromptCacheKey)| == 16 && |Key(SessionId)| == 10;
    assert |Key(PromptCacheOptions)| == 20 && |Key(Reasoning)| == 9 && |Key(ModelFields)| == 28;
    assert |Key(Temperature)| == 11 && |Key(NestedTemperature)| == 15;
  }

  lemma EditedKeyed(payload: seq<Field>, at: string, key: string)
    ensures Get(Edited(payload, at), key)
         == if key == at && Has(payload, key) then Some(UnmarkValue(key, Get(payload, key).value))
           else Get(payload, key)
  {
    if Has(payload, at) {
      GetWith(payload, at, UnmarkValue(at, Get(payload, at).value), key);
    }
  }

  lemma WithoutMarkersKeyed(payload: seq<Field>, key: string)
    ensures Get(WithoutMarkers(payload), key) == Kept(Get(payload, key), key, {CacheControl})
  {
    var p1 := Without(payload, "cache_control");
    var p2 := Edited(p1, "system");
    var p3 := Edited(p2, "messages");
    GetWithout(payload, "cache_control", key);
    EditedKeyed(p1, "system", key);
    EditedKeyed(p2, "messages", key);
    EditedKeyed(p3, "toolConfig", key);
    assert |"cache_control"| == 13 && |"system"| == 6 && |"messages"| == 8 && |"toolConfig"| == 10;
    assert CacheControl in {CacheControl};
  }

  /** Dropping one field removes that field and nothing else. */
  lemma DropIsMinus(payload: seq<Field>, r: Removable)
    requires Present(payload, r)
    ensures Minus(Drop(payload, r), payload, {r})
  {
    forall key
      ensures Get(Drop(payload, r), key) == Kept(Get(payload, key), key, {r})
    {
      DropKeyed(payload, r, key);
    }
  }

  lemma DropKeyed(payload: seq<Field>, r: Removable, key: string)
    requires Present(payload, r)
    ensures Get(Drop(payload, r), key) == Kept(Get(payload, key), key, {r})
  {
    match r
    case CacheControl => WithoutMarkersKeyed(payload, key);
    case NestedTemperature =>
      GetWith(payload, Key(r), Obj(Without(Get(payload, Key(r)).value.fields, "temperature")), key);
    case _ =>
      GetWithout(payload, Key(r), key);
      assert r in {r};
  }

  /** Removals compose: first `gone`, then `r`, is `gone + {r}`. */
  lemma KeptAgain(value: Option<Json>, key: string, gone: set<Removable>, r: Removable)
    requires r !in gone
    ensures Kept(Kept(value, key, gone), key, {r}) == Kept(value, key, gone + {r})
  {
  }

  lemma MinusAgain(after: seq<Field>, middle: seq<Field>, before: seq<Field>, gone: set<Removable>, r: Removable)
    requires Minus(middle, before, {r}) && Minus(after, middle, gone) && r !in gone
    ensures Minus(after, before, gone + {r})
  {
    forall key
      ensures Get(after, key) == Kept(Get(before, key), key, gone + {r})
    {
      KeptAgain(Get(before, key), key, gone, r);
    }
  }

  // ---- a removed field is gone, and every other one stays

  lemma {:induction false} UnmarkedIsClean(blocks: seq<Json>)
    ensures !MarkedBlocks(Arr(Unmarked(blocks)))
  {
    if blocks != [] {
      UnmarkedIsClean(blocks[1..]);
      assert !MarkedBlocks(Arr(Unmarked(blocks[1..])));
      if !(blocks[0].Obj? && Has(blocks[0].fields, "cachePoint")) {
        var head := if blocks[0].Obj? then Obj(Without(blocks[0].fields, "cache_control")) else blocks[0];
        if blocks[0].Obj? {
          GetWithout(blocks[0].fields, "cache_control", "cache_control");
          GetWithout(blocks[0].fields, "cache_control", "cachePoint");
        }
        var rest := Unmarked(blocks[1..]);
        forall i | 0 <= i < |rest| + 1
          ensures !MarkedBlock(([head] + rest)[i])
        {
          if i > 0 { assert !MarkedBlock(rest[i - 1]); }
        }
      }
    }
  }

  lemma UnmarkMemberIsClean(value: Json, key: string)
    ensures !MarkedBlocks(Member(UnmarkMember(value, key), key))
  {
    if value.Obj? && Has(value.fields, key) {
      var v := Get(value.fields, key).value;
      GetWith(value.fields, key, UnmarkList(v), key);
      if v.Arr? { UnmarkedIsClean(v.items); }
    }
  }

  lemma {:induction false} UnmarkMessagesIsClean(messages: seq<Json>)
    ensures !MarkedMessages(Arr(UnmarkMessages(messages)))
  {
    if messages != [] {
      UnmarkMessagesIsClean(messages[1..]);
      UnmarkMemberIsClean(messages[0], "content");
      var rest := UnmarkMessages(messages[1..]);
      assert !MarkedMessages(Arr(rest));
      forall i | 0 <= i < |rest| + 1
        ensures !MarkedBlocks(Member(([UnmarkMember(messages[0], "content")] + rest)[i], "content"))
      {
        if i > 0 { assert !MarkedBlocks(Member(rest[i - 1], "content")); }
      }
    }
  }

  predicate MarkedValue(key: string, value: Json) {
    if key == "system" then MarkedBlocks(value)
    else if key == "messages" then MarkedMessages(value)
    else key == "toolConfig" && MarkedBlocks(Member(value, "tools"))
  }

  lemma UnmarkValueIsClean(key: string, value: Json)
    ensures !MarkedValue(key, UnmarkValue(key, value))
  {
    UnmarkMemberIsClean(value, "tools");
    if value.Arr? {
      UnmarkedIsClean(value.items);
      UnmarkMessagesIsClean(value.items);
    }
  }

  lemma KeptHas(value: Option<Json>, gone: set<Removable>, r: Removable)
    requires r != NestedTemperature
    ensures Kept(value, Key(r), gone).Some? <==> value.Some? && r !in gone
  {
    forall r' | r' != r
      ensures Key(r') != Key(r)
    {
      KeysDiffer(r, r');
    }
  }

  lemma KeptOther(value: Option<Json>, key: string, gone: set<Removable>)
    requires key in ["system", "messages", "toolConfig", "inferenceConfig"]
    ensures Kept(value, key, gone).Some? <==> value.Some?
    ensures value.Some? && CacheControl in gone && key != "inferenceConfig" ==>
              Kept(value, key, gone).value == UnmarkValue(key, value.value)
    ensures value.Some? && CacheControl !in gone && key != "inferenceConfig" ==> Kept(value, key, gone) == value
    ensures value.Some? && key == "inferenceConfig" ==>
              Kept(value, key, gone).value == if NestedTemperature in gone && value.value.Obj?
                                              then Obj(Without(value.value.fields, "temperature"))
                                              else value.value
  {
    forall r: Removable | r != NestedTemperature
      ensures key != Key(r)
    {
      assert |"system"| == 6 && |"messages"| == 8 && |"toolConfig"| == 10 && |"inferenceConfig"| == 15;
      assert "toolConfig"[0] == 't' && "session_id"[0] == 's';
      assert |Key(CacheControl)| == 13 && |Key(PromptCacheKey)| == 16 && |Key(SessionId)| == 10;
      assert |Key(PromptCacheOptions)| == 20 && |Key(Reasoning)| == 9 && |Key(ModelFields)| == 28;
      assert |Key(Temperature)| == 11;
    }
  }

  lemma MarkedMinus(after: seq<Field>, before: seq<Field>, gone: set<Removable>)
    requires Minus(after, before, gone)
    ensures Marked(after) <==> Marked(before) && CacheControl !in gone
  {
    KeptHas(Get(before, "cache_control"), gone, CacheControl);
    assert Key(CacheControl) == "cache_control";
    forall key | key in ["system", "messages", "toolConfig"]
      ensures Has(after, key) <==> Has(before, key)
      ensures Has(after, key) && CacheControl in gone ==> !MarkedValue(key, Get(after, key).value)
      ensures Has(after, key) && CacheControl !in gone ==> Get(after, key) == Get(before, key)
    {
      KeptOther(Get(before, key), key, gone);
      if Has(before, key) { UnmarkValueIsClean(key, Get(before, key).value); }
    }
  }

  /** Exactly the removed fields are absent afterwards. */
  lemma PresentMinus(after: seq<Field>, before: seq<Field>, gone: set<Removable>, r: Removable)
    requires Minus(after, before, gone)
    ensures Present(after, r) <==> Present(before, r) && r !in gone
  {
    match r
    case CacheControl => MarkedMinus(after, before, gone);
    case NestedTemperature =>
      var v := Get(before, "inferenceConfig");
      KeptOther(v, "inferenceConfig", gone);
      if v.Some? && v.value.Obj? { GetWithout(v.value.fields, "temperature", "temperature"); }
    case _ => KeptHas(Get(before, Key(r)), gone, r);
  }

  lemma CountLess(p: Removable -> bool, q: Removable -> bool, r: Removable)
    requires p(r) && forall x :: q(x) <==> p(x) && x != r
    ensures Count(q) == Count(p) - 1
  {
    forall x
      ensures One(q(x)) == One(p(x)) - One(x == r)
    {
    }
  }

  lemma UsableMinus(after: seq<Field>, before: seq<Field>, gone: set<Removable>, how: Setup, r: Removable)
    requires Minus(after, before, gone)
    ensures Usable(after, how, r) <==> Usable(before, how, r) && r !in gone
  {
    PresentMinus(after, before, gone, r);
  }

  /** Every decision lowers the number of removable fields by one. */
  lemma EachDecisionLowers(payload: seq<Field>, how: Setup, r: Removable)
    requires Usable(payload, how, r)
    ensures Remaining(Drop(payload, r), how) == Remaining(payload, how) - 1
  {
    var after := Drop(payload, r);
    DropIsMinus(payload, r);
    forall r'
      ensures Usable(after, how, r') <==> Usable(payload, how, r') && r' != r
    {
      UsableMinus(after, payload, {r}, how, r');
    }
    CountLess(x => Usable(payload, how, x), x => Usable(after, how, x), r);
  }

  // ---- the loop

  datatype Outcome = Accepted | Raised | Exhausted

  /** Where the loop ends: the payload it last holds, the codes it recorded and, beside each code,
      the field that went. */
  datatype Walked = Walked(outcome: Outcome, payload: seq<Field>, codes: seq<Code>, gone: seq<Removable>)

  /** The loop against the replies the server gives, one per attempt; no attempts left is the
      `else` of the `for`. */
  function Walk(payload: seq<Field>, how: Setup, replies: seq<Reply>): Walked
    decreases |replies|
  {
    if replies == [] then Walked(Exhausted, payload, [], [])
    else if replies[0].status < 400 then Walked(Accepted, payload, [], [])
    else
      var c := Choose(payload, replies[0], how);
      if c.None? then Walked(Raised, payload, [], [])
      else
        var rest := Walk(Drop(payload, c.value.0), how, replies[1..]);
        Walked(rest.outcome, rest.payload, [c.value.1] + rest.codes, [c.value.0] + rest.gone)
  }

  predicate Names(code: Code, r: Removable) {
    match code
    case RegionRejected(f) => f == r
    case CacheRejected(f) => f == r && IsCacheField(r)
    case ReasoningRejected => r == Reasoning || r == ModelFields
    case TemperatureRejected => r == Temperature || r == NestedTemperature
  }

  lemma ChooseNames(payload: seq<Field>, reply: Reply, how: Setup)
    requires Choose(payload, reply, how).Some?
    ensures var c := Choose(payload, reply, how).value; Names(c.1, c.0)
  {
  }

  predicate Distinct(rs: seq<Removable>) {
    forall i, j :: 0 <= i < j < |rs| ==> rs[i] != rs[j]
  }

  function Elements(rs: seq<Removable>): set<Removable> {
    set r | r in rs
  }

  /** Each code names the field beside it, each field could be removed, and none went twice. */
  predicate Recorded(payload: seq<Field>, how: Setup, codes: seq<Code>, gone: seq<Removable>) {
    && |codes| == |gone| && Distinct(gone)
    && (forall i :: 0 <= i < |gone| ==> Names(codes[i], gone[i]) && Usable(payload, how, gone[i]))
  }

  /** What one walk says about the whole loop. */
  ghost predicate Monotone(payload: seq<Field>, how: Setup, w: Walked) {
    && Recorded(payload, how, w.codes, w.gone)
    && Minus(w.payload, payload, Elements(w.gone))
    && Remaining(w.payload, how) + |w.gone| == Remaining(payload, how)
  }

  lemma StillUsable(payload: seq<Field>, how: Setup, r: Removable, r': Removable)
    requires Usable(payload, how, r) && Usable(Drop(payload, r), how, r')
    ensures Usable(payload, how, r') && r' != r
  {
    DropIsMinus(payload, r);
    UsableMinus(Drop(payload, r), payload, {r}, how, r');
  }

  lemma MinusStep(payload: seq<Field>, r: Removable, after: seq<Field>, gone: seq<Removable>)
    requires Present(payload, r) && r !in gone && Minus(after, Drop(payload, r), Elements(gone))
    ensures Minus(after, payload, Elements([r] + gone))
  {
    DropIsMinus(payload, r);
    MinusAgain(after, Drop(payload, r), payload, Elements(gone), r);
    assert Elements([r] + gone) == Elements(gone) + {r};
  }

  lemma RecordedStep(payload: seq<Field>, how: Setup, r: Removable, code: Code, codes: seq<Code>, gone: seq<Removable>)
    requires Usable(payload, how, r) && Names(code, r) && Recorded(Drop(payload, r), how, codes, gone)
    ensures Recorded(payload, how, [code] + codes, [r] + gone) && r !in gone
  {
    forall i | 0 <= i < |gone|
      ensures Usable(payload, how, gone[i]) && gone[i] != r
    {
      StillUsable(payload, how, r, gone[i]);
    }
  }

  lemma MonotoneStep(payload: seq<Field>, how: Setup, r: Removable, code: Code, w: Walked)
    requires Usable(payload, how, r) && Names(code, r)
    requires Monotone(Drop(payload, r), how, w)
    ensures Monotone(payload, how, Walked(w.outcome, w.payload, [code] + w.codes, [r] + w.gone))
  {
    EachDecisionLowers(payload, how, r);
    RecordedStep(payload, how, r, code, w.codes, w.gone);
    MinusStep(payload, r, w.payload, w.gone);
  }

  /** For every sequence of replies: no field is removed twice, every code names the field that
      went, and the payload at the end is the first one minus exactly those fields. */
  lemma {:induction false} WalkIsMonotone(payload: seq<Field>, how: Setup, replies: seq<Reply>)
    ensures Monotone(payload, how, Walk(payload, how, replies))
    decreases |replies|
  {
    if replies == [] || replies[0].status < 400 || Choose(payload, replies[0], how).None? {
      assert Elements([]) == {};
    } else {
      var c := Choose(payload, replies[0], how).value;
      ChooseNames(payload, replies[0], how);
      WalkIsMonotone(Drop(payload, c.0), how, replies[1..]);
      MonotoneStep(payload, how, c.0, c.1, Walk(Drop(payload, c.0), how, replies[1..]));
    }
  }

  lemma {:induction false} ExhaustedMeansAllUsed(payload: seq<Field>, how: Setup, replies: seq<Reply>)
    requires Walk(payload, how, replies).outcome == Exhausted
    ensures |Walk(payload, how, replies).gone| == |replies|
    decreases |replies|
  {
    if replies != [] {
      ExhaustedMeansAllUsed(Drop(payload, Choose(payload, replies[0], how).value.0), how, replies[1..]);
    }
  }

  /** A reply that takes some field off any payload that has one left. */
  function Rejection(payload: seq<Field>, how: Setup): Reply {
    var none := Reply(400, None, false, false, false, false, false, false);
    if FirstCacheField(payload).Some? then none.(named := FirstCacheField(payload), cacheHint := true)
    else if Usable(payload, how, Reasoning) then none.(status := 403, region := true)
    else if Usable(payload, how, ModelFields) then none.(reasoning := true)
    else none.(temperature := true)
  }

  lemma CacheRejectionBites(payload: seq<Field>, how: Setup)
    requires FirstCacheField(payload).Some?
    ensures Choose(payload, Rejection(payload, how), how).Some?
  {
    var reply := Rejection(payload, how);
    assert CacheChoice(payload, reply, true) == CacheChoice(payload, reply, false) == reply.named;
  }

  lemma RejectionBites(payload: seq<Field>, how: Setup)
    requires Remaining(payload, how) > 0
    ensures Choose(payload, Rejection(payload, how), how).Some?
  {
    var r: Removable :| Usable(payload, how, r);
    if FirstCacheField(payload).Some? { CacheRejectionBites(payload, how); }
  }

  /** The adversary that always rejects. */
  function Rejections(payload: seq<Field>, how: Setup, n: nat): seq<Reply>
    decreases n
  {
    if n == 0 then []
    else
      var c := Choose(payload, Rejection(payload, how), how);
      [Rejection(payload, how)] + (if c.None? then seq(n - 1, _ => Rejection(payload, how))
        else Rejections(Drop(payload, c.value.0), how, n - 1))
  }

  lemma {:induction false} RejectionsExhaust(payload: seq<Field>, how: Setup, n: nat)
    requires n <= Remaining(payload, how)
    ensures |Rejections(payload, how, n)| == n
    ensures Walk(payload, how, Rejections(payload, how, n)).outcome == Exhausted
    decreases n
  {
    if n > 0 {
      RejectionBites(payload, how);
      var c := Choose(payload, Rejection(payload, how), how).value;
      EachDecisionLowers(payload, how, c.0);
      RejectionsExhaust(Drop(payload, c.0), how, n - 1);
      assert Rejections(payload, how, n)[1..] == Rejections(Drop(payload, c.0), how, n - 1);
    }
  }

  /** The one shape the attempt limit undercounts: both temperatures are sent (counted once, removed
      one at a time) and no counted reasoning field is out of the fallback's reach. */
  predicate Undercounted(payload: seq<Field>, how: Setup) {
    && how.provider != Responses
    && Present(payload, Temperature) && Present(payload, NestedTemperature)
    && (Present(payload, Reasoning) || Present(payload, ModelFields) ==>
          Usable(payload, how, Reasoning) || Usable(payload, how, ModelFields))
  }

  lemma LimitCounts(payload: seq<Field>, how: Setup)
    ensures AttemptLimit(payload) <= Remaining(payload, how) <==> Undercounted(payload, how)
  {
  }

  /** The `else` of the loop is reachable exactly for undercounted payloads. */
  lemma ExhaustionIffUndercounted(payload: seq<Field>, how: Setup)
    ensures Undercounted(payload, how) <==>
            exists replies: seq<Reply> :: |replies| == AttemptLimit(payload) &&
              Walk(payload, how, replies).outcome == Exhausted
  {
    LimitCounts(payload, how);
    if Undercounted(payload, how) {
      RejectionsExhaust(payload, how, AttemptLimit(payload));
    } else {
      forall replies: seq<Reply> | |replies| == AttemptLimit(payload)
        ensures Walk(payload, how, replies).outcome != Exhausted
      {
        if Walk(payload, how, replies).outcome == Exhausted {
          ExhaustedMeansAllUsed(payload, how, replies);
          WalkIsMonotone(payload, how, replies);
        }
      }
    }
  }

  function Prefixed(codes: seq<Code>, gone: seq<Removable>, w: Walked): Walked {
    Walked(w.outcome, w.payload, codes + w.codes, gone + w.gone)
  }

  lemma PrefixedAgain(codes: seq<Code>, gone: seq<Removable>, code: Code, r: Removable, w: Walked)
    ensures Prefixed(codes, gone, Walked(w.outcome, w.payload, [code] + w.codes, [r] + w.gone))
         == Prefixed(codes + [code], gone + [r], w)
  {
    assert codes + ([code] + w.codes) == (codes + [code]) + w.codes;
    assert gone + ([r] + w.gone) == (gone + [r]) + w.gone;
  }

  /** The loop over the attempts, one reply for each. */
  method Attempts(payload: seq<Field>, how: Setup, replies: seq<Reply>)
      returns (outcome: Outcome, current: seq<Field>, codes: seq<Code>, posts: nat)
    ensures var w := Walk(payload, how, replies);
            outcome == w.outcome && current == w.payload && codes == w.codes
    ensures posts == |codes| + (if outcome == Exhausted then 0 else 1) <= |replies|
  {
    current, codes, posts := payload, [], 0;
    ghost var gone: seq<Removable> := [];
    assert replies[0..] == replies;
    while posts < |replies|
      invariant posts <= |replies| && |codes| == posts
      invariant Walk(payload, how, replies) == Prefixed(codes, gone, Walk(current, how, replies[posts..]))
    {
      var reply := replies[posts];
      assert replies[posts..][0] == reply && replies[posts..][1..] == replies[posts + 1..];
      posts := posts + 1;
      if reply.status < 400 {
        outcome := Accepted;
        return;
      }
      var c := Choose(current, reply, how);
      if c.None? {
        outcome := Raised;
        return;
      }
      current, codes := Drop(current, c.value.0), codes + [c.value.1];
      PrefixedAgain(codes[..posts - 1], gone, c.value.1, c.value.0, Walk(current, how, replies[posts..]));
      gone := gone + [c.value.0];
    }
    outcome := Exhausted;
  }

  /** The fallback loop: at most the attempt limit of posts, and what every walk promises. */
  method PostWithFallbacks(payload: seq<Field>, how: Setup, replies: seq<Reply>)
      returns (outcome: Outcome, current: seq<Field>, codes: seq<Code>, posts: nat)
    requires |replies| >= AttemptLimit(payload)
    ensures var w := Walk(payload, how, replies[..AttemptLimit(payload)]);
            w.outcome == outcome && w.payload == current && w.codes == codes
    ensures 0 < posts <= AttemptLimit(payload) && posts == |codes| + (if outcome == Exhausted then 0 else 1)
    ensures !Undercounted(payload, how) ==> outcome != Exhausted
  {
    var taken := replies[..AttemptLimit(payload)];
    outcome, current, codes, posts := Attempts(payload, how, taken);
    ExhaustionIffUndercounted(payload, how);
    if outcome == Exhausted {
      assert |taken| == AttemptLimit(payload) && Walk(payload, how, taken).outcome == Exhausted;
      ExhaustedMeansAllUsed(payload, how, taken);
      WalkIsMonotone(payload, how, taken);
    }
  }

  // ---- what is left of the content

  /** The block is the same but for its marker; anything but an object is untouched. */
  ghost predicate SameBlock(b: Json, b': Json) {
    if b.Obj? then
      && b'.Obj? && !Has(b'.fields, "cache_control")
      && forall key :: key != "cache_control" ==> Get(b'.fields, key) == Get(b.fields, key)
    else b' == b
  }

  /** The blocks that are no cache points. */
  function Unpointed(blocks: seq<Json>): seq<Json> {
    if blocks == [] then []
    else if blocks[0].Obj? && Has(blocks[0].fields, "cachePoint") then Unpointed(blocks[1..])
    else [blocks[0]] + Unpointed(blocks[1..])
  }

  /** The blocks that are no cache points, in order, each the same but for its marker. */
  ghost predicate Cleaned(before: seq<Json>, after: seq<Json>) {
    var kept := Unpointed(before);
    |after| == |kept| && forall i :: 0 <= i < |kept| ==> SameBlock(kept[i], after[i])
  }

  ghost predicate CleanedList(v: Json, v': Json) {
    if v.Arr? then v'.Arr? && Cleaned(v.items, v'.items) else v' == v
  }

  /** One member holds blocks and is cleaned; every other member is untouched. */
  ghost predicate CleanedMember(v: Json, v': Json, member: string) {
    if v.Obj? && Has(v.fields, member) then
      && v'.Obj? && Has(v'.fields, member)
      && CleanedList(Get(v.fields, member).value, Get(v'.fields, member).value)
      && forall key :: key != member ==> Get(v'.fields, key) == Get(v.fields, key)
    else v' == v
  }

  ghost predicate CleanedMessages(v: Json, v': Json) {
    if v.Arr? then
      && v'.Arr? && |v'.items| == |v.items|
      && forall i :: 0 <= i < |v.items| ==> CleanedMember(v.items[i], v'.items[i], "content")
    else v' == v
  }

  ghost predicate CleanedValue(key: string, v: Json, v': Json) {
    if key == "system" then CleanedList(v, v')
    else if key == "messages" then CleanedMessages(v, v')
    else if key == "toolConfig" then CleanedMember(v, v', "tools")
    else v' == v
  }

  /** Only the nested temperature is missing. */
  ghost predicate Cooled(v: Json, v': Json) {
    if v.Obj? then
      && v'.Obj? && !Has(v'.fields, "temperature")
      && forall key :: key != "temperature" ==> Get(v'.fields, key) == Get(v.fields, key)
    else v' == v
  }

  /** What may have become of the value of `key` once the fields in `gone` are removed. */
  ghost predicate Content(key: string, v: Option<Json>, v': Option<Json>, gone: set<Removable>) {
    if v.None? || exists r :: r in gone && r != NestedTemperature && key == Key(r) then v'.None?
    else if NestedTemperature in gone && key == "inferenceConfig" then v'.Some? && Cooled(v.value, v'.value)
    else if CacheControl in gone then v'.Some? && CleanedValue(key, v.value, v'.value)
    else v' == v
  }

  lemma PoppedIsSame(fs: seq<Field>, key: string)
    ensures !Has(Without(fs, key), key) && forall k :: k != key ==> Get(Without(fs, key), k) == Get(fs, k)
  {
    GetWithout(fs, key, key);
    forall k | k != key
      ensures Get(Without(fs, key), k) == Get(fs, k)
    {
      GetWithout(fs, key, k);
    }
  }

  /** Whatever a list of blocks holds, stripping drops its cache points and takes the markers off the
      rest, and does nothing else. */
  lemma {:induction false} UnmarkedCleans(blocks: seq<Json>)
    ensures Cleaned(blocks, Unmarked(blocks))
  {
    if blocks != [] {
      UnmarkedCleans(blocks[1..]);
      if !(blocks[0].Obj? && Has(blocks[0].fields, "cachePoint")) {
        var head := if blocks[0].Obj? then Obj(Without(blocks[0].fields, "cache_control")) else blocks[0];
        if blocks[0].Obj? { PoppedIsSame(blocks[0].fields, "cache_control"); }
        assert SameBlock(blocks[0], head);
        var kept, rest := Unpointed(blocks[1..]), Unmarked(blocks[1..]);
        forall i | 0 <= i < |kept| + 1
          ensures SameBlock(([blocks[0]] + kept)[i], ([head] + rest)[i])
        {
          if i > 0 { assert SameBlock(kept[i - 1], rest[i - 1]); }
        }
      }
    }
  }

  lemma UnmarkMemberCleans(v: Json, member: string)
    ensures CleanedMember(v, UnmarkMember(v, member), member)
  {
    if v.Obj? && Has(v.fields, member) {
      var list := Get(v.fields, member).value;
      if list.Arr? { UnmarkedCleans(list.items); }
      GetWith(v.fields, member, UnmarkList(list), member);
      forall key | key != member
        ensures Get(UnmarkMember(v, member).fields, key) == Get(v.fields, key)
      {
        GetWith(v.fields, member, UnmarkList(list), key);
      }
    }
  }

  lemma {:induction false} UnmarkMessagesClean(messages: seq<Json>)
    ensures CleanedMessages(Arr(messages), Arr(UnmarkMessages(messages)))
  {
    if messages != [] {
      UnmarkMessagesClean(messages[1..]);
      UnmarkMemberCleans(messages[0], "content");
      var rest := UnmarkMessages(messages[1..]);
      forall i | 0 <= i < |messages|
        ensures CleanedMember(messages[i], ([UnmarkMember(messages[0], "content")] + rest)[i], "content")
      {
        if i > 0 { assert CleanedMember(messages[1..][i - 1], rest[i - 1], "content"); }
      }
    }
  }

  lemma UnmarkValueCleans(key: string, v: Json)
    ensures CleanedValue(key, v, UnmarkValue(key, v))
  {
    UnmarkMemberCleans(v, "tools");
    if v.Arr? {
      UnmarkedCleans(v.items);
      UnmarkMessagesClean(v.items);
    }
  }

  lemma KeptContent(v: Option<Json>, key: string, gone: set<Removable>)
    ensures Content(key, v, Kept(v, key, gone), gone)
  {
    if v.Some? {
      UnmarkValueCleans(key, v.value);
      if v.value.Obj? { PoppedIsSame(v.value.fields, "temperature"); }
      if key == "inferenceConfig" { NotHolding(v.value); }
    }
  }

  lemma NotHolding(v: Json)
    ensures UnmarkValue("inferenceConfig", v) == v
  {
    assert |"inferenceConfig"| == 15 && |"system"| == 6 && |"messages"| == 8 && |"toolConfig"| == 10;
  }

  /** For every sequence of replies and every key of the payload: the removed fields are absent, cache
      points and markers are gone from block lists, and everything else is as it was. */
  lemma WalkKeepsContent(payload: seq<Field>, how: Setup, replies: seq<Reply>, key: string)
    ensures var w := Walk(payload, how, replies);
            Content(key, Get(payload, key), Get(w.payload, key), Elements(w.gone))
  {
    WalkIsMonotone(payload, how, replies);
    KeptContent(Get(payload, key), key, Elements(Walk(payload, how, replies).gone));
  }

  /** Without a marker there is nothing to erase, whatever the blocks hold. */
  lemma {:induction false} UnmarkedKeepsContent(blocks: seq<Json>)
    requires !MarkedBlocks(Arr(blocks))
    ensures Unmarked(blocks) == blocks
  {
    if blocks != [] {
      forall i | 0 <= i < |blocks[1..]|
        ensures !MarkedBlock(blocks[1..][i])
      {
        assert !MarkedBlock(blocks[i + 1]);
      }
      UnmarkedKeepsContent(blocks[1..]);
      assert !MarkedBlock(blocks[0]);
      if blocks[0].Obj? { WithoutAbsent(blocks[0].fields, "cache_control"); }
    }
  }

  lemma KeptUntouched(value: Option<Json>, key: string, gone: set<Removable>)
    requires forall r :: key != Key(r)
    requires key !in ["system", "messages", "toolConfig"]
    ensures Kept(value, key, gone) == value
  {
    assert Key(NestedTemperature) == "inferenceConfig";
  }

  /** No fallback touches a key outside the removable fields and the places that hold blocks; the
      tools are such a key. */
  lemma OtherKeysIntact(payload: seq<Field>, how: Setup, replies: seq<Reply>, key: string)
    requires forall r :: key != Key(r)
    requires key !in ["system", "messages", "toolConfig"]
    ensures Get(Walk(payload, how, replies).payload, key) == Get(payload, key)
  {
    WalkIsMonotone(payload, how, replies);
    KeptUntouched(Get(payload, key), key, Elements(Walk(payload, how, replies).gone));
  }

  lemma ToolsIntact(payload: seq<Field>, how: Setup, replies: seq<Reply>)
    ensures Get(Walk(payload, how, replies).payload, "tools") == Get(payload, "tools")
  {
    assert |"tools"| == 5 && |"system"| == 6 && |"messages"| == 8 && |"toolConfig"| == 10;
    forall r
      ensures "tools" != Key(r)
    {
      assert |Key(CacheControl)| == 13 && |Key(PromptCacheKey)| == 16 && |Key(SessionId)| == 10;
      assert |Key(PromptCacheOptions)| == 20 && |Key(Reasoning)| == 9 && |Key(ModelFields)| == 28;
      assert |Key(Temperature)| == 11 && |Key(NestedTemperature)| == 15;
    }
    OtherKeysIntact(payload, how, replies, "tools");
  }

  /** Bedrock keeps its tools inside `toolConfig`: they stay in order, each but for its marker, and so
      do the other members there. */
  lemma BedrockToolsIntact(payload: seq<Field>, how: Setup, replies: seq<Reply>)
    requires Has(payload, "toolConfig")
    ensures var w := Walk(payload, how, replies);
            && Has(w.payload, "toolConfig")
            && var v, v' := Get(payload, "toolConfig").value, Get(w.payload, "toolConfig").value;
            v' == v || CleanedMember(v, v', "tools")
  {
    WalkKeepsContent(payload, how, replies, "toolConfig");
    NoFieldIsToolConfig();
    assert |"toolConfig"| == 10 && |"system"| == 6 && |"messages"| == 8 && |"inferenceConfig"| == 15;
  }

  lemma NoFieldIsToolConfig()
    ensures forall r :: "toolConfig" != Key(r)
  {
    assert |"toolConfig"| == 10;
    assert |Key(CacheControl)| == 13 && |Key(PromptCacheKey)| == 16 && |Key(SessionId)| == 10;
    assert |Key(PromptCacheOptions)| == 20 && |Key(Reasoning)| == 9 && |Key(ModelFields)| == 28;
    assert |Key(Temperature)| == 11 && |Key(NestedTemperature)| == 15;
    assert "toolConfig"[0] == 't' && "session_id"[0] == 's';
  }
}
