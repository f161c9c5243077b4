/** The request builders whose payloads the compatibility loop sends: which keys each of them can
    write.  The values are whatever the caller and the encoders make them. */
module Payloads {
  import opened Prelude
  import opened Json
  import opened CompatFallback

  /** Assignment of a dictionary key. */
  function Put(fs: seq<Field>, key: string, value: Json): seq<Field> {
    if Has(fs, key) then With(fs, key, value) else fs + [Field(key, value)]
  }

  function Maybe(fs: seq<Field>, key: string, value: Option<Json>): seq<Field> {
    if value.Some? then Put(fs, key, value.value) else fs
  }

  function If(b: bool, value: Option<Json>): Option<Json> {
    if b then value else None
  }

  /** What a builder is given, with absence for everything it writes only sometimes.  `thinking` is
      what the model table adds, `forced` says that the tool choice forces a call. */
  datatype Request = Request(
    model: Json, messages: Json, maxTokens: Json, temperature: Option<Json>, format: Option<Json>,
    thinking: Option<Json>, reasoning: Option<Json>, modalities: Option<Json>, tools: Option<Json>,
    choice: Option<Json>, system: Option<Json>, cacheKey: Option<Json>, forced: bool)

  datatype Wire = Compat(provider: Provider, openAI: bool, deepSeek: bool) | ResponsesWire | AnthropicWire | BedrockWire

  const ThinkingOff := Obj([Field("type", Str("disabled"))])

  /** `_build_openai_compat_payload`.  The extra body is the model table's: thinking or nothing. */
  function CompatPayload(q: Request, provider: Provider, openAI: bool, deepSeek: bool): seq<Field> {
    CompatOptions(q, provider, openAI, deepSeek,
                  [Field("model", q.model), Field("messages", q.messages), Field("stream", Bool(false)),
                   Field("max_tokens", q.maxTokens)])
  }

  function CompatOptions(q: Request, provider: Provider, openAI: bool, deepSeek: bool, p0: seq<Field>): seq<Field> {
    var p1 := Maybe(Maybe(p0, "temperature", q.temperature), "response_format", q.format);
    var p2 := Maybe(Maybe(p1, "thinking", q.thinking), "reasoning", If(provider == OpenRouter, q.reasoning));
    var p3 := Maybe(Maybe(p2, "modalities", q.modalities), "tools", q.tools);
    var p4 := Maybe(p3, "tool_choice", If(q.tools.Some?, q.choice));
    var p5 := Maybe(p4, "thinking", If(q.tools.Some? && deepSeek && q.forced, Some(ThinkingOff)));
    Maybe(Maybe(p5, "prompt_cache_key", If(openAI, q.cacheKey)), "session_id", If(provider == OpenRouter, q.cacheKey))
  }

  /** `_build_openai_responses_payload`. */
  function ResponsesPayload(q: Request): seq<Field> {
    var p0 := [Field("model", q.model), Field("input", q.messages), Field("max_output_tokens", q.maxTokens),
               Field("store", Bool(false))];
    var p1 := Maybe(Maybe(p0, "reasoning", q.reasoning), "instructions", q.system);
    Maybe(Maybe(Maybe(p1, "tools", q.tools), "tool_choice", If(q.tools.Some?, q.choice)),
          "prompt_cache_key", q.cacheKey)
  }

  /** `_build_anthropic_payload`: thinking or the temperature, and thinking gives way to a forced call. */
  function AnthropicPayload(q: Request): seq<Field> {
    var p0 := [Field("model", q.model), Field("messages", q.messages), Field("max_tokens", q.maxTokens)];
    var p1 := if q.thinking.Some? then Maybe(p0, "thinking", q.thinking) else Maybe(p0, "temperature", q.temperature);
    var p2 := Maybe(Maybe(p1, "system", q.system), "tools", q.tools);
    var p3 := Maybe(p2, "tool_choice", If(q.tools.Some?, q.choice));
    if q.tools.Some? && q.forced then Without(p3, "thinking") else p3
  }

  /** `_build_bedrock_payload`: the temperature goes into the inference configuration. */
  function BedrockPayload(q: Request): seq<Field> {
    var config := Maybe([Field("maxTokens", q.maxTokens)], "temperature", If(q.thinking.None?, q.temperature));
    var p0 := [Field("messages", q.messages), Field("inferenceConfig", Obj(config))];
    Maybe(Maybe(Maybe(p0, "system", q.system), "additionalModelRequestFields", q.thinking), "toolConfig", q.tools)
  }

  function Built(q: Request, wire: Wire): seq<Field> {
    match wire
    case Compat(provider, openAI, deepSeek) => CompatPayload(q, provider, openAI, deepSeek)
    case ResponsesWire => ResponsesPayload(q)
    case AnthropicWire => AnthropicPayload(q)
    case BedrockWire => BedrockPayload(q)
  }

  /** The provider the loop names to the fallback for each wire. */
  predicate Runs(wire: Wire, how: Setup) {
    match wire
    case Compat(provider, _, _) => how.provider == provider && (provider == OpenRouter || provider == Other)
    case ResponsesWire => how.provider == Responses
    case AnthropicWire => how.provider == Other
    case BedrockWire => how.provider == Bedrock
  }

  /** Writing one key leaves another one absent. */
  lemma MaybeLacks(fs: seq<Field>, key: string, value: Option<Json>, other: string)
    requires !Has(fs, other) && key != other
    ensures !Has(Maybe(fs, key, value), other)
  {
    if value.Some? {
      GetWith(fs, key, value.value, other);
      GetAppend(fs, Field(key, value.value), other);
    }
  }

  lemma {:induction false} ListLacks(fs: seq<Field>, key: string)
    requires forall i :: 0 <= i < |fs| ==> fs[i].key != key
    ensures !Has(fs, key)
  {
    if fs != [] { ListLacks(fs[1..], key); }
  }

  const Nested := "inferenceConfig"

  lemma CompatLacks(q: Request, provider: Provider, openAI: bool, deepSeek: bool)
    ensures !Has(CompatPayload(q, provider, openAI, deepSeek), Nested)
  {
    var p0 := [Field("model", q.model), Field("messages", q.messages), Field("stream", Bool(false)),
               Field("max_tokens", q.maxTokens)];
    assert |Nested| == 15 && |"model"| == 5 && |"messages"| == 8 && |"stream"| == 6 && |"max_tokens"| == 10;
    ListLacks(p0, Nested);
    OptionsLack(q, provider, openAI, deepSeek, p0);
  }

  lemma OptionsLack(q: Request, provider: Provider, openAI: bool, deepSeek: bool, p0: seq<Field>)
    requires !Has(p0, Nested)
    ensures !Has(CompatOptions(q, provider, openAI, deepSeek, p0), Nested)
  {
    assert |Nested| == 15 && |"temperature"| == 11 && |"thinking"| == 8 && |"reasoning"| == 9 && |"modalities"| == 10;
    assert |"tools"| == 5 && |"tool_choice"| == 11 && |"prompt_cache_key"| == 16 && |"session_id"| == 10;
    assert Nested[0] == 'i' && "response_format"[0] == 'r';
    var a1 := Maybe(p0, "temperature", q.temperature);
    MaybeLacks(p0, "temperature", q.temperature, Nested);
    var p1 := Maybe(a1, "response_format", q.format);
    MaybeLacks(a1, "response_format", q.format, Nested);
    var a2 := Maybe(p1, "thinking", q.thinking);
    MaybeLacks(p1, "thinking", q.thinking, Nested);
    var p2 := Maybe(a2, "reasoning", If(provider == OpenRouter, q.reasoning));
    MaybeLacks(a2, "reasoning", If(provider == OpenRouter, q.reasoning), Nested);
    var a3 := Maybe(p2, "modalities", q.modalities);
    MaybeLacks(p2, "modalities", q.modalities, Nested);
    var p3 := Maybe(a3, "tools", q.tools);
    MaybeLacks(a3, "tools", q.tools, Nested);
    var p4 := Maybe(p3, "tool_choice", If(q.tools.Some?, q.choice));
    MaybeLacks(p3, "tool_choice", If(q.tools.Some?, q.choice), Nested);
    var off := If(q.tools.Some? && deepSeek && q.forced, Some(ThinkingOff));
    var p5 := Maybe(p4, "thinking", off);
    MaybeLacks(p4, "thinking", off, Nested);
    var p6 := Maybe(p5, "prompt_cache_key", If(openAI, q.cacheKey));
    MaybeLacks(p5, "prompt_cache_key", If(openAI, q.cacheKey), Nested);
    MaybeLacks(p6, "session_id", If(provider == OpenRouter, q.cacheKey), Nested);
  }

  lemma AnthropicLacks(q: Request)
    ensures !Has(AnthropicPayload(q), Nested)
  {
    assert |Nested| == 15 && |"model"| == 5 && |"messages"| == 8 && |"max_tokens"| == 10 && |"thinking"| == 8;
    assert |"temperature"| == 11 && |"system"| == 6 && |"tools"| == 5 && |"tool_choice"| == 11;
    var p0 := [Field("model", q.model), Field("messages", q.messages), Field("max_tokens", q.maxTokens)];
    ListLacks(p0, Nested);
    MaybeLacks(p0, "thinking", q.thinking, Nested);
    MaybeLacks(p0, "temperature", q.temperature, Nested);
    var p1 := if q.thinking.Some? then Maybe(p0, "thinking", q.thinking) else Maybe(p0, "temperature", q.temperature);
    var a := Maybe(p1, "system", q.system);
    var p2 := Maybe(a, "tools", q.tools);
    MaybeLacks(p1, "system", q.system, Nested);
    MaybeLacks(a, "tools", q.tools, Nested);
    var choice := If(q.tools.Some?, q.choice);
    MaybeLacks(p2, "tool_choice", choice, Nested);
    GetWithout(Maybe(p2, "tool_choice", choice), "thinking", Nested);
  }

  lemma BedrockLacks(q: Request)
    ensures !Has(BedrockPayload(q), "temperature")
  {
    assert |"temperature"| == 11 && |"messages"| == 8 && |Nested| == 15 && |"system"| == 6;
    assert |"additionalModelRequestFields"| == 28 && |"toolConfig"| == 10;
    var config := Maybe([Field("maxTokens", q.maxTokens)], "temperature", If(q.thinking.None?, q.temperature));
    var p0 := [Field("messages", q.messages), Field(Nested, Obj(config))];
    ListLacks(p0, "temperature");
    var a := Maybe(p0, "system", q.system);
    var b := Maybe(a, "additionalModelRequestFields", q.thinking);
    MaybeLacks(p0, "system", q.system, "temperature");
    MaybeLacks(a, "additionalModelRequestFields", q.thinking, "temperature");
    MaybeLacks(b, "toolConfig", q.tools, "temperature");
  }

  /** No builder writes both temperatures. */
  lemma BuiltIsCounted(q: Request, wire: Wire, how: Setup)
    requires Runs(wire, how)
    ensures !Undercounted(Built(q, wire), how)
  {
    match wire
    case Compat(provider, openAI, deepSeek) => CompatLacks(q, provider, openAI, deepSeek);
    case ResponsesWire =>
    case AnthropicWire => AnthropicLacks(q);
    case BedrockWire => BedrockLacks(q);
  }

  /** For every built payload and every sequence of replies the `else` of the loop is unreachable. */
  lemma BuiltNeverExhausts(q: Request, wire: Wire, how: Setup, replies: seq<Reply>)
    requires Runs(wire, how) && |replies| == AttemptLimit(Built(q, wire))
    ensures Walk(Built(q, wire), how, replies).outcome != Exhausted
  {
    BuiltIsCounted(q, wire, how);
    ExhaustionIffUndercounted(Built(q, wire), how);
  }
}
