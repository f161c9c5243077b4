/** Which field a rejection takes, told as a table over the status, what the text mentions and what the
    payload holds. */
module CompatChoice {
  import opened Prelude
  import opened Json
  import opened CompatFallback

  const CacheOrder: seq<Removable> := [CacheControl, PromptCacheKey, SessionId, PromptCacheOptions]
  const RegionOrder: seq<Removable> := [SessionId, Reasoning, CacheControl]
  const TemperatureOrder: seq<Removable> := [Temperature, NestedTemperature]

  /** `r` is the first of `order` that is there. */
  predicate FirstOf(there: Removable -> bool, order: seq<Removable>, r: Removable) {
    exists i :: 0 <= i < |order| && order[i] == r && there(r) && forall j :: 0 <= j < i ==> !there(order[j])
  }

  predicate SomeOf(there: Removable -> bool, order: seq<Removable>) {
    exists i :: 0 <= i < |order| && there(order[i])
  }

  /** Why a field goes. */
  datatype Ground = Region | Named | CacheHint | ReasoningText | TemperatureText | SchemaHint

  /** A cache field that is there is named in the text. */
  predicate NamesOne(there: Removable -> bool, reply: Reply) {
    reply.named.Some? && reply.named.value in CacheOrder && there(reply.named.value)
  }

  function ReasoningField(how: Setup): Option<Removable> {
    match how.provider
    case Bedrock => Some(ModelFields)
    case OpenRouter => Some(Reasoning)
    case _ => None
  }

  /** The reply gives this ground for a removal from a payload that holds the fields `there`. */
  predicate Gives(there: Removable -> bool, reply: Reply, how: Setup, ground: Ground) {
    match ground
    case Region => reply.status == 403 && reply.region && how.provider == OpenRouter && SomeOf(there, RegionOrder)
    case Named => reply.status in {400, 422} && NamesOne(there, reply)
    case CacheHint =>
      reply.status in {400, 422} && how.provider != Responses && reply.cacheHint && SomeOf(there, CacheOrder)
    case ReasoningText =>
      && reply.status in {400, 422} && how.provider != Responses && how.withReasoning && reply.reasoning
      && ReasoningField(how).Some? && there(ReasoningField(how).value)
    case TemperatureText =>
      reply.status in {400, 422} && how.provider != Responses && reply.temperature && SomeOf(there, TemperatureOrder)
    case SchemaHint =>
      reply.status in {400, 422} && reply.schemaHint && !reply.otherField && SomeOf(there, CacheOrder)
  }

  /** The ground that decides: no earlier one is given. */
  predicate Decides(there: Removable -> bool, reply: Reply, how: Setup, ground: Ground) {
    && Gives(there, reply, how, ground)
    && forall earlier :: Rank(earlier) < Rank(ground) ==> !Gives(there, reply, how, earlier)
  }

  function Rank(ground: Ground): nat {
    match ground
    case Region => 0
    case Named => 1
    case CacheHint => 2
    case ReasoningText => 3
    case TemperatureText => 4
    case SchemaHint => 5
  }

  /** What goes on a ground, and under which code. */
  predicate Takes(there: Removable -> bool, reply: Reply, how: Setup, ground: Ground, r: Removable, code: Code) {
    match ground
    case Region => FirstOf(there, RegionOrder, r) && code == RegionRejected(r)
    case Named => reply.named == Some(r) && code == CacheRejected(r)
    case CacheHint => FirstOf(there, CacheOrder, r) && code == CacheRejected(r)
    case ReasoningText => ReasoningField(how) == Some(r) && code == ReasoningRejected
    case TemperatureText => FirstOf(there, TemperatureOrder, r) && code == TemperatureRejected
    case SchemaHint => FirstOf(there, CacheOrder, r) && code == CacheRejected(r)
  }

  function Held(payload: seq<Field>): Removable -> bool {
    r => Present(payload, r)
  }

  /** The field and the code this reply calls for. */
  predicate CallsFor(payload: seq<Field>, reply: Reply, how: Setup, r: Removable, code: Code) {
    exists ground ::
      Decides(Held(payload), reply, how, ground) && Takes(Held(payload), reply, how, ground, r, code)
  }

  // ---- the three orders, case by case

  lemma CacheFirst(there: Removable -> bool, r: Removable)
    ensures SomeOf(there, CacheOrder) <==>
            there(CacheControl) || there(PromptCacheKey) || there(SessionId) || there(PromptCacheOptions)
    ensures FirstOf(there, CacheOrder, r) <==>
            there(r) && (if there(CacheControl) then r == CacheControl
                         else if there(PromptCacheKey) then r == PromptCacheKey
                         else if there(SessionId) then r == SessionId
                         else r == PromptCacheOptions)
  {
    assert CacheOrder[0] == CacheControl && CacheOrder[1] == PromptCacheKey;
    assert CacheOrder[2] == SessionId && CacheOrder[3] == PromptCacheOptions;
  }

  lemma RegionFirst(there: Removable -> bool, r: Removable)
    ensures SomeOf(there, RegionOrder) <==> there(SessionId) || there(Reasoning) || there(CacheControl)
    ensures FirstOf(there, RegionOrder, r) <==>
            there(r) && (if there(SessionId) then r == SessionId
                         else if there(Reasoning) then r == Reasoning
                         else r == CacheControl)
  {
    assert RegionOrder[0] == SessionId && RegionOrder[1] == Reasoning && RegionOrder[2] == CacheControl;
  }

  lemma TemperatureFirst(there: Removable -> bool, r: Removable)
    ensures SomeOf(there, TemperatureOrder) <==> there(Temperature) || there(NestedTemperature)
    ensures FirstOf(there, TemperatureOrder, r) <==>
            there(r) && (if there(Temperature) then r == Temperature else r == NestedTemperature)
  {
    assert TemperatureOrder[0] == Temperature && TemperatureOrder[1] == NestedTemperature;
  }

  // ---- the choice is the table

  lemma FirstCacheFieldIff(payload: seq<Field>, r: Removable)
    ensures FirstCacheField(payload) == Some(r) <==> FirstOf(Held(payload), CacheOrder, r)
    ensures FirstCacheField(payload).Some? <==> SomeOf(Held(payload), CacheOrder)
  {
    CacheFirst(Held(payload), r);
  }

  lemma RegionIff(payload: seq<Field>, reply: Reply, how: Setup, r: Removable)
    ensures RegionChoice(payload, reply, how).Some? <==> Gives(Held(payload), reply, how, Region)
    ensures RegionChoice(payload, reply, how) == Some(r) <==>
            Gives(Held(payload), reply, how, Region) && FirstOf(Held(payload), RegionOrder, r)
  {
    RegionFirst(Held(payload), r);
  }

  lemma NamedIff(payload: seq<Field>, reply: Reply)
    ensures NamesOne(Held(payload), reply) <==>
            reply.named.Some? && IsCacheField(reply.named.value) && Present(payload, reply.named.value)
    ensures NamesOne(Held(payload), reply) ==> FirstCacheField(payload).Some?
  {
  }

  lemma HintedIff(payload: seq<Field>, reply: Reply, how: Setup, r: Removable)
    requires how.provider != Responses
    ensures CacheChoice(payload, reply, true).Some? <==>
            Gives(Held(payload), reply, how, Named) || Gives(Held(payload), reply, how, CacheHint)
    ensures CacheChoice(payload, reply, true) == Some(r) <==>
            if Gives(Held(payload), reply, how, Named) then reply.named == Some(r)
            else Gives(Held(payload), reply, how, CacheHint) && FirstOf(Held(payload), CacheOrder, r)
  {
    FirstCacheFieldIff(payload, r);
    NamedIff(payload, reply);
  }

  lemma GenericIff(payload: seq<Field>, reply: Reply, how: Setup, r: Removable)
    ensures CacheChoice(payload, reply, false).Some? <==>
            Gives(Held(payload), reply, how, Named) || Gives(Held(payload), reply, how, SchemaHint)
    ensures CacheChoice(payload, reply, false) == Some(r) <==>
            if Gives(Held(payload), reply, how, Named) then reply.named == Some(r)
            else Gives(Held(payload), reply, how, SchemaHint) && FirstOf(Held(payload), CacheOrder, r)
  {
    FirstCacheFieldIff(payload, r);
    NamedIff(payload, reply);
  }

  lemma ReasoningIff(payload: seq<Field>, reply: Reply, how: Setup, r: Removable)
    requires how.provider != Responses
    ensures ReasoningChoice(payload, reply, how).Some? <==> Gives(Held(payload), reply, how, ReasoningText)
    ensures ReasoningChoice(payload, reply, how) == Some(r) <==>
            Gives(Held(payload), reply, how, ReasoningText) && ReasoningField(how) == Some(r)
  {
  }

  lemma TemperatureIff(payload: seq<Field>, reply: Reply, how: Setup, r: Removable)
    requires how.provider != Responses
    ensures TemperatureChoice(payload, reply).Some? <==> Gives(Held(payload), reply, how, TemperatureText)
    ensures TemperatureChoice(payload, reply) == Some(r) <==>
            Gives(Held(payload), reply, how, TemperatureText) && FirstOf(Held(payload), TemperatureOrder, r)
  {
    TemperatureFirst(Held(payload), r);
  }

  /** One ground decides at most. */
  lemma DecidedTakes(payload: seq<Field>, reply: Reply, how: Setup, ground: Ground, r: Removable, code: Code)
    requires Decides(Held(payload), reply, how, ground)
    ensures CallsFor(payload, reply, how, r, code) <==> Takes(Held(payload), reply, how, ground, r, code)
  {
    forall other | Decides(Held(payload), reply, how, other)
      ensures other == ground
    {
      assert Rank(other) == Rank(ground);
    }
  }

  lemma Undecided(payload: seq<Field>, reply: Reply, how: Setup)
    requires forall ground :: !Gives(Held(payload), reply, how, ground)
    ensures Choose(payload, reply, how) == None
  {
    GenericIff(payload, reply, how, CacheControl);
    if how.provider != Responses {
      RegionIff(payload, reply, how, CacheControl);
      HintedIff(payload, reply, how, CacheControl);
      ReasoningIff(payload, reply, how, CacheControl);
      TemperatureIff(payload, reply, how, CacheControl);
    }
  }

  /** On the wire with one fallback. */
  lemma ChooseOnResponses(payload: seq<Field>, reply: Reply, how: Setup, ground: Ground, r: Removable, code: Code)
    requires how.provider == Responses && Decides(Held(payload), reply, how, ground)
    ensures Choose(payload, reply, how) == Some((r, code)) <==> Takes(Held(payload), reply, how, ground, r, code)
  {
    GenericIff(payload, reply, how, r);
    assert ground == Named || ground == SchemaHint;
  }

  lemma ChooseEarly(payload: seq<Field>, reply: Reply, how: Setup, ground: Ground, r: Removable, code: Code)
    requires how.provider != Responses && Decides(Held(payload), reply, how, ground) && Rank(ground) <= 2
    ensures Choose(payload, reply, how) == Some((r, code)) <==> Takes(Held(payload), reply, how, ground, r, code)
  {
    RegionIff(payload, reply, how, r);
    HintedIff(payload, reply, how, r);
    assert ground == CacheHint ==> !Gives(Held(payload), reply, how, Named);
  }

  lemma ChooseLate(payload: seq<Field>, reply: Reply, how: Setup, ground: Ground, r: Removable, code: Code)
    requires how.provider != Responses && Decides(Held(payload), reply, how, ground) && Rank(ground) > 2
    ensures Choose(payload, reply, how) == Some((r, code)) <==> Takes(Held(payload), reply, how, ground, r, code)
  {
    var there := Held(payload);
    RegionIff(payload, reply, how, r);
    HintedIff(payload, reply, how, r);
    assert !Gives(there, reply, how, Region) && !Gives(there, reply, how, Named);
    assert !Gives(there, reply, how, CacheHint);
    ReasoningIff(payload, reply, how, r);
    if ground != ReasoningText {
      assert !Gives(there, reply, how, ReasoningText);
      TemperatureIff(payload, reply, how, r);
      if ground == SchemaHint {
        assert !Gives(there, reply, how, TemperatureText);
        GenericIff(payload, reply, how, r);
      }
    }
  }

  lemma SomeDecides(there: Removable -> bool, reply: Reply, how: Setup, given: Ground) returns (ground: Ground)
    requires Gives(there, reply, how, given)
    ensures Decides(there, reply, how, ground)
    decreases Rank(given)
  {
    if earlier :| Rank(earlier) < Rank(given) && Gives(there, reply, how, earlier) {
      ground := SomeDecides(there, reply, how, earlier);
    } else {
      ground := given;
    }
  }

  /** For every payload and reply, the field that goes and its code are the ones the table names, and
      nothing goes when the table names nothing. */
  lemma ChooseIff(payload: seq<Field>, reply: Reply, how: Setup, r: Removable, code: Code)
    ensures Choose(payload, reply, how) == Some((r, code)) <==> CallsFor(payload, reply, how, r, code)
  {
    if given :| Gives(Held(payload), reply, how, given) {
      var ground := SomeDecides(Held(payload), reply, how, given);
      DecidedTakes(payload, reply, how, ground, r, code);
      if how.provider == Responses { ChooseOnResponses(payload, reply, how, ground, r, code); }
      else if Rank(ground) <= 2 { ChooseEarly(payload, reply, how, ground, r, code); }
      else { ChooseLate(payload, reply, how, ground, r, code); }
    } else {
      Undecided(payload, reply, how);
    }
  }

  /** A 400 or 422 that names a cache field of the payload takes exactly that field. */
  lemma NamedFieldGoes(payload: seq<Field>, reply: Reply, how: Setup, r: Removable)
    requires reply.status in {400, 422} && reply.named == Some(r) && r in CacheOrder && Present(payload, r)
    ensures Choose(payload, reply, how) == Some((r, CacheRejected(r)))
  {
    assert Gives(Held(payload), reply, how, Named) && !Gives(Held(payload), reply, how, Region);
    assert Decides(Held(payload), reply, how, Named);
    DecidedTakes(payload, reply, how, Named, r, CacheRejected(r));
    ChooseIff(payload, reply, how, r, CacheRejected(r));
  }

  // ---- the whole loop

  lemma {:induction false} WalkLengths(payload: seq<Field>, how: Setup, replies: seq<Reply>)
    ensures var w := Walk(payload, how, replies); |w.codes| == |w.gone| <= |replies|
    decreases |replies|
  {
    if replies != [] && replies[0].status >= 400 && Choose(payload, replies[0], how).Some? {
      WalkLengths(Drop(payload, Choose(payload, replies[0], how).value.0), how, replies[1..]);
    }
  }

  /** Where the loop stands after `i` removals. */
  function Standing(payload: seq<Field>, how: Setup, replies: seq<Reply>, i: nat): seq<Field>
    requires i <= |replies|
  {
    Walk(payload, how, replies[..i]).payload
  }

  lemma {:induction false} WalkPrefix(payload: seq<Field>, how: Setup, replies: seq<Reply>, i: nat)
    requires i <= |Walk(payload, how, replies).gone|
    ensures i <= |replies| && Walk(payload, how, replies[..i]).gone == Walk(payload, how, replies).gone[..i]
    decreases |replies|
  {
    WalkLengths(payload, how, replies);
    if i > 0 {
      var next := Drop(payload, Choose(payload, replies[0], how).value.0);
      WalkPrefix(next, how, replies[1..], i - 1);
      assert replies[..i][1..] == replies[1..][..i - 1];
    }
  }

  lemma {:induction false} RemovalIsChosen(payload: seq<Field>, how: Setup, replies: seq<Reply>, i: nat)
    requires i < |Walk(payload, how, replies).gone|
    ensures var w := Walk(payload, how, replies);
            && i < |replies| && i < |w.codes| && replies[i].status >= 400
            && Choose(Standing(payload, how, replies, i), replies[i], how) == Some((w.gone[i], w.codes[i]))
    decreases |replies|
  {
    WalkLengths(payload, how, replies);
    if i > 0 {
      var next := Drop(payload, Choose(payload, replies[0], how).value.0);
      RemovalIsChosen(next, how, replies[1..], i - 1);
      assert replies[..i][1..] == replies[1..][..i - 1];
    }
  }

  /** For every sequence of replies: the i-th field that went, and its code, are what the i-th reply
      called for, of the first payload minus the fields that went before. */
  lemma EachRemovalIsCalledFor(payload: seq<Field>, how: Setup, replies: seq<Reply>, i: nat)
    requires i < |Walk(payload, how, replies).gone|
    ensures var w := Walk(payload, how, replies);
            && i < |replies| && i < |w.codes| && replies[i].status >= 400
            && Minus(Standing(payload, how, replies, i), payload, Elements(w.gone[..i]))
            && CallsFor(Standing(payload, how, replies, i), replies[i], how, w.gone[i], w.codes[i])
  {
    var w := Walk(payload, how, replies);
    RemovalIsChosen(payload, how, replies, i);
    WalkPrefix(payload, how, replies, i);
    WalkIsMonotone(payload, how, replies[..i]);
    ChooseIff(Standing(payload, how, replies, i), replies[i], how, w.gone[i], w.codes[i]);
  }

  lemma {:induction false} WalkStops(payload: seq<Field>, how: Setup, replies: seq<Reply>)
    ensures var w := Walk(payload, how, replies);
            var n := |w.gone|;
            && n <= |replies|
            && (w.outcome == Exhausted <==> n == |replies|)
            && (w.outcome == Accepted <==> n < |replies| && replies[n].status < 400)
            && (w.outcome == Raised ==> Choose(w.payload, replies[n], how).None?)
    decreases |replies|
  {
    if replies != [] && replies[0].status >= 400 && Choose(payload, replies[0], how).Some? {
      WalkStops(Drop(payload, Choose(payload, replies[0], how).value.0), how, replies[1..]);
    }
  }

  /** The loop ends at the first reply that is no rejection or that calls for nothing, and not before. */
  lemma WalkEnds(payload: seq<Field>, how: Setup, replies: seq<Reply>)
    ensures var w := Walk(payload, how, replies);
            var n := |w.gone|;
            && n <= |replies|
            && (w.outcome == Exhausted <==> n == |replies|)
            && (w.outcome == Accepted <==> n < |replies| && replies[n].status < 400)
            && (w.outcome == Raised ==> forall r, code :: !CallsFor(w.payload, replies[n], how, r, code))
  {
    WalkStops(payload, how, replies);
    var w := Walk(payload, how, replies);
    if w.outcome == Raised {
      forall r, code
        ensures !CallsFor(w.payload, replies[|w.gone|], how, r, code)
      {
        ChooseIff(w.payload, replies[|w.gone|], how, r, code);
      }
    }
  }
}
