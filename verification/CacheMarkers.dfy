/** Where cache markers go in provider messages, and why they can be taken out again. */
module CacheMarkers {
  import opened Prelude
  import opened Json
  import Stripping = CompatFallback

  /** How a message is classified: its role in lower case and, from its texts, whether it is the
      changing runtime block, a coverage notice or the profile. */
  datatype Reader = Reader(lower: string -> string, runtime: seq<string> -> bool, hole: seq<string> -> bool,
                           profile: seq<string> -> bool)

  function Texts(parts: seq<Json>): seq<string> {
    if parts == [] then []
    else
      (match parts[0]
       case Str(s) => [s]
       case Obj(fs) => if Has(fs, "text") && Get(fs, "text").value.Str? then [Get(fs, "text").value.s] else []
       case _ => [])
      + Texts(parts[1..])
  }

  function ContentTexts(content: Option<Json>): seq<string> {
    match content
    case Some(Str(s)) => [s]
    case Some(Arr(parts)) => Texts(parts)
    case _ => []
  }

  function Content(message: Json): Option<Json> {
    if message.Obj? then Get(message.fields, "content") else None
  }

  function Role(reader: Reader, message: Json): string {
    if message.Obj? && Has(message.fields, "role") && Get(message.fields, "role").value.Str?
    then reader.lower(Get(message.fields, "role").value.s)
    else ""
  }

  predicate Runtime(reader: Reader, message: Json) {
    message.Obj? && reader.runtime(ContentTexts(Content(message)))
  }

  predicate Hole(reader: Reader, message: Json) {
    message.Obj? && Role(reader, message) == "user" && reader.hole(ContentTexts(Content(message)))
  }

  predicate Profile(reader: Reader, message: Json) {
    message.Obj? && Role(reader, message) == "user" && reader.profile(ContentTexts(Content(message)))
  }

  // ---- the stable shape

  function Popped(block: Json): Json {
    if block.Obj? then Obj(Without(block.fields, "cache_control")) else block
  }

  function PoppedAll(blocks: seq<Json>): seq<Json> {
    if blocks == [] then [] else [Popped(blocks[0])] + PoppedAll(blocks[1..])
  }

  function TextBlock(text: string): Json {
    Obj([Field("type", Str("text")), Field("text", Str(text))])
  }

  function CanonContent(content: Json): Json {
    match content
    case Str(s) => if s == "" then content else Arr([TextBlock(s)])
    case Arr(blocks) => Arr(PoppedAll(blocks))
    case _ => content
  }

  function WithContent(message: Json, content: Json): Json
    requires message.Obj?
  {
    Obj(With(message.fields, "content", content))
  }

  function CanonMessage(message: Json): Json {
    if Content(message).Some? && CanonContent(Content(message).value) != Content(message).value
    then WithContent(message, CanonContent(Content(message).value))
    else message
  }

  function Map(messages: seq<Json>, g: Json -> Json): (r: seq<Json>)
    ensures |r| == |messages| && forall i :: 0 <= i < |messages| ==> r[i] == g(messages[i])
  {
    seq(|messages|, i requires 0 <= i < |messages| => g(messages[i]))
  }

  /** `_canonicalize_cacheable_message_content`. */
  function Canon(messages: seq<Json>): seq<Json> {
    Map(messages, CanonMessage)
  }

  // ---- markers

  const Ephemeral := Field("cache_control", Obj([Field("type", Str("ephemeral"))]))

  predicate TextPart(part: Json) {
    part.Obj? && Has(part.fields, "text") && Get(part.fields, "text").value.Str?
  }

  /** The newest text part of a block list, if any. */
  function LastText(parts: seq<Json>): (i: int)
    ensures -1 <= i < |parts|
    ensures i >= 0 ==> TextPart(parts[i])
    ensures forall k :: i < k < |parts| ==> !TextPart(parts[k])
  {
    if parts == [] then -1
    else if TextPart(parts[|parts| - 1]) then |parts| - 1
    else LastText(parts[..|parts| - 1])
  }

  function Marked(fields: seq<Field>): seq<Field> {
    Without(fields, "cache_control") + [Ephemeral]
  }

  /** `_content_with_ephemeral_cache_control`. */
  function MarkContent(content: Json): Json {
    match content
    case Str(s) => if s == "" then content else Arr([Obj(TextBlock(s).fields + [Ephemeral])])
    case Arr(parts) =>
      var i := LastText(parts);
      if i < 0 then content else Arr(parts[i := Obj(Marked(parts[i].fields))])
    case _ => content
  }

  function MarkMessage(message: Json): Json {
    if Content(message).Some? && MarkContent(Content(message).value) != Content(message).value
    then WithContent(message, MarkContent(Content(message).value))
    else message
  }

  predicate Carries(block: Json) {
    block.Obj? && Has(block.fields, "cache_control")
  }

  function CountBlocks(blocks: seq<Json>): nat {
    if blocks == [] then 0 else One(Carries(blocks[0])) + CountBlocks(blocks[1..])
  }

  function CountContent(content: Option<Json>): nat {
    match content
    case Some(Arr(blocks)) => CountBlocks(blocks)
    case _ => 0
  }

  function Markers(message: Json): nat {
    CountContent(Content(message))
  }

  function Sum(messages: seq<Json>, c: Json -> nat): nat {
    if messages == [] then 0 else c(messages[0]) + Sum(messages[1..], c)
  }

  /** How many markers the messages carry. */
  function Count(messages: seq<Json>): nat {
    Sum(messages, Markers)
  }

  predicate Point(block: Json) {
    block.Obj? && Has(block.fields, "cachePoint")
  }

  function PointsIn(blocks: seq<Json>): nat {
    if blocks == [] then 0 else One(Point(blocks[0])) + PointsIn(blocks[1..])
  }

  /** How many cache points a message carries. */
  function Points(message: Json): nat {
    if Content(message).Some? && Content(message).value.Arr? then PointsIn(Content(message).value.items) else 0
  }

  predicate Pointless(messages: seq<Json>) {
    forall i :: 0 <= i < |messages| ==> Points(messages[i]) == 0
  }

  /** What the cache fallback leaves of a message. */
  function StripMessage(message: Json): Json {
    Stripping.UnmarkMember(message, "content")
  }

  function Strip(messages: seq<Json>): seq<Json> {
    Stripping.UnmarkMessages(messages)
  }

  // ---- which messages

  /** The indices, from `from` on, whose message satisfies `p`. */
  function Indices(messages: seq<Json>, p: Json -> bool, from: nat): (r: seq<nat>)
    requires from <= |messages|
    ensures forall i :: 0 <= i < |r| ==> from <= r[i] < |messages| && p(messages[r[i]])
    ensures forall i, j :: 0 <= i < j < |r| ==> r[i] < r[j]
    ensures forall k :: from <= k < |messages| && p(messages[k]) ==> k in r
    decreases |messages| - from
  {
    if from == |messages| then []
    else (if p(messages[from]) then [from] else []) + Indices(messages, p, from + 1)
  }

  function Reversed(s: seq<nat>): (r: seq<nat>)
    ensures |r| == |s| && forall i :: i in r <==> i in s
  {
    if s == [] then [] else Reversed(s[1..]) + [s[0]]
  }

  function LastTwo(s: seq<nat>): seq<nat> {
    if |s| <= 2 then s else s[|s| - 2..]
  }

  /** Appends the candidates not chosen yet, in order, while there is room. */
  function Pick(chosen: seq<nat>, candidates: seq<nat>, limit: nat): seq<nat>
    decreases |candidates|
  {
    if candidates == [] then chosen
    else if candidates[0] !in chosen && |chosen| < limit then Pick(chosen + [candidates[0]], candidates[1..], limit)
    else Pick(chosen, candidates[1..], limit)
  }

  predicate Stable(reader: Reader, message: Json) {
    message.Obj? && Role(reader, message) == "system"
  }

  predicate Advancing(reader: Reader, message: Json) {
    message.Obj? && Role(reader, message) != "system" && !Runtime(reader, message) && !Hole(reader, message)
  }

  /** The candidates in rank order: the stable prefix, profiles, the two newest user boundaries
      newest first, then the newest others; without any, the first messages that remain. */
  function Ranked(stable: seq<nat>, profiles: seq<nat>, users: seq<nat>, advancing: seq<nat>, others: seq<nat>,
                  limit: nat): seq<nat> {
    var c1 := if stable == [] then [] else [stable[0]];
    var c2 := Pick(c1, profiles, limit);
    var c3 := Pick(c2, Reversed(LastTwo(users)), limit);
    var c4 := Pick(c3, Reversed(advancing), limit);
    if c4 != [] then c4 else if |others| <= limit then others else others[..limit]
  }

  predicate AllSafe(reader: Reader, messages: seq<Json>, s: seq<nat>) {
    forall i :: 0 <= i < |s| ==> Safe(reader, messages, s[i])
  }

  function StableOnes(reader: Reader, messages: seq<Json>): (r: seq<nat>)
    ensures AllSafe(reader, messages, r)
  {
    Indices(messages, m => Stable(reader, m), 0)
  }

  function AdvancingOnes(reader: Reader, messages: seq<Json>): (r: seq<nat>)
    ensures AllSafe(reader, messages, r)
  {
    Indices(messages, m => Advancing(reader, m), 0)
  }

  function Profiles(reader: Reader, messages: seq<Json>): (r: seq<nat>)
    ensures AllSafe(reader, messages, r)
  {
    Indices(messages, m => Advancing(reader, m) && Profile(reader, m), 0)
  }

  function Users(reader: Reader, messages: seq<Json>): (r: seq<nat>)
    ensures AllSafe(reader, messages, r)
  {
    Indices(messages, m => Advancing(reader, m) && Role(reader, m) == "user", 0)
  }

  function Others(reader: Reader, messages: seq<Json>): (r: seq<nat>)
    ensures AllSafe(reader, messages, r)
  {
    Indices(messages, m => !Runtime(reader, m), 0)
  }

  function Selected(reader: Reader, messages: seq<Json>, limit: nat): seq<nat> {
    Ranked(StableOnes(reader, messages), Profiles(reader, messages), Users(reader, messages),
           AdvancingOnes(reader, messages), Others(reader, messages), limit)
  }

  /** Editing the chosen messages in place, one after the other. */
  function Each(messages: seq<Json>, chosen: seq<nat>, f: Json -> Json): (r: seq<Json>)
    requires forall i :: 0 <= i < |chosen| ==> chosen[i] < |messages|
    ensures |r| == |messages|
    decreases |chosen|
  {
    if chosen == [] then messages
    else Each(messages[chosen[0] := f(messages[chosen[0]])], chosen[1..], f)
  }

  // ---- edits in general

  lemma {:induction false} SumUpdate(messages: seq<Json>, i: nat, m: Json, c: Json -> nat)
    requires i < |messages|
    ensures Sum(messages[i := m], c) + c(messages[i]) == Sum(messages, c) + c(m)
  {
    if i == 0 {
      assert messages[0 := m][1..] == messages[1..];
    } else {
      SumUpdate(messages[1..], i - 1, m, c);
      assert messages[i := m][1..] == messages[1..][i - 1 := m];
    }
  }

  lemma {:induction false} SumZero(messages: seq<Json>, c: Json -> nat)
    requires forall i :: 0 <= i < |messages| ==> c(messages[i]) == 0
    ensures Sum(messages, c) == 0
  {
    if messages != [] { SumZero(messages[1..], c); }
  }

  lemma {:induction false} EachSum(messages: seq<Json>, chosen: seq<nat>, f: Json -> Json, c: Json -> nat,
                                   inv: Json -> bool)
    requires forall i :: 0 <= i < |chosen| ==> chosen[i] < |messages|
    requires forall i :: 0 <= i < |messages| ==> inv(messages[i])
    requires forall m :: inv(m) ==> inv(f(m)) && c(f(m)) <= c(m) + 1
    ensures Sum(Each(messages, chosen, f), c) <= Sum(messages, c) + |chosen|
    decreases |chosen|
  {
    if chosen != [] {
      var next := messages[chosen[0] := f(messages[chosen[0]])];
      SumUpdate(messages, chosen[0], f(messages[chosen[0]]), c);
      EachSum(next, chosen[1..], f, c, inv);
    }
  }

  lemma {:induction false} EachErased(messages: seq<Json>, chosen: seq<nat>, f: Json -> Json, g: Json -> Json,
                                      inv: Json -> bool)
    requires forall i :: 0 <= i < |chosen| ==> chosen[i] < |messages|
    requires forall i :: 0 <= i < |messages| ==> inv(messages[i])
    requires forall m :: inv(m) ==> inv(f(m)) && g(f(m)) == g(m)
    ensures Map(Each(messages, chosen, f), g) == Map(messages, g)
    decreases |chosen|
  {
    if chosen != [] {
      var next := messages[chosen[0] := f(messages[chosen[0]])];
      EachErased(next, chosen[1..], f, g, inv);
      assert Map(next, g) == Map(messages, g);
    }
  }

  lemma {:induction false} EachOther(messages: seq<Json>, chosen: seq<nat>, f: Json -> Json, i: nat)
    requires forall i :: 0 <= i < |chosen| ==> chosen[i] < |messages|
    requires i < |messages| && i !in chosen
    ensures Each(messages, chosen, f)[i] == messages[i]
    decreases |chosen|
  {
    if chosen != [] {
      EachOther(messages[chosen[0] := f(messages[chosen[0]])], chosen[1..], f, i);
    }
  }

  // ---- one message

  lemma {:induction false} WithTwice(fs: seq<Field>, key: string, a: Json, b: Json)
    ensures With(With(fs, key, a), key, b) == With(fs, key, b)
  {
    if fs != [] {
      WithTwice(fs[1..], key, a, b);
      var head := if fs[0].key == key then Field(key, a) else fs[0];
      assert ([head] + With(fs[1..], key, a))[1..] == With(fs[1..], key, a);
    }
  }

  lemma ContentWith(message: Json, content: Json)
    requires Content(message).Some?
    ensures Content(WithContent(message, content)) == Some(content)
    ensures forall c :: WithContent(WithContent(message, content), c) == WithContent(message, c)
  {
    GetWith(message.fields, "content", content, "content");
    forall c
      ensures WithContent(WithContent(message, content), c) == WithContent(message, c)
    {
      WithTwice(message.fields, "content", content, c);
    }
  }

  lemma {:induction false} WithoutAppend(fs: seq<Field>, key: string, v: Json)
    ensures Without(fs + [Field(key, v)], key) == Without(fs, key)
  {
    if fs == [] {
      assert ([] + [Field(key, v)])[1..] == [];
    } else {
      assert (fs + [Field(key, v)])[1..] == fs[1..] + [Field(key, v)];
      WithoutAppend(fs[1..], key, v);
    }
  }

  lemma PoppedTwice(block: Json)
    ensures Popped(Popped(block)) == Popped(block)
    ensures !Carries(Popped(block))
  {
    if block.Obj? {
      GetWithout(block.fields, "cache_control", "cache_control");
      WithoutAbsent(Without(block.fields, "cache_control"), "cache_control");
    }
  }

  lemma {:induction false} PoppedAllTwice(blocks: seq<Json>)
    ensures PoppedAll(PoppedAll(blocks)) == PoppedAll(blocks)
    ensures CountBlocks(PoppedAll(blocks)) == 0
  {
    if blocks != [] {
      PoppedTwice(blocks[0]);
      PoppedAllTwice(blocks[1..]);
      assert ([Popped(blocks[0])] + PoppedAll(blocks[1..]))[1..] == PoppedAll(blocks[1..]);
    }
  }

  lemma {:induction false} BlocksUpdate(blocks: seq<Json>, i: nat, b: Json)
    requires i < |blocks| && Popped(b) == Popped(blocks[i])
    ensures PoppedAll(blocks[i := b]) == PoppedAll(blocks)
    ensures CountBlocks(blocks[i := b]) <= CountBlocks(blocks) + 1
  {
    if i == 0 {
      assert blocks[0 := b][1..] == blocks[1..];
    } else {
      BlocksUpdate(blocks[1..], i - 1, b);
      assert blocks[i := b][1..] == blocks[1..][i - 1 := b];
    }
  }

  lemma MarkedBlockPops(fields: seq<Field>)
    ensures Popped(Obj(Marked(fields))) == Popped(Obj(fields))
  {
    WithoutAppend(Without(fields, "cache_control"), "cache_control", Ephemeral.value);
    PoppedTwice(Obj(fields));
  }

  lemma PlainText(s: string)
    ensures CountBlocks([TextBlock(s)]) == 0
  {
    var fs := TextBlock(s).fields;
    assert |"type"| == 4 && |"text"| == 4 && |"cache_control"| == 13;
    assert fs[1..] == [Field("text", Str(s))] && fs[1..][1..] == [];
    assert !Has(fs[1..][1..], "cache_control");
    assert !Has(fs[1..], "cache_control");
    assert [TextBlock(s)][1..] == [];
  }

  /** A message is a dictionary: no key occurs twice. */
  predicate Dictionary(message: Json) {
    message.Obj? ==>
      forall i, j :: 0 <= i < j < |message.fields| ==> message.fields[i].key != message.fields[j].key
  }

  predicate Dictionaries(messages: seq<Json>) {
    forall i :: 0 <= i < |messages| ==> Dictionary(messages[i])
  }

  predicate Keyed(message: Json) {
    Content(message).Some? ==> WithContent(message, Content(message).value) == message
  }

  lemma {:induction false} WithSame(fs: seq<Field>, key: string)
    requires Has(fs, key) && Dictionary(Obj(fs))
    ensures With(fs, key, Get(fs, key).value) == fs
  {
    var v := Get(fs, key).value;
    if fs[0].key == key {
      WithAbsent(fs[1..], key, v);
    } else {
      WithSame(fs[1..], key);
    }
  }

  lemma {:induction false} WithAbsent(fs: seq<Field>, key: string, v: Json)
    requires forall i :: 0 <= i < |fs| ==> fs[i].key != key
    ensures With(fs, key, v) == fs
  {
    if fs != [] { WithAbsent(fs[1..], key, v); }
  }

  /** Content in the stable shape: no bare text. */
  predicate Shaped(message: Json) {
    && Keyed(message)
    && match Content(message)
       case Some(Str(s)) => s == ""
       case _ => true
  }

  /** A canonical message has the stable shape and carries no marker. */
  lemma CanonIsClear(message: Json)
    requires Dictionary(message)
    ensures Shaped(CanonMessage(message)) && Markers(CanonMessage(message)) == 0
  {
    if Content(message).Some? {
      var c := CanonContent(Content(message).value);
      ContentWith(message, c);
      WithSame(message.fields, "content");
      match Content(message).value
      case Arr(blocks) => PoppedAllTwice(blocks);
      case Str(s) => PlainText(s);
      case _ =>
    }
  }

  lemma StripIs(message: Json, parts: seq<Json>)
    requires Content(message).Some?
    ensures StripMessage(WithContent(message, Arr(parts))) == WithContent(message, Arr(Stripping.Unmarked(parts)))
  {
    ContentWith(message, Arr(parts));
  }

  lemma {:induction false} UnmarkedUpdate(blocks: seq<Json>, i: nat, b: Json)
    requires i < |blocks| && b.Obj? && blocks[i].Obj? && Popped(b) == Popped(blocks[i]) && Point(b) == Point(blocks[i])
    ensures Stripping.Unmarked(blocks[i := b]) == Stripping.Unmarked(blocks)
  {
    if i == 0 {
      assert blocks[0 := b][1..] == blocks[1..];
    } else {
      UnmarkedUpdate(blocks[1..], i - 1, b);
      assert blocks[i := b][1..] == blocks[1..][i - 1 := b];
    }
  }

  lemma MarkedKeepsPoint(fields: seq<Field>)
    ensures Point(Obj(Marked(fields))) == Point(Obj(fields))
  {
    assert |"cache_control"| == 13 && |"cachePoint"| == 10;
    GetWithout(fields, "cache_control", "cachePoint");
    GetAppend(Without(fields, "cache_control"), Ephemeral, "cachePoint");
  }

  /** Marking adds at most one marker, keeps the shape, and the fallback's stripping undoes it. */
  lemma MarkMessageEdits(message: Json)
    requires Shaped(message)
    ensures Shaped(MarkMessage(message)) && Markers(MarkMessage(message)) <= Markers(message) + 1
    ensures StripMessage(MarkMessage(message)) == StripMessage(message)
  {
    if MarkMessage(message) != message {
      var parts := Content(message).value.items;
      var i := LastText(parts);
      var b := Obj(Marked(parts[i].fields));
      ContentWith(message, Arr(parts[i := b]));
      ContentWith(message, Content(message).value);
      MarkedBlockPops(parts[i].fields);
      MarkedKeepsPoint(parts[i].fields);
      BlocksUpdate(parts, i, b);
      UnmarkedUpdate(parts, i, b);
      StripIs(message, parts[i := b]);
      StripIs(message, parts);
    }
  }

  /** Stripping blocks without markers only drops the cache points. */
  lemma {:induction false} UncarriedStrips(blocks: seq<Json>)
    requires CountBlocks(blocks) == 0
    ensures |Stripping.Unmarked(blocks)| + PointsIn(blocks) == |blocks|
    ensures PointsIn(blocks) == 0 ==> Stripping.Unmarked(blocks) == blocks
  {
    if blocks != [] {
      UncarriedStrips(blocks[1..]);
      if blocks[0].Obj? { WithoutAbsent(blocks[0].fields, "cache_control"); }
    }
  }

  /** Stripping leaves a message without markers alone exactly when it has no cache point. */
  lemma StripsNothingIff(message: Json)
    requires Keyed(message) && Markers(message) == 0
    ensures StripMessage(message) == message <==> Points(message) == 0
  {
    if Content(message).Some? && Content(message).value.Arr? {
      var blocks := Content(message).value.items;
      UncarriedStrips(blocks);
      StripIs(message, blocks);
      ContentWith(message, Arr(Stripping.Unmarked(blocks)));
    }
  }

  lemma {:induction false} PoppedPoints(blocks: seq<Json>)
    ensures PointsIn(PoppedAll(blocks)) == PointsIn(blocks)
  {
    if blocks != [] {
      PoppedPoints(blocks[1..]);
      assert |"cache_control"| == 13 && |"cachePoint"| == 10;
      if blocks[0].Obj? { GetWithout(blocks[0].fields, "cache_control", "cachePoint"); }
      assert ([Popped(blocks[0])] + PoppedAll(blocks[1..]))[1..] == PoppedAll(blocks[1..]);
    }
  }

  lemma TextHasNoPoint(s: string)
    ensures PointsIn([TextBlock(s)]) == 0
  {
    var fs := TextBlock(s).fields;
    assert |"type"| == 4 && |"text"| == 4 && |"cachePoint"| == 10;
    assert fs[1..] == [Field("text", Str(s))] && fs[1..][1..] == [];
    assert !Has(fs[1..][1..], "cachePoint") && !Has(fs[1..], "cachePoint");
    assert [TextBlock(s)][1..] == [];
  }

  lemma CanonKeepsPoints(message: Json)
    ensures Points(CanonMessage(message)) == Points(message)
  {
    if Content(message).Some? {
      ContentWith(message, CanonContent(Content(message).value));
      match Content(message).value
      case Arr(blocks) => PoppedPoints(blocks);
      case Str(s) => TextHasNoPoint(s);
      case _ =>
    }
  }

  lemma {:induction false} StripIsMap(messages: seq<Json>)
    ensures Strip(messages) == Map(messages, StripMessage)
  {
    if messages != [] {
      StripIsMap(messages[1..]);
      assert Map(messages, StripMessage) == [StripMessage(messages[0])] + Map(messages[1..], StripMessage);
    }
  }

  // ---- the selection

  predicate Distinct(s: seq<nat>) {
    forall i, j :: 0 <= i < j < |s| ==> s[i] != s[j]
  }

  lemma {:induction false} PickFrom(chosen: seq<nat>, candidates: seq<nat>, limit: nat)
    requires |chosen| <= limit && Distinct(chosen)
    ensures var r := Pick(chosen, candidates, limit);
            |r| <= limit && Distinct(r) && (forall i :: i in chosen ==> i in r) &&
              (forall i :: i in r ==> i in chosen || i in candidates)
    decreases |candidates|
  {
    if candidates != [] {
      if candidates[0] !in chosen && |chosen| < limit {
        PickFrom(chosen + [candidates[0]], candidates[1..], limit);
      } else {
        PickFrom(chosen, candidates[1..], limit);
      }
    }
  }

  /** With room for all of them, every candidate is taken. */
  lemma {:induction false} PickTakes(chosen: seq<nat>, candidates: seq<nat>, limit: nat)
    requires |chosen| + |candidates| <= limit && Distinct(chosen)
    ensures var r := Pick(chosen, candidates, limit);
            |r| <= |chosen| + |candidates| && forall i :: i in candidates ==> i in r
    decreases |candidates|
  {
    if candidates != [] {
      var next := if candidates[0] !in chosen && |chosen| < limit then chosen + [candidates[0]] else chosen;
      PickTakes(next, candidates[1..], limit);
      PickFrom(next, candidates[1..], limit);
    }
  }

  predicate Safe(reader: Reader, messages: seq<Json>, i: nat) {
    i < |messages| && (Role(reader, messages[i]) == "system" || !Runtime(reader, messages[i]))
  }

  predicate AllIn(s: seq<nat>, p: nat -> bool) {
    forall i :: 0 <= i < |s| ==> p(s[i])
  }

  lemma PickSafe(chosen: seq<nat>, candidates: seq<nat>, limit: nat, p: nat -> bool)
    requires |chosen| <= limit && Distinct(chosen) && AllIn(chosen, p) && (forall i :: i in candidates ==> p(i))
    ensures var r := Pick(chosen, candidates, limit); |r| <= limit && Distinct(r) && AllIn(r, p)
  {
    PickFrom(chosen, candidates, limit);
  }

  lemma RankedIsSafe(reader: Reader, messages: seq<Json>, stable: seq<nat>, profiles: seq<nat>, users: seq<nat>,
                     advancing: seq<nat>, others: seq<nat>, limit: nat)
    requires limit >= 1 && AllSafe(reader, messages, stable) && AllSafe(reader, messages, profiles)
    requires AllSafe(reader, messages, users) && AllSafe(reader, messages, advancing)
    requires AllSafe(reader, messages, others) && Distinct(others)
    ensures var r := Ranked(stable, profiles, users, advancing, others, limit);
            |r| <= limit && Distinct(r) && AllSafe(reader, messages, r)
  {
    var p := (i: nat) => Safe(reader, messages, i);
    var c1 := if stable == [] then [] else [stable[0]];
    var c2 := Pick(c1, profiles, limit);
    var c3 := Pick(c2, Reversed(LastTwo(users)), limit);
    PickSafe(c1, profiles, limit, p);
    PickSafe(c2, Reversed(LastTwo(users)), limit, p);
    PickSafe(c3, Reversed(advancing), limit, p);
  }

  /** At most `limit` messages are selected, each once, and a selected message is a system message
      or not the runtime block. */
  lemma SelectedIsSafe(reader: Reader, messages: seq<Json>, limit: nat)
    requires limit >= 1
    ensures var r := Selected(reader, messages, limit);
            |r| <= limit && Distinct(r) && forall i :: 0 <= i < |r| ==> Safe(reader, messages, r[i])
  {
    RankedIsSafe(reader, messages, StableOnes(reader, messages), Profiles(reader, messages), Users(reader, messages),
                 AdvancingOnes(reader, messages), Others(reader, messages), limit);
  }

  /** The stable prefix and the two newest user boundaries keep their slots when the profiles leave
      room for them. */
  lemma BoundariesAreSelected(reader: Reader, messages: seq<Json>, limit: nat)
    requires |Profiles(reader, messages)| + 3 <= limit
    ensures var stable := StableOnes(reader, messages); stable != [] ==> stable[0] in Selected(reader, messages, limit)
    ensures forall i :: i in LastTwo(Users(reader, messages)) ==> i in Selected(reader, messages, limit)
  {
    var stable, profiles, users := StableOnes(reader, messages), Profiles(reader, messages), Users(reader, messages);
    var advancing := AdvancingOnes(reader, messages);
    var c1 := if stable == [] then [] else [stable[0]];
    var c2 := Pick(c1, profiles, limit);
    var c3 := Pick(c2, Reversed(LastTwo(users)), limit);
    PickFrom(c1, profiles, limit);
    PickTakes(c1, profiles, limit);
    PickFrom(c2, Reversed(LastTwo(users)), limit);
    PickTakes(c2, Reversed(LastTwo(users)), limit);
    PickFrom(c3, Reversed(advancing), limit);
    assert forall i :: i in LastTwo(users) ==> i in c3;
    assert forall i :: i in c3 ==> i in Pick(c3, Reversed(advancing), limit);
    if stable != [] { assert stable[0] in c1; }
  }

  method PickLoop(chosen: seq<nat>, candidates: seq<nat>, limit: nat) returns (r: seq<nat>)
    ensures r == Pick(chosen, candidates, limit)
  {
    r := chosen;
    var i := 0;
    assert candidates[0..] == candidates;
    while i < |candidates|
      invariant 0 <= i <= |candidates|
      invariant Pick(r, candidates[i..], limit) == Pick(chosen, candidates, limit)
    {
      assert candidates[i..][1..] == candidates[i + 1..];
      if candidates[i] !in r && |r| < limit {
        r := r + [candidates[i]];
      }
      i := i + 1;
    }
  }

  /** `_mark_openai_chat_cache_breakpoint` for a limit already clamped to 1..4. */
  function Marking(reader: Reader, messages: seq<Json>, limit: nat): seq<Json>
    requires limit >= 1
  {
    var canon := Canon(messages);
    SelectedIsSafe(reader, canon, limit);
    Each(canon, Selected(reader, canon, limit), MarkMessage)
  }

  function Apart(a: int, b: int): nat {
    if a <= b then b - a else a - b
  }

  /** The closest limit from 1 to 4. */
  function Clamped(maxBreakpoints: int): (limit: nat)
    ensures 1 <= limit <= 4 && forall k :: 1 <= k <= 4 ==> Apart(limit, maxBreakpoints) <= Apart(k, maxBreakpoints)
  {
    if maxBreakpoints < 1 then 1 else if maxBreakpoints > 4 then 4 else maxBreakpoints
  }

  method EditChosen(messages: seq<Json>, chosen: seq<nat>, f: Json -> Json) returns (updated: seq<Json>)
    requires forall i :: 0 <= i < |chosen| ==> chosen[i] < |messages|
    ensures updated == Each(messages, chosen, f)
  {
    updated := messages;
    var i := 0;
    assert chosen[0..] == chosen;
    while i < |chosen|
      invariant 0 <= i <= |chosen| && |updated| == |messages|
      invariant Each(updated, chosen[i..], f) == Each(messages, chosen, f)
    {
      assert chosen[i..][1..] == chosen[i + 1..];
      updated := updated[chosen[i] := f(updated[chosen[i]])];
      i := i + 1;
    }
  }

  method Rank(stable: seq<nat>, profiles: seq<nat>, users: seq<nat>, advancing: seq<nat>, others: seq<nat>, limit: nat)
      returns (candidates: seq<nat>)
    ensures candidates == Ranked(stable, profiles, users, advancing, others, limit)
  {
    candidates := if stable == [] then [] else [stable[0]];
    candidates := PickLoop(candidates, profiles, limit);
    candidates := PickLoop(candidates, Reversed(LastTwo(users)), limit);
    candidates := PickLoop(candidates, Reversed(advancing), limit);
    if candidates == [] {
      candidates := if |others| <= limit then others else others[..limit];
    }
  }

  method MarkBreakpoints(reader: Reader, messages: seq<Json>, maxBreakpoints: int) returns (updated: seq<Json>)
    ensures updated == Marking(reader, messages, Clamped(maxBreakpoints))
  {
    var canon, limit := Canon(messages), Clamped(maxBreakpoints);
    var candidates := Rank(StableOnes(reader, canon), Profiles(reader, canon), Users(reader, canon),
                           AdvancingOnes(reader, canon), Others(reader, canon), limit);
    SelectedIsSafe(reader, canon, limit);
    updated := EditChosen(canon, candidates, MarkMessage);
  }

  // ---- what a marked request promises

  lemma {:induction false} PoppedTexts(blocks: seq<Json>)
    ensures Texts(PoppedAll(blocks)) == Texts(blocks)
  {
    if blocks != [] {
      PoppedTexts(blocks[1..]);
      if blocks[0].Obj? { GetWithout(blocks[0].fields, "cache_control", "text"); }
      assert |"text"| == 4 && |"cache_control"| == 13;
      assert ([Popped(blocks[0])] + PoppedAll(blocks[1..]))[1..] == PoppedAll(blocks[1..]);
    }
  }

  lemma TextBlockTexts(s: string)
    ensures Texts([TextBlock(s)]) == [s]
  {
    var fs := TextBlock(s).fields;
    assert "type"[1] == 'y' && "text"[1] == 'e';
    assert fs[1..] == [Field("text", Str(s))];
    assert Get(fs, "text") == Get(fs[1..], "text") == Some(Str(s));
    assert [TextBlock(s)][1..] == [];
  }

  /** The stable shape is read like the message it came from. */
  lemma CanonReadsTheSame(reader: Reader, message: Json)
    ensures Role(reader, CanonMessage(message)) == Role(reader, message)
    ensures Runtime(reader, CanonMessage(message)) == Runtime(reader, message)
    ensures Hole(reader, CanonMessage(message)) == Hole(reader, message)
    ensures Profile(reader, CanonMessage(message)) == Profile(reader, message)
  {
    if Content(message).Some? {
      var c := CanonContent(Content(message).value);
      ContentWith(message, c);
      GetWith(message.fields, "content", c, "role");
      assert |"content"| == 7 && |"role"| == 4;
      match Content(message).value
      case Arr(blocks) => PoppedTexts(blocks);
      case Str(s) => TextBlockTexts(s);
      case _ =>
    }
  }

  lemma CanonIsShaped(messages: seq<Json>)
    requires Dictionaries(messages)
    ensures forall i :: 0 <= i < |messages| ==> Shaped(Canon(messages)[i]) && Markers(Canon(messages)[i]) == 0
    ensures Count(Canon(messages)) == 0
  {
    forall i | 0 <= i < |messages|
      ensures Shaped(Canon(messages)[i]) && Markers(Canon(messages)[i]) == 0
    {
      CanonIsClear(messages[i]);
    }
    SumZero(Canon(messages), Markers);
  }

  /** Stripping leaves the canonical messages alone exactly when they carry no cache point. */
  lemma StripCanonIff(messages: seq<Json>)
    requires Dictionaries(messages)
    ensures Strip(Canon(messages)) == Canon(messages) <==> Pointless(messages)
  {
    var canon := Canon(messages);
    CanonIsShaped(messages);
    StripIsMap(canon);
    forall i | 0 <= i < |messages|
      ensures Strip(canon)[i] == canon[i] <==> Points(messages[i]) == 0
    {
      StripsNothingIff(canon[i]);
      CanonKeepsPoints(messages[i]);
    }
  }

  lemma MarkEdits()
    ensures forall m :: Shaped(m) ==> Shaped(MarkMessage(m)) && Markers(MarkMessage(m)) <= Markers(m) + 1
    ensures forall m :: Shaped(m) ==> StripMessage(MarkMessage(m)) == StripMessage(m)
  {
    forall m | Shaped(m)
      ensures Shaped(MarkMessage(m)) && Markers(MarkMessage(m)) <= Markers(m) + 1
      ensures StripMessage(MarkMessage(m)) == StripMessage(m)
    {
      MarkMessageEdits(m);
    }
  }

  /** At most `limit` markers; the cache fallback's stripping cannot tell marked from canonical
      messages, and gives the canonical ones back exactly when the caller sent no cache point. */
  lemma MarkingIsErasable(reader: Reader, messages: seq<Json>, limit: nat)
    requires limit >= 1 && Dictionaries(messages)
    ensures Count(Marking(reader, messages, limit)) <= limit
    ensures Strip(Marking(reader, messages, limit)) == Strip(Canon(messages))
    ensures Strip(Marking(reader, messages, limit)) == Canon(messages) <==> Pointless(messages)
  {
    var canon := Canon(messages);
    var chosen := Selected(reader, canon, limit);
    SelectedIsSafe(reader, canon, limit);
    CanonIsShaped(messages);
    MarkEdits();
    EachSum(canon, chosen, MarkMessage, Markers, Shaped);
    EachErased(canon, chosen, MarkMessage, StripMessage, Shaped);
    StripIsMap(canon);
    StripIsMap(Marking(reader, messages, limit));
    StripCanonIff(messages);
  }

  /** No marker on a non-system runtime-context message. */
  lemma RuntimeIsNeverMarked(reader: Reader, messages: seq<Json>, limit: nat, i: nat)
    requires limit >= 1 && Dictionaries(messages)
    requires i < |messages| && Runtime(reader, messages[i]) && Role(reader, messages[i]) != "system"
    ensures Markers(Marking(reader, messages, limit)[i]) == 0
  {
    var canon := Canon(messages);
    SelectedIsSafe(reader, canon, limit);
    CanonIsShaped(messages);
    CanonReadsTheSame(reader, messages[i]);
    EachOther(canon, Selected(reader, canon, limit), MarkMessage, i);
  }

  lemma CanonAppend(messages: seq<Json>, more: seq<Json>)
    ensures Canon(messages + more) == Canon(messages) + Canon(more)
  {
  }

  lemma StripAppend(messages: seq<Json>, more: seq<Json>)
    ensures Strip(messages + more) == Strip(messages) + Strip(more)
  {
    StripIsMap(messages);
    StripIsMap(more);
    StripIsMap(messages + more);
  }

  /** Appending messages never changes the stripped form of the earlier ones. */
  lemma StrippedPrefixIsStable(reader: Reader, messages: seq<Json>, more: seq<Json>, limit: nat, limit': nat)
    requires limit >= 1 && limit' >= 1 && Dictionaries(messages) && Dictionaries(more)
    ensures Strip(Marking(reader, messages, limit)) <= Strip(Marking(reader, messages + more, limit'))
  {
    MarkingIsErasable(reader, messages, limit);
    assert Dictionaries(messages + more);
    MarkingIsErasable(reader, messages + more, limit');
    CanonAppend(messages, more);
    StripAppend(Canon(messages), Canon(more));
  }

  // ---- Anthropic

  /** The system text as its stable parts and a rest, or as one part; `joined` are the given parts put
      together. */
  function SystemParts(system: string, given: seq<string>, joined: string,
                       strip: string -> string): (parts: seq<string>)
    ensures parts != []
  {
    if given == [] || !(joined <= system) then [system]
    else
      var rest := strip(system[|joined|..]);
      if rest == "" then given else given + [rest]
  }

  /** The system text as blocks, the marker on the last one. */
  function SystemBlocks(parts: seq<string>): seq<Json>
    requires parts != []
  {
    if |parts| == 1 then [Obj(TextBlock(parts[0]).fields + [Ephemeral])]
    else [TextBlock(parts[0])] + SystemBlocks(parts[1..])
  }

  lemma {:induction false} SystemHasOneMarker(parts: seq<string>)
    requires parts != []
    ensures CountBlocks(SystemBlocks(parts)) <= 1
  {
    if |parts| == 1 {
      assert SystemBlocks(parts)[1..] == [];
    } else {
      SystemHasOneMarker(parts[1..]);
      PlainText(parts[0]);
      assert [TextBlock(parts[0])][0] == TextBlock(parts[0]);
      assert SystemBlocks(parts)[1..] == SystemBlocks(parts[1..]);
    }
  }

  /** The first message a marker can go on, or the length. */
  function FirstMarkable(messages: seq<Json>): (i: nat)
    ensures i <= |messages|
    ensures i < |messages| ==> MarkMessage(messages[i]) != messages[i]
    ensures forall k :: 0 <= k < i ==> MarkMessage(messages[k]) == messages[k]
  {
    if messages == [] || MarkMessage(messages[0]) != messages[0] then 0 else 1 + FirstMarkable(messages[1..])
  }

  /** The messages of `_mark_anthropic_cache_breakpoint`. */
  function AnthropicMessages(reader: Reader, hasSystem: bool, messages: seq<Json>): seq<Json> {
    if hasSystem then Marking(reader, messages, 3)
    else
      var canon := Canon(messages);
      var i := FirstMarkable(canon);
      if i < |canon| then canon[i := MarkMessage(canon[i])] else canon
  }

  method MarkAnthropic(reader: Reader, hasSystem: bool, messages: seq<Json>) returns (updated: seq<Json>)
    ensures updated == AnthropicMessages(reader, hasSystem, messages)
  {
    if hasSystem {
      updated := MarkBreakpoints(reader, messages, 3);
      return;
    }
    updated := Canon(messages);
    var i := 0;
    while i < |updated|
      invariant 0 <= i <= |updated| && updated == Canon(messages)
      invariant forall k :: 0 <= k < i ==> MarkMessage(updated[k]) == updated[k]
    {
      if MarkMessage(updated[i]) != updated[i] {
        updated := updated[i := MarkMessage(updated[i])];
        return;
      }
      i := i + 1;
    }
  }

  lemma MarkableGetsOne(message: Json)
    requires Shaped(message) && MarkMessage(message) != message
    ensures Markers(MarkMessage(message)) > 0
  {
    var parts := Content(message).value.items;
    var i := LastText(parts);
    var b := Obj(Marked(parts[i].fields));
    ContentWith(message, Arr(parts[i := b]));
    HasLast(Without(parts[i].fields, "cache_control"), Ephemeral);
    CarriedCounts(parts[i := b], i);
  }

  lemma {:induction false} HasLast(fs: seq<Field>, f: Field)
    ensures Has(fs + [f], f.key)
  {
    if fs != [] {
      assert (fs + [f])[1..] == fs[1..] + [f];
      HasLast(fs[1..], f);
    }
  }

  lemma {:induction false} CarriedCounts(blocks: seq<Json>, i: nat)
    requires i < |blocks| && Carries(blocks[i])
    ensures CountBlocks(blocks) > 0
  {
    if i > 0 { CarriedCounts(blocks[1..], i - 1); }
  }

  /** At most four markers in system and messages together, and the messages are erasable. */
  lemma AnthropicAtMostFour(reader: Reader, system: string, given: seq<string>, joined: string, strip: string -> string,
                            messages: seq<Json>)
    requires Dictionaries(messages)
    ensures var blocks := if system == "" then [] else SystemBlocks(SystemParts(system, given, joined, strip));
            CountBlocks(blocks) + Count(AnthropicMessages(reader, system != "", messages)) <= 4
    ensures Strip(AnthropicMessages(reader, system != "", messages)) == Strip(Canon(messages))
    ensures Strip(AnthropicMessages(reader, system != "", messages)) == Canon(messages) <==> Pointless(messages)
  {
    StripCanonIff(messages);
    if system != "" {
      SystemHasOneMarker(SystemParts(system, given, joined, strip));
      MarkingIsErasable(reader, messages, 3);
    } else {
      FirstIsErasable(reader, messages);
    }
  }

  lemma FirstIsErasable(reader: Reader, messages: seq<Json>)
    requires Dictionaries(messages)
    ensures Count(AnthropicMessages(reader, false, messages)) <= 1
    ensures Strip(AnthropicMessages(reader, false, messages)) == Strip(Canon(messages))
  {
    var canon := Canon(messages);
    var i := FirstMarkable(canon);
    CanonIsShaped(messages);
    if i < |canon| {
      MarkMessageEdits(canon[i]);
      SumUpdate(canon, i, MarkMessage(canon[i]), Markers);
      StripIsMap(canon);
      StripIsMap(canon[i := MarkMessage(canon[i])]);
    }
  }

  /** The stripped prefix is as stable on this wire, with and without a system text. */
  lemma AnthropicPrefixIsStable(reader: Reader, hasSystem: bool, hasSystem': bool, messages: seq<Json>, more: seq<Json>)
    requires Dictionaries(messages) && Dictionaries(more)
    ensures Strip(AnthropicMessages(reader, hasSystem, messages))
         <= Strip(AnthropicMessages(reader, hasSystem', messages + more))
  {
    assert Dictionaries(messages + more);
    AnthropicStrips(reader, hasSystem, messages);
    AnthropicStrips(reader, hasSystem', messages + more);
    CanonAppend(messages, more);
    StripAppend(Canon(messages), Canon(more));
  }

  lemma AnthropicStrips(reader: Reader, hasSystem: bool, messages: seq<Json>)
    requires Dictionaries(messages)
    ensures Strip(AnthropicMessages(reader, hasSystem, messages)) == Strip(Canon(messages))
  {
    if hasSystem { MarkingIsErasable(reader, messages, 3); } else { FirstIsErasable(reader, messages); }
  }

  predicate MarksRuntime(reader: Reader, hasSystem: bool, messages: seq<Json>) {
    exists i :: 0 <= i < |messages| && Runtime(reader, messages[i]) && Role(reader, messages[i]) != "system"
      && Markers(AnthropicMessages(reader, hasSystem, messages)[i]) > 0
  }

  /** Without a system text the first markable message is marked whatever it is, so the runtime
      block can get the marker exactly when it is that message. */
  lemma AnthropicRuntimeMarkedIff(reader: Reader, hasSystem: bool, messages: seq<Json>)
    requires Dictionaries(messages)
    ensures |AnthropicMessages(reader, hasSystem, messages)| == |messages|
    ensures MarksRuntime(reader, hasSystem, messages) <==>
            var i := FirstMarkable(Canon(messages));
            !hasSystem && i < |messages| && Runtime(reader, messages[i]) && Role(reader, messages[i]) != "system"
  {
    CanonIsShaped(messages);
    if hasSystem {
      forall i | 0 <= i < |messages| && Runtime(reader, messages[i]) && Role(reader, messages[i]) != "system"
        ensures Markers(AnthropicMessages(reader, hasSystem, messages)[i]) == 0
      {
        RuntimeIsNeverMarked(reader, messages, 3, i);
      }
    } else {
      var i := FirstMarkable(Canon(messages));
      if i < |messages| { MarkableGetsOne(Canon(messages)[i]); }
    }
  }

  function UserMessage(text: string): Json {
    Obj([Field("role", Str("user")), Field("content", Str(text))])
  }

  lemma UserMessageReads(text: string)
    ensures var m := UserMessage(text);
            Get(m.fields, "role") == Some(Str("user")) && Content(m) == Some(Str(text)) && Dictionary(m)
  {
    var m := UserMessage(text);
    assert |"role"| == 4 && |"content"| == 7;
    assert m.fields[1..] == [Field("content", Str(text))];
    assert Get(m.fields, "content") == Get(m.fields[1..], "content");
  }

  lemma TextIsMarkable(text: string)
    requires text != ""
    ensures MarkMessage(CanonMessage(UserMessage(text))) != CanonMessage(UserMessage(text))
  {
    var m := UserMessage(text);
    UserMessageReads(text);
    var parts := [TextBlock(text)];
    ContentWith(m, Arr(parts));
    TextBlockTexts(text);
    assert "type"[1] == 'y' && "text"[1] == 'e';
    assert TextBlock(text).fields[1..] == [Field("text", Str(text))];
    assert Get(TextBlock(text).fields, "text") == Get(TextBlock(text).fields[1..], "text");
    assert TextPart(parts[0]) && LastText(parts) == 0;
    var marked := parts[0 := Obj(Marked(TextBlock(text).fields))];
    MarkedIsLonger(text);
    assert marked[0] != parts[0];
    ContentWith(CanonMessage(m), Arr(marked));
  }

  lemma MarkedIsLonger(text: string)
    ensures Obj(Marked(TextBlock(text).fields)) != TextBlock(text)
  {
    PlainText(text);
    HasLast(Without(TextBlock(text).fields, "cache_control"), Ephemeral);
  }

  /** For every reader and every text it takes for runtime context: a request whose only message is
      that user message, without a system text, has its marker there. */
  lemma RuntimeCanBeMarked(reader: Reader, text: string)
    requires text != "" && reader.runtime([text]) && reader.lower("user") != "system"
    ensures MarksRuntime(reader, false, [UserMessage(text)])
  {
    UserMessageReads(text);
    TextIsMarkable(text);
    var messages := [UserMessage(text)];
    AnthropicRuntimeMarkedIff(reader, false, messages);
    assert FirstMarkable(Canon(messages)) == 0;
  }

  // ---- Bedrock: separate cachePoint blocks

  const CachePoint := Obj([Field("cachePoint", Obj([Field("type", Str("default"))]))])

  function PointMessage(message: Json): Json {
    match Content(message)
    case Some(Arr(blocks)) =>
      if blocks == [] || Point(blocks[|blocks| - 1]) then message else WithContent(message, Arr(blocks + [CachePoint]))
    case _ => message
  }

  predicate Pointable(reader: Reader, message: Json) {
    !Runtime(reader, message) && Content(message).Some? && Content(message).value.Arr? &&
      Content(message).value.items != []
  }

  predicate PlainUser(message: Json) {
    message.Obj? && Get(message.fields, "role") == Some(Str("user"))
  }

  function BedrockSelected(reader: Reader, messages: seq<Json>, limit: nat): seq<nat> {
    var candidates := Indices(messages, m => Pointable(reader, m), 0);
    var users := Indices(messages, m => Pointable(reader, m) && PlainUser(m), 0);
    Pick(Pick([], LastTwo(users), limit), Reversed(candidates), limit)
  }

  lemma BedrockSelectedIsSafe(reader: Reader, messages: seq<Json>, limit: nat)
    ensures var r := BedrockSelected(reader, messages, limit);
            |r| <= limit && Distinct(r)
            && (forall i :: 0 <= i < |r| ==> r[i] < |messages| && !Runtime(reader, messages[r[i]]))
  {
    var candidates := Indices(messages, m => Pointable(reader, m), 0);
    var users := Indices(messages, m => Pointable(reader, m) && PlainUser(m), 0);
    var p := (i: nat) => i < |messages| && !Runtime(reader, messages[i]);
    PickSafe([], LastTwo(users), limit, p);
    PickSafe(Pick([], LastTwo(users), limit), Reversed(candidates), limit, p);
  }

  /** `_mark_bedrock_message_cache_breakpoints`. */
  function BedrockMarking(reader: Reader, messages: seq<Json>, limit: nat): seq<Json> {
    BedrockSelectedIsSafe(reader, messages, limit);
    Each(messages, BedrockSelected(reader, messages, limit), PointMessage)
  }

  method MarkBedrock(reader: Reader, messages: seq<Json>, maxBreakpoints: int) returns (updated: seq<Json>)
    ensures updated == BedrockMarking(reader, messages, if maxBreakpoints < 0 then 0 else maxBreakpoints)
  {
    var limit := if maxBreakpoints < 0 then 0 else maxBreakpoints;
    BedrockSelectedIsSafe(reader, messages, limit);
    if limit == 0 {
      assert BedrockSelected(reader, messages, limit) == [];
      return messages;
    }
    var candidates := Indices(messages, m => Pointable(reader, m), 0);
    var users := Indices(messages, m => Pointable(reader, m) && PlainUser(m), 0);
    var chosen := PickLoop([], LastTwo(users), limit);
    chosen := PickLoop(chosen, Reversed(candidates), limit);
    updated := EditChosen(messages, chosen, PointMessage);
  }

  lemma {:induction false} AppendPoint(blocks: seq<Json>)
    ensures Stripping.Unmarked(blocks + [CachePoint]) == Stripping.Unmarked(blocks)
    ensures PointsIn(blocks + [CachePoint]) == PointsIn(blocks) + 1
  {
    if blocks == [] {
      assert ([] + [CachePoint])[1..] == [];
      assert Point(CachePoint);
    } else {
      assert (blocks + [CachePoint])[1..] == blocks[1..] + [CachePoint];
      AppendPoint(blocks[1..]);
    }
  }

  lemma PointEdits(m: Json)
    requires Keyed(m)
    ensures Keyed(PointMessage(m)) && Points(PointMessage(m)) <= Points(m) + 1
    ensures StripMessage(PointMessage(m)) == StripMessage(m)
  {
    if PointMessage(m) != m {
      var blocks := Content(m).value.items;
      ContentWith(m, Arr(blocks + [CachePoint]));
      ContentWith(m, Arr(blocks));
      AppendPoint(blocks);
      StripIs(m, blocks + [CachePoint]);
      StripIs(m, blocks);
    }
  }

  lemma KeyedDictionary(m: Json)
    requires Dictionary(m)
    ensures Keyed(m)
  {
    if Content(m).Some? { WithSame(m.fields, "content"); }
  }

  lemma PointEditsAll()
    ensures forall m :: Keyed(m) ==> Keyed(PointMessage(m)) && Points(PointMessage(m)) <= Points(m) + 1
    ensures forall m :: Keyed(m) ==> StripMessage(PointMessage(m)) == StripMessage(m)
  {
    forall m | Keyed(m)
      ensures Keyed(PointMessage(m)) && Points(PointMessage(m)) <= Points(m) + 1
      ensures StripMessage(PointMessage(m)) == StripMessage(m)
    {
      PointEdits(m);
    }
  }

  /** No cache marker of either kind, as the Bedrock encoder builds messages. */
  predicate Unmarked(messages: seq<Json>) {
    Pointless(messages) && forall i :: 0 <= i < |messages| ==> Markers(messages[i]) == 0
  }

  lemma BedrockIsErasable(reader: Reader, messages: seq<Json>, limit: nat)
    requires Dictionaries(messages)
    ensures Sum(BedrockMarking(reader, messages, limit), Points) <= Sum(messages, Points) + limit
    ensures Strip(BedrockMarking(reader, messages, limit)) == Strip(messages)
    ensures Unmarked(messages) ==> Strip(messages) == messages
  {
    var chosen := BedrockSelected(reader, messages, limit);
    BedrockSelectedIsSafe(reader, messages, limit);
    forall i | 0 <= i < |messages| ensures Keyed(messages[i]) { KeyedDictionary(messages[i]); }
    PointEditsAll();
    EachSum(messages, chosen, PointMessage, Points, Keyed);
    EachErased(messages, chosen, PointMessage, StripMessage, Keyed);
    StripIsMap(messages);
    StripIsMap(BedrockMarking(reader, messages, limit));
    if Unmarked(messages) { UnmarkedStrips(messages); }
  }

  lemma UnmarkedStrips(messages: seq<Json>)
    requires Unmarked(messages) && forall i :: 0 <= i < |messages| ==> Keyed(messages[i])
    ensures Strip(messages) == messages
  {
    StripIsMap(messages);
    forall i | 0 <= i < |messages|
      ensures StripMessage(messages[i]) == messages[i]
    {
      StripsNothingIff(messages[i]);
    }
  }

  lemma BedrockRuntimeUnmarked(reader: Reader, messages: seq<Json>, limit: nat, i: nat)
    requires Pointless(messages) && i < |messages| && Runtime(reader, messages[i])
    ensures Points(BedrockMarking(reader, messages, limit)[i]) == 0
  {
    BedrockSelectedIsSafe(reader, messages, limit);
    EachOther(messages, BedrockSelected(reader, messages, limit), PointMessage, i);
  }

  /** With the tool and system checkpoints, an unmarked request ends with at most four, none on a
      runtime-context message, and the cache fallback's stripping gives the messages back. */
  lemma BedrockAtMostFour(reader: Reader, messages: seq<Json>, hasTools: bool, hasSystem: bool)
    requires Dictionaries(messages) && Unmarked(messages)
    ensures var used := One(hasTools) + One(hasSystem);
            var out := BedrockMarking(reader, messages, 4 - used);
            && used + Sum(out, Points) <= 4
            && Strip(out) == messages
            && forall i :: 0 <= i < |messages| && Runtime(reader, messages[i]) ==> Points(out[i]) == 0
  {
    var limit := 4 - One(hasTools) - One(hasSystem);
    BedrockIsErasable(reader, messages, limit);
    SumZero(messages, Points);
    forall i | 0 <= i < |messages| && Runtime(reader, messages[i])
      ensures Points(BedrockMarking(reader, messages, limit)[i]) == 0
    {
      BedrockRuntimeUnmarked(reader, messages, limit, i);
    }
  }
}
