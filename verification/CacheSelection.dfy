/** Which messages get the markers: the fixed ranking is served first come, first served until the slots
    are gone, so the newest boundaries win. */
module CacheSelection {
  import opened Prelude
  import opened Json
  import opened CacheMarkers

  // ---- serving a ranking

  /** The first time its element occurs. */
  predicate First(order: seq<nat>, j: nat) {
    j < |order| && forall k :: 0 <= k < j ==> order[k] != order[j]
  }

  /** `r` serves `order`: as many as there are slots, and nobody before someone ranked earlier. */
  predicate Served(order: seq<nat>, limit: nat, r: seq<nat>) {
    && Distinct(r) && |r| <= limit
    && (forall x :: x in r ==> x in order)
    && (|r| == limit || forall x :: x in order ==> x in r)
    && (forall i, j :: 0 <= i < j < |order| && order[j] in r && First(order, j) ==> order[i] in r)
  }

  lemma ServedStep(order: seq<nat>, limit: nat, r: seq<nat>, x: nat)
    requires Served(order, limit, r)
    ensures Served(order + [x], limit, if x !in r && |r| < limit then r + [x] else r)
  {
    var next, r' := order + [x], if x !in r && |r| < limit then r + [x] else r;
    assert First(next, |order|) ==> x !in order by {
      if x in order {
        var k :| 0 <= k < |order| && order[k] == x;
        assert next[k] == next[|order|];
      }
    }
    forall i, j | 0 <= i < j < |next| && next[j] in r' && First(next, j)
      ensures next[i] in r'
    {
      assert next[i] == order[i];
      if j < |order| {
        assert forall k :: 0 <= k < j ==> next[k] == order[k];
        assert First(order, j);
      }
    }
  }

  lemma {:induction false} PickServes(order: seq<nat>, rest: seq<nat>, limit: nat, r: seq<nat>)
    requires Served(order, limit, r)
    ensures Served(order + rest, limit, Pick(r, rest, limit))
    decreases |rest|
  {
    if rest == [] {
      assert order + rest == order;
    } else {
      ServedStep(order, limit, r, rest[0]);
      var r' := if rest[0] !in r && |r| < limit then r + [rest[0]] else r;
      PickServes(order + [rest[0]], rest[1..], limit, r');
      assert (order + [rest[0]]) + rest[1..] == order + rest;
    }
  }

  predicate Ascending(s: seq<nat>) {
    forall i, j :: 0 <= i < j < |s| ==> s[i] < s[j]
  }

  predicate Descending(s: seq<nat>) {
    forall i, j :: 0 <= i < j < |s| ==> s[i] > s[j]
  }

  lemma {:induction false} ReversedAt(s: seq<nat>, k: nat)
    requires k < |s|
    ensures |Reversed(s)| == |s| && Reversed(s)[k] == s[|s| - 1 - k]
  {
    if |s| > 1 { ReversedAt(s[1..], if k < |s| - 1 then k else 0); }
  }

  lemma ReversedDescends(s: seq<nat>)
    requires Ascending(s)
    ensures Descending(Reversed(s))
  {
    forall i, j | 0 <= i < j < |s|
      ensures Reversed(s)[i] > Reversed(s)[j]
    {
      ReversedAt(s, i);
      ReversedAt(s, j);
    }
  }

  /** What is served behind `ahead` is served newest first. */
  lemma NewestFirst(ahead: seq<nat>, s: seq<nat>, behind: seq<nat>, limit: nat, r: seq<nat>, i: nat, j: nat)
    requires Served(ahead + s + behind, limit, r) && Descending(s)
    requires i in s && j in s && i < j && i in r && i !in ahead
    ensures j in r
  {
    var order := ahead + s + behind;
    var a: nat :| a < |s| && s[a] == i;
    var b: nat :| b < |s| && s[b] == j;
    assert order[|ahead| + a] == i && order[|ahead| + b] == j;
    FirstBehind(ahead, s, behind, a);
    assert b < a;
  }

  lemma FirstBehind(ahead: seq<nat>, s: seq<nat>, behind: seq<nat>, a: nat)
    requires a < |s| && s[a] !in ahead && Distinct(s)
    ensures First(ahead + s + behind, |ahead| + a)
  {
    var order := ahead + s + behind;
    assert order[|ahead| + a] == s[a];
    forall k | 0 <= k < |ahead| + a
      ensures order[k] != s[a]
    {
      if k >= |ahead| { assert order[k] == s[k - |ahead|]; } else { assert order[k] == ahead[k]; }
    }
  }

  // ---- the two newest

  /** At most one message that satisfies `p` is newer. */
  predicate Newest(messages: seq<Json>, p: Json -> bool, i: nat) {
    && i < |messages| && p(messages[i])
    && !exists j, k :: i < j < k < |messages| && p(messages[j]) && p(messages[k])
  }

  lemma LastTwoOf(s: seq<nat>, i: nat)
    requires Ascending(s)
    ensures i in LastTwo(s) <==> i in s && !exists j, k :: i < j < k && j in s && k in s
  {
    if i in s {
      var a: nat :| a < |s| && s[a] == i;
      if a + 2 < |s| {
        assert i < s[a + 1] < s[a + 2] && s[a + 1] in s && s[a + 2] in s;
      } else {
        assert |s| > 2 ==> LastTwo(s)[a - (|s| - 2)] == i;
        forall j, k | j in s && k in s
          ensures !(i < j < k)
        {
          var b: nat :| b < |s| && s[b] == j;
          var c: nat :| c < |s| && s[c] == k;
        }
      }
    }
  }

  lemma NewestIsLastTwo(messages: seq<Json>, p: Json -> bool, i: nat)
    ensures Newest(messages, p, i) <==> i in LastTwo(Indices(messages, p, 0))
  {
    var s := Indices(messages, p, 0);
    LastTwoOf(s, i);
    IndicesIff(messages, p);
  }

  lemma IndicesIff(messages: seq<Json>, p: Json -> bool)
    ensures forall i: nat :: i in Indices(messages, p, 0) <==> i < |messages| && p(messages[i])
    ensures Ascending(Indices(messages, p, 0))
  {
  }

  // ---- Bedrock

  function BedrockOrder(reader: Reader, messages: seq<Json>): seq<nat> {
    LastTwo(Indices(messages, m => Pointable(reader, m) && PlainUser(m), 0))
    + Reversed(Indices(messages, m => Pointable(reader, m), 0))
  }

  lemma ServedNone(limit: nat)
    ensures Served([], limit, [])
  {
  }

  lemma BedrockServes(reader: Reader, messages: seq<Json>, limit: nat)
    ensures Served(BedrockOrder(reader, messages), limit, BedrockSelected(reader, messages, limit))
  {
    var users := LastTwo(Indices(messages, m => Pointable(reader, m) && PlainUser(m), 0));
    var newest := Reversed(Indices(messages, m => Pointable(reader, m), 0));
    ServedNone(limit);
    PickServes([], users, limit, []);
    assert [] + users == users;
    PickServes(users, newest, limit, Pick([], users, limit));
  }

  /** A user message with a block list that at most one other follows. */
  predicate NewestUser(reader: Reader, messages: seq<Json>, i: nat) {
    Newest(messages, m => Pointable(reader, m) && PlainUser(m), i)
  }

  lemma TwoThenAll(two: seq<nat>, all: seq<nat>, limit: nat, r: seq<nat>)
    requires Served(two + Reversed(all), limit, r) && Ascending(all) && forall i :: i in two ==> i in all
    ensures forall i :: i in r ==> i in all
    ensures |r| == limit || forall i :: i in all ==> i in r
    ensures forall i, j :: i in r && i < j && j in all && j !in r ==> i in two
  {
    ReversedDescends(all);
    assert two + Reversed(all) + [] == two + Reversed(all);
    forall i, j | i in r && i < j && j in all && j !in r
      ensures i in two
    {
      if i !in two { NewestFirst(two, Reversed(all), [], limit, r, i, j); }
    }
  }

  /** With two slots, two that are ranked first are served. */
  lemma FirstTwoTaken(two: seq<nat>, rest: seq<nat>, limit: nat)
    requires |two| <= 2 <= limit
    ensures forall i :: i in two ==> i in Pick(Pick([], two, limit), rest, limit)
  {
    PickTakes([], two, limit);
    PickFrom([], two, limit);
    PickFrom(Pick([], two, limit), rest, limit);
  }

  /** Who is served: the two newest user messages with two slots, everyone with slots to spare, and else
      the newer before the older. */
  ghost predicate ServesNewest(reader: Reader, messages: seq<Json>, limit: nat, r: seq<nat>) {
    && (forall i :: i in r ==> i < |messages| && Pointable(reader, messages[i]))
    && (|r| == limit || forall i: nat :: i < |messages| && Pointable(reader, messages[i]) ==> i in r)
    && (limit >= 2 ==> forall i :: NewestUser(reader, messages, i) ==> i in r)
    && (forall i, j :: i in r && i < j < |messages| && Pointable(reader, messages[j]) && j !in r ==>
          NewestUser(reader, messages, i))
  }

  lemma BedrockSelectedIs(reader: Reader, messages: seq<Json>, limit: nat)
    ensures ServesNewest(reader, messages, limit, BedrockSelected(reader, messages, limit))
  {
    var p := (m: Json) => Pointable(reader, m);
    var u := (m: Json) => Pointable(reader, m) && PlainUser(m);
    var all, two := Indices(messages, p, 0), LastTwo(Indices(messages, u, 0));
    BedrockServes(reader, messages, limit);
    IndicesIff(messages, p);
    forall i: nat
      ensures NewestUser(reader, messages, i) <==> i in two
      ensures i in two ==> i in all
    {
      NewestIsLastTwo(messages, u, i);
    }
    TwoThenAll(two, all, limit, BedrockSelected(reader, messages, limit));
    if limit >= 2 { FirstTwoTaken(two, Reversed(all), limit); }
  }

  // ---- what that does to the messages

  lemma {:induction false} EachAt(messages: seq<Json>, chosen: seq<nat>, f: Json -> Json, i: nat)
    requires forall k :: 0 <= k < |chosen| ==> chosen[k] < |messages|
    requires i < |messages| && Distinct(chosen)
    ensures Each(messages, chosen, f)[i] == if i in chosen then f(messages[i]) else messages[i]
    decreases |chosen|
  {
    if i !in chosen {
      EachOther(messages, chosen, f, i);
    } else {
      var next := messages[chosen[0] := f(messages[chosen[0]])];
      if chosen[0] == i {
        EachOther(next, chosen[1..], f, i);
      } else {
        EachAt(next, chosen[1..], f, i);
      }
    }
  }

  /** The message with one cache point after its blocks. */
  predicate Ended(before: Json, after: Json) {
    && Content(before).Some? && Content(before).value.Arr?
    && after == WithContent(before, Arr(Content(before).value.items + [CachePoint]))
  }

  lemma {:induction false} LastIsNoPoint(blocks: seq<Json>)
    requires PointsIn(blocks) == 0
    ensures forall i :: 0 <= i < |blocks| ==> !Point(blocks[i])
  {
    if blocks != [] { LastIsNoPoint(blocks[1..]); }
  }

  lemma PointedIs(reader: Reader, m: Json)
    requires Pointable(reader, m) && Points(m) == 0
    ensures Ended(m, PointMessage(m)) && Points(PointMessage(m)) == 1
  {
    var blocks := Content(m).value.items;
    LastIsNoPoint(blocks);
    ContentWith(m, Arr(blocks + [CachePoint]));
    AppendPoint(blocks);
  }

  lemma BedrockAt(reader: Reader, messages: seq<Json>, limit: nat, i: nat)
    requires Pointless(messages) && i < |messages|
    ensures var out := BedrockMarking(reader, messages, limit);
            && |out| == |messages|
            && if i in BedrockSelected(reader, messages, limit) then Ended(messages[i], out[i]) && Points(out[i]) == 1
               else out[i] == messages[i] && Points(out[i]) == 0
  {
    BedrockSelectedIsSafe(reader, messages, limit);
    BedrockSelectedIs(reader, messages, limit);
    EachAt(messages, BedrockSelected(reader, messages, limit), PointMessage, i);
    if i in BedrockSelected(reader, messages, limit) { PointedIs(reader, messages[i]); }
  }

  /** It could have a cache point and has none. */
  predicate Passed(reader: Reader, messages: seq<Json>, out: seq<Json>, j: nat) {
    j < |messages| && j < |out| && Pointable(reader, messages[j]) && Points(out[j]) == 0
  }

  /** Where the cache points go.  Every message is either the same or the same with one cache point
      after its blocks; with two slots the two newest user messages have one; and of the others one that
      has it is newer than every one that could and does not. */
  lemma BedrockMarksNewest(reader: Reader, messages: seq<Json>, limit: nat)
    requires Pointless(messages)
    ensures var out := BedrockMarking(reader, messages, limit);
            && |out| == |messages|
            && (forall i :: 0 <= i < |messages| ==> out[i] == messages[i] || Ended(messages[i], out[i]))
            && (limit >= 2 ==>
                  forall i :: 0 <= i < |messages| && NewestUser(reader, messages, i) ==> Ended(messages[i], out[i]))
            && (forall i, j :: 0 <= i < j < |messages| && Points(out[i]) > 0 && Passed(reader, messages, out, j) ==>
                  NewestUser(reader, messages, i))
  {
    var out := BedrockMarking(reader, messages, limit);
    BedrockSelectedIs(reader, messages, limit);
    forall i: nat | i < |messages|
      ensures |out| == |messages|
      ensures if i in BedrockSelected(reader, messages, limit) then Ended(messages[i], out[i]) && Points(out[i]) == 1
              else out[i] == messages[i] && Points(out[i]) == 0
    {
      BedrockAt(reader, messages, limit, i);
    }
  }

  // ---- how many

  lemma {:induction false} DistinctFits(a: seq<nat>, b: seq<nat>)
    requires Distinct(a) && forall x :: x in a ==> x in b
    ensures |a| <= |b|
  {
    if a != [] {
      assert a[0] in a && a[0] in b;
      var k: nat :| k < |b| && b[k] == a[0];
      var fewer := b[..k] + b[k + 1..];
      forall x | x in a[1..]
        ensures x in fewer
      {
        assert x in b && x != a[0];
        var at: nat :| at < |b| && b[at] == x;
        assert fewer[if at < k then at else at - 1] == x;
      }
      DistinctFits(a[1..], fewer);
    }
  }

  lemma {:induction false} IndicesCount(messages: seq<Json>, p: Json -> bool, from: nat)
    requires from <= |messages|
    ensures |Indices(messages, p, from)| == Sum(messages[from..], m => One(p(m)))
    decreases |messages| - from
  {
    if from < |messages| {
      IndicesCount(messages, p, from + 1);
      assert messages[from..][1..] == messages[from + 1..];
    }
  }

  lemma {:induction false} EachAdds(messages: seq<Json>, chosen: seq<nat>, f: Json -> Json, c: Json -> nat)
    requires Distinct(chosen) && forall k :: 0 <= k < |chosen| ==> chosen[k] < |messages|
    requires forall k :: 0 <= k < |chosen| ==> c(f(messages[chosen[k]])) == c(messages[chosen[k]]) + 1
    ensures Sum(Each(messages, chosen, f), c) == Sum(messages, c) + |chosen|
    decreases |chosen|
  {
    if chosen != [] {
      SumUpdate(messages, chosen[0], f(messages[chosen[0]]), c);
      EachAdds(messages[chosen[0] := f(messages[chosen[0]])], chosen[1..], f, c);
    }
  }

  function Min(a: nat, b: nat): nat {
    if a <= b then a else b
  }

  lemma ServedCount(all: seq<nat>, limit: nat, r: seq<nat>)
    requires Distinct(all) && Distinct(r) && |r| <= limit && forall x :: x in r ==> x in all
    requires |r| == limit || forall x :: x in all ==> x in r
    ensures |r| == Min(limit, |all|)
  {
    DistinctFits(r, all);
    if |r| < limit { DistinctFits(all, r); }
  }

  lemma SelectedCount(reader: Reader, messages: seq<Json>, limit: nat)
    ensures |BedrockSelected(reader, messages, limit)| == Min(limit, |Indices(messages, m => Pointable(reader, m), 0)|)
  {
    var p := (m: Json) => Pointable(reader, m);
    BedrockSelectedIs(reader, messages, limit);
    BedrockSelectedIsSafe(reader, messages, limit);
    IndicesIff(messages, p);
    ServedCount(Indices(messages, p, 0), limit, BedrockSelected(reader, messages, limit));
  }

  lemma PointableCount(reader: Reader, messages: seq<Json>)
    ensures |Indices(messages, m => Pointable(reader, m), 0)| == Sum(messages, m => One(Pointable(reader, m)))
  {
    var p := (m: Json) => Pointable(reader, m);
    IndicesCount(messages, p, 0);
    assert messages[0..] == messages;
    SameSum(messages, m => One(p(m)), m => One(Pointable(reader, m)));
  }

  lemma {:induction false} SameSum(messages: seq<Json>, c: Json -> nat, c': Json -> nat)
    requires forall m :: c(m) == c'(m)
    ensures Sum(messages, c) == Sum(messages, c')
  {
    if messages != [] { SameSum(messages[1..], c, c'); }
  }

  /** The slots are used up: as many cache points as there are slots, or as messages that can have one. */
  lemma BedrockFillsSlots(reader: Reader, messages: seq<Json>, limit: nat)
    requires Pointless(messages)
    ensures Sum(BedrockMarking(reader, messages, limit), Points)
         == Min(limit, Sum(messages, m => One(Pointable(reader, m))))
  {
    var r := BedrockSelected(reader, messages, limit);
    SelectedCount(reader, messages, limit);
    PointableCount(reader, messages);
    BedrockSelectedIs(reader, messages, limit);
    BedrockSelectedIsSafe(reader, messages, limit);
    forall k | 0 <= k < |r|
      ensures Points(PointMessage(messages[r[k]])) == Points(messages[r[k]]) + 1
    {
      PointedIs(reader, messages[r[k]]);
    }
    EachAdds(messages, r, PointMessage, Points);
    SumZero(messages, Points);
  }

  // ---- chat completions

  /** The first of a list, if any. */
  function Head(s: seq<nat>): seq<nat> {
    if s == [] then [] else [s[0]]
  }

  function RankOrder(stable: seq<nat>, profiles: seq<nat>, users: seq<nat>, advancing: seq<nat>): seq<nat> {
    Head(stable) + profiles + Reversed(LastTwo(users)) + Reversed(advancing)
  }

  lemma RankedServes(stable: seq<nat>, profiles: seq<nat>, users: seq<nat>, advancing: seq<nat>, others: seq<nat>,
                     limit: nat)
    requires limit >= 1
    ensures var order := RankOrder(stable, profiles, users, advancing);
            var r := Ranked(stable, profiles, users, advancing, others, limit);
            if order != [] then Served(order, limit, r) else r == others[..Min(limit, |others|)]
  {
    var a, c, d := Head(stable), Reversed(LastTwo(users)), Reversed(advancing);
    assert Served(a, limit, a);
    PickServes(a, profiles, limit, a);
    PickServes(a + profiles, c, limit, Pick(a, profiles, limit));
    PickServes(a + profiles + c, d, limit, Pick(Pick(a, profiles, limit), c, limit));
    var order := RankOrder(stable, profiles, users, advancing);
    if order != [] { assert order[0] in order; }
  }

  lemma FirstAt(order: seq<nat>, x: nat) returns (j: nat)
    requires x in order
    ensures First(order, j) && order[j] == x
  {
    j := 0;
    while order[j] != x
      invariant j < |order| && forall k :: 0 <= k < j ==> order[k] != x
      decreases |order| - j
    {
      j := j + 1;
    }
  }

  /** With a slot, the first in rank is served. */
  lemma HeadServed(order: seq<nat>, limit: nat, r: seq<nat>)
    requires Served(order, limit, r) && limit >= 1 && order != []
    ensures order[0] in r
  {
    if r == [] {
      assert order[0] in order;
    } else {
      var j := FirstAt(order, r[0]);
    }
  }

  /** Oldest first among the profiles. */
  lemma OldestFirst(ahead: seq<nat>, s: seq<nat>, behind: seq<nat>, limit: nat, r: seq<nat>, i: nat, j: nat)
    requires Served(ahead + s + behind, limit, r) && Ascending(s)
    requires i in s && j in s && i < j && j in r && j !in ahead
    ensures i in r
  {
    var order := ahead + s + behind;
    var a: nat :| a < |s| && s[a] == i;
    var b: nat :| b < |s| && s[b] == j;
    assert order[|ahead| + a] == i && order[|ahead| + b] == j;
    FirstBehind(ahead, s, behind, b);
    assert a < b;
  }

  /** When one of `s` is left out, only those ranked before it are in. */
  lemma OnlyEarlier(ahead: seq<nat>, s: seq<nat>, behind: seq<nat>, limit: nat, r: seq<nat>, i: nat, x: nat)
    requires Served(ahead + s + behind, limit, r) && Descending(s)
    requires i in s && i !in r && x in r
    ensures x in ahead || (x in s && x > i)
  {
    var order := ahead + s + behind;
    var a: nat :| a < |s| && s[a] == i;
    assert order[|ahead| + a] == i;
    var j := FirstAt(order, x);
    if j < |ahead| {
      assert order[j] == ahead[j];
    } else {
      assert j < |ahead| + a;
      assert order[j] == s[j - |ahead|];
    }
  }

  /** The ranking of lists, before it is read off the messages. */
  ghost predicate EarlyLaws(first: seq<nat>, profiles: seq<nat>, two: seq<nat>, r: seq<nat>) {
    && (forall i :: i in first ==> i in r)
    && (forall i, j :: i in profiles && j in profiles && i < j && j in r ==> i in r)
    && (forall i, x :: i in two && i !in r && x in r ==> x in first || x in profiles || (x in two && x > i))
  }

  ghost predicate LateLaws(profiles: seq<nat>, two: seq<nat>, advancing: seq<nat>, limit: nat, r: seq<nat>) {
    && (forall i, j :: i in r && i in advancing && j in advancing && i < j && j !in r ==> i in profiles || i in two)
    && (|r| == limit || forall i :: i in advancing ==> i in r)
  }

  lemma FirstIsServed(first: seq<nat>, rest: seq<nat>, limit: nat, r: seq<nat>)
    requires limit >= 1 && |first| <= 1 && Served(first + rest, limit, r)
    ensures forall i :: i in first ==> i in r
  {
    if first != [] {
      assert (first + rest)[0] == first[0];
      HeadServed(first + rest, limit, r);
    }
  }

  lemma ProfilesAreServed(first: seq<nat>, profiles: seq<nat>, rest: seq<nat>, limit: nat, r: seq<nat>)
    requires Ascending(profiles) && Served(first + profiles + rest, limit, r)
    requires forall i :: i in first ==> i !in profiles
    ensures forall i, j :: i in profiles && j in profiles && i < j && j in r ==> i in r
  {
    forall i, j | i in profiles && j in profiles && i < j && j in r
      ensures i in r
    {
      OldestFirst(first, profiles, rest, limit, r, i, j);
    }
  }

  lemma UsersAreServed(ahead: seq<nat>, two: seq<nat>, rest: seq<nat>, limit: nat, r: seq<nat>)
    requires Ascending(two) && Served(ahead + Reversed(two) + rest, limit, r)
    ensures forall i, x :: i in two && i !in r && x in r ==> x in ahead || (x in two && x > i)
  {
    ReversedDescends(two);
    forall i, x | i in two && i !in r && x in r
      ensures x in ahead || (x in two && x > i)
    {
      OnlyEarlier(ahead, Reversed(two), rest, limit, r, i, x);
    }
  }

  lemma Associates(a: seq<nat>, b: seq<nat>, c: seq<nat>, d: seq<nat>)
    ensures a + (b + c + d) == a + b + c + d && a + b + (c + d) == a + b + c + d
  {
  }

  lemma EarlyLawsHold(first: seq<nat>, profiles: seq<nat>, two: seq<nat>, rest: seq<nat>, limit: nat, r: seq<nat>)
    requires limit >= 1 && |first| <= 1 && Ascending(profiles) && Ascending(two)
    requires forall i :: i in first ==> i !in profiles
    requires Served(first + profiles + Reversed(two) + rest, limit, r)
    ensures EarlyLaws(first, profiles, two, r)
  {
    Associates(first, profiles, Reversed(two), rest);
    FirstIsServed(first, profiles + Reversed(two) + rest, limit, r);
    ProfilesAreServed(first, profiles, Reversed(two) + rest, limit, r);
    UsersAreServed(first + profiles, two, rest, limit, r);
  }

  lemma LateLawsHold(first: seq<nat>, profiles: seq<nat>, two: seq<nat>, advancing: seq<nat>, limit: nat, r: seq<nat>)
    requires Ascending(advancing) && forall i :: i in first ==> i !in advancing
    requires Served(first + profiles + Reversed(two) + Reversed(advancing), limit, r)
    ensures LateLaws(profiles, two, advancing, limit, r)
  {
    var ahead, rest := first + profiles + Reversed(two), Reversed(advancing);
    ReversedDescends(advancing);
    assert ahead + rest + [] == ahead + rest;
    forall i, j | i in r && i in advancing && j in advancing && i < j && j !in r
      ensures i in profiles || i in two
    {
      if i !in profiles && i !in two {
        assert i !in ahead;
        NewestFirst(ahead, rest, [], limit, r, i, j);
      }
    }
  }

  predicate FirstSystem(reader: Reader, messages: seq<Json>, i: nat) {
    && i < |messages| && Stable(reader, messages[i])
    && forall k :: 0 <= k < i ==> !Stable(reader, messages[k])
  }

  predicate ProfileAt(reader: Reader, messages: seq<Json>, i: nat) {
    i < |messages| && Advancing(reader, messages[i]) && Profile(reader, messages[i])
  }

  predicate UserAt(reader: Reader, messages: seq<Json>, i: nat) {
    i < |messages| && Advancing(reader, messages[i]) && Role(reader, messages[i]) == "user"
  }

  /** A user boundary that at most one other follows. */
  predicate NewestUserAt(reader: Reader, messages: seq<Json>, i: nat) {
    Newest(messages, m => Advancing(reader, m) && Role(reader, m) == "user", i)
  }

  /** Who is served first: the first system message, profiles oldest first, and a newest user boundary
      unless only those and a newer one took the slots. */
  ghost predicate ServesEarly(reader: Reader, messages: seq<Json>, r: seq<nat>) {
    && (forall i :: FirstSystem(reader, messages, i) ==> i in r)
    && (forall i, j :: ProfileAt(reader, messages, i) && ProfileAt(reader, messages, j) && i < j && j in r ==> i in r)
    && (forall i, x :: NewestUserAt(reader, messages, i) && i !in r && x in r ==> Outranks(reader, messages, x, i))
  }

  /** Then the newer before the older, until the slots are gone. */
  ghost predicate ServesLate(reader: Reader, messages: seq<Json>, limit: nat, r: seq<nat>) {
    && (forall i, j :: AdvancingAt(reader, messages, i) && i in r && LeftOut(reader, messages, r, j) && i < j ==>
          ProfileAt(reader, messages, i) || NewestUserAt(reader, messages, i))
    && (|r| == limit || forall j :: !LeftOut(reader, messages, r, j))
  }

  predicate Outranks(reader: Reader, messages: seq<Json>, x: nat, user: nat) {
    FirstSystem(reader, messages, x) || ProfileAt(reader, messages, x) || (UserAt(reader, messages, x) && x > user)
  }

  predicate AdvancingAt(reader: Reader, messages: seq<Json>, i: nat) {
    i < |messages| && Advancing(reader, messages[i])
  }

  predicate LeftOut(reader: Reader, messages: seq<Json>, r: seq<nat>, j: nat) {
    AdvancingAt(reader, messages, j) && j !in r
  }

  lemma HeadIsFirst(reader: Reader, messages: seq<Json>, i: nat)
    ensures i in Head(StableOnes(reader, messages)) <==> FirstSystem(reader, messages, i)
  {
    var p := (m: Json) => Stable(reader, m);
    var s := Indices(messages, p, 0);
    IndicesIff(messages, p);
    assert StableOnes(reader, messages) == s;
    if FirstSystem(reader, messages, i) {
      assert i in s;
      assert s[0] in s;
    }
    if s != [] { assert s[0] in s; }
  }

  lemma ChatLists(reader: Reader, messages: seq<Json>, i: nat)
    ensures i in Profiles(reader, messages) <==> ProfileAt(reader, messages, i)
    ensures i in LastTwo(Users(reader, messages)) <==> NewestUserAt(reader, messages, i)
    ensures i in Users(reader, messages) <==> UserAt(reader, messages, i)
    ensures i in AdvancingOnes(reader, messages) <==> AdvancingAt(reader, messages, i)
  {
    var user := (m: Json) => Advancing(reader, m) && Role(reader, m) == "user";
    NewestIsLastTwo(messages, user, i);
    IndicesIff(messages, user);
    IndicesIff(messages, m => Advancing(reader, m) && Profile(reader, m));
    IndicesIff(messages, m => Advancing(reader, m));
  }

  lemma ListsAscend(reader: Reader, messages: seq<Json>)
    ensures Ascending(Profiles(reader, messages)) && Ascending(AdvancingOnes(reader, messages))
    ensures Ascending(LastTwo(Users(reader, messages)))
  {
  }

  /** The order, or without anybody in it the oldest messages that are not the runtime block. */
  lemma SelectedServes(reader: Reader, messages: seq<Json>, limit: nat)
    requires limit >= 1
    ensures var order := RankOrder(StableOnes(reader, messages), Profiles(reader, messages), Users(reader, messages),
                                   AdvancingOnes(reader, messages));
            var r, others := Selected(reader, messages, limit), Others(reader, messages);
            if order != [] then Served(order, limit, r) else r == others[..Min(limit, |others|)]
  {
    RankedServes(StableOnes(reader, messages), Profiles(reader, messages), Users(reader, messages),
                 AdvancingOnes(reader, messages), Others(reader, messages), limit);
  }

  lemma SelectedLaws(reader: Reader, messages: seq<Json>, limit: nat)
    requires limit >= 1
    ensures var first, profiles := Head(StableOnes(reader, messages)), Profiles(reader, messages);
            var two, r := LastTwo(Users(reader, messages)), Selected(reader, messages, limit);
            EarlyLaws(first, profiles, two, r) && LateLaws(profiles, two, AdvancingOnes(reader, messages), limit, r)
  {
    var first, profiles := Head(StableOnes(reader, messages)), Profiles(reader, messages);
    var two, advancing := LastTwo(Users(reader, messages)), AdvancingOnes(reader, messages);
    var order, r := first + profiles + Reversed(two) + Reversed(advancing), Selected(reader, messages, limit);
    SelectedServes(reader, messages, limit);
    ListsAscend(reader, messages);
    forall i | i in first
      ensures i !in profiles && i !in advancing
    {
      HeadIsFirst(reader, messages, i);
      ChatLists(reader, messages, i);
    }
    if order != [] {
      EarlyLawsHold(first, profiles, two, Reversed(advancing), limit, r);
      LateLawsHold(first, profiles, two, advancing, limit, r);
    } else {
      NothingRanked(first, profiles, two, advancing);
    }
  }

  lemma NothingRanked(first: seq<nat>, profiles: seq<nat>, two: seq<nat>, advancing: seq<nat>)
    requires first + profiles + Reversed(two) + Reversed(advancing) == []
    ensures first == [] && profiles == [] && two == [] && advancing == []
  {
    assert |first| + |profiles| + |Reversed(two)| + |Reversed(advancing)| == 0;
  }

  lemma EarlyAreServed(reader: Reader, messages: seq<Json>, limit: nat)
    requires limit >= 1
    ensures ServesEarly(reader, messages, Selected(reader, messages, limit))
  {
    var r := Selected(reader, messages, limit);
    SelectedLaws(reader, messages, limit);
    forall i | FirstSystem(reader, messages, i)
      ensures i in r
    {
      HeadIsFirst(reader, messages, i);
    }
    forall i, j | ProfileAt(reader, messages, i) && ProfileAt(reader, messages, j) && i < j && j in r
      ensures i in r
    {
      ChatLists(reader, messages, i);
      ChatLists(reader, messages, j);
    }
    forall i, x | NewestUserAt(reader, messages, i) && i !in r && x in r
      ensures Outranks(reader, messages, x, i)
    {
      ChatLists(reader, messages, i);
      ChatLists(reader, messages, x);
      HeadIsFirst(reader, messages, x);
    }
  }

  lemma LateAreServed(reader: Reader, messages: seq<Json>, limit: nat)
    requires limit >= 1
    ensures ServesLate(reader, messages, limit, Selected(reader, messages, limit))
  {
    var r := Selected(reader, messages, limit);
    SelectedLaws(reader, messages, limit);
    forall i, j | AdvancingAt(reader, messages, i) && i in r && LeftOut(reader, messages, r, j) && i < j
      ensures ProfileAt(reader, messages, i) || NewestUserAt(reader, messages, i)
    {
      ChatLists(reader, messages, i);
      ChatLists(reader, messages, j);
    }
    if |r| < limit {
      forall j
        ensures !LeftOut(reader, messages, r, j)
      {
        ChatLists(reader, messages, j);
      }
    }
    SelectedIsSafe(reader, messages, limit);
  }

  /** For every list of messages and every limit, the boundaries are served in the order of their rank. */
  lemma BoundariesAreServed(reader: Reader, messages: seq<Json>, limit: nat)
    requires limit >= 1
    ensures ServesEarly(reader, messages, Selected(reader, messages, limit))
    ensures ServesLate(reader, messages, limit, Selected(reader, messages, limit))
  {
    EarlyAreServed(reader, messages, limit);
    LateAreServed(reader, messages, limit);
  }

  /** Some message has a rank. */
  ghost predicate SomeRanked(reader: Reader, messages: seq<Json>) {
    exists k :: FirstSystem(reader, messages, k) || AdvancingAt(reader, messages, k)
  }

  lemma RankedOnly(reader: Reader, messages: seq<Json>, limit: nat, i: nat)
    requires limit >= 1 && SomeRanked(reader, messages) && i in Selected(reader, messages, limit)
    ensures FirstSystem(reader, messages, i) || AdvancingAt(reader, messages, i)
  {
    var k :| FirstSystem(reader, messages, k) || AdvancingAt(reader, messages, k);
    SelectedServes(reader, messages, limit);
    HeadIsFirst(reader, messages, k);
    ChatLists(reader, messages, k);
    HeadIsFirst(reader, messages, i);
    ChatLists(reader, messages, i);
  }

  /** While any message has a rank, only the first system message and messages that are neither system,
      runtime context nor a coverage notice are chosen. */
  lemma OnlyBoundariesAreServed(reader: Reader, messages: seq<Json>, limit: nat, i: nat)
    requires limit >= 1 && SomeRanked(reader, messages) && i in Selected(reader, messages, limit)
    ensures i < |messages|
    ensures || FirstSystem(reader, messages, i)
            || (&& Role(reader, messages[i]) != "system" && !Runtime(reader, messages[i])
                && !Hole(reader, messages[i]))
  {
    RankedOnly(reader, messages, limit, i);
  }

  // ---- what that does to the messages

  /** A message with a text block, and where its last one is. */
  predicate HoldsText(m: Json) {
    Content(m).Some? && Content(m).value.Arr? && LastText(Content(m).value.items) >= 0
  }

  /** The same message with a marker on its last text block. */
  predicate MarkedOnce(before: Json, after: Json)
    requires HoldsText(before)
  {
    var parts := Content(before).value.items;
    var k := LastText(parts);
    after == WithContent(before, Arr(parts[k := Obj(parts[k].fields + [Ephemeral])]))
  }

  lemma {:induction false} UncarriedFields(blocks: seq<Json>, k: nat)
    requires CountBlocks(blocks) == 0 && k < |blocks| && blocks[k].Obj?
    ensures Without(blocks[k].fields, "cache_control") == blocks[k].fields
  {
    if k == 0 { WithoutAbsent(blocks[0].fields, "cache_control"); } else { UncarriedFields(blocks[1..], k - 1); }
  }

  lemma MarkIs(m: Json)
    requires Shaped(m) && Markers(m) == 0
    ensures if HoldsText(m) then MarkedOnce(m, MarkMessage(m)) && Markers(MarkMessage(m)) == 1 else MarkMessage(m) == m
  {
    if HoldsText(m) {
      var parts := Content(m).value.items;
      var k := LastText(parts);
      UncarriedFields(parts, k);
      assert Obj(Marked(parts[k].fields)) == Obj(parts[k].fields + [Ephemeral]);
      assert |parts[k].fields + [Ephemeral]| > |parts[k].fields|;
      assert parts[k := Obj(parts[k].fields + [Ephemeral])][k] != parts[k];
      ContentWith(m, Arr(parts[k := Obj(parts[k].fields + [Ephemeral])]));
      MarkMessageEdits(m);
      MarkableGetsOne(m);
    }
  }

  /** Every message comes out canonical; a selected one with a text has one marker, on its last text
      block, and every other has none. */
  lemma MarkingAt(reader: Reader, messages: seq<Json>, limit: nat, i: nat)
    requires limit >= 1 && Dictionaries(messages) && i < |messages|
    ensures var canon, out := Canon(messages), Marking(reader, messages, limit);
            && |out| == |canon| == |messages|
            && if i in Selected(reader, canon, limit) && HoldsText(canon[i])
               then MarkedOnce(canon[i], out[i]) && Markers(out[i]) == 1
               else out[i] == canon[i] && Markers(out[i]) == 0
  {
    var canon := Canon(messages);
    SelectedIsSafe(reader, canon, limit);
    CanonIsShaped(messages);
    EachAt(canon, Selected(reader, canon, limit), MarkMessage, i);
    MarkIs(canon[i]);
  }

  /** The system text goes out whole, one marker after its last part. */
  lemma {:induction false} SystemMarkIsLast(parts: seq<string>)
    requires parts != []
    ensures var blocks, last := SystemBlocks(parts), |parts| - 1;
            && |blocks| == |parts|
            && (forall i :: 0 <= i < last ==> blocks[i] == TextBlock(parts[i]))
            && blocks[last] == Obj(TextBlock(parts[last]).fields + [Ephemeral])
  {
    if |parts| > 1 { SystemMarkIsLast(parts[1..]); }
  }
}
