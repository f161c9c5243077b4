/** Upload receipts of one hourly archive: a receipt names the digest of what was uploaded, and
    a changed archive is pending again. */
module Receipts {
  import opened LogText
  import opened Prelude

  /** An archive is its sequence of compressed members; sealing only appends one. */
  type Archive = seq<Bytes>

  /** A put is confirmed, refused, or its outcome is unknown: it has landed, or it may land later. */
  datatype Put = Stored | Refused | Ambiguous(landed: bool)

  /** `content` is the open snapshot; `stored` says the last put was confirmed. */
  datatype Upload = Upload(content: Archive, stored: bool)

  /** `adrift` are the puts given up on that the store may still apply. */
  datatype State = State(archive: Archive, sent: Option<int>, remote: Option<Archive>, upload: Option<Upload>,
                         adrift: seq<Archive>)

  datatype Step = Seal(member: Bytes) | Snapshot | PutObject(outcome: Put) | MarkUploaded | Stop | Land(i: nat)

  predicate Enabled(s: State, digest: Archive -> int, step: Step) {
    match step
    case Seal(_) => true
    case Snapshot => s.upload.None? && s.archive != [] && s.sent != Some(digest(s.archive))
    case PutObject(_) => s.upload.Some?
    case MarkUploaded => s.upload.Some? && s.upload.value.stored
    case Stop => s.upload.Some?
    case Land(i) => i < |s.adrift|
  }

  function Do(s: State, digest: Archive -> int, step: Step): State
    requires Enabled(s, digest, step)
  {
    match step
    case Seal(member) => s.(archive := s.archive + [member])
    case Snapshot => s.(upload := Some(Upload(s.archive, false)))
    case PutObject(outcome) =>
      var landed := outcome.Stored? || (outcome.Ambiguous? && outcome.landed);
      s.(remote := if landed then Some(s.upload.value.content) else s.remote,
         upload := Some(Upload(s.upload.value.content, outcome.Stored?)),
         adrift := if outcome.Ambiguous? && !outcome.landed then s.adrift + [s.upload.value.content] else s.adrift)
    case MarkUploaded => s.(sent := Some(digest(s.upload.value.content)), upload := None)
    case Stop => s.(upload := None)
    case Land(i) => s.(remote := Some(s.adrift[i]), adrift := s.adrift[..i] + s.adrift[i + 1..])
  }

  predicate Runs(s: State, digest: Archive -> int, steps: seq<Step>)
    decreases |steps|
  {
    steps == [] || (Enabled(s, digest, steps[0]) && Runs(Do(s, digest, steps[0]), digest, steps[1..]))
  }

  function After(s: State, digest: Archive -> int, steps: seq<Step>): State
    requires Runs(s, digest, steps)
    decreases |steps|
  {
    if steps == [] then s else After(Do(s, digest, steps[0]), digest, steps[1..])
  }

  predicate Init(s: State) {
    s.archive == [] && s.sent.None? && s.remote.None? && s.upload.None? && s.adrift == []
  }

  ghost predicate Injective(digest: Archive -> int) {
    forall a, b :: digest(a) == digest(b) ==> a == b
  }

  /** The receipt names some earlier content of the archive, older than any open snapshot, and what is
      adrift are earlier contents, too. */
  ghost predicate Inv(s: State, digest: Archive -> int, marked: Archive) {
    && (s.sent.Some? ==> s.sent.value == digest(marked) && marked <= s.archive)
    && (s.upload.Some? ==> s.upload.value.content <= s.archive && (s.sent.Some? ==> marked < s.upload.value.content))
    && (forall i :: 0 <= i < |s.adrift| ==> s.adrift[i] <= s.archive)
  }

  /** A receipt equal to the archive's digest means the remote object is the archive. */
  predicate Receipted(s: State, digest: Archive -> int) {
    s.sent == Some(digest(s.archive)) ==> s.remote == Some(s.archive)
  }

  /** So does a confirmed put of the archive whose receipt is still to be written. */
  predicate Confirmed(s: State, digest: Archive -> int) {
    && Receipted(s, digest)
    && (s.upload.Some? && s.upload.value.stored && s.upload.value.content == s.archive ==> s.remote == Some(s.archive))
  }

  /** The step leaves a put behind that may still land. */
  predicate GivesUp(step: Step) {
    step.PutObject? && step.outcome.Ambiguous? && !step.outcome.landed
  }

  predicate NoneGivenUp(steps: seq<Step>) {
    forall i :: 0 <= i < |steps| ==> !GivesUp(steps[i])
  }

  lemma StepKeeps(s: State, digest: Archive -> int, step: Step, marked: Archive) returns (marked': Archive)
    requires Injective(digest) && Inv(s, digest, marked) && Enabled(s, digest, step)
    ensures Inv(Do(s, digest, step), digest, marked')
  {
    marked' := if step.MarkUploaded? then s.upload.value.content else marked;
    if step.Snapshot? && s.sent.Some? { assert marked != s.archive; }
  }

  lemma {:induction false} RunKeeps(s: State, digest: Archive -> int, steps: seq<Step>, marked: Archive)
    returns (marked': Archive)
    requires Injective(digest) && Inv(s, digest, marked) && Runs(s, digest, steps)
    ensures Inv(After(s, digest, steps), digest, marked')
    decreases |steps|
  {
    marked' := marked;
    if steps != [] {
      marked' := StepKeeps(s, digest, steps[0], marked);
      marked' := RunKeeps(Do(s, digest, steps[0]), digest, steps[1..], marked');
    }
  }

  lemma StepConfirms(s: State, digest: Archive -> int, step: Step, marked: Archive)
    requires Injective(digest) && Inv(s, digest, marked) && Enabled(s, digest, step)
    requires Confirmed(s, digest) && !step.Land?
    ensures Confirmed(Do(s, digest, step), digest)
  {
  }

  /** As long as nothing lands late, receipts stay true. */
  lemma {:induction false} RunConfirms(s: State, digest: Archive -> int, steps: seq<Step>, marked: Archive)
    requires Injective(digest) && Inv(s, digest, marked) && Confirmed(s, digest) && Runs(s, digest, steps)
    requires forall i :: 0 <= i < |steps| ==> !steps[i].Land?
    ensures Confirmed(After(s, digest, steps), digest)
    decreases |steps|
  {
    if steps != [] {
      StepConfirms(s, digest, steps[0], marked);
      var marked' := StepKeeps(s, digest, steps[0], marked);
      RunConfirms(Do(s, digest, steps[0]), digest, steps[1..], marked');
    }
  }

  /** Over every interleaving of seals, confirmed, refused and ambiguous puts and restarts of the one
      uploader in which no put lands after its call was given up, a receipt equal to the archive's
      digest means the remote object is the archive. */
  lemma ReceiptMeansUploaded(s: State, digest: Archive -> int, steps: seq<Step>)
    requires Injective(digest) && Init(s) && Runs(s, digest, steps)
    requires forall i :: 0 <= i < |steps| ==> !steps[i].Land?
    requires var t := After(s, digest, steps); t.sent == Some(digest(t.archive))
    ensures var t := After(s, digest, steps); t.remote == Some(t.archive)
  {
    RunConfirms(s, digest, steps, []);
  }

  lemma {:induction false} NothingToLand(s: State, digest: Archive -> int, steps: seq<Step>)
    requires Runs(s, digest, steps) && s.adrift == [] && NoneGivenUp(steps)
    ensures forall i :: 0 <= i < |steps| ==> !steps[i].Land?
    decreases |steps|
  {
    if steps != [] {
      assert !GivesUp(steps[0]);
      assert NoneGivenUp(steps[1..]);
      NothingToLand(Do(s, digest, steps[0]), digest, steps[1..]);
      assert forall i :: 0 < i < |steps| ==> steps[i] == steps[1..][i - 1];
    }
  }

  /** A run in which no put is given up always has true receipts. */
  lemma SettledPutsSuffice(s: State, digest: Archive -> int, steps: seq<Step>)
    requires Injective(digest) && Init(s) && Runs(s, digest, steps) && NoneGivenUp(steps)
    ensures Receipted(After(s, digest, steps), digest)
  {
    NothingToLand(s, digest, steps);
    RunConfirms(s, digest, steps, []);
  }

  /** Receipts are true in every continuation in which no further put is given up. */
  ghost predicate Safe(s: State, digest: Archive -> int) {
    forall more :: Runs(s, digest, more) && NoneGivenUp(more) ==> Receipted(After(s, digest, more), digest)
  }

  ghost predicate Reaches(s: State, digest: Archive -> int, t: State) {
    exists steps :: Runs(s, digest, steps) && After(s, digest, steps) == t
  }

  lemma ReachesItself(s: State, digest: Archive -> int)
    ensures Reaches(s, digest, s)
  {
    assert Runs(s, digest, []) && After(s, digest, []) == s;
  }

  lemma ReachesBefore(s: State, digest: Archive -> int, step: Step, t: State)
    requires Enabled(s, digest, step) && Reaches(Do(s, digest, step), digest, t)
    ensures Reaches(s, digest, t)
  {
    var steps :| Runs(Do(s, digest, step), digest, steps) && After(Do(s, digest, step), digest, steps) == t;
    assert ([step] + steps)[1..] == steps;
    assert Runs(s, digest, [step] + steps) && After(s, digest, [step] + steps) == t;
  }

  const Empty := State([], None, None, None, [])

  /** It can happen: a put times out, the hour grows, its successor is confirmed and receipted, and then
      the first one lands. */
  lemma LateLandingHappens(digest: Archive -> int, first: Bytes, second: Bytes)
    requires Injective(digest)
    ensures exists t :: Reaches(Empty, digest, t) && t.sent == Some(digest(t.archive)) && t.remote != Some(t.archive)
  {
    var s1 := Do(Empty, digest, Seal(first));
    assert s1.archive == [first];
    var s2 := Do(s1, digest, Snapshot);
    var s3 := Do(s2, digest, PutObject(Ambiguous(false)));
    var s4 := Do(s3, digest, Stop);
    var s5 := Do(s4, digest, Seal(second));
    assert s5.archive == [first, second] && s5.adrift == [[first]];
    var s6 := Do(s5, digest, Snapshot);
    var s7 := Do(s6, digest, PutObject(Stored));
    var s8 := Do(s7, digest, MarkUploaded);
    var t := Do(s8, digest, Land(0));
    assert t.remote == Some([first]) && |t.archive| == 2;
    ReachesItself(t, digest);
    ReachesBefore(s8, digest, Land(0), t);
    ReachesBefore(s7, digest, MarkUploaded, t);
    ReachesBefore(s6, digest, PutObject(Stored), t);
    ReachesBefore(s5, digest, Snapshot, t);
    ReachesBefore(s4, digest, Seal(second), t);
    ReachesBefore(s3, digest, Stop, t);
    ReachesBefore(s2, digest, PutObject(Ambiguous(false)), t);
    ReachesBefore(s1, digest, Snapshot, t);
    ReachesBefore(Empty, digest, Seal(first), t);
  }

  lemma SafeConfirms(s: State, digest: Archive -> int)
    requires Safe(s, digest)
    ensures Confirmed(s, digest)
  {
    assert Runs(s, digest, []) && NoneGivenUp([]) && After(s, digest, []) == s;
    if s.upload.Some? && s.upload.value.stored && s.upload.value.content == s.archive {
      var t := Do(s, digest, MarkUploaded);
      var more := [MarkUploaded];
      assert more[1..] == [] && After(t, digest, []) == t;
      assert Runs(s, digest, more) && NoneGivenUp(more) && After(s, digest, more) == t;
    }
  }

  /** With no upload open and a put adrift, the next hour can be sealed, uploaded and receipted before
      that put lands over it. */
  lemma AdriftBreaks(s: State, digest: Archive -> int, marked: Archive, member: Bytes)
    requires Injective(digest) && Inv(s, digest, marked) && s.upload.None? && s.adrift != []
    ensures !Safe(s, digest)
  {
    var more := [Seal(member), Snapshot, PutObject(Stored), MarkUploaded, Land(0)];
    var s1 := Do(s, digest, Seal(member));
    var s2 := Do(s1, digest, Snapshot);
    var s3 := Do(s2, digest, PutObject(Stored));
    var s4 := Do(s3, digest, MarkUploaded);
    var t := Do(s4, digest, Land(0));
    assert t.remote == Some(s.adrift[0]) && |s.adrift[0]| < |t.archive|;
    RunsOne(s4, digest, Land(0), []);
    RunsOne(s3, digest, MarkUploaded, [Land(0)]);
    RunsOne(s2, digest, PutObject(Stored), [MarkUploaded, Land(0)]);
    RunsOne(s1, digest, Snapshot, [PutObject(Stored), MarkUploaded, Land(0)]);
    RunsOne(s, digest, Seal(member), [Snapshot, PutObject(Stored), MarkUploaded, Land(0)]);
    assert Runs(s, digest, more) && NoneGivenUp(more) && After(s, digest, more) == t;
  }

  lemma RunsOne(s: State, digest: Archive -> int, step: Step, more: seq<Step>)
    requires Enabled(s, digest, step) && Runs(Do(s, digest, step), digest, more)
    ensures Runs(s, digest, [step] + more)
    ensures After(s, digest, [step] + more) == After(Do(s, digest, step), digest, more)
  {
    assert ([step] + more)[1..] == more;
  }

  lemma SafeAfter(s: State, digest: Archive -> int, step: Step)
    requires Safe(s, digest) && Enabled(s, digest, step) && !GivesUp(step)
    ensures Safe(Do(s, digest, step), digest)
  {
    forall more | Runs(Do(s, digest, step), digest, more) && NoneGivenUp(more)
      ensures Receipted(After(Do(s, digest, step), digest, more), digest)
    {
      RunsOne(s, digest, step, more);
      assert NoneGivenUp([step] + more);
    }
  }

  lemma SafeIff(s: State, digest: Archive -> int, marked: Archive)
    requires Injective(digest) && Inv(s, digest, marked)
    ensures Safe(s, digest) <==> s.adrift == [] && Confirmed(s, digest)
  {
    if s.adrift == [] && Confirmed(s, digest) {
      forall more | Runs(s, digest, more) && NoneGivenUp(more)
        ensures Receipted(After(s, digest, more), digest)
      {
        NothingToLand(s, digest, more);
        RunConfirms(s, digest, more, marked);
      }
    } else if Safe(s, digest) {
      SafeConfirms(s, digest);
      if s.upload.Some? {
        SafeAfter(s, digest, Stop);
        var marked' := StepKeeps(s, digest, Stop, marked);
        AdriftBreaks(Do(s, digest, Stop), digest, marked', []);
      } else {
        AdriftBreaks(s, digest, marked, []);
      }
    }
  }

  /** For every reachable state: receipts are and stay true, as long as no further put is given up,
      exactly when no put given up earlier is still under way and nothing unconfirmed stands now. */
  lemma ReceiptMeansUploadedIff(s: State, digest: Archive -> int, steps: seq<Step>)
    requires Injective(digest) && Init(s) && Runs(s, digest, steps)
    ensures var t := After(s, digest, steps); Safe(t, digest) <==> t.adrift == [] && Confirmed(t, digest)
  {
    var marked := RunKeeps(s, digest, steps, []);
    SafeIff(After(s, digest, steps), digest, marked);
  }

  /** Before anything has landed late, the uploader can tell by its own account: the receipts are safe
      exactly when it has given up on no put that may still land. */
  lemma SafeUntilLandingIff(s: State, digest: Archive -> int, steps: seq<Step>)
    requires Injective(digest) && Init(s) && Runs(s, digest, steps)
    requires forall i :: 0 <= i < |steps| ==> !steps[i].Land?
    ensures Safe(After(s, digest, steps), digest) <==> NoneGivenUp(steps)
  {
    ReceiptMeansUploadedIff(s, digest, steps);
    RunConfirms(s, digest, steps, []);
    AdriftIffGivenUp(s, digest, steps);
  }

  lemma {:induction false} AdriftIffGivenUp(s: State, digest: Archive -> int, steps: seq<Step>)
    requires Runs(s, digest, steps) && forall i :: 0 <= i < |steps| ==> !steps[i].Land?
    ensures After(s, digest, steps).adrift == [] <==> s.adrift == [] && NoneGivenUp(steps)
    decreases |steps|
  {
    if steps != [] {
      AdriftIffGivenUp(Do(s, digest, steps[0]), digest, steps[1..]);
      assert NoneGivenUp(steps) <==> !GivesUp(steps[0]) && NoneGivenUp(steps[1..]) by {
        assert forall i :: 0 < i < |steps| ==> steps[i] == steps[1..][i - 1];
      }
    }
  }

  /** A changed archive is pending again: whatever is receipted, after a seal it can be snapshot. */
  lemma ChangedIsPending(s: State, digest: Archive -> int, steps: seq<Step>, member: Bytes)
    requires Injective(digest) && Init(s) && Runs(s, digest, steps) && After(s, digest, steps).upload.None?
    ensures var t := After(s, digest, steps); Enabled(Do(t, digest, Seal(member)), digest, Snapshot)
  {
    var t := After(s, digest, steps);
    var marked := RunKeeps(s, digest, steps, []);
    assert |marked| <= |t.archive| < |t.archive + [member]| || t.sent.None?;
  }

  /** An archive without its receipt can always be brought to have it, and be stored: by dropping an
      upload that is open and making one that is confirmed. */
  lemma UploadHappens(s: State, digest: Archive -> int)
    requires s.archive != [] && s.sent != Some(digest(s.archive))
    ensures exists steps ::
              && Runs(s, digest, steps)
              && var t := After(s, digest, steps);
              t.archive == s.archive && t.sent == Some(digest(s.archive)) && t.remote == Some(s.archive)
  {
    var closed := if s.upload.Some? then Do(s, digest, Stop) else s;
    var taken := Do(closed, digest, Snapshot);
    var put := Do(taken, digest, PutObject(Stored));
    var marked := Do(put, digest, MarkUploaded);
    ReachesItself(marked, digest);
    ReachesBefore(put, digest, MarkUploaded, marked);
    ReachesBefore(taken, digest, PutObject(Stored), marked);
    ReachesBefore(closed, digest, Snapshot, marked);
    if s.upload.Some? { ReachesBefore(s, digest, Stop, marked); }
  }

  /** The retry loop of one archive: up to `attempts` puts, each followed by the receipt when it
      is confirmed, starting from a pending archive. */
  method UploadOne(s: State, digest: Archive -> int, outcomes: seq<Put>, ghost marked: Archive)
    returns (t: State, done: bool)
    requires Injective(digest) && Inv(s, digest, marked) && Enabled(s, digest, Snapshot)
    ensures t.archive == s.archive
    ensures done ==> t.sent == Some(digest(t.archive)) && t.remote == Some(t.archive) && t.upload.None?
    ensures !done ==> t.sent == s.sent && forall i :: 0 <= i < |outcomes| ==> !outcomes[i].Stored?
    ensures exists m :: Inv(t, digest, m)
  {
    t := Do(s, digest, Snapshot);
    ghost var m := StepKeeps(s, digest, Snapshot, marked);
    var attempt := 0;
    while attempt < |outcomes|
      invariant 0 <= attempt <= |outcomes| && Inv(t, digest, m) && t.archive == s.archive && t.sent == s.sent
      invariant t.upload.Some? && t.upload.value.content == s.archive
      invariant forall i :: 0 <= i < attempt ==> !outcomes[i].Stored?
    {
      m := StepKeeps(t, digest, PutObject(outcomes[attempt]), m);
      t := Do(t, digest, PutObject(outcomes[attempt]));
      if outcomes[attempt].Stored? {
        m := StepKeeps(t, digest, MarkUploaded, m);
        t := Do(t, digest, MarkUploaded);
        return t, true;
      }
      attempt := attempt + 1;
    }
    m := StepKeeps(t, digest, Stop, m);
    t := Do(t, digest, Stop);
    return t, false;
  }
}
