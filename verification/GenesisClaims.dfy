/** The managed Genesis claim protocol: one job row, fresh claim generations, capability witnesses,
    deferral and recovery. */
module GenesisClaims {
  import opened Prelude

  datatype Status = Uploaded | Processing | Done | Failed
  datatype Phase = Prepared | Deferred | ExecutionStarted | Applying | Finished

  /** The private marker kept in the job's metadata.  Tokens are numbers and hashes are the tokens
      themselves: fresh tokens are distinct and hashing is injective. */
  datatype Marker = Marker(generation: nat, worker: string, capability: nat, phase: Phase)

  datatype Job = Job(status: Status, marker: Option<Marker>, claimedBy: string, failedPhase: Option<Phase>)

  datatype Witness = Witness(generation: nat, capability: nat)

  datatype Verdict = Granted(marker: Marker) | ClaimRequired | ClaimInvalid | StateChanged

  /** Who holds the claim, and, when `phases` are named, whether it is in one of them. */
  function Verify(job: Option<Job>, w: Witness, phases: seq<Phase>): Verdict {
    if job.None? || job.value.marker.None? then ClaimRequired
    else
      var m := job.value.marker.value;
      if m.worker == "" || w.generation != m.generation || m.worker != job.value.claimedBy
         || w.capability != m.capability
      then ClaimInvalid
      else if phases != [] && (job.value.status != Processing || m.phase !in phases) then StateChanged
      else Granted(m)
  }

  predicate Passes(job: Job, w: Witness, phases: seq<Phase>) {
    Verify(Some(job), w, phases).Granted?
  }

  function InPhase(job: Job, phase: Phase): Job
    requires job.marker.Some?
  {
    job.(marker := Some(job.marker.value.(phase := phase)))
  }

  // ---- the transitions of one row

  function Claimed(job: Job, worker: string, generation: nat, capability: nat): Job {
    job.(status := Processing, claimedBy := worker,
         marker := Some(Marker(generation, worker, capability, Prepared)))
  }

  /** `set_phase` knows two transitions. */
  predicate Transition(before: seq<Phase>, after: Phase) {
    (after == ExecutionStarted && before == [Prepared]) || (after == Applying && before == [ExecutionStarted])
  }

  function DeferredJob(job: Job): Job
    requires job.marker.Some?
  {
    InPhase(job, Deferred).(status := Uploaded, claimedBy := "")
  }

  function FailedJob(job: Job): Job
    requires job.marker.Some?
  {
    job.(status := Failed, failedPhase := Some(job.marker.value.phase))
  }

  function FailPhases(server: bool): seq<Phase> {
    if server then [ExecutionStarted, Applying] else [ExecutionStarted]
  }

  function CompletedJob(job: Job): Job
    requires job.marker.Some?
  {
    InPhase(job, Finished).(status := Done)
  }

  /** `recover` on one stale processing row: a claim that never started is requeued, anything else
      fails because its effects are unknown. */
  function Recovered(job: Job): Job
    requires job.marker.Some?
  {
    if job.marker.value.phase == Prepared then DeferredJob(job)
    else job.(status := Failed, failedPhase := Some(job.marker.value.phase))
  }

  // ---- runs

  /** `nextToken` is the next unused token; `starts` counts entries into execution; `retired` are the
      generations that were deferred or requeued. */
  datatype State = State(job: Job, nextToken: nat, starts: nat, retired: set<nat>)

  datatype Step =
    | Claim(worker: string)
    | SetPhase(w: Witness, before: seq<Phase>, after: Phase)
    | Defer(w: Witness)
    | Fail(w: Witness, server: bool)
    | Complete(w: Witness)
    | Recover

  /** The calls that take effect; every other call leaves the row alone. */
  predicate Succeeds(s: State, step: Step) {
    match step
    case Claim(_) => s.job.status == Uploaded
    case SetPhase(w, before, after) => Transition(before, after) && Passes(s.job, w, before)
    case Defer(w) => Passes(s.job, w, [Prepared])
    case Fail(w, server) => Passes(s.job, w, FailPhases(server))
    case Complete(w) => Passes(s.job, w, [Applying])
    case Recover => s.job.status == Processing && s.job.marker.Some?
  }

  function Do(s: State, step: Step): State {
    if !Succeeds(s, step) then s
    else
      match step
      case Claim(worker) => s.(job := Claimed(s.job, worker, s.nextToken, s.nextToken), nextToken := s.nextToken + 1)
      case SetPhase(_, _, after) =>
        s.(job := InPhase(s.job, after), starts := s.starts + (if after == ExecutionStarted then 1 else 0))
      case Defer(_) => s.(job := DeferredJob(s.job), retired := s.retired + {s.job.marker.value.generation})
      case Fail(_, _) => s.(job := FailedJob(s.job))
      case Complete(_) => s.(job := CompletedJob(s.job))
      case Recover =>
        s.(job := Recovered(s.job),
           retired := s.retired + (if s.job.marker.value.phase == Prepared then {s.job.marker.value.generation}
             else {}))
  }

  function After(s: State, steps: seq<Step>): State
    decreases |steps|
  {
    if steps == [] then s else After(Do(s, steps[0]), steps[1..])
  }

  /** An uploaded row, possibly with the marker of an earlier deferred claim. */
  predicate Init(s: State) {
    && s.job.status == Uploaded && s.job.claimedBy == "" && s.starts == 0
    && (s.job.marker.Some? ==>
          && s.job.marker.value.phase == Deferred
          && s.job.marker.value.generation < s.nextToken && s.job.marker.value.generation in s.retired)
    && (forall g :: g in s.retired ==> g < s.nextToken)
  }

  predicate Started(phase: Phase) {
    phase == ExecutionStarted || phase == Applying || phase == Finished
  }

  predicate Inv(s: State) {
    var j := s.job;
    && (forall g :: g in s.retired ==> g < s.nextToken)
    && (j.marker.Some? ==> j.marker.value.generation < s.nextToken)
    && (j.status == Uploaded ==>
          && s.starts == 0 && j.claimedBy == ""
          && (j.marker.Some? ==> j.marker.value.phase == Deferred && j.marker.value.generation in s.retired))
    && (j.status != Uploaded ==>
          && j.marker.Some? && j.marker.value.generation !in s.retired
          && j.marker.value.phase != Deferred
          && s.starts == (if Started(j.marker.value.phase) then 1 else 0))
    && (j.status == Processing ==> j.marker.value.phase != Finished)
    && (j.status == Failed ==> Started(j.marker.value.phase) && j.marker.value.phase != Finished)
    && (j.status == Failed ==> j.failedPhase == Some(j.marker.value.phase))
    && (j.status == Done ==> j.marker.value.phase == Finished)
  }

  lemma StepKeeps(s: State, step: Step)
    requires Inv(s)
    ensures Inv(Do(s, step))
  {
  }

  /** The edges of a row's life. */
  predicate Edge(a: Job, b: Job) {
    || (a.status == Uploaded && At(b, Prepared))
    || (At(a, Prepared) && (At(b, ExecutionStarted) || b.status == Uploaded))
    || (At(a, ExecutionStarted) && (At(b, Applying) || b.status == Failed))
    || (At(a, Applying) && (b.status == Done || b.status == Failed))
  }

  predicate At(job: Job, phase: Phase) {
    job.status == Processing && job.marker.Some? && job.marker.value.phase == phase
  }

  /** Whatever is called, a row stays as it is or moves along an edge. */
  lemma OnlyEdges(s: State, step: Step)
    requires Inv(s)
    ensures Do(s, step) == s || Edge(s.job, Do(s, step).job)
  {
  }

  lemma {:induction false} RunKeeps(s: State, steps: seq<Step>)
    requires Inv(s)
    ensures Inv(After(s, steps))
    decreases |steps|
  {
    if steps != [] {
      StepKeeps(s, steps[0]);
      RunKeeps(Do(s, steps[0]), steps[1..]);
    }
  }

  predicate Executing(job: Job) {
    job.status == Processing && job.marker.Some? && job.marker.value.phase == ExecutionStarted
  }

  /** How often the row itself turns from not executing to executing along a run. */
  function Entries(s: State, steps: seq<Step>): nat
    decreases |steps|
  {
    if steps == [] then 0
    else
      var t := Do(s, steps[0]);
      (if Executing(t.job) && !Executing(s.job) then 1 else 0) + Entries(t, steps[1..])
  }

  lemma {:induction false} EntriesAreStarts(s: State, steps: seq<Step>)
    requires Inv(s)
    ensures s.starts + Entries(s, steps) == After(s, steps).starts
    decreases |steps|
  {
    if steps != [] {
      StepKeeps(s, steps[0]);
      EntriesAreStarts(Do(s, steps[0]), steps[1..]);
    }
  }

  /** A job enters execution at most once in its life, and once it has, it is never requeued. */
  lemma ExecutesAtMostOnce(s: State, steps: seq<Step>)
    requires Init(s)
    ensures Entries(s, steps) <= 1
    ensures Entries(s, steps) == 1 ==> After(s, steps).job.status != Uploaded
  {
    RunKeeps(s, steps);
    EntriesAreStarts(s, steps);
  }

  lemma {:induction false} Monotone(s: State, steps: seq<Step>)
    requires Inv(s)
    ensures var t := After(s, steps); s.retired <= t.retired && s.nextToken <= t.nextToken && s.starts <= t.starts
    decreases |steps|
  {
    if steps != [] {
      StepKeeps(s, steps[0]);
      Monotone(Do(s, steps[0]), steps[1..]);
    }
  }

  /** `done` and `failed` are absorbing: nothing changes such a row again. */
  lemma {:induction false} TerminalIsAbsorbing(s: State, steps: seq<Step>)
    requires Inv(s) && (s.job.status == Done || s.job.status == Failed)
    ensures After(s, steps) == s
    decreases |steps|
  {
    if steps != [] {
      TerminalIsAbsorbing(s, steps[1..]);
    }
  }

  /** Two different witnesses never hold the same row. */
  lemma OneHolder(job: Job, w: Witness, w': Witness, phases: seq<Phase>, phases': seq<Phase>)
    requires Passes(job, w, phases) && Passes(job, w', phases')
    ensures w == w'
  {
  }

  /** A deferred or requeued worker is rejected from then on, by the guards and by the readback. */
  lemma RetiredIsRejected(s: State, steps: seq<Step>, w: Witness, phases: seq<Phase>)
    requires Inv(s) && w.generation in s.retired
    ensures !Passes(After(s, steps).job, w, phases)
  {
    RunKeeps(s, steps);
    Monotone(s, steps);
  }

  /** Whether it requeued or failed the row, a recovery ends every guarded act of the former holder. */
  lemma RecoveredNeverActs(s: State, steps: seq<Step>, w: Witness, phases: seq<Phase>)
    requires Inv(s) && Succeeds(s, Recover) && w.generation == s.job.marker.value.generation && phases != []
    ensures !Passes(After(Do(s, Recover), steps).job, w, phases)
  {
    var t := Do(s, Recover);
    StepKeeps(s, Recover);
    if t.job.status == Failed {
      TerminalIsAbsorbing(t, steps);
    } else {
      RetiredIsRejected(t, steps, w, phases);
    }
  }

  /** Once a claim has started, it is the last one: every later guard passes its generation only. */
  lemma {:induction false} StartedClaimIsLast(s: State, steps: seq<Step>)
    requires Inv(s) && s.starts == 1
    ensures After(s, steps).job.marker.Some?
    ensures After(s, steps).job.marker.value.generation == s.job.marker.value.generation
    decreases |steps|
  {
    if steps != [] {
      StepKeeps(s, steps[0]);
      StartedClaimIsLast(Do(s, steps[0]), steps[1..]);
    }
  }

  lemma OnlyTheStarterPasses(s: State, steps: seq<Step>, w: Witness, phases: seq<Phase>)
    requires Inv(s) && s.starts == 1 && Passes(After(s, steps).job, w, phases)
    ensures w.generation == s.job.marker.value.generation
  {
    StartedClaimIsLast(s, steps);
  }

  /** What a witness may do: nothing unless it holds the row, and the holder exactly what the phase allows. */
  lemma HolderMayIff(s: State, w: Witness, server: bool)
    requires Inv(s)
    ensures var holds := Passes(s.job, w, []);
            && (Succeeds(s, Defer(w)) <==> holds && At(s.job, Prepared))
            && (Succeeds(s, SetPhase(w, [Prepared], ExecutionStarted)) <==> holds && At(s.job, Prepared))
            && (Succeeds(s, SetPhase(w, [ExecutionStarted], Applying)) <==> holds && At(s.job, ExecutionStarted))
            && (Succeeds(s, Complete(w)) <==> holds && At(s.job, Applying))
            && (Succeeds(s, Fail(w, server)) <==>
                holds && (At(s.job, ExecutionStarted) || (server && At(s.job, Applying))))
  {
  }

  /** A row that a run finished was applying, and the holder of that claim completed it. */
  ghost predicate Completes(s: State, steps: seq<Step>, i: nat) {
    && i < |steps| && steps[i].Complete? && At(After(s, steps[..i]).job, Applying)
    && Passes(After(s, steps[..i]).job, steps[i].w, [Applying])
  }

  lemma {:induction false} DoneWasApplying(s: State, steps: seq<Step>)
    requires Inv(s) && s.job.status != Done && After(s, steps).job.status == Done
    ensures exists i :: Completes(s, steps, i)
    decreases |steps|
  {
    var t, rest := Do(s, steps[0]), steps[1..];
    StepKeeps(s, steps[0]);
    if t.job.status == Done {
      assert steps[..0] == [];
      assert Completes(s, steps, 0);
    } else {
      DoneWasApplying(t, rest);
      var i: nat :| Completes(t, rest, i);
      assert steps[..i + 1][0] == steps[0] && steps[..i + 1][1..] == rest[..i];
      assert Completes(s, steps, i + 1);
    }
  }

  /** Every uploaded row can be finished by the worker that claims it. */
  lemma JobCanFinish(s: State, worker: string)
    requires Inv(s) && s.job.status == Uploaded && worker != ""
    ensures var w := Witness(s.nextToken, s.nextToken);
            var t := Do(Do(Do(Do(s, Claim(worker)), SetPhase(w, [Prepared], ExecutionStarted)),
                           SetPhase(w, [ExecutionStarted], Applying)), Complete(w));
            t.job.status == Done && t.starts == s.starts + 1 && ExecutionState(Some(t.job), w) == ReadDone
  {
  }

  // ---- the operations on the table

  /** `execution_state`: authenticated readback. */
  datatype Readback = ReadDone | ReadFailed(during: Option<Phase>) | ReadPhase(phase: Phase) | ReadRejected

  function ExecutionState(job: Option<Job>, w: Witness): Readback {
    var v := Verify(job, w, []);
    if !v.Granted? then ReadRejected
    else if job.value.status == Done && v.marker.phase == Finished then ReadDone
    else if job.value.status == Failed then ReadFailed(job.value.failedPhase)
    else if job.value.status == Processing && v.marker.phase in [Prepared, ExecutionStarted, Applying]
    then ReadPhase(v.marker.phase)
    else ReadRejected
  }

  /** The readback tells the holder of the latest claim exactly where the row stands. */
  lemma ReadbackIsTrue(s: State, w: Witness)
    requires Inv(s)
    ensures var r := ExecutionState(Some(s.job), w);
            && (r.ReadDone? ==> s.job.status == Done)
            && (r.ReadFailed? ==> s.job.status == Failed && s.starts == 1)
            && (r.ReadFailed? ==> r.during in [Some(ExecutionStarted), Some(Applying)])
            && (r.ReadPhase? ==> s.job.status == Processing && (s.starts == 1 <==> r.phase != Prepared))
            && (r.ReadRejected? <==> !Passes(s.job, w, []))
  {
  }

  class ClaimTable {
    var rows: map<int, State>

    constructor ()
      ensures rows == map[]
    {
      rows := map[];
    }

    ghost predicate Valid()
      reads this
    {
      forall k :: k in rows ==> Inv(rows[k])
    }

    /** `prepare_claim`: admits an uploaded row unless its dependencies are unavailable. */
    method PrepareClaim(k: int, worker: string, available: bool) returns (w: Option<Witness>)
      requires Valid()
      modifies this
      ensures Valid()
      ensures w.Some? <==> k in old(rows) && old(rows)[k].job.status == Uploaded && available
      ensures w.Some? ==> rows == old(rows)[k := Do(old(rows)[k], Claim(worker))]
      ensures w.Some? && worker != "" ==> Passes(rows[k].job, w.value, [Prepared])
      ensures w.None? ==> rows == old(rows)
    {
      if k !in rows || rows[k].job.status != Uploaded || !available {
        return None;
      }
      StepKeeps(rows[k], Claim(worker));
      w := Some(Witness(rows[k].nextToken, rows[k].nextToken));
      rows := rows[k := rows[k].(job := Claimed(rows[k].job, worker, rows[k].nextToken, rows[k].nextToken),
                                 nextToken := rows[k].nextToken + 1)];
    }

    /** Every guarded call: verify under the row lock, require the account, then take the step. */
    method Guarded(k: int, step: Step, account: bool) returns (ok: bool)
      requires Valid() && (step.SetPhase? || step.Defer? || step.Fail? || step.Complete?)
      modifies this
      ensures Valid()
      ensures ok <==> k in old(rows) && Succeeds(old(rows)[k], step) && account
      ensures rows == if ok then old(rows)[k := Do(old(rows)[k], step)] else old(rows)
    {
      if k !in rows || !Succeeds(rows[k], step) || !account {
        return false;
      }
      StepKeeps(rows[k], step);
      ok := true;
      rows := rows[k := Do(rows[k], step)];
    }

    /** `recover`: the loop over the selected stale rows. */
    method RecoverAll(selected: seq<int>)
      requires Valid()
      requires forall i :: 0 <= i < |selected| ==> selected[i] in rows && Succeeds(rows[selected[i]], Recover)
      requires forall i, j :: 0 <= i < j < |selected| ==> selected[i] != selected[j]
      modifies this
      ensures Valid() && rows.Keys == old(rows).Keys
      ensures forall k :: k in rows ==>
                rows[k] == if k in selected then Do(old(rows)[k], Recover) else old(rows)[k]
    {
      var i := 0;
      while i < |selected|
        invariant 0 <= i <= |selected| && Valid() && rows.Keys == old(rows).Keys
        invariant forall k :: k in rows ==>
                    rows[k] == if k in selected[..i] then Do(old(rows)[k], Recover) else old(rows)[k]
      {
        var k := selected[i];
        StepKeeps(rows[k], Recover);
        assert k !in selected[..i];
        rows := rows[k := Do(rows[k], Recover)];
        i := i + 1;
      }
    }
  }
}
