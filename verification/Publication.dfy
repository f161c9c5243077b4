/** At most one broadcast per target, over every interleaving of workflow runs, publisher processes
    and recovery processes, with crashes anywhere.  One target; a run's journal lives and dies with
    the run, its archived intent and the tags outlive everything. */
module Publication {
  import opened Prelude
  import opened Publisher

  datatype Files = Files(intent: Option<Intent>, claim: bool, started: bool)

  /** A workflow run: its journal, whether it has completed and the evidence it uploaded then. */
  datatype Run = Run(files: Files, completed: bool, evidence: Option<Files>)

  /** How far a `send` process has come. */
  datatype SendPc = Begun | Cleared | Looked | Thawed | Decided | Claimed | Marked

  datatype RecoverPc = Asked | Verified | Unclaimed | Evidenced | Tagged | Ready

  datatype Proc =
    | Sender(run: nat, archivedAtStart: bool, at: SendPc, frozen: Option<Intent>)
    | Recoverer(authorised: Intent, source: nat, id: nat, pc: RecoverPc)

  datatype Sent = ByPublisher(run: nat, intent: Intent) | ByRecovery(source: nat, intent: Intent)

  /** `artifacts` are the archived intents by run, `tags` the evidence tags by recovery id.  The last
      two fields are history: the runs that got past the prior-intent check holding their own
      archive, and the source of the recovery that tagged its broadcast. */
  datatype State = State(
    runs: map<nat, Run>, artifacts: map<nat, Intent>, procs: map<nat, Proc>,
    tags: set<nat>, claimTag: Option<nat>, broadcastTag: Option<nat>, sent: seq<Sent>,
    passed: set<nat>, recovered: Option<nat>)

  const Init := State(map[], map[], map[], {}, None, None, [], {}, None)

  datatype Step =
    | OpenRun(r: nat)
    | Prepare(r: nat, intent: Intent)
    | Upload(r: nat)
    | Complete(r: nat, uploaded: bool)
    | Begin(p: nat, r: nat)
    | Clear(p: nat)
    | Look(p: nat)
    | Thaw(p: nat)
    | Settle(p: nat)
    | Claim(p: nat)
    | Mark(p: nat)
    | Raw(p: nat)
    | Ask(p: nat, authorised: Intent, source: nat, id: nat)
    | Verify(p: nat)
    | CheckClaim(p: nat)
    | Evidence(p: nat)
    | TagClaim(p: nat)
    | TagBroadcast(p: nat)
    | RecoverRaw(p: nat)
    | Crash(p: nat)

  predicate SenderAt(s: State, p: nat, at: SendPc) {
    p in s.procs && s.procs[p].Sender? && s.procs[p].at == at && s.procs[p].run in s.runs
  }

  predicate RecovererAt(s: State, p: nat, pc: RecoverPc) {
    p in s.procs && s.procs[p].Recoverer? && s.procs[p].pc == pc
  }

  function FilesOf(s: State, r: nat): Files
    requires r in s.runs
  {
    s.runs[r].files
  }

  predicate Idle(s: State, r: nat) {
    forall p :: p in s.procs && s.procs[p].Sender? ==> s.procs[p].run != r
  }

  /** The limits `read_authorization` demands of an authorised intent. */
  predicate Authorisable(i: Intent) {
    && GasLimit(i.estimate, MAX_CONFIGURED_GAS).Some? &&
         GasLimit(i.estimate, MAX_CONFIGURED_GAS).value <= i.tx.gas <= MAX_CONFIGURED_GAS
    && 0 < i.tx.gasPrice <= MAX_PRICE && i.maximumCost == i.tx.gas * i.tx.gasPrice
  }

  predicate Open(s: State, r: nat) {
    r in s.runs && !s.runs[r].completed
  }

  /** `original_intent` and `verify_original`: the source run is over, its evidence shows the
      authorised intent and neither claim nor broadcast, and its archive is the only one. */
  predicate Recoverable(s: State, i: Intent, source: nat) {
    && Authorisable(i)
    && source in s.runs && s.runs[source].completed && s.runs[source].evidence.Some?
    && s.runs[source].evidence.value == Files(Some(i), false, false)
    && s.artifacts.Keys == {source} && s.artifacts[source] == i
  }

  predicate Enabled(s: State, step: Step) {
    match step
    case OpenRun(r) => r !in s.runs
    case Prepare(r, _) => Open(s, r) && FilesOf(s, r).intent.None?
    case Upload(r) => Open(s, r) && FilesOf(s, r).intent.Some? && r !in s.artifacts
    case Complete(r, _) => Open(s, r) && Idle(s, r)
    case Begin(p, r) => p !in s.procs && Open(s, r)
    case Clear(p) => SenderAt(s, p, Begun) && s.artifacts.Keys <= {s.procs[p].run}
    case Look(p) => SenderAt(s, p, Cleared) && !FilesOf(s, s.procs[p].run).claim
    case Thaw(p) =>
      && SenderAt(s, p, Looked) && s.procs[p].archivedAtStart && s.procs[p].run in s.artifacts
      && FilesOf(s, s.procs[p].run).intent == Some(s.artifacts[s.procs[p].run])
    case Settle(p) => SenderAt(s, p, Thawed) && s.procs[p].frozen.Some? &&
      Bounded(s.procs[p].frozen.value, MAX_CONFIGURED_GAS)
    case Claim(p) => SenderAt(s, p, Decided) && !FilesOf(s, s.procs[p].run).claim
    case Mark(p) => SenderAt(s, p, Claimed) && !FilesOf(s, s.procs[p].run).started
    case Raw(p) => SenderAt(s, p, Marked) && s.procs[p].frozen.Some?
    case Ask(p, _, _, _) => p !in s.procs
    case Verify(p) => RecovererAt(s, p, Asked) && Recoverable(s, s.procs[p].authorised, s.procs[p].source)
    case CheckClaim(p) => RecovererAt(s, p, Verified) && s.claimTag.None?
    case Evidence(p) => RecovererAt(s, p, Unclaimed) && s.procs[p].id !in s.tags
    case TagClaim(p) => RecovererAt(s, p, Evidenced) && s.claimTag.None?
    case TagBroadcast(p) => RecovererAt(s, p, Tagged) && s.claimTag == Some(s.procs[p].id) && s.broadcastTag.None?
    case RecoverRaw(p) => RecovererAt(s, p, Ready)
    case Crash(p) => p in s.procs
  }

  function SetFiles(s: State, r: nat, f: Files): State
    requires r in s.runs
  {
    s.(runs := s.runs[r := s.runs[r].(files := f)])
  }

  function Advance(s: State, p: nat, at: SendPc): State
    requires p in s.procs && s.procs[p].Sender?
  {
    s.(procs := s.procs[p := s.procs[p].(at := at)])
  }

  function AdvanceRecovery(s: State, p: nat, pc: RecoverPc): State
    requires p in s.procs && s.procs[p].Recoverer?
  {
    s.(procs := s.procs[p := s.procs[p].(pc := pc)])
  }

  function Do(s: State, step: Step): State
    requires Enabled(s, step)
  {
    match step
    case OpenRun(r) => s.(runs := s.runs[r := Run(Files(None, false, false), false, None)])
    case Prepare(r, intent) => SetFiles(s, r, FilesOf(s, r).(intent := Some(intent)))
    case Upload(r) => s.(artifacts := s.artifacts[r := FilesOf(s, r).intent.value])
    case Complete(r, uploaded) =>
      s.(runs := s.runs[r := s.runs[r].(completed := true, evidence := if uploaded then Some(FilesOf(s, r)) else None)])
    case Begin(p, r) => s.(procs := s.procs[p := Sender(r, r in s.artifacts, Begun, None)])
    case Clear(p) =>
      Advance(s, p, Cleared).(passed := s.passed + (if s.procs[p].archivedAtStart then {s.procs[p].run} else {}))
    case Look(p) => Advance(s, p, Looked)
    case Thaw(p) => s.(procs := s.procs[p := s.procs[p].(at := Thawed, frozen := FilesOf(s, s.procs[p].run).intent)])
    case Settle(p) => Advance(s, p, Decided)
    case Claim(p) => Advance(SetFiles(s, s.procs[p].run, FilesOf(s, s.procs[p].run).(claim := true)), p, Claimed)
    case Mark(p) => Advance(SetFiles(s, s.procs[p].run, FilesOf(s, s.procs[p].run).(started := true)), p, Marked)
    case Raw(p) =>
      s.(procs := s.procs - {p}, sent := s.sent + [ByPublisher(s.procs[p].run, s.procs[p].frozen.value)])
    case Ask(p, authorised, source, id) => s.(procs := s.procs[p := Recoverer(authorised, source, id, Asked)])
    case Verify(p) => AdvanceRecovery(s, p, Verified)
    case CheckClaim(p) => AdvanceRecovery(s, p, Unclaimed)
    case Evidence(p) => AdvanceRecovery(s, p, Evidenced).(tags := s.tags + {s.procs[p].id})
    case TagClaim(p) => AdvanceRecovery(s, p, Tagged).(claimTag := Some(s.procs[p].id))
    case TagBroadcast(p) =>
      AdvanceRecovery(s, p, Ready).(broadcastTag := Some(s.procs[p].id), recovered := Some(s.procs[p].source))
    case RecoverRaw(p) =>
      s.(procs := s.procs - {p}, sent := s.sent + [ByRecovery(s.procs[p].source, s.procs[p].authorised)])
    case Crash(p) => s.(procs := s.procs - {p})
  }

  ghost predicate Runs(s: State, steps: seq<Step>)
    decreases |steps|
  {
    steps == [] || (Enabled(s, steps[0]) && Runs(Do(s, steps[0]), steps[1..]))
  }

  function After(s: State, steps: seq<Step>): State
    requires Runs(s, steps)
    decreases |steps|
  {
    if steps == [] then s else After(Do(s, steps[0]), steps[1..])
  }

  // ---- what every step keeps

  predicate Holds(proc: Proc) {
    proc.Sender? && (proc.at == Claimed || proc.at == Marked)
  }

  predicate RunOk(s: State, r: nat)
    requires r in s.runs
  {
    var run := s.runs[r];
    && (run.evidence.Some? ==> run.completed && run.evidence.value == run.files)
    && (run.files.claim ==> r in s.passed)
    && (r in s.artifacts ==> run.files.intent == Some(s.artifacts[r]))
  }

  predicate ProcOk(s: State, p: nat)
    requires p in s.procs
  {
    match s.procs[p]
    case Sender(r, archived, at, frozen) =>
      && Open(s, r)
      && (archived ==> r in s.artifacts)
      && (archived && at != Begun ==> r in s.passed)
      && (at in {Thawed, Decided, Claimed, Marked} ==> archived && r in s.artifacts && frozen == Some(s.artifacts[r]))
      && (at in {Claimed, Marked} ==> FilesOf(s, r).claim && s.sent == [])
    case Recoverer(i, source, id, pc) =>
      && (pc != Asked ==> Sealed(s, source) && s.artifacts[source] == i)
      && (pc in {Evidenced, Tagged, Ready} ==> id in s.tags)
      && (pc == Ready ==> s.broadcastTag == Some(id) && s.recovered == Some(source) && s.sent == [])
  }

  /** Run `source` is over without a claim, and no other run got past the prior-intent check. */
  predicate Sealed(s: State, source: nat) {
    && source in s.runs && source in s.artifacts && s.runs[source].completed && !FilesOf(s, source).claim
    && forall r :: r in s.passed ==> r == source
  }

  predicate SentOk(s: State, x: Sent) {
    match x
    case ByPublisher(r, i) => r in s.runs && r in s.passed && r in s.artifacts && FilesOf(s, r).claim &&
      i == s.artifacts[r]
    case ByRecovery(source, i) => s.recovered == Some(source) && source in s.artifacts && i == s.artifacts[source]
  }

  predicate GlobalOk(s: State) {
    && s.artifacts.Keys <= s.runs.Keys && s.passed <= s.artifacts.Keys
    && (forall a, b :: a in s.passed && b in s.passed ==> a == b)
    && (s.broadcastTag.Some? <==> s.recovered.Some?)
    && (s.recovered.Some? ==> Sealed(s, s.recovered.value))
    && |s.sent| <= 1 && (s.sent != [] ==> SentOk(s, s.sent[0]))
  }

  /** Two processes that hold the claim of one run, or own one evidence tag. */
  predicate Clash(a: Proc, b: Proc) {
    || (Holds(a) && Holds(b) && a.run == b.run)
    || (Owns(a) && Owns(b) && a.id == b.id)
  }

  predicate Exclusive(s: State) {
    && (forall p, q :: p in s.procs && q in s.procs && Clash(s.procs[p], s.procs[q]) ==> p == q)
  }

  predicate Owns(proc: Proc) {
    proc.Recoverer? && proc.pc in {Evidenced, Tagged, Ready}
  }

  predicate Inv(s: State) {
    && GlobalOk(s) && Exclusive(s)
    && (forall r :: r in s.runs ==> RunOk(s, r))
    && (forall p :: p in s.procs ==> ProcOk(s, p))
  }

  /** A step that changes one process and nothing else. */
  lemma ProcChange(s: State, p: nat, proc: Proc)
    requires Inv(s) && ProcOk(s.(procs := s.procs[p := proc]), p)
    requires !Holds(proc) && !Owns(proc)
    ensures Inv(s.(procs := s.procs[p := proc]))
  {
  }

  lemma KeepsLocal(s: State, step: Step)
    requires Inv(s) && Enabled(s, step)
    requires step.Begin? || step.Look? || step.Thaw? || step.Settle? || step.Ask? || step.Verify? || step.CheckClaim?
    ensures Inv(Do(s, step))
  {
    ProcChange(s, step.p, Do(s, step).procs[step.p]);
  }

  lemma KeepsOpenRun(s: State, step: Step)
    requires Inv(s) && Enabled(s, step) && step.OpenRun?
    ensures Inv(Do(s, step))
  {
  }

  lemma KeepsPrepare(s: State, step: Step)
    requires Inv(s) && Enabled(s, step) && step.Prepare?
    ensures Inv(Do(s, step))
  {
  }

  lemma KeepsUpload(s: State, step: Step)
    requires Inv(s) && Enabled(s, step) && step.Upload?
    ensures Inv(Do(s, step))
  {
  }

  lemma KeepsComplete(s: State, step: Step)
    requires Inv(s) && Enabled(s, step) && step.Complete?
    ensures Inv(Do(s, step))
  {
  }

  lemma KeepsClear(s: State, step: Step)
    requires Inv(s) && Enabled(s, step) && step.Clear?
    ensures Inv(Do(s, step))
  {
  }

  lemma KeepsClaim(s: State, step: Step)
    requires Inv(s) && Enabled(s, step) && step.Claim?
    ensures Inv(Do(s, step))
  {
  }

  lemma KeepsMark(s: State, step: Step)
    requires Inv(s) && Enabled(s, step) && step.Mark?
    ensures Inv(Do(s, step))
  {
  }

  lemma KeepsRaw(s: State, step: Step)
    requires Inv(s) && Enabled(s, step) && step.Raw?
    ensures Inv(Do(s, step))
  {
  }

  lemma KeepsEvidence(s: State, step: Step)
    requires Inv(s) && Enabled(s, step) && step.Evidence?
    ensures Inv(Do(s, step))
  {
  }

  lemma KeepsTagClaim(s: State, step: Step)
    requires Inv(s) && Enabled(s, step) && step.TagClaim?
    ensures Inv(Do(s, step))
  {
  }

  lemma KeepsTagBroadcast(s: State, step: Step)
    requires Inv(s) && Enabled(s, step) && step.TagBroadcast?
    ensures Inv(Do(s, step))
  {
  }

  lemma KeepsRecoverRaw(s: State, step: Step)
    requires Inv(s) && Enabled(s, step) && step.RecoverRaw?
    ensures Inv(Do(s, step))
  {
  }

  lemma KeepsCrash(s: State, step: Step)
    requires Inv(s) && Enabled(s, step) && step.Crash?
    ensures Inv(Do(s, step))
  {
  }

  lemma StepKeeps(s: State, step: Step)
    requires Inv(s) && Enabled(s, step)
    ensures Inv(Do(s, step))
  {
    match step
    case OpenRun(_) => KeepsOpenRun(s, step);
    case Prepare(_, _) => KeepsPrepare(s, step);
    case Upload(_) => KeepsUpload(s, step);
    case Complete(_, _) => KeepsComplete(s, step);
    case Begin(_, _) => KeepsLocal(s, step);
    case Clear(_) => KeepsClear(s, step);
    case Look(_) => KeepsLocal(s, step);
    case Thaw(_) => KeepsLocal(s, step);
    case Settle(_) => KeepsLocal(s, step);
    case Claim(_) => KeepsClaim(s, step);
    case Mark(_) => KeepsMark(s, step);
    case Raw(_) => KeepsRaw(s, step);
    case Ask(_, _, _, _) => KeepsLocal(s, step);
    case Verify(_) => KeepsLocal(s, step);
    case CheckClaim(_) => KeepsLocal(s, step);
    case Evidence(_) => KeepsEvidence(s, step);
    case TagClaim(_) => KeepsTagClaim(s, step);
    case TagBroadcast(_) => KeepsTagBroadcast(s, step);
    case RecoverRaw(_) => KeepsRecoverRaw(s, step);
    case Crash(_) => KeepsCrash(s, step);
  }

  /** Every process past its limits check, and everything sent, is within the caps. */
  predicate Priced(s: State) {
    && (forall p :: p in s.procs ==> PricedProc(s.procs[p]))
    && (forall i :: 0 <= i < |s.sent| ==> Bounded(s.sent[i].intent, MAX_CONFIGURED_GAS))
  }

  predicate PricedProc(proc: Proc) {
    match proc
    case Sender(_, _, at, frozen) =>
      at in {Decided, Claimed, Marked} ==> frozen.Some? && Bounded(frozen.value, MAX_CONFIGURED_GAS)
    case Recoverer(i, _, _, pc) => pc != Asked ==> Bounded(i, MAX_CONFIGURED_GAS)
  }

  lemma AuthorisableIsBounded(i: Intent)
    requires Authorisable(i)
    ensures Bounded(i, MAX_CONFIGURED_GAS)
  {
    CostBound(i.tx.gas, MAX_CONFIGURED_GAS, i.tx.gasPrice);
  }

  lemma StepPrices(s: State, step: Step)
    requires Priced(s) && Enabled(s, step)
    ensures Priced(Do(s, step))
  {
    if step.Verify? { AuthorisableIsBounded(s.procs[step.p].authorised); }
  }

  lemma {:induction false} RunKeeps(s: State, steps: seq<Step>)
    requires Inv(s) && Priced(s) && Runs(s, steps)
    ensures Inv(After(s, steps)) && Priced(After(s, steps))
    decreases |steps|
  {
    if steps != [] {
      StepKeeps(s, steps[0]);
      StepPrices(s, steps[0]);
      RunKeeps(Do(s, steps[0]), steps[1..]);
    }
  }

  /** Over every run from the start: at most one raw transaction is sent for the target; it is the
      archived intent of the run it came from, and costs at most the gas cap at the price cap. */
  lemma OneBroadcast(steps: seq<Step>)
    requires Runs(Init, steps)
    ensures var s := After(Init, steps);
            && |s.sent| <= 1
            && forall x :: x in s.sent ==>
                 var r := if x.ByPublisher? then x.run else x.source;
                 && r in s.artifacts && s.artifacts[r] == x.intent && r in s.runs &&
                      FilesOf(s, r).intent == Some(x.intent)
                 && x.intent.tx.gas * x.intent.tx.gasPrice <= MAX_CONFIGURED_GAS * MAX_PRICE
  {
    RunKeeps(Init, steps);
    var s := After(Init, steps);
    forall x | x in s.sent
      ensures Bounded(x.intent, MAX_CONFIGURED_GAS)
    {
    }
  }

  /** Once a recovery has tagged its broadcast, no publisher of this target ever sends. */
  lemma RecoveryExcludesPublishers(s: State, steps: seq<Step>)
    requires Inv(s) && Priced(s) && s.broadcastTag.Some? && Runs(s, steps)
    ensures forall x :: x in After(s, steps).sent ==> x.ByRecovery?
  {
    RunKeeps(s, steps);
    TagStays(s, steps);
  }

  lemma {:induction false} TagStays(s: State, steps: seq<Step>)
    requires Runs(s, steps) && s.broadcastTag.Some?
    ensures After(s, steps).broadcastTag == s.broadcastTag
    decreases |steps|
  {
    if steps != [] { TagStays(Do(s, steps[0]), steps[1..]); }
  }

  /** A positive decision of the publisher is what lets a process go on. */
  lemma DecisionSettles(s: State, p: nat, target: Target, gasCap: int, answers: Answers)
    requires SenderAt(s, p, Thawed) && s.procs[p].frozen.Some? && 0 < gasCap <= MAX_CONFIGURED_GAS
    requires Decide(target, s.procs[p].frozen, gasCap, answers).Go?
    ensures Enabled(s, Settle(p)) && Decide(target, s.procs[p].frozen, gasCap, answers).intent
              == s.procs[p].frozen.value
  {
    GoIsBounded(target, s.procs[p].frozen, gasCap, answers);
    CapBound(gasCap);
  }

  // ---- a publication does happen

  ghost predicate Reaches(s: State, t: State) {
    exists steps :: Runs(s, steps) && After(s, steps) == t
  }

  lemma ReachesItself(s: State)
    ensures Reaches(s, s)
  {
    assert Runs(s, []) && After(s, []) == s;
  }

  lemma ReachesBefore(s: State, step: Step, t: State)
    requires Enabled(s, step) && Reaches(Do(s, step), t)
    ensures Reaches(s, t)
  {
    var steps :| Runs(Do(s, step), steps) && After(Do(s, step), steps) == t;
    assert ([step] + steps)[1..] == steps;
    assert Runs(s, [step] + steps) && After(s, [step] + steps) == t;
  }

  /** `s` while send process `p` of run `r` is at work on that run's journal. */
  function Sending(s: State, p: nat, r: nat, files: Files, at: SendPc, frozen: Option<Intent>, passed: set<nat>): State
    requires r in s.runs
  {
    s.(runs := s.runs[r := s.runs[r].(files := files)], procs := s.procs[p := Sender(r, true, at, frozen)],
      passed := passed)
  }

  /** Run `r` is open, its intent is journalled and is the only one archived, and nothing is claimed. */
  predicate ReadyToSend(s: State, p: nat, r: nat, i: Intent) {
    && Open(s, r) && p !in s.procs && FilesOf(s, r) == Files(Some(i), false, false)
    && s.artifacts == map[r := i] && Bounded(i, MAX_CONFIGURED_GAS)
  }

  /** What an uninterrupted `send` leaves: claim and broadcast marker in the journal, and the frozen
      transaction out. */
  function SentState(s: State, r: nat, i: Intent): State
    requires r in s.runs
  {
    s.(runs := s.runs[r := s.runs[r].(files := Files(Some(i), true, true))], passed := s.passed + {r},
       sent := s.sent + [ByPublisher(r, i)])
  }

  lemma SendBegins(s: State, p: nat, r: nat, i: Intent, t: State)
    requires ReadyToSend(s, p, r, i)
    requires Reaches(Sending(s, p, r, FilesOf(s, r), Looked, None, s.passed + {r}), t)
    ensures Reaches(s, t)
  {
    var f, passed := FilesOf(s, r), s.passed + {r};
    var s1 := Sending(s, p, r, f, Begun, None, s.passed);
    var s2 := Sending(s, p, r, f, Cleared, None, passed);
    var s3 := Sending(s, p, r, f, Looked, None, passed);
    assert Do(s2, Look(p)) == s3;
    ReachesBefore(s2, Look(p), t);
    assert Do(s1, Clear(p)) == s2;
    ReachesBefore(s1, Clear(p), t);
    assert s.runs[r := s.runs[r].(files := f)] == s.runs;
    assert Do(s, Begin(p, r)) == s1;
    ReachesBefore(s, Begin(p, r), t);
  }

  lemma SendSettles(s: State, p: nat, r: nat, i: Intent, t: State)
    requires ReadyToSend(s, p, r, i)
    requires Reaches(Sending(s, p, r, FilesOf(s, r), Decided, Some(i), s.passed + {r}), t)
    ensures Reaches(Sending(s, p, r, FilesOf(s, r), Looked, None, s.passed + {r}), t)
  {
    var f, passed := FilesOf(s, r), s.passed + {r};
    var s3 := Sending(s, p, r, f, Looked, None, passed);
    var s4 := Sending(s, p, r, f, Thawed, Some(i), passed);
    assert Do(s4, Settle(p)) == Sending(s, p, r, f, Decided, Some(i), passed);
    ReachesBefore(s4, Settle(p), t);
    assert Do(s3, Thaw(p)) == s4;
    ReachesBefore(s3, Thaw(p), t);
  }

  lemma SendClaims(s: State, p: nat, r: nat, i: Intent, t: State)
    requires ReadyToSend(s, p, r, i)
    requires Reaches(Sending(s, p, r, Files(Some(i), true, true), Marked, Some(i), s.passed + {r}), t)
    ensures Reaches(Sending(s, p, r, FilesOf(s, r), Decided, Some(i), s.passed + {r}), t)
  {
    var passed := s.passed + {r};
    var s5 := Sending(s, p, r, FilesOf(s, r), Decided, Some(i), passed);
    var s6 := Sending(s, p, r, Files(Some(i), true, false), Claimed, Some(i), passed);
    assert Do(s6, Mark(p)) == Sending(s, p, r, Files(Some(i), true, true), Marked, Some(i), passed);
    ReachesBefore(s6, Mark(p), t);
    assert Do(s5, Claim(p)) == s6;
    ReachesBefore(s5, Claim(p), t);
  }

  /** An uninterrupted `send` is a run of the machine, from every state that is ready for it. */
  lemma SendIsARun(s: State, p: nat, r: nat, i: Intent)
    requires ReadyToSend(s, p, r, i)
    ensures Reaches(s, SentState(s, r, i))
  {
    var t := SentState(s, r, i);
    var last := Sending(s, p, r, Files(Some(i), true, true), Marked, Some(i), s.passed + {r});
    assert s.procs[p := Sender(r, true, Marked, Some(i))] - {p} == s.procs;
    assert Do(last, Raw(p)) == t;
    ReachesItself(t);
    ReachesBefore(last, Raw(p), t);
    SendClaims(s, p, r, i, t);
    SendSettles(s, p, r, i, t);
    SendBegins(s, p, r, i, t);
  }

  /** A positive decision makes the state ready, so the decision, too, is the machine's. */
  lemma DecidedIsReady(s: State, p: nat, r: nat, i: Intent, target: Target, gasCap: int, answers: Answers)
    requires Open(s, r) && p !in s.procs && FilesOf(s, r) == Files(Some(i), false, false) && s.artifacts == map[r := i]
    requires 0 < gasCap <= MAX_CONFIGURED_GAS && Decide(target, Some(i), gasCap, answers).Go?
    ensures ReadyToSend(s, p, r, i)
  {
    GoIsBounded(target, Some(i), gasCap, answers);
    CapBound(gasCap);
  }

  function Prepared(i: Option<Intent>, archive: map<nat, Intent>): State {
    Init.(runs := map[0 := Run(Files(i, false, false), false, None)], artifacts := archive)
  }

  /** Any bounded intent can be prepared, archived and sent: the limit of one is attained. */
  lemma BroadcastHappens(i: Intent)
    requires Bounded(i, MAX_CONFIGURED_GAS)
    ensures exists steps :: Runs(Init, steps) && After(Init, steps).sent == [ByPublisher(0, i)]
  {
    var ready := Prepared(Some(i), map[0 := i]);
    var t := SentState(ready, 0, i);
    SendIsARun(ready, 0, 0, i);
    assert Do(Prepared(Some(i), map[]), Upload(0)) == ready;
    ReachesBefore(Prepared(Some(i), map[]), Upload(0), t);
    assert Do(Prepared(None, map[]), Prepare(0, i)) == Prepared(Some(i), map[]);
    ReachesBefore(Prepared(None, map[]), Prepare(0, i), t);
    assert Do(Init, OpenRun(0)) == Prepared(None, map[]);
    ReachesBefore(Init, OpenRun(0), t);
    var steps :| Runs(Init, steps) && After(Init, steps) == t;
    assert t.sent == [ByPublisher(0, i)];
  }

  /** `s` while process `p` recovers intent `i` of run `source` under recovery id `id`. */
  function Recovering(s: State, p: nat, i: Intent, source: nat, id: nat, pc: RecoverPc): State {
    var evidenced := pc in {Evidenced, Tagged, Ready};
    s.(procs := s.procs[p := Recoverer(i, source, id, pc)],
       tags := if evidenced then s.tags + {id} else s.tags,
       claimTag := if pc in {Tagged, Ready} then Some(id) else s.claimTag,
       broadcastTag := if pc == Ready then Some(id) else s.broadcastTag,
       recovered := if pc == Ready then Some(source) else s.recovered)
  }

  predicate ReadyToRecover(s: State, p: nat, i: Intent, source: nat, id: nat) {
    p !in s.procs && Recoverable(s, i, source) && s.claimTag.None? && s.broadcastTag.None? && id !in s.tags
  }

  /** What an uninterrupted recovery leaves: its three tags, and the authorised transaction out. */
  function RecoveredState(s: State, i: Intent, source: nat, id: nat): State {
    s.(tags := s.tags + {id}, claimTag := Some(id), broadcastTag := Some(id), recovered := Some(source),
       sent := s.sent + [ByRecovery(source, i)])
  }

  lemma RecoveryBegins(s: State, p: nat, i: Intent, source: nat, id: nat, t: State)
    requires ReadyToRecover(s, p, i, source, id) && Reaches(Recovering(s, p, i, source, id, Unclaimed), t)
    ensures Reaches(s, t)
  {
    var s1, s2 := Recovering(s, p, i, source, id, Asked), Recovering(s, p, i, source, id, Verified);
    assert Do(s2, CheckClaim(p)) == Recovering(s, p, i, source, id, Unclaimed);
    ReachesBefore(s2, CheckClaim(p), t);
    assert Do(s1, Verify(p)) == s2;
    ReachesBefore(s1, Verify(p), t);
    assert Do(s, Ask(p, i, source, id)) == s1;
    ReachesBefore(s, Ask(p, i, source, id), t);
  }

  lemma RecoveryClaims(s: State, p: nat, i: Intent, source: nat, id: nat, t: State)
    requires ReadyToRecover(s, p, i, source, id) && Reaches(Recovering(s, p, i, source, id, Tagged), t)
    ensures Reaches(Recovering(s, p, i, source, id, Unclaimed), t)
  {
    var s3, s4 := Recovering(s, p, i, source, id, Unclaimed), Recovering(s, p, i, source, id, Evidenced);
    assert Do(s4, TagClaim(p)) == Recovering(s, p, i, source, id, Tagged);
    ReachesBefore(s4, TagClaim(p), t);
    assert Do(s3, Evidence(p)) == s4;
    ReachesBefore(s3, Evidence(p), t);
  }

  lemma RecoverySends(s: State, p: nat, i: Intent, source: nat, id: nat)
    requires ReadyToRecover(s, p, i, source, id)
    ensures Reaches(Recovering(s, p, i, source, id, Tagged), RecoveredState(s, i, source, id))
  {
    var t := RecoveredState(s, i, source, id);
    var s5, s6 := Recovering(s, p, i, source, id, Tagged), Recovering(s, p, i, source, id, Ready);
    assert s.procs[p := Recoverer(i, source, id, Ready)] - {p} == s.procs;
    assert Do(s6, RecoverRaw(p)) == t;
    ReachesItself(t);
    ReachesBefore(s6, RecoverRaw(p), t);
    assert Do(s5, TagBroadcast(p)) == s6;
    ReachesBefore(s5, TagBroadcast(p), t);
  }

  /** An uninterrupted recovery is a run of the machine, from every state that is ready for it. */
  lemma RecoveryIsARun(s: State, p: nat, i: Intent, source: nat, id: nat)
    requires ReadyToRecover(s, p, i, source, id)
    ensures Reaches(s, RecoveredState(s, i, source, id))
  {
    var t := RecoveredState(s, i, source, id);
    RecoverySends(s, p, i, source, id);
    RecoveryClaims(s, p, i, source, id, t);
    RecoveryBegins(s, p, i, source, id, t);
  }
}
