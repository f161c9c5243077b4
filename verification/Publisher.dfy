/** The compose publisher: gas and fee limits, the frozen intent, and one journal that lets at most
    one raw transaction out. */
module Publisher {
  import opened Prelude

  const MAX_CONFIGURED_GAS := 8_000_000
  const MAX_PRICE := 100_000_000

  /** What is authorised: chain, contract, compose hash, commit, document and owner. */
  datatype Target = Target(chain: string, contract: string, composeHash: string, commit: string, yamlUrl: string,
                           owner: string)

  datatype Tx = Tx(target: Target, nonce: int, gas: int, gasPrice: int)

  /** The journalled intent.  Hashing is injective, so the transaction stands for its hash. */
  datatype Intent = Intent(tx: Tx, estimate: int, maximumCost: int)

  /** 120 % of the estimate, rounded up. */
  function GasLimit(estimate: int, gasCap: int): (gas: Option<int>)
    ensures gas.Some? <==> estimate > 0 && 6 * estimate <= 5 * gasCap
    ensures gas.Some? ==> 5 * gas.value - 5 < 6 * estimate <= 5 * gas.value && gas.value <= gasCap
  {
    if estimate <= 0 then None
    else
      var gas := (estimate * 120 + 99) / 100;
      if gas > gasCap then None else Some(gas)
  }

  // ---- the send decision

  /** Every answer the chain gives to one decision; all of them are the node's choice. */
  datatype Answers = Answers(
    latest: int, pending: int, estimate: int, price: int, simulated: bool, allowed: bool,
    estimateAgain: int, priceAgain: int, latestAgain: int, pendingAgain: int)

  datatype Diagnostic = Diagnostic(
    result: string, phase: string, estimate: int, requiredGas: int, frozenGas: int, gasCap: int,
    requiredPrice: int, frozenPrice: int, priceCap: int, gasSufficient: bool, feeSufficient: bool, sends: int)

  datatype Decision = Refused | FrozenLimits(diagnostic: Diagnostic) | AlreadyAllowed | Go(intent: Intent)

  predicate GasSuffices(gas: int, frozen: Intent, gasCap: int) {
    gas <= frozen.tx.gas <= gasCap
  }

  predicate FeeSuffices(required: int, frozen: Intent) {
    required <= frozen.tx.gasPrice <= MAX_PRICE
  }

  /** The document written beside a refused send. */
  function FrozenCheck(frozen: Intent, estimate: int, gas: int, price: int, gasCap: int): Diagnostic {
    Diagnostic("STOP", "send_preflight", estimate, gas, frozen.tx.gas, gasCap, (price / 3) * 2, frozen.tx.gasPrice,
               MAX_PRICE, GasSuffices(gas, frozen, gasCap), FeeSuffices((price / 3) * 2, frozen), 0)
  }

  function Decide(target: Target, frozen: Option<Intent>, gasCap: int, a: Answers): Decision {
    var gas := GasLimit(a.estimate, gasCap);
    var price := a.price * 3;
    if a.pending != a.latest || gas.None? || !(0 < price <= MAX_PRICE) then Refused
    else if frozen.Some?
            && !(GasSuffices(gas.value, frozen.value, gasCap) && FeeSuffices((price / 3) * 2, frozen.value))
    then FrozenLimits(FrozenCheck(frozen.value, a.estimate, gas.value, price, gasCap))
    else if frozen.Some? && a.latest != frozen.value.tx.nonce then Refused
    else if !a.simulated then Refused
    else if a.allowed then AlreadyAllowed
    else Sign(target, frozen, gasCap, a, if frozen.Some? then frozen.value.tx.gas else gas.value,
              if frozen.Some? then frozen.value.tx.gasPrice else price)
  }

  /** The second look at the chain, and the transaction to sign. */
  function Sign(target: Target, frozen: Option<Intent>, gasCap: int, a: Answers, gas: int, price: int): Decision {
    var again := GasLimit(a.estimateAgain, gasCap);
    if again.None? || again.value > gas || a.priceAgain * 2 > price || a.latestAgain != a.latest ||
      a.pendingAgain != a.latest
    then Refused
    else
      var intent := Intent(Tx(target, a.latest, gas, price),
        if frozen.Some? then frozen.value.estimate else a.estimate, gas * price);
      if frozen.Some? && intent != frozen.value then Refused else Go(intent)
  }

  predicate Bounded(intent: Intent, gasCap: int) {
    && intent.tx.gas <= gasCap && 0 < intent.tx.gasPrice <= MAX_PRICE
    && intent.maximumCost == intent.tx.gas * intent.tx.gasPrice <= gasCap * MAX_PRICE
  }

  /** A transaction that may go out is the frozen one when there is one, covers both estimates and
      the current fee, and costs at most the gas cap at the price cap. */
  lemma GoIsBounded(target: Target, frozen: Option<Intent>, gasCap: int, a: Answers)
    requires Decide(target, frozen, gasCap, a).Go?
    ensures var intent := Decide(target, frozen, gasCap, a).intent;
            && Bounded(intent, gasCap) && intent.tx.target == target && intent.tx.nonce == a.latest
            && (frozen.Some? ==> intent == frozen.value)
            && 6 * a.estimate <= 5 * intent.tx.gas && 6 * a.estimateAgain <= 5 * intent.tx.gas
            && 2 * a.price <= intent.tx.gasPrice && 2 * a.priceAgain <= intent.tx.gasPrice
  {
    var intent := Decide(target, frozen, gasCap, a).intent;
    CostBound(intent.tx.gas, gasCap, intent.tx.gasPrice);
  }

  lemma CostBound(gas: int, gasCap: int, price: int)
    requires 0 < gas <= gasCap && 0 < price <= MAX_PRICE
    ensures gas * price <= gasCap * MAX_PRICE
  {
    assert gas * price <= gasCap * price;
    assert gasCap * price <= gasCap * MAX_PRICE;
  }

  /** The first look: a settled nonce, a payable estimate and price, enough frozen gas and fee when
      there is a frozen intent, and a simulation that passes. */
  predicate Passes(frozen: Option<Intent>, gasCap: int, a: Answers) {
    && a.pending == a.latest && 0 < a.estimate && 6 * a.estimate <= 5 * gasCap && 0 < 3 * a.price <= MAX_PRICE
    && (frozen.Some? ==>
          && 6 * a.estimate <= 5 * frozen.value.tx.gas && frozen.value.tx.gas <= gasCap
          && 2 * a.price <= frozen.value.tx.gasPrice <= MAX_PRICE && frozen.value.tx.nonce == a.latest)
    && a.simulated
  }

  /** The second look: the gas and the price on offer still cover what the node asks, and no nonce moved. */
  predicate Holds(a: Answers, gas: int, gasPrice: int) {
    && 0 < a.estimateAgain && 6 * a.estimateAgain <= 5 * gas && 2 * a.priceAgain <= gasPrice
    && a.latestAgain == a.latest && a.pendingAgain == a.latest
  }

  /** The hash is found allowed, in place of a send, exactly when the first look passes and the chain says so. */
  lemma AllowedIff(target: Target, frozen: Option<Intent>, gasCap: int, a: Answers)
    ensures Decide(target, frozen, gasCap, a).AlreadyAllowed? <==> Passes(frozen, gasCap, a) && a.allowed
  {
    Thirds(a.price);
  }

  /** A fresh transaction goes exactly when both looks pass: gas for 120 % of the estimate, rounded up,
      at three times the price. */
  lemma FreshGoIff(target: Target, gasCap: int, a: Answers, gas: int)
    requires 5 * gas - 5 < 6 * a.estimate <= 5 * gas
    ensures Decide(target, None, gasCap, a).Go? <==>
            Passes(None, gasCap, a) && !a.allowed && Holds(a, gas, 3 * a.price)
    ensures Decide(target, None, gasCap, a).Go? ==>
              Decide(target, None, gasCap, a).intent
              == Intent(Tx(target, a.latest, gas, 3 * a.price), a.estimate, gas * (3 * a.price))
  {
  }

  /** A frozen one exactly when both looks pass and it is the transaction this call would make. */
  lemma FrozenGoIff(target: Target, frozen: Intent, gasCap: int, a: Answers)
    ensures Decide(target, Some(frozen), gasCap, a).Go? <==>
            && Passes(Some(frozen), gasCap, a) && !a.allowed && Holds(a, frozen.tx.gas, frozen.tx.gasPrice)
            && frozen.tx.target == target && frozen.maximumCost == frozen.tx.gas * frozen.tx.gasPrice
  {
    Thirds(a.price);
  }

  /** The limits are reported exactly when node and caps are in order and the frozen gas or fee is not. */
  lemma FrozenLimitsIff(target: Target, frozen: Intent, gasCap: int, a: Answers)
    ensures Decide(target, Some(frozen), gasCap, a).FrozenLimits? <==>
            && a.pending == a.latest && 0 < a.estimate && 6 * a.estimate <= 5 * gasCap && 0 < 3 * a.price <= MAX_PRICE
            && (|| 5 * frozen.tx.gas < 6 * a.estimate || frozen.tx.gas > gasCap
                || frozen.tx.gasPrice < 2 * a.price || frozen.tx.gasPrice > MAX_PRICE)
  {
    Thirds(a.price);
  }

  // ---- diagnostics

  /** The recovery side's check of a diagnostic document. */
  predicate AcceptsDiagnostic(d: Diagnostic, frozen: Intent) {
    LimitsAgree(d, frozen) && frozen.maximumCost == d.frozenGas * d.frozenPrice
  }

  predicate LimitsAgree(d: Diagnostic, frozen: Intent) {
    && d.result == "STOP" && d.phase == "send_preflight" && d.sends == 0
    && 0 < d.estimate && d.requiredGas == (d.estimate * 120 + 99) / 100
    && 0 < d.requiredGas <= d.gasCap <= MAX_CONFIGURED_GAS
    && 0 < d.requiredPrice && d.requiredPrice % 2 == 0 && (d.requiredPrice / 2) * 3 <= MAX_PRICE
    && d.priceCap == MAX_PRICE && d.frozenGas == frozen.tx.gas && d.frozenPrice == frozen.tx.gasPrice
    && d.gasSufficient == GasSuffices(d.requiredGas, frozen, d.gasCap)
    && d.feeSufficient == FeeSuffices(d.requiredPrice, frozen)
    && !(d.gasSufficient && d.feeSufficient)
  }

  /** Some answers and some admissible gas cap make the publisher write `d`. */
  ghost predicate Writable(d: Diagnostic, target: Target, frozen: Intent) {
    exists a: Answers, gasCap: int :: 0 < gasCap <= MAX_CONFIGURED_GAS &&
      Decide(target, Some(frozen), gasCap, a) == FrozenLimits(d)
  }

  lemma AcceptedIsWritable(d: Diagnostic, target: Target, frozen: Intent)
    requires AcceptsDiagnostic(d, frozen)
    ensures Writable(d, target, frozen)
  {
    var a := Answers(0, 0, d.estimate, d.requiredPrice / 2, true, false, 0, 0, 0, 0);
    assert a.price * 3 / 3 * 2 == d.requiredPrice;
    assert Decide(target, Some(frozen), d.gasCap, a) == FrozenLimits(d);
  }

  lemma Thirds(p: int)
    ensures p * 3 / 3 == p && 2 * p / 2 == p && 2 * p % 2 == 0
  {
  }

  lemma CheckAgrees(frozen: Intent, estimate: int, gas: int, p: int, gasCap: int)
    requires estimate > 0 && gas == (estimate * 120 + 99) / 100 && gas <= gasCap <= MAX_CONFIGURED_GAS &&
               0 < p * 3 <= MAX_PRICE
    requires !(GasSuffices(gas, frozen, gasCap) && FeeSuffices(p * 2, frozen))
    ensures LimitsAgree(FrozenCheck(frozen, estimate, gas, p * 3, gasCap), frozen)
  {
    Thirds(p);
  }

  lemma WritableAgrees(d: Diagnostic, target: Target, frozen: Intent)
    requires Writable(d, target, frozen)
    ensures LimitsAgree(d, frozen)
  {
    var a: Answers, gasCap: int :| 0 < gasCap <= MAX_CONFIGURED_GAS &&
      Decide(target, Some(frozen), gasCap, a) == FrozenLimits(d);
    Thirds(a.price);
    CheckAgrees(frozen, a.estimate, (a.estimate * 120 + 99) / 100, a.price, gasCap);
  }

  /** The checker accepts exactly the documents the publisher can write about this intent. */
  lemma AcceptedIffWritable(d: Diagnostic, target: Target, frozen: Intent)
    ensures AcceptsDiagnostic(d, frozen) <==>
            Writable(d, target, frozen) && frozen.maximumCost == frozen.tx.gas * frozen.tx.gasPrice
  {
    if AcceptsDiagnostic(d, frozen) {
      AcceptedIsWritable(d, target, frozen);
    } else if Writable(d, target, frozen) {
      WritableAgrees(d, target, frozen);
    }
  }

  /** The publisher records the cost of every intent it prepares, so for those the two sides agree
      without any condition. */
  lemma PreparedIffWritable(d: Diagnostic, target: Target, prepared: Target, gasCap: int, a: Answers)
    requires Decide(prepared, None, gasCap, a).Go?
    ensures var frozen := Decide(prepared, None, gasCap, a).intent;
            AcceptsDiagnostic(d, frozen) <==> Writable(d, target, frozen)
  {
    AcceptedIffWritable(d, target, Decide(prepared, None, gasCap, a).intent);
  }

  /** An accepted document reports a real shortage: more gas, or a higher price, was needed than
      the frozen transaction offers within the caps. */
  lemma AcceptedMeansInsufficient(d: Diagnostic, frozen: Intent)
    requires AcceptsDiagnostic(d, frozen)
    ensures !GasSuffices(d.requiredGas, frozen, d.gasCap) || !FeeSuffices(d.requiredPrice, frozen)
    ensures forall target, a: Answers :: a.estimate == d.estimate && a.price * 2 == d.requiredPrice ==>
              !Decide(target, Some(frozen), d.gasCap, a).Go?
  {
    forall target, a: Answers | a.estimate == d.estimate && a.price * 2 == d.requiredPrice
      ensures !Decide(target, Some(frozen), d.gasCap, a).Go?
    {
      assert a.price * 3 / 3 * 2 == d.requiredPrice;
    }
  }

  // ---- one journal

  datatype Phase = PublishPhase | PreparePhase | SendPhase

  datatype Receipt = Receipt(identified: bool, succeeded: bool)

  /** One invocation: its request, and every answer it gets from outside before and after the
      decision.  `power` is the number of durable effects before the process dies. */
  datatype Call = Call(
    target: Target, phase: Phase, gasCap: int, wellFormed: bool, identified: bool, allowedAtStart: bool,
    firstAttempt: bool, prior: bool, archived: bool, answers: Answers,
    echoed: bool, receipts: seq<Option<Receipt>>, allowedAtEnd: bool, power: nat)

  datatype Reply =
    | AlreadyAuthorized(sends: nat)
    | PreparedNotSent(tx: Tx, sends: nat)
    | Authorized(tx: Tx, sends: nat)
    | Stopped
    | Died

  /** The request is well formed and addressed to the right chain and owner. */
  predicate Entered(c: Call) {
    0 < c.gasCap <= MAX_CONFIGURED_GAS && c.wellFormed && c.identified
  }

  predicate Admitted(c: Call) {
    Entered(c) && !c.allowedAtStart && c.firstAttempt && c.prior
  }

  /** The journal lets this call decide: unclaimed, with an archived intent to send or none at all. */
  predicate Open(c: Call, intent: Option<Intent>, claim: Option<Tx>) {
    claim.None? && if c.phase == SendPhase then c.archived && intent.Some? else intent.None?
  }

  function Decided(c: Call, intent: Option<Intent>): Decision {
    Decide(c.target, if c.phase == SendPhase then intent else None, c.gasCap, c.answers)
  }

  /** The durable effects up to the send: claim, a new intent, the marker and the send itself. */
  function Effects(c: Call): nat {
    if c.phase == SendPhase then 3 else 4
  }

  predicate Sends(c: Call, intent: Option<Intent>, claim: Option<Tx>, started: Option<Tx>) {
    && Admitted(c) && c.phase != PreparePhase && Open(c, intent, claim) && Decided(c, intent).Go?
    && started.None? && c.power >= Effects(c)
  }

  /** The first receipt that arrived is the transaction's own and a success. */
  predicate Landed(receipts: seq<Option<Receipt>>) {
    exists i :: 0 <= i < |receipts| && receipts[i] == Some(Receipt(true, true)) &&
      forall j :: 0 <= j < i ==> receipts[j].None?
  }

  /** The evidence directory of one target, and what the chain received from its invocations.
      A file is created once and never rewritten. */
  class Journal {
    var intent: Option<Intent>
    var claim: Option<Tx>
    var started: Option<Tx>
    var diagnostic: Option<Diagnostic>
    var receipt: Option<Receipt>
    var result: Option<Tx>
    var sent: seq<Tx>

    constructor ()
      ensures Valid() && intent.None? && sent == []
    {
      intent, claim, started, diagnostic, receipt, result := None, None, None, None, None, None;
      sent := [];
    }

    /** At most one transaction is out, and then it is the claimed, journalled and bounded one. */
    ghost predicate Valid()
      reads this
    {
      && |sent| <= 1
      && (sent != [] ==>
            && claim == Some(sent[0]) && started == Some(sent[0])
            && intent.Some? && intent.value.tx == sent[0] && Bounded(intent.value, MAX_CONFIGURED_GAS))
    }

    /** Files only appear. */
    twostate predicate Grown()
      reads this
    {
      && (old(intent).Some? ==> intent == old(intent))
      && (old(claim).Some? ==> claim == old(claim))
      && (old(started).Some? ==> started == old(started))
      && (old(result).Some? ==> result == old(result))
      && old(sent) <= sent
    }

    /** `publish`. */
    method Publish(c: Call) returns (r: Reply)
      requires Valid() && |c.receipts| == 12
      modifies this
      ensures Valid() && Grown()
      ensures sent == if Sends(c, old(intent), old(claim), old(started))
                      then old(sent) + [Decided(c, old(intent)).intent.tx] else old(sent)
      ensures sent != old(sent) ==>
                && old(claim).None? && c.phase != PreparePhase && sent[|old(sent)|].target == c.target
                && sent[|old(sent)|].gas * sent[|old(sent)|].gasPrice <= c.gasCap * MAX_PRICE
                && (c.phase == SendPhase ==> old(intent).Some? && old(intent).value.tx == sent[|old(sent)|])
      ensures r.AlreadyAuthorized? || r.PreparedNotSent? || r.Authorized? ==> |sent| == |old(sent)| + r.sends
      ensures r.AlreadyAuthorized? <==>
              && Entered(c)
              && (c.allowedAtStart ||
                  (Admitted(c) && Open(c, old(intent), old(claim)) && Decided(c, old(intent)).AlreadyAllowed?))
      ensures r.AlreadyAuthorized? ==> c.allowedAtStart || c.answers.allowed
      ensures r.PreparedNotSent? <==>
              && Admitted(c) && c.phase == PreparePhase && old(claim).None?
              && if old(intent).Some? then old(intent).value.tx.target == c.target
                 else Decided(c, None).Go? && c.power > 0
      ensures r.PreparedNotSent? ==> intent.Some? && intent.value.tx == r.tx && r.tx.target == c.target
      ensures r.PreparedNotSent? && old(intent).None? ==> Decided(c, None) == Go(intent.value)
      ensures r.Authorized? <==>
              && Sends(c, old(intent), old(claim), old(started)) && c.echoed && Landed(c.receipts) && c.allowedAtEnd
              && old(receipt).None? && old(result).None? && c.power >= Effects(c) + 2
      ensures r.Authorized? ==> sent == old(sent) + [r.tx] && result == Some(r.tx)
      ensures Admitted(c) && Open(c, old(intent), old(claim)) && Decided(c, old(intent)).FrozenLimits? ==>
                r == Stopped && diagnostic == if old(diagnostic).None? && c.power > 0
                                              then Some(Decided(c, old(intent)).diagnostic) else old(diagnostic)
    {
      if !(0 < c.gasCap <= MAX_CONFIGURED_GAS) || !c.wellFormed || !c.identified {
        return Stopped;
      }
      if c.allowedAtStart {
        return AlreadyAuthorized(0);
      }
      if !c.firstAttempt || !c.prior {
        return Stopped;
      }
      if c.phase == PreparePhase && intent.Some? && claim.None? {
        if intent.value.tx.target != c.target {
          return Stopped;
        }
        return PreparedNotSent(intent.value.tx, 0);
      }
      if claim.Some? || (c.phase != SendPhase && intent.Some?) {
        return Stopped;
      }
      var frozen: Option<Intent> := None;
      if c.phase == SendPhase {
        if !c.archived || intent.None? {
          return Stopped;
        }
        frozen := intent;
      }
      var decision := Decide(c.target, frozen, c.gasCap, c.answers);
      match decision
      case Refused => return Stopped;
      case AlreadyAllowed => return AlreadyAuthorized(0);
      case FrozenLimits(d) =>
        if diagnostic.None? && c.power > 0 {
          diagnostic := Some(d);
        }
        return Stopped;
      case Go(chosen) =>
        GoIsBounded(c.target, frozen, c.gasCap, c.answers);
        CapBound(c.gasCap);
        if c.phase == PreparePhase {
          if c.power == 0 { return Died; }
          intent := Some(chosen);
          return PreparedNotSent(chosen.tx, 0);
        }
        r := Broadcast(c, chosen);
    }

    /** Claim, journal, mark, send, and wait for the receipt. */
    method Broadcast(c: Call, chosen: Intent) returns (r: Reply)
      requires Valid() && |c.receipts| == 12 && claim.None? && Bounded(chosen, MAX_CONFIGURED_GAS)
      requires if c.phase == SendPhase then intent == Some(chosen) else intent.None?
      modifies this
      ensures Valid() && Grown() && diagnostic == old(diagnostic)
      ensures sent == if old(started).None? && c.power >= Effects(c) then old(sent) + [chosen.tx] else old(sent)
      ensures r.Authorized? <==>
              && old(started).None? && c.echoed && Landed(c.receipts) && c.allowedAtEnd
              && old(receipt).None? && old(result).None? && c.power >= Effects(c) + 2
      ensures r.Authorized? ==> r == Authorized(chosen.tx, 1) && result == Some(chosen.tx)
      ensures !r.AlreadyAuthorized? && !r.PreparedNotSent?
    {
      var left := c.power;
      if left == 0 { return Died; }
      claim, left := Some(chosen.tx), left - 1;
      if intent.None? {
        if left == 0 { return Died; }
        intent, left := Some(chosen), left - 1;
      }
      if left == 0 { return Died; }
      if started.Some? { return Stopped; }
      started, left := Some(chosen.tx), left - 1;
      if left == 0 { return Died; }
      sent, left := sent + [chosen.tx], left - 1;
      if !c.echoed { return Stopped; }
      var i := 0;
      while i < 12
        invariant 0 <= i <= 12 && forall j :: 0 <= j < i ==> c.receipts[j].None?
      {
        match c.receipts[i] {
          case None => i := i + 1;
          case Some(seen) =>
            if left == 0 { return Died; }
            if receipt.Some? { return Stopped; }
            receipt, left := Some(seen), left - 1;
            if !seen.identified || !seen.succeeded || !c.allowedAtEnd { return Stopped; }
            if left == 0 { return Died; }
            if result.Some? { return Stopped; }
            result := Some(chosen.tx);
            return Authorized(chosen.tx, 1);
        }
      }
      return Stopped;
    }
  }

  lemma CapBound(gasCap: int)
    requires 0 < gasCap <= MAX_CONFIGURED_GAS
    ensures gasCap * MAX_PRICE <= MAX_CONFIGURED_GAS * MAX_PRICE
  {
  }
}
