/** One explicit recovery attempt of an archived, never broadcast transaction. */
module Recovery {
  import opened Prelude
  import opened Publisher
  import opened Publication

  /** One round of checks just before claiming, signing or sending. */
  datatype Look = Look(now: int, drained: bool, live: bool, identified: bool, known: bool,
                       latest: int, pending: int, estimate: int, price: int, simulated: bool, allowed: bool)

  datatype Authorization = Authorization(id: nat, issuedAt: int, expiresAt: int, intent: Intent)

  predicate Current(auth: Authorization, now: int) {
    auth.issuedAt <= now < auth.expiresAt
  }

  /** `preflight`: the frozen transaction is unseen, next in line, and still covers gas and fee. */
  predicate Preflight(auth: Authorization, k: Look) {
    && Current(auth, k.now) && k.drained && k.live && k.identified && !k.known
    && k.latest == auth.intent.tx.nonce && k.pending == auth.intent.tx.nonce
    && GasLimit(k.estimate, MAX_CONFIGURED_GAS).Some? &&
         GasLimit(k.estimate, MAX_CONFIGURED_GAS).value <= auth.intent.tx.gas
    && 0 < k.price * 3 <= MAX_PRICE && 0 < k.price * 2 <= auth.intent.tx.gasPrice
    && k.simulated
  }

  datatype Attempt = Attempt(
    auth: Authorization, admitted: bool, verified: bool, allowedAtStart: bool,
    first: Look, second: Look, third: Look, signer: string, signedNow: int, drainedAtSend: bool,
    echoed: bool, receipts: seq<Option<Receipt>>, allowedAtEnd: bool, power: nat)

  /** The attempt is admitted, its authorisation is in force, and the chain is the right one. */
  predicate Entitled(c: Attempt) {
    && c.admitted && Authorisable(c.auth.intent) && Current(c.auth, c.first.now)
    && c.auth.expiresAt <= c.auth.issuedAt + 3600 && c.verified && c.first.identified
  }

  /** An unclaimed target and a passed first look: the attempt leaves evidence. */
  predicate Opens(c: Attempt, evidence: set<nat>, claim: Option<nat>) {
    Entitled(c) && !c.allowedAtStart && claim.None? && Preflight(c.auth, c.first) && c.auth.id !in evidence
  }

  /** The second look passes and finds the hash not yet allowed: the attempt claims. */
  predicate Claims(c: Attempt, evidence: set<nat>, claim: Option<nat>) {
    Opens(c, evidence, claim) && c.power >= 1 && Preflight(c.auth, c.second) && !c.second.allowed
  }

  /** So does the third, under the owner's key. */
  predicate Signs(c: Attempt, evidence: set<nat>, claim: Option<nat>) {
    && Claims(c, evidence, claim) && c.power >= 2 && c.signer == c.auth.intent.tx.target.owner
    && Preflight(c.auth, c.third) && !c.third.allowed
  }

  predicate SendsIt(c: Attempt, evidence: set<nat>, claim: Option<nat>) {
    Signs(c, evidence, claim) && c.power >= 4 && c.drainedAtSend && Current(c.auth, c.signedNow)
  }

  /** The repository's tags for one target, and what recoveries sent to the chain.  A tag is created
      once and never moved. */
  class Registry {
    var evidence: set<nat>
    var claim: Option<nat>
    var broadcast: Option<nat>
    var sent: seq<Tx>

    constructor ()
      ensures Valid() && sent == []
    {
      evidence, claim, broadcast, sent := {}, None, None, [];
    }

    ghost predicate Valid()
      reads this
    {
      && |sent| <= 1 && (sent != [] ==> broadcast.Some?)
      && (broadcast.Some? ==> claim == broadcast) && (claim.Some? ==> claim.value in evidence)
    }

    /** `recover`.  A consumed claim is never released: only an invocation that finds none can send,
        and what it sends is the authorised transaction. */
    method Recover(c: Attempt) returns (r: Reply)
      requires Valid() && |c.receipts| == 12
      modifies this
      ensures Valid() && old(sent) <= sent && old(evidence) <= evidence
      ensures old(claim).Some? ==> claim == old(claim) && sent == old(sent)
      ensures old(broadcast).Some? ==> broadcast == old(broadcast)
      ensures sent == if SendsIt(c, old(evidence), old(claim)) then old(sent) + [c.auth.intent.tx] else old(sent)
      ensures sent != old(sent) ==>
                && old(sent) == [] && claim == broadcast == Some(c.auth.id) && c.auth.id !in old(evidence)
                && Authorisable(c.auth.intent) && c.verified && c.signer == c.auth.intent.tx.target.owner
                && Preflight(c.auth, c.first) && Preflight(c.auth, c.second) && Preflight(c.auth, c.third) &&
                     Current(c.auth, c.signedNow)
      ensures claim == if Claims(c, old(evidence), old(claim)) && c.power >= 2 then Some(c.auth.id) else old(claim)
      ensures r.AlreadyAuthorized? || r.Authorized? ==> |sent| == |old(sent)| + r.sends
      ensures r.AlreadyAuthorized? <==>
              && Entitled(c)
              && (|| c.allowedAtStart
                  || (&& Opens(c, old(evidence), old(claim)) && c.power >= 1
                      && Preflight(c.auth, c.second) && c.second.allowed)
                  || (&& Claims(c, old(evidence), old(claim)) && c.power >= 2
                      && c.signer == c.auth.intent.tx.target.owner && Preflight(c.auth, c.third) && c.third.allowed))
      ensures r.AlreadyAuthorized? ==> c.allowedAtStart || c.second.allowed || c.third.allowed
      ensures r.Authorized? <==>
              SendsIt(c, old(evidence), old(claim)) && c.echoed && Landed(c.receipts) && c.allowedAtEnd
      ensures r.Authorized? ==> r.tx == c.auth.intent.tx
      ensures !r.PreparedNotSent?
    {
      var left := c.power;
      if !c.admitted || !Authorisable(c.auth.intent) || !Current(c.auth, c.first.now)
         || c.auth.expiresAt > c.auth.issuedAt + 3600 || !c.verified || !c.first.identified {
        return Stopped;
      }
      if c.allowedAtStart { return AlreadyAuthorized(0); }
      if claim.Some? || !Preflight(c.auth, c.first) || c.auth.id in evidence { return Stopped; }
      if left == 0 { return Died; }
      evidence, left := evidence + {c.auth.id}, left - 1;
      if !Preflight(c.auth, c.second) { return Stopped; }
      if c.second.allowed { return AlreadyAuthorized(0); }
      if left == 0 { return Died; }
      claim, left := Some(c.auth.id), left - 1;
      if c.signer != c.auth.intent.tx.target.owner || !Preflight(c.auth, c.third) { return Stopped; }
      if c.third.allowed { return AlreadyAuthorized(0); }
      if left == 0 { return Died; }
      broadcast, left := Some(c.auth.id), left - 1;
      if !c.drainedAtSend || !Current(c.auth, c.signedNow) { return Stopped; }
      if left == 0 { return Died; }
      sent := sent + [c.auth.intent.tx];
      if !c.echoed { return Stopped; }
      var i := 0;
      while i < 12
        invariant 0 <= i <= 12 && forall j :: 0 <= j < i ==> c.receipts[j].None?
      {
        match c.receipts[i] {
          case None => i := i + 1;
          case Some(seen) =>
            if !seen.identified || !seen.succeeded || !c.allowedAtEnd { return Stopped; }
            return Authorized(c.auth.intent.tx, 1);
        }
      }
      return Stopped;
    }
  }

  /** A look lets the authorised transaction pass exactly while the authorisation is in force, on a drained
      and live target, with the transaction unseen and next in line, its gas covering 120 % of the estimate,
      its price twice the node's, three times that within the cap, and the simulation passing. */
  lemma PreflightIff(auth: Authorization, k: Look)
    requires Authorisable(auth.intent)
    ensures Preflight(auth, k) <==>
            && auth.issuedAt <= k.now < auth.expiresAt && k.drained && k.live && k.identified && !k.known
            && k.latest == k.pending == auth.intent.tx.nonce
            && 0 < k.estimate && 6 * k.estimate <= 5 * auth.intent.tx.gas
            && 0 < k.price && 3 * k.price <= 100_000_000 && 2 * k.price <= auth.intent.tx.gasPrice
            && k.simulated
  {
  }

  /** A transaction a recovery may send costs at most the caps, and its fee and gas cover what the
      last look at the chain asked for. */
  lemma RecoveredIsBounded(auth: Authorization, k: Look)
    requires Authorisable(auth.intent) && Preflight(auth, k)
    ensures Bounded(auth.intent, MAX_CONFIGURED_GAS)
    ensures 6 * k.estimate <= 5 * auth.intent.tx.gas && 2 * k.price <= auth.intent.tx.gasPrice
  {
    AuthorisableIsBounded(auth.intent);
  }
}
