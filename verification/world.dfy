// The simulator's world (app/sim/world.py) as an object: latent payments updated in place, each method proved to do
// what the model of the hidden world says.
module World {
  import opened Base
  import opened Models
  import opened WorldModel

  // Ground truth for one payment, and its interaction state.
  class LatentPayment {
    const cause: Cause
    const instrument: Instrument
    const issuer: string
    const amount: int
    const failedAt: Time
    const solventFrom: Option<Time>
    const outageUntil: Option<Time>
    const technicalClearAt: Option<Time>
    const sameInstrumentOk: bool
    const consentWouldSucceed: bool

    var contacts: nat
    var attempts: nat
    var optedOut: bool
    var resolved: bool
    var recoveredAt: Option<Time>
    var pendingUntil: Option<Time>
    var cost: int
    var lastCheckedAt: Option<Time>
    var naturally: bool

    // Accounts kept for the proofs only.
    ghost var way: Option<Way>
    ghost var acceptedAt: Option<Time>
    ghost var credit: nat
    ghost var unpaid: real

    ghost function View(): Latent
      reads this
    {
      Latent(cause, instrument, failedAt, solventFrom, outageUntil, technicalClearAt, sameInstrumentOk,
             consentWouldSucceed, contacts, attempts, optedOut, resolved, recoveredAt, pendingUntil, cost,
             lastCheckedAt, naturally, way, acceptedAt, credit, unpaid)
    }

    constructor (cause: Cause, instrument: Instrument, issuer: string, amount: int, failedAt: Time,
                 solventFrom: Option<Time>, outageUntil: Option<Time>, technicalClearAt: Option<Time>,
                 sameInstrumentOk: bool, consentWouldSucceed: bool)
      requires cause.RiskBlocked? ==> !consentWouldSucceed
      ensures Untouched(View()) && this.cause == cause && this.failedAt == failedAt && this.issuer == issuer
      ensures this.amount == amount
    {
      this.cause, this.instrument, this.issuer, this.amount := cause, instrument, issuer, amount;
      this.failedAt, this.solventFrom, this.outageUntil := failedAt, solventFrom, outageUntil;
      this.technicalClearAt, this.sameInstrumentOk := technicalClearAt, sameInstrumentOk;
      this.consentWouldSucceed := consentWouldSucceed;
      contacts, attempts, optedOut, resolved := 0, 0, false, false;
      recoveredAt, pendingUntil, cost, lastCheckedAt, naturally := None, None, 0, None, false;
      way, acceptedAt, credit, unpaid := None, None, 0, 1.0;
    }

    predicate BlockClearedAt(now: Time) {
      match cause
      case InsufficientFunds => solventFrom.Some? && now >= solventFrom.value
      case IssuerOutage => outageUntil.Some? && now >= outageUntil.value
      case _ => true
    }

    predicate WouldSucceedAt(now: Time) {
      match cause
      case InsufficientFunds => solventFrom.Some? && now >= solventFrom.value
      case IssuerOutage => outageUntil.Some? && now >= outageUntil.value
      case TechnicalDecline => technicalClearAt.Some? && now >= technicalClearAt.value
      case DoNotHonour => sameInstrumentOk
      case _ => false
    }
  }

  class World {
    const config: WorldConfig
    const draws: nat -> real
    const ids: seq<PaymentId>
    const latents: map<PaymentId, LatentPayment>
    var used: nat

    // Every payment is its own object.
    ghost predicate Valid() {
      && (forall i, j | 0 <= i < j < |ids| :: ids[i] != ids[j])
      && (forall id :: id in ids <==> id in latents)
      && (forall a, b | a in latents && b in latents && a != b :: latents[a] != latents[b])
    }

    ghost function Stream(): Draws
      reads this
    {
      Draws(draws, used)
    }

    constructor (config: WorldConfig, draws: nat -> real, ids: seq<PaymentId>, latents: map<PaymentId, LatentPayment>)
      requires forall i, j | 0 <= i < j < |ids| :: ids[i] != ids[j]
      requires forall id :: id in ids <==> id in latents
      requires forall a, b | a in latents && b in latents && a != b :: latents[a] != latents[b]
      ensures Valid() && this.config == config && this.ids == ids && this.latents == latents && used == 0
      ensures this.draws == draws
    {
      this.config, this.draws, this.ids, this.latents := config, draws, ids, latents;
      used := 0;
    }

    method Draw() returns (u: real)
      modifies this`used
      ensures u == old(Stream()).Next() && Stream() == old(Stream()).Rest()
    {
      u := draws(used);
      used := used + 1;
    }

    method NaturalRecovery(p: LatentPayment, now: Time) returns (found: bool)
      modifies p, this`used
      ensures (p.View(), Stream(), found) == WorldModel.NaturalRecovery(config, old(Stream()), old(p.View()), now)
    {
      hide WorldModel.Toss;
      var last := if p.lastCheckedAt.Some? then p.lastCheckedAt.value else p.failedAt;
      if p.optedOut || !p.BlockClearedAt(now) {
        return false;
      }
      var elapsed: nat := if now > last then now - last else 0;
      p.lastCheckedAt := Some(now);
      p.credit := p.credit + elapsed;
      if p.cause.InstrumentDead? || p.cause.MandateCancelled? || p.cause.RiskBlocked? {
        return false;
      }
      found := Toss(p, now, elapsed);
    }

    // Did the customer pay unprompted in the time since the last look?
    method Toss(p: LatentPayment, now: Time, elapsed: nat) returns (found: bool)
      modifies p, this`used
      ensures (p.View(), Stream(), found) == WorldModel.Toss(config, old(Stream()), old(p.View()), now, elapsed)
    {
      var u := Draw();
      if u < Hazard(config, elapsed) {
        p.resolved := true;
        p.recoveredAt := Some(now);
        p.naturally := true;
        p.way := Some(Unprompted);
        return true;
      }
      p.unpaid := p.unpaid * config.survival(elapsed);
      found := false;
      assert WorldModel.Toss(config, old(Stream()), old(p.View()), now, elapsed).0 == p.View();
    }

    // Daily steps, so that the block is re-checked along the way.
    method NaturalRecoveryOver(p: LatentPayment, start: Time, end: Time) returns (found: bool)
      modifies p, this`used
      ensures (p.View(), Stream(), found) ==
        WorldModel.NaturalRecoveryOver(config, old(Stream()), old(p.View()), start, end)
    {
      hide WorldModel.NaturalRecovery;
      var moment := start;
      while moment < end
        invariant WorldModel.NaturalRecoveryOver(config, Stream(), p.View(), moment, end) ==
          WorldModel.NaturalRecoveryOver(config, old(Stream()), old(p.View()), start, end)
        decreases end - moment
      {
        moment := if moment + DAY < end then moment + DAY else end;
        found := NaturalRecovery(p, moment);
        if found {
          return;
        }
      }
      found := false;
    }

    method SettlePendingConsent(p: LatentPayment, now: Time, forced: bool) returns (outcome: OutcomeKind)
      modifies p
      ensures (p.View(), outcome) == WorldModel.SettlePendingConsent(old(p.View()), now, forced)
    {
      if p.pendingUntil.None? {
        return Nothing;
      }
      if !forced && p.pendingUntil.value < now {
        p.pendingUntil := None;
        return ConsentIgnored;
      }
      if p.consentWouldSucceed && p.BlockClearedAt(now) {
        p.resolved := true;
        p.recoveredAt := Some(now);
        p.pendingUntil := None;
        p.way := Some(ByLink);
        return Recovered;
      }
      outcome := Nothing;
    }

    method ApplyRetry(p: LatentPayment, instrument: Option<Instrument>, now: Time) returns (outcome: OutcomeKind)
      modifies p
      ensures (p.View(), outcome) == WorldModel.ApplyRetry(old(p.View()), instrument, now)
    {
      if instrument.Some? && instrument.value != p.instrument {
        return AttemptFailed;
      }
      p.attempts := p.attempts + 1;
      p.cost := p.cost + RETRY_COST;
      if p.WouldSucceedAt(now) {
        p.resolved := true;
        p.recoveredAt := Some(now);
        p.way := Some(ByRetry);
        return Recovered;
      }
      outcome := AttemptFailed;
    }

    method ApplyConsent(p: LatentPayment, now: Time) returns (outcome: OutcomeKind)
      modifies p, this`used
      ensures (p.View(), Stream(), outcome) == WorldModel.ApplyConsent(config, old(Stream()), old(p.View()), now)
    {
      hide WorldModel.SettlePendingConsent;
      if p.optedOut {
        return OptedOut;
      }
      p.contacts := p.contacts + 1;
      p.cost := p.cost + CONTACT_COST;
      var excess: nat := if p.contacts > config.contactTolerance then p.contacts - config.contactTolerance else 0;
      if excess > 0 {
        var u := Draw();
        if u < config.optOutPerExcess * excess as real {
          p.optedOut := true;
          p.resolved := true;
          return OptedOut;
        }
      }
      var v := Draw();
      if v >= config.response(excess) {
        return ConsentIgnored;
      }
      p.pendingUntil := Some(now + LINK_LIFETIME);
      p.acceptedAt := Some(now);
      outcome := SettlePendingConsent(p, now, true);
    }

    method Apply(id: PaymentId, action: ActionKind, now: Time) returns (outcome: OutcomeKind)
      requires Valid() && id in latents
      modifies latents[id], this`used
      ensures (latents[id].View(), Stream(), outcome) ==
        WorldModel.Apply(config, old(Stream()), old(latents[id].View()), action, now)
    {
      hide WorldModel.NaturalRecovery, WorldModel.NaturalRecoveryOver, WorldModel.SettlePendingConsent,
        WorldModel.ApplyRetry,
        WorldModel.ApplyConsent;
      var p := latents[id];
      if p.resolved {
        return Nothing;
      }
      match action
      case Wait =>
        var found := NaturalRecovery(p, now);
        if found {
          return Recovered;
        }
        outcome := SettlePendingConsent(p, now, false);
      case Abandon =>
        var found := NaturalRecoveryOver(p, now, config.horizon);
        p.resolved := true;
        outcome := if found then Recovered else Abandoned;
      case Retry(instrument) =>
        outcome := ApplyRetry(p, instrument, now);
      case RequestConsent =>
        outcome := ApplyConsent(p, now);
    }

    // Every payment's view, in the order they are held.
    ghost function Roll(): (r: seq<Latent>)
      requires Valid()
      reads this, latents.Values
      ensures |r| == |ids|
    {
      seq(|ids|, i requires 0 <= i < |ids| reads this, latents.Values => latents[ids[i]].View())
    }

    // Roll the remaining tail of every case still open, in one pass over one stream of draws; the count is of the
    // payments this recovers.
    method SettleToHorizon() returns (settled: nat)
      requires Valid()
      modifies this`used, latents.Values
      ensures (Roll(), Stream(), settled) == SettleAll(config, old(Stream()), old(Roll()))
      ensures settled == |NewlyRecovered(old(Roll()), Roll())|
    {
      hide WorldModel.SettleToHorizon, SettleAll, NewlyRecovered;
      settled := 0;
      ghost var was, roll := Roll(), Roll();
      NoneSettled(config, Stream(), was);
      for i := 0 to |ids|
        invariant roll == Roll()
        invariant SettledUpTo(config, old(Stream()), was, i, roll, Stream(), settled)
      {
        ghost var mid := Stream();
        var found := SettleOne(ids[i]);
        SettledOneMore(config, old(Stream()), was, i, roll, mid, settled, latents[ids[i]].View(), Stream(), found);
        roll := roll[i := latents[ids[i]].View()];
        if found {
          settled := settled + 1;
        }
      }
      SettledThrough(config, old(Stream()), was, roll, Stream(), settled);
      SettledCounts(config, old(Stream()), was);
    }

    method SettleOne(id: PaymentId) returns (found: bool)
      requires Valid() && id in latents
      modifies this`used, latents[id]
      ensures (latents[id].View(), Stream(), found) ==
        WorldModel.SettleToHorizon(config, old(Stream()), old(latents[id].View()))
    {
      hide WorldModel.NaturalRecoveryOver;
      var p := latents[id];
      if p.resolved {
        return false;
      }
      var start := if p.lastCheckedAt.Some? then p.lastCheckedAt.value else p.failedAt;
      found := NaturalRecoveryOver(p, start, config.horizon);
    }

    method IsResolved(id: PaymentId) returns (r: bool)
      requires id in latents
      ensures r == latents[id].resolved
    {
      r := latents[id].resolved;
    }

    // What a policy may see of one payment.
    ghost function FactsOf(id: PaymentId): Facts
      requires id in latents
    {
      Facts(latents[id].issuer, latents[id].amount)
    }

    method Observe(id: PaymentId, now: Time, issuerFailureRate: real) returns (o: Observation)
      requires id in latents
      ensures o == Seen(id, FactsOf(id), latents[id].View(), now, issuerFailureRate)
    {
      var p := latents[id];
      o := Observation(id, p.amount, p.instrument, p.issuer, p.failedAt, now, p.attempts, p.contacts,
                       p.pendingUntil.Some? && p.pendingUntil.value > now, issuerFailureRate);
    }
  }
}
