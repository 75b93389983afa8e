// The hidden world of the simulator (app/sim/world.py:412-643): what each action does to one payment's latent truth,
// for any sequence of random draws.
module WorldModel {
  import opened Base
  import opened Models

  const LINK_LIFETIME: int := 24 * HOUR
  const RETRY_COST: int := 35
  const CONTACT_COST: int := 50

  type PaymentId = string

  datatype Instrument = CardPayment | UpiPayment | EmandatePayment

  datatype Cause =
    | InsufficientFunds
    | IssuerOutage
    | DoNotHonour
    | TechnicalDecline
    | InstrumentDead
    | MandateCancelled
    | RiskBlocked

  datatype ActionKind = Wait | Retry(instrument: Option<Instrument>) | RequestConsent | Abandon

  datatype OutcomeKind = Nothing | Recovered | AttemptFailed | ConsentIgnored | OptedOut | Abandoned

  // How the money came in.
  datatype Way = ByRetry | ByLink | Unprompted

  // `survival(t)` is the chance that a customer free to pay does not pay within t; the hazard of an interval is what
  // is left of it.
  datatype WorldConfig = WorldConfig(
    horizon: Time,
    contactTolerance: int,
    optOutPerExcess: real,
    response: nat -> real,
    survival: nat -> real)

  function Hazard(cfg: WorldConfig, elapsed: nat): real {
    1.0 - cfg.survival(elapsed)
  }

  // One payment: ground truth, interaction state, and the accounts kept of it.
  datatype Latent = Latent(
    cause: Cause,
    instrument: Instrument,
    failedAt: Time,
    solventFrom: Option<Time>,
    outageUntil: Option<Time>,
    technicalClearAt: Option<Time>,
    sameInstrumentOk: bool,
    consentWouldSucceed: bool,
    contacts: nat,
    attempts: nat,
    optedOut: bool,
    resolved: bool,
    recoveredAt: Option<Time>,
    pendingUntil: Option<Time>,
    cost: int,
    lastCheckedAt: Option<Time>,
    naturally: bool,
    way: Option<Way>,              // how it was recovered
    acceptedAt: Option<Time>,      // the latest contact the customer accepted
    credit: nat,                   // time in which an unprompted payment has been looked for
    unpaid: real)                  // the chance that all those looks found nothing
  {
    function Last(): Time {
      if lastCheckedAt.Some? then lastCheckedAt.value else failedAt
    }

    predicate Dead() {
      cause.InstrumentDead? || cause.MandateCancelled? || cause.RiskBlocked?
    }
  }

  // A payment as built: nothing has happened to it yet.
  predicate Untouched(l: Latent) {
    && l.contacts == 0 && l.attempts == 0 && l.cost == 0
    && !l.optedOut && !l.resolved && !l.naturally
    && l.recoveredAt.None? && l.pendingUntil.None? && l.lastCheckedAt.None? && l.way.None? && l.acceptedAt.None?
    && l.credit == 0 && l.unpaid == 1.0
    && (l.cause.RiskBlocked? ==> !l.consentWouldSucceed)
  }

  predicate Passed(t: Option<Time>, now: Time) {
    t.Some? && now >= t.value
  }

  predicate BlockCleared(l: Latent, now: Time) {
    match l.cause
    case InsufficientFunds => Passed(l.solventFrom, now)
    case IssuerOutage => Passed(l.outageUntil, now)
    case _ => true
  }

  predicate WouldSucceed(l: Latent, now: Time) {
    match l.cause
    case InsufficientFunds => Passed(l.solventFrom, now)
    case IssuerOutage => Passed(l.outageUntil, now)
    case TechnicalDecline => Passed(l.technicalClearAt, now)
    case DoNotHonour => l.sameInstrumentOk
    case _ => false
  }

  // The stream of random draws and how many are used up.
  datatype Draws = Draws(at: nat -> real, used: nat) {
    function Next(): real {
      at(used)
    }

    function Rest(): Draws {
      this.(used := used + 1)
    }
  }

  function Recover(l: Latent, now: Time, way: Way): Latent {
    l.(resolved := true, recoveredAt := Some(now), way := Some(way))
  }

  // Time the customer was free to pay since the last look.
  function Elapsed(l: Latent, now: Time): nat {
    if now > l.Last() then now - l.Last() else 0
  }

  // Did the customer pay unprompted in the time since the last look?
  function Toss(cfg: WorldConfig, d: Draws, l: Latent, now: Time, elapsed: nat): (Latent, Draws, bool) {
    if d.Next() < Hazard(cfg, elapsed) then (Recover(l, now, Unprompted).(naturally := true), d.Rest(), true)
    else (l.(unpaid := l.unpaid * cfg.survival(elapsed)), d.Rest(), false)
  }

  // Look once for an unprompted payment; the flag says one was found.
  function NaturalRecovery(cfg: WorldConfig, d: Draws, l: Latent, now: Time): (Latent, Draws, bool) {
    if l.optedOut || !BlockCleared(l, now) then (l, d, false)
    else
      var looked := l.(lastCheckedAt := Some(now), credit := l.credit + Elapsed(l, now));
      if l.Dead() then (looked, d, false) else Toss(cfg, d, looked, now, Elapsed(l, now))
  }

  function NextMoment(moment: Time, end: Time): Time {
    if moment + DAY < end then moment + DAY else end
  }

  // Look daily up to `end`.
  function NaturalRecoveryOver(cfg: WorldConfig, d: Draws, l: Latent, moment: Time, end: Time): (Latent, Draws, bool)
    decreases end - moment
  {
    if moment >= end then (l, d, false)
    else
      var (l1, d1, found) := NaturalRecovery(cfg, d, l, NextMoment(moment, end));
      if found then (l1, d1, true) else NaturalRecoveryOver(cfg, d1, l1, NextMoment(moment, end), end)
  }

  function SettlePendingConsent(l: Latent, now: Time, forced: bool): (Latent, OutcomeKind) {
    if l.pendingUntil.None? then (l, Nothing)
    else if !forced && l.pendingUntil.value < now then (l.(pendingUntil := None), ConsentIgnored)
    else if l.consentWouldSucceed && BlockCleared(l, now) then
      (Recover(l, now, ByLink).(pendingUntil := None), Recovered)
    else (l, Nothing)
  }

  function ApplyRetry(l: Latent, instrument: Option<Instrument>, now: Time): (Latent, OutcomeKind) {
    if instrument.Some? && instrument.value != l.instrument then (l, AttemptFailed)
    else
      var tried := l.(attempts := l.attempts + 1, cost := l.cost + RETRY_COST);
      if WouldSucceed(l, now) then (Recover(tried, now, ByRetry), Recovered) else (tried, AttemptFailed)
  }

  function Excess(cfg: WorldConfig, contacts: int): nat {
    if contacts > cfg.contactTolerance then contacts - cfg.contactTolerance else 0
  }

  function ApplyConsent(cfg: WorldConfig, d: Draws, l: Latent, now: Time): (Latent, Draws, OutcomeKind) {
    if l.optedOut then (l, d, OptedOut)
    else
      var asked := l.(contacts := l.contacts + 1, cost := l.cost + CONTACT_COST);
      var excess := Excess(cfg, asked.contacts);
      if excess > 0 && d.Next() < cfg.optOutPerExcess * excess as real then
        (asked.(optedOut := true, resolved := true), d.Rest(), OptedOut)
      else
        var d1 := if excess > 0 then d.Rest() else d;
        if d1.Next() >= cfg.response(excess) then (asked, d1.Rest(), ConsentIgnored)
        else
          var accepted := asked.(pendingUntil := Some(now + LINK_LIFETIME), acceptedAt := Some(now));
          var (l1, outcome) := SettlePendingConsent(accepted, now, true);
          (l1, d1.Rest(), outcome)
  }

  function Apply(cfg: WorldConfig, d: Draws, l: Latent, action: ActionKind, now: Time): (Latent, Draws, OutcomeKind) {
    if l.resolved then (l, d, Nothing)
    else
      match action
      case Wait =>
        var (l1, d1, found) := NaturalRecovery(cfg, d, l, now);
        if found then (l1, d1, Recovered)
        else
          var (l2, outcome) := SettlePendingConsent(l1, now, false);
          (l2, d1, outcome)
      case Abandon =>
        var (l1, d1, found) := NaturalRecoveryOver(cfg, d, l, now, cfg.horizon);
        (l1.(resolved := true), d1, if found then Recovered else Abandoned)
      case Retry(instrument) =>
        var (l1, outcome) := ApplyRetry(l, instrument, now);
        (l1, d, outcome)
      case RequestConsent => ApplyConsent(cfg, d, l, now)
  }

  // The tail every open case is credited with at the end of a run.
  function SettleToHorizon(cfg: WorldConfig, d: Draws, l: Latent): (Latent, Draws, bool) {
    if l.resolved then (l, d, false) else NaturalRecoveryOver(cfg, d, l, l.Last(), cfg.horizon)
  }

  // The tails of several payments, one after another over one stream of draws; the count is of those found.
  function SettleAll(cfg: WorldConfig, d: Draws, ls: seq<Latent>): (seq<Latent>, Draws, nat) {
    if ls == [] then ([], d, 0)
    else
      var (settled, d1, n) := SettleAll(cfg, d, ls[..|ls| - 1]);
      var (l, d2, found) := SettleToHorizon(cfg, d1, ls[|ls| - 1]);
      (settled + [l], d2, n + if found then 1 else 0)
  }

  // The first `i` tails have been rolled and the rest not.
  ghost predicate SettledUpTo(cfg: WorldConfig, d: Draws, was: seq<Latent>, i: nat, now: seq<Latent>, rest: Draws,
                              n: nat)
    requires i <= |was|
  {
    && |now| == |was| && now[i..] == was[i..]
    && (now[..i], rest, n) == SettleAll(cfg, d, was[..i])
  }

  lemma NoneSettled(cfg: WorldConfig, d: Draws, was: seq<Latent>)
    ensures SettledUpTo(cfg, d, was, 0, was, d, 0)
  {
  }

  lemma SettledOneMore(cfg: WorldConfig, d: Draws, was: seq<Latent>, i: nat, now: seq<Latent>, mid: Draws, n: nat,
                       l: Latent, rest: Draws, found: bool)
    requires i < |was| && SettledUpTo(cfg, d, was, i, now, mid, n)
    requires (l, rest, found) == SettleToHorizon(cfg, mid, now[i])
    ensures SettledUpTo(cfg, d, was, i + 1, now[i := l], rest, n + if found then 1 else 0)
  {
    hide SettleToHorizon;
    assert now[i] == now[i..][0] == was[i..][0] == was[i];
    assert was[..i + 1][..i] == was[..i];
    assert now[i := l][..i + 1] == now[..i] + [l];
    assert now[i := l][i + 1..] == now[i..][1..] == was[i..][1..] == was[i + 1..];
  }

  lemma SettledThrough(cfg: WorldConfig, d: Draws, was: seq<Latent>, now: seq<Latent>, rest: Draws, n: nat)
    requires SettledUpTo(cfg, d, was, |was|, now, rest, n)
    ensures (now, rest, n) == SettleAll(cfg, d, was)
  {
    assert was[..|was|] == was && now[..|now|] == now;
  }

  // Where the i-th tail's draws begin.
  function TailDraws(cfg: WorldConfig, d: Draws, ls: seq<Latent>, i: nat): Draws
    requires i <= |ls|
  {
    SettleAll(cfg, d, ls[..i]).1
  }

  lemma {:induction false} SettledEach(cfg: WorldConfig, d: Draws, ls: seq<Latent>, i: nat)
    requires i < |ls|
    ensures |SettleAll(cfg, d, ls).0| == |ls|
    ensures SettleAll(cfg, d, ls).0[i] == SettleToHorizon(cfg, TailDraws(cfg, d, ls, i), ls[i]).0
  {
    hide SettleToHorizon;
    var last := |ls| - 1;
    if i < last {
      SettledEach(cfg, d, ls[..last], i);
      assert ls[..last][..i] == ls[..i];
    } else if last > 0 {
      SettledEach(cfg, d, ls[..last], 0);
    }
  }

  // Payments open before and recovered after.
  function NewlyRecovered(before: seq<Latent>, after: seq<Latent>): set<int> {
    set i | 0 <= i < |before| && i < |after| && !before[i].resolved && after[i].resolved && after[i].recoveredAt.Some?
  }

  lemma {:induction false} OverFinds(cfg: WorldConfig, d: Draws, l: Latent, moment: Time, end: Time)
    requires !l.resolved
    ensures var (l', d', found) := NaturalRecoveryOver(cfg, d, l, moment, end);
      l'.resolved == found && (found ==> l'.recoveredAt.Some?)
    decreases end - moment
  {
    if moment < end {
      var (l1, d1, found) := NaturalRecovery(cfg, d, l, NextMoment(moment, end));
      if !found {
        OverFinds(cfg, d1, l1, NextMoment(moment, end), end);
      }
    }
  }

  lemma SettlingFinds(cfg: WorldConfig, d: Draws, l: Latent)
    ensures var (l', d', found) := SettleToHorizon(cfg, d, l);
      found <==> !l.resolved && l'.resolved && l'.recoveredAt.Some?
  {
    if !l.resolved {
      OverFinds(cfg, d, l, l.Last(), cfg.horizon);
    }
    hide NaturalRecoveryOver;
  }

  lemma {:induction false} SettledCounts(cfg: WorldConfig, d: Draws, ls: seq<Latent>)
    ensures |SettleAll(cfg, d, ls).0| == |ls|
    ensures SettleAll(cfg, d, ls).2 == |NewlyRecovered(ls, SettleAll(cfg, d, ls).0)|
  {
    hide SettleToHorizon;
    if ls == [] {
      assert NewlyRecovered(ls, []) == {};
    } else {
      var last := |ls| - 1;
      SettledCounts(cfg, d, ls[..last]);
      var (settled, d1, n) := SettleAll(cfg, d, ls[..last]);
      var (l, d2, found) := SettleToHorizon(cfg, d1, ls[last]);
      SettlingFinds(cfg, d1, ls[last]);
      assert ls == ls[..last] + [ls[last]];
      NewlyGrows(ls[..last], ls[last], settled, l);
      hide NewlyRecovered;
    }
  }

  lemma NewlyGrows(before: seq<Latent>, b: Latent, after: seq<Latent>, a: Latent)
    requires |before| == |after|
    ensures |NewlyRecovered(before + [b], after + [a])| ==
      |NewlyRecovered(before, after)| + if !b.resolved && a.resolved && a.recoveredAt.Some? then 1 else 0
  {
    var grown := !b.resolved && a.resolved && a.recoveredAt.Some?;
    assert NewlyRecovered(before + [b], after + [a]) ==
      NewlyRecovered(before, after) + if grown then {|before|} else {};
  }

  // What a policy may see of a payment besides its interaction state.
  datatype Facts = Facts(issuer: string, amount: int)

  // Exactly what a real recovery system would know.
  datatype Observation = Observation(
    payment: PaymentId,
    amount: int,
    instrument: Instrument,
    issuer: string,
    failedAt: Time,
    now: Time,
    attemptsMade: nat,
    contactsMade: nat,
    consentOutstanding: bool,
    issuerFailureRate: real)

  function Seen(id: PaymentId, facts: Facts, l: Latent, now: Time, rate: real): Observation {
    Observation(id, facts.amount, l.instrument, facts.issuer, l.failedAt, now, l.attempts, l.contacts,
                l.pendingUntil.Some? && l.pendingUntil.value > now, rate)
  }

  // A policy's decision at a wake-up, and the draws the world makes for it.
  datatype Wake = Wake(action: ActionKind, at: Time, draws: Draws)

  // A payment's life under any sequence of decisions and any draws.
  function Live(cfg: WorldConfig, l: Latent, wakes: seq<Wake>): Latent {
    if wakes == [] then l
    else
      var w := wakes[|wakes| - 1];
      Apply(cfg, w.draws, Live(cfg, l, wakes[..|wakes| - 1]), w.action, w.at).0
  }

  // Wake-ups in order, none before the failure.
  ghost predicate Ordered(wakes: seq<Wake>, from: Time) {
    && (forall i | 0 <= i < |wakes| :: from <= wakes[i].at)
    && (forall i, j | 0 <= i < j < |wakes| :: wakes[i].at <= wakes[j].at)
  }
}

// What holds of every payment under every policy and every draw.
module WorldTheorems {
  import opened Base
  import opened Models
  import opened WorldModel

  // ------------------------------------------------------------- invariants

  // What no action can break, up to instant `now`.
  predicate Sound(l: Latent, now: Time) {
    && l.cost == RETRY_COST * l.attempts + CONTACT_COST * l.contacts
    && (l.recoveredAt.Some? <==> l.way.Some?)
    && (l.recoveredAt.Some? ==> l.resolved && !l.optedOut && l.recoveredAt.value <= now)
    && (l.optedOut ==> l.resolved)
    && (l.naturally <==> l.way == Some(Unprompted))
    && (l.cause.RiskBlocked? ==> !l.consentWouldSucceed && l.recoveredAt.None?)
    && (l.recoveredAt.Some? && l.Dead() ==> l.way == Some(ByLink) && l.contacts >= 1)
    && (l.recoveredAt.Some? && (l.cause.InsufficientFunds? || l.cause.IssuerOutage?) ==>
          BlockCleared(l, l.recoveredAt.value))
    && (l.acceptedAt.Some? ==> l.contacts >= 1 && l.acceptedAt.value <= now)
    && (l.pendingUntil.Some? ==> l.acceptedAt == Some(l.pendingUntil.value - LINK_LIFETIME))
    && (l.way == Some(ByLink) ==>
          l.acceptedAt.Some? && l.acceptedAt.value <= l.recoveredAt.value <= l.acceptedAt.value + LINK_LIFETIME)
  }

  // The ground truth stays what it was.
  predicate SameTruth(l: Latent, l': Latent) {
    && l'.cause == l.cause && l'.instrument == l.instrument && l'.failedAt == l.failedAt
    && l'.solventFrom == l.solventFrom && l'.outageUntil == l.outageUntil && l'.technicalClearAt == l.technicalClearAt
    && l'.sameInstrumentOk == l.sameInstrumentOk && l'.consentWouldSucceed == l.consentWouldSucceed
  }

  lemma LookIsSound(cfg: WorldConfig, d: Draws, l: Latent, was: Time, now: Time)
    requires Sound(l, was) && was <= now && !l.resolved
    ensures var (l', d', found) := NaturalRecovery(cfg, d, l, now);
      Sound(l', now) && SameTruth(l, l') && l'.resolved == found
  {
  }

  lemma {:induction false} LooksAreSound(cfg: WorldConfig, d: Draws, l: Latent, moment: Time, end: Time)
    requires Sound(l, moment) && !l.resolved
    ensures var (l', d', found) := NaturalRecoveryOver(cfg, d, l, moment, end);
      Sound(l', Base.Max(moment, end)) && SameTruth(l, l') && l'.resolved == found
    decreases end - moment
  {
    hide Sound, NaturalRecovery, SameTruth;
    if moment < end {
      var next := NextMoment(moment, end);
      var (l1, d1, found) := NaturalRecovery(cfg, d, l, next);
      LookIsSound(cfg, d, l, moment, next);
      if found {
        SoundLater(l1, next, end);
      } else {
        LooksAreSound(cfg, d1, l1, next, end);
        SameTruthOn(l, l1, NaturalRecoveryOver(cfg, d1, l1, next, end).0);
      }
    } else {
      SameTruthOn(l, l, l);
    }
  }

  lemma SoundLater(l: Latent, now: Time, later: Time)
    requires Sound(l, now) && now <= later
    ensures Sound(l, later)
  {
  }

  lemma SameTruthOn(a: Latent, b: Latent, c: Latent)
    ensures SameTruth(a, b) && SameTruth(b, c) ==> SameTruth(a, c)
    ensures SameTruth(a, a)
  {
  }

  lemma PendingIsSound(l: Latent, now: Time, forced: bool)
    requires Sound(l, now) && !l.resolved
    requires forced ==> l.pendingUntil.None? || l.acceptedAt == Some(now)
    ensures var l' := SettlePendingConsent(l, now, forced).0;
      Sound(l', now) && SameTruth(l, l')
  {
  }

  lemma RetryIsSound(l: Latent, instrument: Option<Instrument>, now: Time)
    requires Sound(l, now) && !l.resolved
    ensures var l' := ApplyRetry(l, instrument, now).0;
      Sound(l', now) && SameTruth(l, l')
  {
  }

  lemma ConsentIsSound(cfg: WorldConfig, d: Draws, l: Latent, now: Time)
    requires Sound(l, now) && !l.resolved
    ensures var l' := ApplyConsent(cfg, d, l, now).0;
      Sound(l', now) && SameTruth(l, l')
  {
    var asked := l.(contacts := l.contacts + 1, cost := l.cost + CONTACT_COST);
    var accepted := asked.(pendingUntil := Some(now + LINK_LIFETIME), acceptedAt := Some(now));
    PendingIsSound(accepted, now, true);
    hide SettlePendingConsent;
  }

  // An action keeps every payment sound, and leaves a resolved one exactly as it is.
  lemma ActionIsSound(cfg: WorldConfig, d: Draws, l: Latent, action: ActionKind, was: Time, now: Time)
    requires Sound(l, was) && was <= now
    ensures var l' := Apply(cfg, d, l, action, now).0;
      && Sound(l', Base.Max(now, if action.Abandon? then cfg.horizon else now)) && SameTruth(l, l')
      && (l.resolved ==> l' == l)
  {
    SoundLater(l, was, now);
    SoundLater(l, was, Base.Max(now, cfg.horizon));
    SameTruthOn(l, l, l);
    hide Sound, SameTruth, NaturalRecovery, NaturalRecoveryOver, SettlePendingConsent, ApplyRetry, ApplyConsent;
    if !l.resolved {
      match action
      case Wait =>
        LookIsSound(cfg, d, l, was, now);
        var (l1, d1, found) := NaturalRecovery(cfg, d, l, now);
        if !found {
          PendingIsSound(l1, now, false);
          SameTruthOn(l, l1, SettlePendingConsent(l1, now, false).0);
        }
      case Abandon =>
        LooksAreSound(cfg, d, l, now, cfg.horizon);
        GivingUpIsSound(l, NaturalRecoveryOver(cfg, d, l, now, cfg.horizon).0, Base.Max(now, cfg.horizon));
      case Retry(instrument) => RetryIsSound(l, instrument, now);
      case RequestConsent => ConsentIsSound(cfg, d, l, now);
    }
  }

  lemma GivingUpIsSound(l: Latent, l': Latent, now: Time)
    requires Sound(l', now) && SameTruth(l, l')
    ensures Sound(l'.(resolved := true), now) && SameTruth(l, l'.(resolved := true))
  {
  }

  function LastWake(wakes: seq<Wake>, from: Time): Time {
    if wakes == [] then from else wakes[|wakes| - 1].at
  }

  lemma {:induction false} LifeIsSound(cfg: WorldConfig, l: Latent, wakes: seq<Wake>)
    requires Untouched(l) && Ordered(wakes, l.failedAt)
    ensures var l', now := Live(cfg, l, wakes), LastWake(wakes, l.failedAt);
      && SameTruth(l, l') && Sound(l', Base.Max(now, cfg.horizon))
      && (!l'.resolved ==> Sound(l', now))
  {
    if wakes == [] {
    } else {
      var before, w := wakes[..|wakes| - 1], wakes[|wakes| - 1];
      LifeIsSound(cfg, l, before);
      var l1 := Live(cfg, l, before);
      var was := LastWake(before, l.failedAt);
      hide Sound, SameTruth, Apply, Untouched;
      if l1.resolved {
        SoundLater(l1, Base.Max(was, cfg.horizon), Base.Max(w.at, cfg.horizon));
        ResolvedIsFinal(cfg, w.draws, l1, w.action, w.at);
      } else {
        ActionIsSound(cfg, w.draws, l1, w.action, was, w.at);
        var l2 := Apply(cfg, w.draws, l1, w.action, w.at).0;
        SameTruthOn(l, l1, l2);
        if w.action.Abandon? {
          AbandoningResolves(cfg, w.draws, l1, w.at);
        } else {
          SoundLater(l2, w.at, Base.Max(w.at, cfg.horizon));
        }
      }
    }
  }

  // Nothing ever happens to a resolved payment again, and settling skips it.
  lemma ResolvedIsFinal(cfg: WorldConfig, d: Draws, l: Latent, action: ActionKind, now: Time)
    requires l.resolved
    ensures Apply(cfg, d, l, action, now) == (l, d, Nothing)
    ensures SettleToHorizon(cfg, d, l) == (l, d, false)
  {
  }

  lemma AbandoningResolves(cfg: WorldConfig, d: Draws, l: Latent, now: Time)
    ensures Apply(cfg, d, l, Abandon, now).0.resolved
  {
    hide NaturalRecoveryOver;
  }

  // A whole life: any policy, any draws, then the tail to the horizon.
  function Whole(cfg: WorldConfig, l: Latent, wakes: seq<Wake>, tail: Draws): Latent {
    SettleToHorizon(cfg, tail, Live(cfg, l, wakes)).0
  }

  // For every policy and every draw: cost adds up; opted-out and risk-blocked payments never recover; dead
  // instruments and cancelled mandates recover only through a link after a contact; funds and outage cases only once
  // their block has cleared; and a link recovery falls within a day of the contact that was accepted.
  lemma EveryLife(cfg: WorldConfig, l: Latent, wakes: seq<Wake>, tail: Draws)
    requires Untouched(l) && Ordered(wakes, l.failedAt)
    ensures var l' := Whole(cfg, l, wakes, tail);
      && l'.cost == 35 * l'.attempts + 50 * l'.contacts
      && (l'.optedOut ==> l'.recoveredAt.None?)
      && (l.cause.RiskBlocked? ==> l'.recoveredAt.None?)
      && (l'.recoveredAt.Some? && (l.cause.InstrumentDead? || l.cause.MandateCancelled?) ==>
            l'.way == Some(ByLink) && l'.contacts >= 1)
      && (l'.recoveredAt.Some? && (l.cause.InsufficientFunds? || l.cause.IssuerOutage?) ==>
            BlockCleared(l, l'.recoveredAt.value))
      && (l'.way == Some(ByLink) ==>
            l'.recoveredAt.Some? && l'.acceptedAt.Some?
            && 0 <= l'.recoveredAt.value - l'.acceptedAt.value <= LINK_LIFETIME)
  {
    LifeIsSound(cfg, l, wakes);
    var l1 := Live(cfg, l, wakes);
    var now := Base.Max(LastWake(wakes, l.failedAt), cfg.horizon);
    if !l1.resolved {
      SettlingIsSound(cfg, tail, l1, LastWake(wakes, l.failedAt));
      SameTruthOn(l, l1, SettleToHorizon(cfg, tail, l1).0);
    }
    hide Live, NaturalRecoveryOver;
  }

  lemma SettlingIsSound(cfg: WorldConfig, d: Draws, l: Latent, was: Time)
    requires Sound(l, was) && !l.resolved
    ensures var l' := SettleToHorizon(cfg, d, l).0;
      (exists now :: Sound(l', now)) && SameTruth(l, l')
  {
    var later := Base.Max(was, l.Last());
    SoundLater(l, was, later);
    hide Sound, SameTruth;
    TailIsSound(cfg, d, l, l.Last(), cfg.horizon, later);
  }

  // Looking again over time already passed is sound as well.
  lemma {:induction false} TailIsSound(cfg: WorldConfig, d: Draws, l: Latent, moment: Time, end: Time, bound: Time)
    requires Sound(l, bound) && !l.resolved && moment <= bound
    ensures exists now :: Sound(NaturalRecoveryOver(cfg, d, l, moment, end).0, now)
    ensures SameTruth(l, NaturalRecoveryOver(cfg, d, l, moment, end).0)
    decreases end - moment
  {
    hide Sound, NaturalRecovery, SameTruth;
    SameTruthOn(l, l, l);
    if moment >= end {
      assert Sound(NaturalRecoveryOver(cfg, d, l, moment, end).0, bound);
    } else {
      var next := NextMoment(moment, end);
      var (l1, d1, found) := NaturalRecovery(cfg, d, l, next);
      EarlyLookIsSound(cfg, d, l, bound, next);
      if found {
        assert Sound(NaturalRecoveryOver(cfg, d, l, moment, end).0, Base.Max(bound, next));
      } else {
        TailIsSound(cfg, d1, l1, next, end, Base.Max(bound, next));
        SameTruthOn(l, l1, NaturalRecoveryOver(cfg, d1, l1, next, end).0);
        var t :| Sound(NaturalRecoveryOver(cfg, d1, l1, next, end).0, t);
        assert Sound(NaturalRecoveryOver(cfg, d, l, moment, end).0, t);
      }
    }
  }

  lemma EarlyLookIsSound(cfg: WorldConfig, d: Draws, l: Latent, bound: Time, now: Time)
    requires Sound(l, bound) && !l.resolved
    ensures var (l', d', found) := NaturalRecovery(cfg, d, l, now);
      Sound(l', Base.Max(bound, now)) && SameTruth(l, l') && l'.resolved == found
  {
  }

  // ------------------------------------------------------------ time credit

  // Survival is memoryless: looking in two steps is looking once.
  ghost predicate Memoryless(cfg: WorldConfig) {
    && cfg.survival(0) == 1.0
    && forall a: nat, b: nat :: cfg.survival(a + b) == cfg.survival(a) * cfg.survival(b)
  }

  // The credit of an open payment is the time from its failure to its last look.
  ghost predicate Credited(cfg: WorldConfig, l: Latent) {
    && l.Last() >= l.failedAt
    && l.credit == l.Last() - l.failedAt
    && (l.lastCheckedAt.Some? ==> BlockCleared(l, l.Last()))
    && l.unpaid == (if l.Dead() then 1.0 else cfg.survival(l.credit))
  }

  lemma ClearedStaysCleared(l: Latent, t: Time, u: Time)
    requires BlockCleared(l, t) && t <= u
    ensures BlockCleared(l, u)
  {
  }

  // A look that finds nothing moves the last look up to now once the block has cleared, and changes nothing before.
  lemma LookCredits(cfg: WorldConfig, d: Draws, l: Latent, now: Time)
    requires Memoryless(cfg) && Credited(cfg, l) && l.Last() <= now && !l.optedOut
    requires !NaturalRecovery(cfg, d, l, now).2
    ensures var l' := NaturalRecovery(cfg, d, l, now).0;
      && Credited(cfg, l') && SameTruth(l, l')
      && (if BlockCleared(l, now) then l'.Last() == now else l' == l)
      && !l'.optedOut && l'.resolved == l.resolved
  {
    hide Memoryless, BlockCleared;
    SurvivalSteps(cfg, l.credit, Elapsed(l, now));
    SameBlock(l, NaturalRecovery(cfg, d, l, now).0, now);
  }

  lemma SurvivalSteps(cfg: WorldConfig, a: nat, b: nat)
    requires Memoryless(cfg)
    ensures cfg.survival(a + b) == cfg.survival(a) * cfg.survival(b)
  {
  }

  lemma {:induction false} LooksTelescope(cfg: WorldConfig, d: Draws, l: Latent, moment: Time, end: Time)
    requires Memoryless(cfg) && Credited(cfg, l) && l.Last() <= moment < end && !l.optedOut
    requires !NaturalRecoveryOver(cfg, d, l, moment, end).2
    ensures var l' := NaturalRecoveryOver(cfg, d, l, moment, end).0;
      && Credited(cfg, l') && SameTruth(l, l')
      && (if BlockCleared(l, end) then l'.Last() == end else l' == l)
      && !l'.optedOut && l'.resolved == l.resolved
    decreases end - moment
  {
    hide Credited, NaturalRecovery, BlockCleared, Memoryless;
    var next := NextMoment(moment, end);
    var (l1, d1, found) := NaturalRecovery(cfg, d, l, next);
    LookCredits(cfg, d, l, next);
    if next < end {
      LooksTelescope(cfg, d1, l1, next, end);
      SameTruthOn(l, l1, NaturalRecoveryOver(cfg, d1, l1, next, end).0);
      SameBlock(l, l1, end);
      if BlockCleared(l, next) {
        ClearedStaysCleared(l, next, end);
      }
    }
  }

  lemma SameBlock(l: Latent, l': Latent, t: Time)
    requires SameTruth(l, l')
    ensures BlockCleared(l', t) <==> BlockCleared(l, t)
  {
  }

  // What every policy should be credited with: the time from failure to horizon, if the block clears by then.
  function Due(cfg: WorldConfig, l: Latent): int {
    if BlockCleared(l, cfg.horizon) && l.failedAt <= cfg.horizon then cfg.horizon - l.failedAt else 0
  }

  // Giving up exactly at the horizon leaves no step to look in, and the time since the last look is lost.
  predicate ForfeitsTail(cfg: WorldConfig, l: Latent, now: Time) {
    now == cfg.horizon && BlockCleared(l, cfg.horizon) && l.Last() < cfg.horizon
  }

  lemma AbandonCredits(cfg: WorldConfig, d: Draws, l: Latent, now: Time)
    requires Memoryless(cfg) && Credited(cfg, l) && l.Last() <= now <= cfg.horizon && !l.optedOut && !l.resolved
    requires Apply(cfg, d, l, Abandon, now).0.recoveredAt.None?
    ensures var l' := Apply(cfg, d, l, Abandon, now).0;
      && (l'.credit == Due(cfg, l) <==> !ForfeitsTail(cfg, l, now))
      && l'.unpaid == if l.Dead() then 1.0 else cfg.survival(l'.credit)
  {
    hide NaturalRecovery, Memoryless;
    if now < cfg.horizon {
      if NaturalRecoveryOver(cfg, d, l, now, cfg.horizon).2 {
        FindingRecovers(cfg, d, l, now, cfg.horizon);
      } else {
        LooksTelescope(cfg, d, l, now, cfg.horizon);
      }
    }
  }

  lemma {:induction false} FindingRecovers(cfg: WorldConfig, d: Draws, l: Latent, moment: Time, end: Time)
    requires NaturalRecoveryOver(cfg, d, l, moment, end).2
    ensures NaturalRecoveryOver(cfg, d, l, moment, end).0.recoveredAt.Some?
    decreases end - moment
  {
    var (l1, d1, found) := NaturalRecovery(cfg, d, l, NextMoment(moment, end));
    if !found {
      FindingRecovers(cfg, d1, l1, NextMoment(moment, end), end);
    }
  }

  lemma SettleCredits(cfg: WorldConfig, d: Draws, l: Latent)
    requires Memoryless(cfg) && Credited(cfg, l) && !l.optedOut && !l.resolved
    requires l.Last() <= cfg.horizon || l.lastCheckedAt.None?
    requires SettleToHorizon(cfg, d, l).0.recoveredAt.None?
    ensures var l' := SettleToHorizon(cfg, d, l).0;
      l'.credit == Due(cfg, l) && l'.unpaid == if l.Dead() then 1.0 else cfg.survival(l'.credit)
  {
    hide NaturalRecovery, Memoryless;
    if l.Last() < cfg.horizon {
      if NaturalRecoveryOver(cfg, d, l, l.Last(), cfg.horizon).2 {
        FindingRecovers(cfg, d, l, l.Last(), cfg.horizon);
      } else {
        LooksTelescope(cfg, d, l, l.Last(), cfg.horizon);
      }
    }
  }

  // One action on an open payment that neither recovers it nor opts it out nor gives up keeps the account straight.
  lemma ActionCredits(cfg: WorldConfig, d: Draws, l: Latent, action: ActionKind, now: Time)
    requires Memoryless(cfg) && Credited(cfg, l) && l.Last() <= now && !l.optedOut && !l.resolved && !action.Abandon?
    requires !Apply(cfg, d, l, action, now).0.resolved
    ensures var l' := Apply(cfg, d, l, action, now).0;
      Credited(cfg, l') && l'.Last() <= now && !l'.optedOut && SameTruth(l, l')
  {
    hide Memoryless, BlockCleared, NaturalRecovery, SettlePendingConsent, ApplyRetry, ApplyConsent, Credited, SameTruth;
    match action
    case Wait =>
      var (l1, d1, found) := NaturalRecovery(cfg, d, l, now);
      if found {
        FoundResolves(cfg, d, l, now);
      } else {
        LookCredits(cfg, d, l, now);
        SettlingConsentKeepsLooks(l1, now, false);
        SameLooks(cfg, l1, SettlePendingConsent(l1, now, false).0);
        SameTruthOn(l, l1, SettlePendingConsent(l1, now, false).0);
      }
    case Retry(instrument) =>
      RetryKeepsLooks(l, instrument, now);
      SameLooks(cfg, l, ApplyRetry(l, instrument, now).0);
    case RequestConsent =>
      ConsentKeepsLooks(cfg, d, l, now);
      SameLooks(cfg, l, ApplyConsent(cfg, d, l, now).0);
  }

  // Nothing about the looks for unprompted payments changed.
  predicate LooksStand(l: Latent, l': Latent) {
    && SameTruth(l, l') && l'.lastCheckedAt == l.lastCheckedAt && l'.credit == l.credit && l'.unpaid == l.unpaid
    && (!l'.resolved ==> l'.optedOut == l.optedOut)
  }

  lemma SameLooks(cfg: WorldConfig, l: Latent, l': Latent)
    requires LooksStand(l, l')
    ensures SameTruth(l, l') && l'.Last() == l.Last()
    ensures Credited(cfg, l) ==> Credited(cfg, l')
  {
  }

  lemma FoundResolves(cfg: WorldConfig, d: Draws, l: Latent, now: Time)
    ensures NaturalRecovery(cfg, d, l, now).2 ==> NaturalRecovery(cfg, d, l, now).0.resolved
  {
  }

  lemma SettlingConsentKeepsLooks(l: Latent, now: Time, forced: bool)
    ensures LooksStand(l, SettlePendingConsent(l, now, forced).0)
  {
  }

  lemma RetryKeepsLooks(l: Latent, instrument: Option<Instrument>, now: Time)
    ensures LooksStand(l, ApplyRetry(l, instrument, now).0)
  {
    hide WouldSucceed;
    var tried := l.(attempts := l.attempts + 1, cost := l.cost + RETRY_COST);
    var l' := ApplyRetry(l, instrument, now).0;
    assert l' == l || l' == tried || l' == Recover(tried, now, ByRetry);
  }

  lemma ConsentKeepsLooks(cfg: WorldConfig, d: Draws, l: Latent, now: Time)
    ensures LooksStand(l, ApplyConsent(cfg, d, l, now).0)
  {
    var accepted := l.(contacts := l.contacts + 1, cost := l.cost + CONTACT_COST,
                       pendingUntil := Some(now + LINK_LIFETIME), acceptedAt := Some(now));
    SettlingConsentKeepsLooks(accepted, now, true);
    hide SettlePendingConsent;
  }

  // Whether some wake-up gives up on an open payment exactly at the horizon with a tail still unlooked at.
  ghost predicate SomeForfeit(cfg: WorldConfig, l: Latent, wakes: seq<Wake>) {
    exists i :: 0 <= i < |wakes| && ForfeitsAt(cfg, l, wakes, i)
  }

  predicate ForfeitsAt(cfg: WorldConfig, l: Latent, wakes: seq<Wake>, i: nat)
    requires i < |wakes|
  {
    && wakes[i].action.Abandon?
    && !Live(cfg, l, wakes[..i]).resolved
    && ForfeitsTail(cfg, Live(cfg, l, wakes[..i]), wakes[i].at)
  }

  // The account of a life so far.
  ghost predicate Accounted(cfg: WorldConfig, l0: Latent, l: Latent, wakes: seq<Wake>) {
    && SameTruth(l0, l)
    && (!l.resolved ==>
          && Credited(cfg, l) && !l.optedOut && !SomeForfeit(cfg, l0, wakes)
          && l.Last() <= LastWake(wakes, l0.failedAt))
    && (l.resolved && l.recoveredAt.None? && !l.optedOut ==>
          && (l.credit == Due(cfg, l0) <==> !SomeForfeit(cfg, l0, wakes))
          && l.unpaid == if l.Dead() then 1.0 else cfg.survival(l.credit))
  }

  lemma ForfeitStep(cfg: WorldConfig, l: Latent, wakes: seq<Wake>)
    requires wakes != []
    ensures SomeForfeit(cfg, l, wakes) <==>
      SomeForfeit(cfg, l, wakes[..|wakes| - 1]) || ForfeitsAt(cfg, l, wakes, |wakes| - 1)
  {
    hide Live, ForfeitsTail;
    var before := wakes[..|wakes| - 1];
    forall i | 0 <= i < |before| ensures ForfeitsAt(cfg, l, wakes, i) <==> ForfeitsAt(cfg, l, before, i) {
      assert before[..i] == wakes[..i];
    }
  }

  lemma {:induction false} LifeIsAccounted(cfg: WorldConfig, l: Latent, wakes: seq<Wake>)
    requires Memoryless(cfg) && Untouched(l) && Ordered(wakes, l.failedAt)
    requires forall w | w in wakes :: w.at <= cfg.horizon
    ensures Accounted(cfg, l, Live(cfg, l, wakes), wakes)
  {
    if wakes == [] {
    } else {
      var before, w := wakes[..|wakes| - 1], wakes[|wakes| - 1];
      LifeIsAccounted(cfg, l, before);
      ForfeitStep(cfg, l, wakes);
      var l1 := Live(cfg, l, before);
      LifeIsSound(cfg, l, wakes);
      hide Memoryless, Credited, Apply, ForfeitsTail, Due, SameTruth, Sound, Untouched, SomeForfeit;
      if l1.resolved {
        ResolvedIsFinal(cfg, w.draws, l1, w.action, w.at);
      } else if w.action.Abandon? {
        AbandoningResolves(cfg, w.draws, l1, w.at);
        AbandonKeepsOptIn(cfg, w.draws, l1, w.at);
        if Apply(cfg, w.draws, l1, Abandon, w.at).0.recoveredAt.None? {
          AbandonCredits(cfg, w.draws, l1, w.at);
          SameDue(cfg, l, l1, Apply(cfg, w.draws, l1, Abandon, w.at).0);
        }
      } else {
        OpenStep(cfg, w.draws, l1, w.action, w.at);
      }
    }
  }

  lemma AbandonKeepsOptIn(cfg: WorldConfig, d: Draws, l: Latent, now: Time)
    ensures !l.resolved && !Apply(cfg, d, l, Abandon, now).0.optedOut ==> !l.optedOut
    ensures SameTruth(l, l)
  {
    OverKeepsOptIn(cfg, d, l, now, cfg.horizon);
    hide NaturalRecoveryOver;
  }

  lemma {:induction false} OverKeepsOptIn(cfg: WorldConfig, d: Draws, l: Latent, moment: Time, end: Time)
    ensures NaturalRecoveryOver(cfg, d, l, moment, end).0.optedOut == l.optedOut
    decreases end - moment
  {
    if moment < end {
      var (l1, d1, found) := NaturalRecovery(cfg, d, l, NextMoment(moment, end));
      if !found {
        OverKeepsOptIn(cfg, d1, l1, NextMoment(moment, end), end);
      }
    }
  }

  lemma SameDue(cfg: WorldConfig, l0: Latent, l1: Latent, l2: Latent)
    requires SameTruth(l0, l1) && SameTruth(l0, l2)
    ensures Due(cfg, l1) == Due(cfg, l0) && l1.Dead() == l0.Dead() && l2.Dead() == l0.Dead()
  {
  }

  // What an action other than giving up makes of an open payment.
  lemma OpenStep(cfg: WorldConfig, d: Draws, l: Latent, action: ActionKind, now: Time)
    requires Memoryless(cfg) && Credited(cfg, l) && l.Last() <= now && !l.optedOut && !l.resolved && !action.Abandon?
    ensures var l' := Apply(cfg, d, l, action, now).0;
      if l'.resolved then l'.recoveredAt.Some? || l'.optedOut
      else Credited(cfg, l') && l'.Last() <= now && !l'.optedOut
  {
    hide Memoryless, Credited, BlockCleared, NaturalRecovery, ApplyRetry, ApplyConsent, SettlePendingConsent;
    if !Apply(cfg, d, l, action, now).0.resolved {
      ActionCredits(cfg, d, l, action, now);
    } else {
      OnlyEndsResolve(cfg, d, l, action, now);
    }
  }

  // An open payment is resolved by recovering, by opting out, or by giving up.
  lemma OnlyEndsResolve(cfg: WorldConfig, d: Draws, l: Latent, action: ActionKind, now: Time)
    requires !l.resolved && !action.Abandon? && Apply(cfg, d, l, action, now).0.resolved
    ensures var l' := Apply(cfg, d, l, action, now).0;
      l'.recoveredAt.Some? || l'.optedOut
  {
    hide BlockCleared, WouldSucceed;
  }

  // Natural-recovery time does not depend on how often or how long a policy looks. Whatever the decisions and wake
  // times, a payment left unrecovered and not opted out is credited with exactly the time from failure to horizon if
  // its block clears by then, and with none if not, and the chance of its going unpaid is the survival of that time;
  // except when the policy gives up exactly at the horizon, where the time since the last look is forfeited.
  lemma CreditIsElapsedTime(cfg: WorldConfig, l: Latent, wakes: seq<Wake>, tail: Draws)
    requires Memoryless(cfg) && Untouched(l) && Ordered(wakes, l.failedAt)
    requires forall w | w in wakes :: w.at <= cfg.horizon
    requires var l' := Whole(cfg, l, wakes, tail);
      l'.recoveredAt.None? && !l'.optedOut
    ensures var l' := Whole(cfg, l, wakes, tail);
      && (l'.credit == Due(cfg, l) <==> !SomeForfeit(cfg, l, wakes))
      && l'.unpaid == if l.Dead() then 1.0 else cfg.survival(l'.credit)
  {
    LifeIsAccounted(cfg, l, wakes);
    var l1 := Live(cfg, l, wakes);
    hide Memoryless, Live, ForfeitsTail, SomeForfeit, NaturalRecoveryOver, BlockCleared;
    SameDue(cfg, l, l1, l1);
    if !l1.resolved {
      SettleCredits(cfg, tail, l1) by {
        if l1.lastCheckedAt.Some? && wakes != [] {
          assert wakes[|wakes| - 1] in wakes;
        }
      }
    }
  }

  // Two policies that leave the same payment open, however differently they poll or give up, have been credited with
  // the same time and the same chance of an unprompted payment.
  lemma CadenceDoesNotMatter(cfg: WorldConfig, l: Latent, wakes: seq<Wake>, tail: Draws, wakes': seq<Wake>,
                             tail': Draws)
    requires Memoryless(cfg) && Untouched(l) && Ordered(wakes, l.failedAt) && Ordered(wakes', l.failedAt)
    requires forall w | w in wakes :: w.at <= cfg.horizon
    requires forall w | w in wakes' :: w.at <= cfg.horizon
    requires Whole(cfg, l, wakes, tail).recoveredAt.None? && !Whole(cfg, l, wakes, tail).optedOut
    requires Whole(cfg, l, wakes', tail').recoveredAt.None? && !Whole(cfg, l, wakes', tail').optedOut
    requires !SomeForfeit(cfg, l, wakes) && !SomeForfeit(cfg, l, wakes')
    ensures Whole(cfg, l, wakes, tail).credit == Whole(cfg, l, wakes', tail').credit
    ensures Whole(cfg, l, wakes, tail).unpaid == Whole(cfg, l, wakes', tail').unpaid
  {
    CreditIsElapsedTime(cfg, l, wakes, tail);
    CreditIsElapsedTime(cfg, l, wakes', tail');
    hide Whole, SomeForfeit, Memoryless, Due;
  }

  // The exception is real: a technical decline whose policy looks once and then gives up at the horizon.
  lemma ForfeitHappens(cfg: WorldConfig, l: Latent, d: Draws)
    requires Memoryless(cfg) && Untouched(l) && l.cause.TechnicalDecline? && l.failedAt < cfg.horizon
    requires d.Next() >= 0.0
    ensures var wakes := [Wake(Wait, l.failedAt, d), Wake(Abandon, cfg.horizon, d)];
      var l' := Whole(cfg, l, wakes, d);
      && l'.recoveredAt.None? && !l'.optedOut
      && l'.credit == 0 < Due(cfg, l)
  {
    var first, second := Wake(Wait, l.failedAt, d), Wake(Abandon, cfg.horizon, d);
    LiveStep(cfg, l, [], first);
    LiveStep(cfg, l, [first], second);
    var l1 := Live(cfg, l, [] + [first]);
    assert l1 == l.(lastCheckedAt := Some(l.failedAt));
    assert Apply(cfg, d, l1, Abandon, cfg.horizon).0 == l1.(resolved := true);
    assert [] + [first] == [first] && [first] + [second] == [first, second];
  }

  lemma LiveStep(cfg: WorldConfig, l: Latent, wakes: seq<Wake>, w: Wake)
    ensures Live(cfg, l, wakes + [w]) == Apply(cfg, w.draws, Live(cfg, l, wakes), w.action, w.at).0
  {
    assert (wakes + [w])[..|wakes + [w]| - 1] == wakes;
    hide Apply;
  }
}
