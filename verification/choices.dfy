// What each decision of a policy does to one payment, draw by draw, read off the payment before and after.
module Choices {
  import opened Base
  import opened Models
  import opened WorldModel
  import opened WorldTheorems

  // Nothing holds the customer's own money back any more.
  predicate FreeToPay(l: Latent, now: Time) {
    && (l.cause.InsufficientFunds? ==> l.solventFrom.Some? && l.solventFrom.value <= now)
    && (l.cause.IssuerOutage? ==> l.outageUntil.Some? && l.outageUntil.value <= now)
  }

  // The same instrument, charged again, would go through.
  predicate ChargeWorks(l: Latent, now: Time) {
    && (l.cause.InsufficientFunds? || l.cause.IssuerOutage? ==> FreeToPay(l, now))
    && (l.cause.TechnicalDecline? ==> l.technicalClearAt.Some? && l.technicalClearAt.value <= now)
    && (l.cause.DoNotHonour? ==> l.sameInstrumentOk)
    && !l.cause.InstrumentDead? && !l.cause.MandateCancelled? && !l.cause.RiskBlocked?
  }

  // Only a new instrument or another customer could ever pay.
  predicate Hopeless(l: Latent) {
    l.cause.InstrumentDead? || l.cause.MandateCancelled? || l.cause.RiskBlocked?
  }

  // The payment is in, at this instant and in this way.
  predicate PaidAt(l: Latent, l': Latent, now: Time, way: Way) {
    && l'.resolved && l'.recoveredAt == Some(now) && l'.way == Some(way) && (l'.naturally <==> way.Unprompted?)
    && l'.optedOut == l.optedOut
  }

  predicate StillOpen(l: Latent, l': Latent) {
    !l'.resolved && l'.recoveredAt == l.recoveredAt && l'.way == l.way && l'.optedOut == l.optedOut
  }

  predicate NothingSpent(l: Latent, l': Latent) {
    l'.contacts == l.contacts && l'.attempts == l.attempts && l'.cost == l.cost && l'.optedOut == l.optedOut
  }

  // ------------------------------------------------------------------ looking

  predicate Looks(l: Latent, now: Time) {
    !l.optedOut && FreeToPay(l, now)
  }

  // The time a look accounts for: since the look before, or since the failure.
  function Waited(l: Latent, now: Time): nat {
    var since := if l.lastCheckedAt.Some? then l.lastCheckedAt.value else l.failedAt;
    if now > since then now - since else 0
  }

  // One look: while the customer cannot pay it costs no draw and moves no clock; otherwise the one draw decides, by the
  // chance of a payment in just the time waited.
  ghost predicate Looked(cfg: WorldConfig, d: Draws, d': Draws, l: Latent, l': Latent, now: Time, found: bool) {
    && NothingSpent(l, l') && l'.pendingUntil == l.pendingUntil && l'.acceptedAt == l.acceptedAt && d'.at == d.at
    && l'.lastCheckedAt == (if Looks(l, now) then Some(now) else l.lastCheckedAt)
    && d'.used == d.used + (if Looks(l, now) && !Hopeless(l) then 1 else 0)
    && (found <==> Looks(l, now) && !Hopeless(l) && d.at(d.used) < 1.0 - cfg.survival(Waited(l, now)))
    && (if found then PaidAt(l, l', now, Unprompted) else StillOpen(l, l') && l'.naturally == l.naturally)
  }

  lemma LookDecides(cfg: WorldConfig, d: Draws, l: Latent, now: Time)
    requires !l.resolved && !l.naturally
    ensures var (l', d', found) := NaturalRecovery(cfg, d, l, now);
      Looked(cfg, d, d', l, l', now, found)
  {
  }

  // --------------------------------------------------------------- the actions

  // Waiting is one look, and then the open link: it is dropped if it ran out before now, and collects if the customer
  // would pay and can.
  ghost predicate Waits(cfg: WorldConfig, d: Draws, d': Draws, l: Latent, l': Latent, now: Time, outcome: OutcomeKind) {
    exists seen, found ::
      && Looked(cfg, d, d', l, seen, now, found)
      && (if found then l' == seen && outcome.Recovered? else Collects(seen, l', now, outcome))
  }

  predicate Collects(l: Latent, l': Latent, now: Time, outcome: OutcomeKind) {
    var open := l.pendingUntil.Some? && l.pendingUntil.value >= now;
    && (outcome.Recovered? <==> open && l.consentWouldSucceed && FreeToPay(l, now))
    && (outcome.ConsentIgnored? <==> l.pendingUntil.Some? && !open)
    && (outcome.Nothing? <==> !outcome.Recovered? && !outcome.ConsentIgnored?)
    && NothingSpent(l, l') && l'.lastCheckedAt == l.lastCheckedAt && l'.acceptedAt == l.acceptedAt
    && l'.pendingUntil == (if outcome.Nothing? then l.pendingUntil else None)
    && (if outcome.Recovered? then PaidAt(l, l', now, ByLink) else StillOpen(l, l') && l'.naturally == l.naturally)
  }

  // A retry on another instrument is refused and costs nothing; on the same one it costs its price and goes through
  // exactly if the charge works.
  ghost predicate Retries(d: Draws, d': Draws, l: Latent, l': Latent, instrument: Option<Instrument>, now: Time,
                    outcome: OutcomeKind)
  {
    var same := instrument.None? || instrument.value == l.instrument;
    && d' == d
    && (outcome.Recovered? <==> same && ChargeWorks(l, now))
    && (outcome.AttemptFailed? <==> !outcome.Recovered?)
    && (!same ==> l' == l)
    && (same ==> l'.attempts == l.attempts + 1 && l'.cost == l.cost + 35)
    && l'.contacts == l.contacts && l'.lastCheckedAt == l.lastCheckedAt && l'.pendingUntil == l.pendingUntil
    && (if outcome.Recovered? then PaidAt(l, l', now, ByRetry) else StillOpen(l, l'))
  }

  // How far this contact goes past what the customer tolerates.
  function Past(cfg: WorldConfig, l: Latent): nat {
    if l.contacts + 1 > cfg.contactTolerance then l.contacts + 1 - cfg.contactTolerance else 0
  }

  // Asking for consent: past the customer's tolerance a first draw decides whether they opt out, for good; if they do
  // not, the next one decides whether they answer, and an answer pays there and then if it can, and is open for a day
  // if not.
  ghost predicate Asks(cfg: WorldConfig, d: Draws, d': Draws, l: Latent, l': Latent, now: Time, outcome: OutcomeKind) {
    var past := Past(cfg, l);
    var annoyed := past > 0 && d.at(d.used) < cfg.optOutPerExcess * past as real;
    var answered := !annoyed && d.at(d.used + if past > 0 then 1 else 0) < cfg.response(past);
    var pays := l.consentWouldSucceed && FreeToPay(l, now);
    if l.optedOut then l' == l && d' == d && outcome.OptedOut?
    else
      && d'.at == d.at && d'.used == d.used + (if past > 0 && !annoyed then 2 else 1)
      && l'.contacts == l.contacts + 1 && l'.cost == l.cost + 50
      && l'.attempts == l.attempts && l'.lastCheckedAt == l.lastCheckedAt
      && (outcome.OptedOut? <==> annoyed) && (l'.optedOut <==> annoyed)
      && (outcome.ConsentIgnored? <==> !annoyed && !answered)
      && (outcome.Recovered? <==> answered && pays)
      && (outcome.Nothing? <==> answered && !pays)
      && l'.acceptedAt == (if answered then Some(now) else l.acceptedAt)
      && l'.pendingUntil == (if !answered then l.pendingUntil else if pays then None else Some(now + DAY))
      && (if outcome.Recovered? then PaidAt(l, l', now, ByLink)
          else l'.recoveredAt == l.recoveredAt && l'.way == l.way && (l'.resolved <==> annoyed))
  }

  // The instant of the j-th look of a tail: a day after the one before, the last at the end.
  function Moment(from: Time, end: Time, j: nat): Time {
    if from + (j + 1) * DAY < end then from + (j + 1) * DAY else end
  }

  // A tail is one look a day to its end, or to the first that finds a payment.
  ghost predicate DailyLooks(cfg: WorldConfig, ls: seq<Latent>, ds: seq<Draws>, from: Time, end: Time, found: bool) {
    var n := |ls| - 1;
    && |ls| == |ds| && n >= 0
    && (forall j | 0 <= j < n :: DailyLook(cfg, ls, ds, from, end, found, j))
    && (n > 0 ==> from + (n - 1) * DAY < end)
    && (if found then n > 0 else from + n * DAY >= end)
  }

  ghost predicate DailyLook(cfg: WorldConfig, ls: seq<Latent>, ds: seq<Draws>, from: Time, end: Time, found: bool,
                            j: nat)
    requires j + 1 < |ls| == |ds|
  {
    Looked(cfg, ds[j], ds[j + 1], ls[j], ls[j + 1], Moment(from, end, j), found && j + 2 == |ls|)
  }

  // What a tail of daily looks makes of a payment and of the draws.
  ghost predicate Tail(cfg: WorldConfig, d: Draws, d': Draws, l: Latent, l': Latent, from: Time, end: Time, found: bool)
  {
    exists ls, ds ::
      && DailyLooks(cfg, ls, ds, from, end, found)
      && ls[0] == l && ds[0] == d && ls[|ls| - 1] == l' && ds[|ds| - 1] == d'
  }

  // Giving up closes the payment once its tail is rolled to the horizon; the customer may still pay by then, of their
  // own accord alone.
  ghost predicate GivesUp(cfg: WorldConfig, d: Draws, d': Draws, l: Latent, l': Latent, now: Time,
                          outcome: OutcomeKind)
  {
    && (exists seen ::
          Tail(cfg, d, d', l, seen, now, cfg.horizon, outcome.Recovered?) && l' == seen.(resolved := true))
    && l'.resolved && NothingSpent(l, l')
    && (outcome.Recovered? || outcome.Abandoned?)
    && (outcome.Recovered? ==>
          l'.way == Some(Unprompted) && l'.recoveredAt.Some? && now < l'.recoveredAt.value <= cfg.horizon)
    && (outcome.Abandoned? ==> l'.way == l.way && l'.recoveredAt == l.recoveredAt)
  }

  // What a decision does to an open payment.
  ghost predicate Decides(cfg: WorldConfig, w: Wake, l: Latent, l': Latent, d': Draws, outcome: OutcomeKind) {
    match w.action
    case Wait => Waits(cfg, w.draws, d', l, l', w.at, outcome)
    case Retry(instrument) => Retries(w.draws, d', l, l', instrument, w.at, outcome)
    case RequestConsent => Asks(cfg, w.draws, d', l, l', w.at, outcome)
    case Abandon => GivesUp(cfg, w.draws, d', l, l', w.at, outcome)
  }

  // ------------------------------------------------------ each decision decides

  lemma WaitingDecides(cfg: WorldConfig, d: Draws, l: Latent, now: Time)
    requires !l.resolved && !l.naturally
    ensures var (l', d', outcome) := Apply(cfg, d, l, Wait, now);
      Waits(cfg, d, d', l, l', now, outcome)
  {
    LookDecides(cfg, d, l, now);
    var (seen, d', found) := NaturalRecovery(cfg, d, l, now);
    hide NaturalRecovery, Looked;
    if !found {
      CollectingDecides(seen, now);
      assert !seen.resolved && !seen.naturally by {
        LookLeavesOpen(cfg, d, d', l, seen, now);
      }
    }
    hide Collects, SettlePendingConsent;
    assert Looked(cfg, d, d', l, seen, now, found);
  }

  lemma LookLeavesOpen(cfg: WorldConfig, d: Draws, d': Draws, l: Latent, l': Latent, now: Time)
    requires Looked(cfg, d, d', l, l', now, false) && !l.naturally
    ensures !l'.resolved && !l'.naturally
  {
  }

  lemma CollectingDecides(l: Latent, now: Time)
    ensures !l.resolved && !l.naturally ==>
      var (l', outcome) := SettlePendingConsent(l, now, false);
      Collects(l, l', now, outcome)
  {
  }

  lemma {:induction false} TailGivesUp(cfg: WorldConfig, d: Draws, l: Latent, moment: Time, end: Time)
    requires !l.resolved && !l.naturally
    ensures var (l', d', found) := NaturalRecoveryOver(cfg, d, l, moment, end);
      && NothingSpent(l, l')
      && (found ==> l'.way == Some(Unprompted) && l'.recoveredAt.Some? && moment < l'.recoveredAt.value <= end)
      && (!found ==> l'.way == l.way && l'.recoveredAt == l.recoveredAt)
    decreases end - moment
  {
    if moment < end {
      var next := NextMoment(moment, end);
      var (l1, d1, found) := NaturalRecovery(cfg, d, l, next);
      LookDecides(cfg, d, l, next);
      if !found {
        TailGivesUp(cfg, d1, l1, next, end);
      }
    }
  }

  lemma AbandoningDecides(cfg: WorldConfig, d: Draws, l: Latent, now: Time)
    requires !l.resolved && !l.naturally
    ensures var (l', d', outcome) := Apply(cfg, d, l, Abandon, now);
      GivesUp(cfg, d, d', l, l', now, outcome)
  {
    TailGivesUp(cfg, d, l, now, cfg.horizon);
    var (seen, d', found) := NaturalRecoveryOver(cfg, d, l, now, cfg.horizon);
    hide NaturalRecoveryOver, Tail;
    TailLooksDaily(cfg, d, l, now, cfg.horizon);
    assert Tail(cfg, d, d', l, seen, now, cfg.horizon, found);
  }

  // The daily loop is a tail of daily looks.
  lemma {:induction false} TailLooksDaily(cfg: WorldConfig, d: Draws, l: Latent, from: Time, end: Time)
    requires !l.resolved && !l.naturally
    ensures var (l', d', found) := NaturalRecoveryOver(cfg, d, l, from, end);
      Tail(cfg, d, d', l, l', from, end, found)
    decreases end - from
  {
    hide Looked, NaturalRecovery, Tail;
    if from >= end {
      NoLooks(cfg, l, d, from, end);
    } else {
      var next := NextMoment(from, end);
      var (l1, d1, found) := NaturalRecovery(cfg, d, l, next);
      LookDecides(cfg, d, l, next);
      if found {
        LastLook(cfg, l, l1, d, d1, from, end);
      } else {
        LookLeavesOpen(cfg, d, d1, l, l1, next);
        TailLooksDaily(cfg, d1, l1, next, end);
        var (l', d', later) := NaturalRecoveryOver(cfg, d1, l1, next, end);
        TailGrows(cfg, d, d1, d', l, l1, l', from, end, later);
      }
    }
  }

  lemma NoLooks(cfg: WorldConfig, l: Latent, d: Draws, from: Time, end: Time)
    requires from >= end
    ensures Tail(cfg, d, d, l, l, from, end, false)
  {
    assert DailyLooks(cfg, [l], [d], from, end, false);
  }

  lemma TailGrows(cfg: WorldConfig, d: Draws, d1: Draws, d': Draws, l: Latent, l1: Latent, l': Latent, from: Time,
                  end: Time, found: bool)
    requires from < end && Looked(cfg, d, d1, l, l1, NextMoment(from, end), false)
    requires Tail(cfg, d1, d', l1, l', NextMoment(from, end), end, found)
    ensures Tail(cfg, d, d', l, l', from, end, found)
  {
    hide Looked, DailyLook;
    var ls, ds :| DailyLooks(cfg, ls, ds, NextMoment(from, end), end, found)
                  && ls[0] == l1 && ds[0] == d1 && ls[|ls| - 1] == l' && ds[|ds| - 1] == d';
    LooksGrow(cfg, l, d, ls, ds, from, end, found);
    assert ([l] + ls)[|ls|] == l' && ([d] + ds)[|ds|] == d';
  }

  lemma LastLook(cfg: WorldConfig, l: Latent, l1: Latent, d: Draws, d1: Draws, from: Time, end: Time)
    requires from < end && Looked(cfg, d, d1, l, l1, NextMoment(from, end), true)
    ensures Tail(cfg, d, d1, l, l1, from, end, true)
  {
    hide Looked;
    assert DailyLooks(cfg, [l, l1], [d, d1], from, end, true);
  }

  lemma LooksGrow(cfg: WorldConfig, l: Latent, d: Draws, ls: seq<Latent>, ds: seq<Draws>, from: Time, end: Time,
                  found: bool)
    requires from < end && DailyLooks(cfg, ls, ds, NextMoment(from, end), end, found)
    requires Looked(cfg, d, ds[0], l, ls[0], NextMoment(from, end), false)
    ensures DailyLooks(cfg, [l] + ls, [d] + ds, from, end, found)
  {
    hide Looked;
    var all, draws, n := [l] + ls, [d] + ds, |ls|;
    forall j: nat | j < n ensures DailyLook(cfg, all, draws, from, end, found, j) {
      if j > 0 {
        assert DailyLook(cfg, ls, ds, NextMoment(from, end), end, found, j - 1);
        assert all[j] == ls[j - 1] && all[j + 1] == ls[j] && draws[j] == ds[j - 1] && draws[j + 1] == ds[j];
      }
    }
  }

  // And so is what every open payment is credited with at the end of a run, from its last look on.
  lemma SettlingLooksDaily(cfg: WorldConfig, d: Draws, l: Latent)
    requires !l.resolved && !l.naturally
    ensures var (l', d', found) := SettleToHorizon(cfg, d, l);
      Tail(cfg, d, d', l, l', if l.lastCheckedAt.Some? then l.lastCheckedAt.value else l.failedAt, cfg.horizon, found)
  {
    hide NaturalRecoveryOver, Tail;
    TailLooksDaily(cfg, d, l, l.Last(), cfg.horizon);
  }

  lemma RetryingDecides(cfg: WorldConfig, d: Draws, l: Latent, instrument: Option<Instrument>, now: Time)
    requires !l.resolved && !l.naturally
    ensures var (l', d', outcome) := Apply(cfg, d, l, Retry(instrument), now);
      Retries(d, d', l, l', instrument, now, outcome)
  {
  }

  lemma AskingDecides(cfg: WorldConfig, d: Draws, l: Latent, now: Time)
    requires !l.resolved && !l.naturally
    ensures var (l', d', outcome) := Apply(cfg, d, l, RequestConsent, now);
      Asks(cfg, d, d', l, l', now, outcome)
  {
  }

  lemma DecisionDecides(cfg: WorldConfig, w: Wake, l: Latent)
    requires !l.resolved && !l.naturally
    ensures var (l', d', outcome) := Apply(cfg, w.draws, l, w.action, w.at);
      Decides(cfg, w, l, l', d', outcome)
  {
    hide Apply, Waits, Retries, Asks, GivesUp;
    match w.action
    case Wait => WaitingDecides(cfg, w.draws, l, w.at);
    case Retry(instrument) => RetryingDecides(cfg, w.draws, l, instrument, w.at);
    case RequestConsent => AskingDecides(cfg, w.draws, l, w.at);
    case Abandon => AbandoningDecides(cfg, w.draws, l, w.at);
  }

  // Wake-up i of a life, as it finds the payment and as it leaves it.
  ghost predicate WakeDecides(cfg: WorldConfig, l: Latent, wakes: seq<Wake>, i: nat)
    requires i < |wakes|
  {
    var was, left := Live(cfg, l, wakes[..i]), Live(cfg, l, wakes[..i + 1]);
    if was.resolved then left == was
    else exists d', outcome :: Decides(cfg, wakes[i], was, left, d', outcome)
  }

  // Over any life, each wake-up of an open payment does what the table says of its decision, and none does anything to
  // a closed one.
  lemma EachWakeDecides(cfg: WorldConfig, l: Latent, wakes: seq<Wake>, i: nat)
    requires Untouched(l) && Ordered(wakes, l.failedAt) && i < |wakes|
    ensures WakeDecides(cfg, l, wakes, i)
  {
    var through := wakes[..i + 1];
    assert through[..|through| - 1] == wakes[..i] && through[|through| - 1] == wakes[i];
    assert Live(cfg, l, through) ==
           Apply(cfg, wakes[i].draws, Live(cfg, l, wakes[..i]), wakes[i].action, wakes[i].at).0;
    var was := Live(cfg, l, wakes[..i]);
    OpenIsUnpaid(cfg, l, wakes[..i]);
    hide Decides, Apply, Live;
    if was.resolved {
      ResolvedIsFinal(cfg, wakes[i].draws, was, wakes[i].action, wakes[i].at);
    } else {
      DecisionDecides(cfg, wakes[i], was);
      var (left, d', outcome) := Apply(cfg, wakes[i].draws, was, wakes[i].action, wakes[i].at);
      assert Decides(cfg, wakes[i], was, left, d', outcome);
    }
  }

  lemma OpenIsUnpaid(cfg: WorldConfig, l: Latent, wakes: seq<Wake>)
    requires Untouched(l) && Ordered(wakes, l.failedAt)
    ensures !Live(cfg, l, wakes).resolved ==> !Live(cfg, l, wakes).naturally && !Live(cfg, l, wakes).optedOut
  {
    LifeIsSound(cfg, l, wakes);
    hide Live, Ordered, Untouched;
  }

  // Asking once more is too often for this customer, and the draw has them opt out.
  predicate TooOften(cfg: WorldConfig, d: Draws, l: Latent) {
    Past(cfg, l) > 0 && d.at(d.used) < cfg.optOutPerExcess * Past(cfg, l) as real
  }

  // Wake-up i asks an open customer too often.
  ghost predicate Annoys(cfg: WorldConfig, l: Latent, wakes: seq<Wake>, i: nat) {
    && i < |wakes| && wakes[i].action.RequestConsent?
    && !Live(cfg, l, wakes[..i]).resolved && TooOften(cfg, wakes[i].draws, Live(cfg, l, wakes[..i]))
  }

  // A customer opts out in a life exactly if some decision of the policy's pushed them past what they tolerate.
  lemma {:induction false} OptOutsAreEarned(cfg: WorldConfig, l: Latent, wakes: seq<Wake>)
    requires Untouched(l) && Ordered(wakes, l.failedAt)
    ensures Live(cfg, l, wakes).optedOut <==> exists i :: Annoys(cfg, l, wakes, i)
  {
    hide Live, Apply, Untouched;
    if wakes == [] {
      assert !Live(cfg, l, wakes).optedOut by {
        NothingYet(cfg, l, wakes);
      }
    } else {
      var before, n := wakes[..|wakes| - 1], |wakes| - 1;
      OptOutsAreEarned(cfg, l, before);
      EachWakeDecides(cfg, l, wakes, n);
      OpenIsUnpaid(cfg, l, before);
      assert wakes[..n + 1] == wakes;
      forall i: nat | i < n ensures Annoys(cfg, l, before, i) <==> Annoys(cfg, l, wakes, i) {
        assert before[..i] == wakes[..i];
      }
      LastWakeAnnoys(cfg, l, wakes);
    }
  }

  lemma NothingYet(cfg: WorldConfig, l: Latent, wakes: seq<Wake>)
    requires Untouched(l) && wakes == []
    ensures !Live(cfg, l, wakes).optedOut
  {
  }

  lemma LastWakeAnnoys(cfg: WorldConfig, l: Latent, wakes: seq<Wake>)
    requires wakes != [] && WakeDecides(cfg, l, wakes, |wakes| - 1)
    requires var was := Live(cfg, l, wakes[..|wakes| - 1]);
      !was.resolved ==> !was.optedOut
    ensures Live(cfg, l, wakes).optedOut <==>
      Live(cfg, l, wakes[..|wakes| - 1]).optedOut || Annoys(cfg, l, wakes, |wakes| - 1)
  {
    hide Live, Decides, TooOften;
    var n := |wakes| - 1;
    assert wakes[..|wakes|] == wakes;
    var was, left := Live(cfg, l, wakes[..n]), Live(cfg, l, wakes);
    if !was.resolved {
      var d', outcome :| Decides(cfg, wakes[n], was, left, d', outcome);
      OnlyAskingAnnoys(cfg, wakes[n], was, left, d', outcome);
    }
  }

  lemma OnlyAskingAnnoys(cfg: WorldConfig, w: Wake, l: Latent, l': Latent, d': Draws, outcome: OutcomeKind)
    requires !l.resolved && !l.optedOut && Decides(cfg, w, l, l', d', outcome)
    ensures l'.optedOut <==> w.action.RequestConsent? && TooOften(cfg, w.draws, l)
  {
  }
}
