// Cancels that are really under way: a started row is a promise only while its provider call is still in flight.
module InFlight {
  import opened Base
  import opened Models
  import opened Engine
  import opened Effects
  import opened Protocol
  import opened LinkSafety
  import opened CancelSafety
  import opened ProtocolTheorems

  // Every started cancel has its call in flight, except those whose call was lost.
  ghost predicate UnderWay(s: Sys, lost: set<ActionKey>) {
    forall ak: ActionKey | ak.IsCancel() && ak in s.db.actions && s.db.actions[ak].status.Started? ::
      ak in lost || InFlightFor(s.cancels, ak)
  }

  ghost predicate InFlightFor(cancels: multiset<PendingCancel>, ak: ActionKey) {
    exists pc :: pc in cancels && pc.action == ak
  }

  // The actions whose call a run lost, by a crash between the commit and the answer's.
  function LostIn(steps: seq<Step>): set<ActionKey> {
    if steps == [] then {}
    else
      LostIn(steps[..|steps| - 1])
      + if steps[|steps| - 1].CancelLost? then {steps[|steps| - 1].pc.action} else {}
  }

  lemma SameRowsUnderWay(s: Sys, s': Sys, lost: set<ActionKey>)
    requires UnderWay(s, lost) && SameCancels(s.db, s'.db) && s'.cancels == s.cancels
    ensures UnderWay(s', lost)
  {
    hide InFlightFor;
  }

  lemma LaunchUnderWay(s: Sys, s': Sys, pc: PendingCancel, max: int, lost: set<ActionKey>)
    requires UnderWay(s, lost) && Won(s.db.actions, s'.db.actions, pc.action, max)
    requires s'.cancels == s.cancels + multiset{pc}
    ensures UnderWay(s', lost)
  {
    assert pc in s'.cancels;
    forall ak: ActionKey | ak.IsCancel() && ak in s'.db.actions && s'.db.actions[ak].status.Started?
      ensures ak in lost || InFlightFor(s'.cancels, ak)
    {
      if ak != pc.action && ak !in lost {
        assert InFlightFor(s.cancels, ak);
        var other :| other in s.cancels && other.action == ak;
        assert other in s'.cancels;
      }
    }
  }

  // A returned or lost call takes only its own row with it.
  lemma OneGoneUnderWay(s: Sys, s': Sys, pc: PendingCancel, lost: set<ActionKey>)
    requires UnderWay(s, lost) && s'.cancels == s.cancels - multiset{pc}
    requires forall ak: ActionKey | ak != pc.action && ak in s'.db.actions ::
      ak in s.db.actions && s'.db.actions[ak] == s.db.actions[ak]
    requires pc.action in s'.db.actions && s'.db.actions[pc.action].status.Started? ==> pc.action in lost
    ensures UnderWay(s', lost)
  {
    forall ak: ActionKey | ak.IsCancel() && ak in s'.db.actions && s'.db.actions[ak].status.Started?
      ensures ak in lost || InFlightFor(s'.cancels, ak)
    {
      if ak != pc.action && ak !in lost {
        assert InFlightFor(s.cancels, ak);
        var other :| other in s.cancels && other.action == ak;
        assert other in s'.cancels;
      }
    }
  }

  lemma WebhookUnderWay(s: Sys, e: PaymentEvent, degraded: bool, lost: set<ActionKey>)
    requires DbOk(s.db, s.p) && UnderWay(s, lost)
    ensures UnderWay(Ingests(s, e, degraded), lost)
  {
    hide DbOk, UnderWay;
    if e.id in s.db.claimed {
      assert Ingests(s, e, degraded) == s;
    } else if IsFailureEvent(e.kind) || IsLinkEvent(e.kind) {
      CalmEventUnderWay(s, e, degraded, lost);
    } else {
      CollectingUnderWay(s, e, degraded, lost);
    }
  }

  lemma CalmEventUnderWay(s: Sys, e: PaymentEvent, degraded: bool, lost: set<ActionKey>)
    requires DbOk(s.db, s.p) && UnderWay(s, lost) && e.id !in s.db.claimed
    requires IsFailureEvent(e.kind) || IsLinkEvent(e.kind)
    ensures UnderWay(Ingests(s, e, degraded), lost)
  {
    hide HandleFailure, HandleLink, HandleSuccess, HandleReversal, DbOk, UnderWay, Calm;
    var db := Claim(s.db, e.id);
    ClaimIsInvisible(s.db, e.id, db, s.p);
    if IsFailureEvent(e.kind) {
      CalmFailureDb(db, e, degraded, s.p);
    } else {
      CalmLinkDb(db, e, s.p);
    }
    var s' := Ingests(s, e, degraded);
    assert SameCancels(s.db, s'.db);
    SameRowsUnderWay(s, s', lost);
  }

  lemma CollectingUnderWay(s: Sys, e: PaymentEvent, degraded: bool, lost: set<ActionKey>)
    requires DbOk(s.db, s.p) && UnderWay(s, lost) && e.id !in s.db.claimed
    requires !IsFailureEvent(e.kind) && !IsLinkEvent(e.kind)
    ensures UnderWay(Ingests(s, e, degraded), lost)
  {
    var s' := Ingests(s, e, degraded);
    if Reaches(s.db, e) {
      var ak := if IsSuccessEvent(e.kind) then LateCancelOf(s.db.cases[e.key]) else ReversalCancelKey(e.key);
      hide DbOk, Collects, Handle, Reaches, UnderWay;
      HandleCollects(s, e, degraded, ak);
      CollectUnderWay(s, s', e.key, ak, Handle(Claim(s.db, e.id), e, degraded, s.p).value.1, lost);
    } else {
      hide DbOk, UnderWay, AfterSuccess, AfterReversal, ClaimCancel;
      assert s' == s.(db := Claim(s.db, e.id));
      SameRowsUnderWay(s, s', lost);
    }
  }

  lemma CollectUnderWay(s: Sys, s': Sys, k: Key, ak: ActionKey, pending: Option<PendingCancel>, lost: set<ActionKey>)
    requires Collects(s.db, s'.db, k, ak, pending, s.p.maxLinkCancelAttempts)
    requires s' == Launch(s, s'.db, pending) && UnderWay(s, lost)
    ensures UnderWay(s', lost)
  {
    hide UnderWay, SameLink, Won;
    if pending.Some? {
      LaunchUnderWay(s, s', pending.value, s.p.maxLinkCancelAttempts, lost);
    } else {
      SameRowsUnderWay(s, s', lost);
    }
  }

  lemma ClosingUnderWay(s: Sys, ak: ActionKey, lost: set<ActionKey>)
    requires UnderWay(s, lost)
    ensures UnderWay(Closes(s, ak), lost)
  {
    hide InFlightFor;
  }

  lemma DispatchUnderWay(s: Sys, step: Step, lost: set<ActionKey>)
    requires Inv(s) && IsDispatchStep(step) && UnderWay(s, lost)
    ensures UnderWay(Next(s, step), lost)
  {
    hide Inv, Next, Calm, UnderWay;
    DispatchSparesCancels(s, step);
    DispatchCalmDb(s, step);
    SameRowsUnderWay(s, Next(s, step), lost);
  }

  lemma ReturnUnderWay(s: Sys, pc: PendingCancel, answer: Answer<LinkStatus>, at: Time, lost: set<ActionKey>)
    requires CancelInv(s) && UnderWay(s, lost)
    ensures UnderWay(CancelDone(s, pc, answer, at), lost)
  {
    hide CancelInv, UnderWay, CancelCommit;
    if pc in s.cancels {
      CancelSettles(s, pc, answer, at);
      OneGoneUnderWay(s, CancelDone(s, pc, answer, at), pc, lost);
    }
  }

  lemma ReadingUnderWay(s: Sys, step: Step, lost: set<ActionKey>)
    requires UnderWay(s, lost) && (step.SweepLists? || step.SweepSeesCancelled?)
    ensures UnderWay(Next(s, step), lost)
  {
    hide UnderWay, SweptLink;
    SameRowsUnderWay(s, Next(s, step), lost);
  }

  // No step but the loss of a call leaves a started cancel without one.
  lemma StepUnderWay(s: Sys, step: Step, lost: set<ActionKey>)
    requires Safe(s) && UnderWay(s, lost)
    ensures UnderWay(Next(s, step), lost + if step.CancelLost? then {step.pc.action} else {})
  {
    SafeParts(s);
    if IsDispatchStep(step) {
      hide Safe, Inv, CancelInv, DbOk, Next, UnderWay;
      DispatchUnderWay(s, step, lost);
    } else {
      hide Safe, Inv, CancelInv, DbOk, UnderWay;
      match step
      case Webhook(e, degraded) => WebhookUnderWay(s, e, degraded, lost);
      case CancelReturns(pc, answer, at) => ReturnUnderWay(s, pc, answer, at, lost);
      case CancelLost(pc) => LossUnderWay(s, pc, lost);
      case SweepCloses(ak) => ClosingUnderWay(s, ak, lost);
      case SweepClaims(pc) => ReclaimUnderWay(s, pc, lost);
      case _ => ReadingUnderWay(s, step, lost);
    }
    assert lost + {} == lost;
  }

  lemma SafeParts(s: Sys)
    requires Safe(s)
    ensures Inv(s) && CancelInv(s) && DbOk(s.db, s.p)
  {
  }

  lemma LossUnderWay(s: Sys, pc: PendingCancel, lost: set<ActionKey>)
    requires UnderWay(s, lost)
    ensures UnderWay(s.(cancels := s.cancels - multiset{pc}), lost + {pc.action})
  {
    assert UnderWay(s, lost + {pc.action});
    OneGoneUnderWay(s, s.(cancels := s.cancels - multiset{pc}), pc, lost + {pc.action});
  }

  lemma ReclaimUnderWay(s: Sys, pc: PendingCancel, lost: set<ActionKey>)
    requires UnderWay(s, lost)
    ensures UnderWay(Reclaims(s, pc), lost)
  {
    var s' := Reclaims(s, pc);
    hide UnderWay;
    if pc in s.swept && Claimable(s.db, pc.action, s.p.maxLinkCancelAttempts) {
      LaunchUnderWay(s, s', pc, s.p.maxLinkCancelAttempts, lost);
    } else {
      SameRowsUnderWay(s, s', lost);
    }
  }

  lemma {:induction false} RunUnderWay(p: Settings, n: nat, steps: seq<Step>)
    ensures UnderWay(Run(Init(p, n), steps), LostIn(steps))
  {
    hide Safe, Next;
    if steps != [] {
      var before := steps[..|steps| - 1];
      RunUnderWay(p, n, before);
      SafeInit(p, n);
      SafeRun(Init(p, n), before);
      hide UnderWay;
      StepUnderWay(Run(Init(p, n), before), steps[|steps| - 1], LostIn(before));
    }
  }

  // A collected or reversed case whose link is recorded payable, and which no human was asked to look at, has a cancel
  // on record, and every cancel of it is in flight at the provider, unless its call was lost on the way.
  lemma RecordedLinksAreBeingCancelled(p: Settings, n: nat, steps: seq<Step>, k: Key)
    requires var s := Run(Init(p, n), steps);
      && k in s.db.cases && Held(s.db.cases[k].state) && s.db.cases[k].HasCancellableLink()
      && !s.db.cases[k].reconcile
    ensures var s := Run(Init(p, n), steps);
      && (exists ak: ActionKey :: CancelOf(s.db, ak, k))
      && forall ak: ActionKey | CancelOf(s.db, ak, k) :: ak in LostIn(steps) || InFlightFor(s.cancels, ak)
  {
    var s := Run(Init(p, n), steps);
    assert Reachable(s);
    hide Reachable;
    RecordedLinksAreAttended(s, k);
    RunUnderWay(p, n, steps);
    hide InFlightFor;
  }
}
