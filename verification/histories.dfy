// What the state of a case says about the run that led to it.
module Histories {
  import opened Base
  import opened Models
  import opened Engine
  import opened Effects
  import opened Protocol
  import opened LinkSafety
  import opened CancelSafety
  import opened ProtocolTheorems
  import opened Policy
  import opened Outcomes

  // --------------------------------------------------------------- money

  // The delivery that can have taken case k where money is held, in, or taken back.
  predicate Explains(e: PaymentEvent, k: Key, st: CaseState) {
    && e.key == k
    && (st.AuthorizedPendingCapture? ==> e.kind.PaymentAuthorized? && !e.captured)
    && (st.RecoveredNatural? ==> IsSuccessEvent(e.kind) && Secures(e))
    && (st.RecoveredByLink? ==> e.kind.PaymentLinkPaid?)
    && (st.RecoveryReversed? ==> IsReversalEvent(e.kind))
  }

  predicate IsMoneyState(st: CaseState) {
    st.AuthorizedPendingCapture? || st.RecoveredNatural? || st.RecoveredByLink? || st.RecoveryReversed?
  }

  // Step i of the run delivers an event for the first time.
  ghost predicate FirstHeard(s: Sys, steps: seq<Step>, i: nat)
    requires i < |steps|
  {
    steps[i].Webhook? && steps[i].e.id !in Run(s, steps[..i]).db.claimed
  }

  ghost predicate ExplainedBy(s: Sys, steps: seq<Step>, k: Key, st: CaseState, i: nat) {
    && i < |steps| && FirstHeard(s, steps, i) && Explains(steps[i].e, k, st)
    && steps[i].e.id in Run(s, steps).db.claimed
  }

  lemma ClaimsStay(s: Sys, step: Step)
    requires Safe(s)
    ensures s.db.claimed <= Next(s, step).db.claimed
    ensures step.Webhook? ==> step.e.id in Next(s, step).db.claimed
  {
    if step.Webhook? {
      assert DbOk(s.db, s.p);
      hide Safe, DbOk, Ingest, Quiet, Moves;
      IngestIsTotal(s.db, step.e, step.degraded, s.p);
    } else {
      hide Safe;
      ClaimsStand(s, step);
    }
  }

  lemma ClaimsStand(s: Sys, step: Step)
    requires !step.Webhook?
    ensures Next(s, step).db.claimed == s.db.claimed
  {
    if step.CommitLink? {
      if step.d in s.tasks && s.tasks[step.d].Answered? {
        LinkClaimsNothing(s.db, s.tasks[step.d].key, s.tasks[step.d].answer, s.tasks[step.d].now);
      }
      hide CreateCommit;
    } else if step.CancelReturns? {
      CancelClaimsNothing(s.db, step.pc, step.cancelAnswer, step.at);
      hide CancelCommit;
    } else if step.OperatorReopens? {
      hide AfterReopen;
    } else {
      hide Next;
      RowsClaimNothing(s, step);
    }
  }

  lemma RowsClaimNothing(s: Sys, step: Step)
    requires !step.Webhook? && !step.CommitLink? && !step.CancelReturns? && !step.OperatorReopens?
    ensures Next(s, step).db.claimed == s.db.claimed
  {
    hide MayContact, PlanTimed, SweptLink, CommitState, SavePreview, CreateIntent, CompleteAction, ClaimAction;
    if step.CommitPlan? && step.d in s.tasks && s.tasks[step.d].Planned? {
      var t := s.tasks[step.d];
      PlanClaimsNothing(s.db, t.snapshot, t.decision, t.now);
    } else if step.PreviewSaved? {
      PreviewClaimsNothing(s.db, step.snapshot, step.at);
    } else if step.RecordIntent? && step.d in s.tasks && s.tasks[step.d].Checked? {
      ActionsClaimNothing(s.db, CreateKey(s.tasks[step.d].snapshot.key), s.tasks[step.d].snapshot.key,
                          s.tasks[step.d].now, None, 0);
    } else if step.SweepCloses? {
      ActionsClaimNothing(s.db, step.action, "", 0, None, 0);
    } else if step.SweepClaims? {
      ActionsClaimNothing(s.db, step.pc.action, "", 0, Some(step.pc.link), s.p.maxLinkCancelAttempts);
    }
  }

  lemma PlanClaimsNothing(db: Db, c: RecoveryCase, d: Decision, now: Time)
    ensures CommitState(db, c, d, now).0.claimed == db.claimed
  {
    hide AfterPlan, AllowedTransition;
  }

  lemma PreviewClaimsNothing(db: Db, c: RecoveryCase, at: Time)
    ensures SavePreview(db, c, at).Ok? ==> SavePreview(db, c, at).value.claimed == db.claimed
  {
  }

  lemma ActionsClaimNothing(db: Db, ak: ActionKey, k: Key, now: Time, link: Option<LinkId>, max: int)
    ensures CompleteAction(db, ak, Succeeded, None).claimed == db.claimed
    ensures CreateIntent(db, k, now).0.claimed == db.claimed
    ensures ClaimAction(db, ak, Action(ActionStatus.Started, 1, link, 0), max).0.claimed == db.claimed
  {
  }

  lemma LinkClaimsNothing(db: Db, key: Key, answer: Answer<NewLink>, now: Time)
    ensures CreateCommit(db, key, answer, now).Ok? ==> CreateCommit(db, key, answer, now).value.0.claimed == db.claimed
  {
    hide AfterLinkCreated, AfterCreateRefused;
  }

  lemma CancelClaimsNothing(db: Db, pc: PendingCancel, answer: Answer<LinkStatus>, at: Time)
    ensures CancelCommit(db, pc, answer, at).Ok? ==> CancelCommit(db, pc, answer, at).value.claimed == db.claimed
  {
    hide AfterCancel;
  }

  lemma MoneyEntered(s: Sys, step: Step, k: Key, st: CaseState)
    requires Safe(s) && IsMoneyState(st) && Enters(s.db, Next(s, step).db, k, st)
    ensures Hears(s, step, k) && Explains(step.e, k, st)
  {
    hide Safe, Next, Secures, OtherLink;
    RecoveredExactly(s, step, k);
    HeldExactly(s, step, k);
    PaidByLinkExactly(s, step, k);
    ReversedExactly(s, step, k);
  }

  // Whatever a run did, a case that counts as recovered was reported captured, by an event heard once and claimed for
  // good; likewise a held, a link-paid and a reversed one.
  lemma {:induction false} MoneyIsExplained(p: Settings, n: nat, steps: seq<Step>, k: Key)
    requires var s := Run(Init(p, n), steps);
      k in s.db.cases && IsMoneyState(s.db.cases[k].state)
    ensures exists i: nat :: ExplainedBy(Init(p, n), steps, k, Run(Init(p, n), steps).db.cases[k].state, i)
  {
    hide Safe, Next, Explains, Hears;
    var s0 := Init(p, n);
    SafeInit(p, n);
    var last, before := |steps| - 1, steps[..|steps| - 1];
    var s, s' := Run(s0, before), Run(s0, steps);
    var st := s'.db.cases[k].state;
    SafeRun(s0, before);
    ClaimsStay(s, steps[last]);
    if Enters(s.db, s'.db, k, st) {
      MoneyEntered(s, steps[last], k, st);
      HeardFirst(s, steps[last], k);
      assert ExplainedBy(s0, steps, k, st, last);
    } else {
      MoneyIsExplained(p, n, before, k);
      var i: nat :| ExplainedBy(s0, before, k, st, i);
      assert before[..i] == steps[..i];
      assert ExplainedBy(s0, steps, k, st, i);
    }
  }

  lemma HeardFirst(s: Sys, step: Step, k: Key)
    requires Hears(s, step, k)
    ensures step.Webhook? && step.e.id !in s.db.claimed
  {
  }

  // --------------------------------------------------------------- stops

  // Case j speaks for the person of case k: it is that case, or another of theirs, and it is opted out.
  predicate SpeaksFor(db: Db, j: Key, k: Key, customer: Option<CustomerId>) {
    && j in db.cases && db.cases[j].attention.optedOut
    && (j == k || (customer.Some? && db.cases[j].customer == customer))
  }

  ghost predicate PersonOut(db: Db, k: Key, customer: Option<CustomerId>) {
    exists j :: SpeaksFor(db, j, k, customer)
  }

  // A case is stopped only for a risk or for good reason of its person's, and no plan under way would stop one else.
  ghost predicate StopIsFair(db: Db, k: Key) {
    k in db.cases && db.cases[k].state.Stopped? ==>
      db.cases[k].failure.cause == Some(Risk) || PersonOut(db, k, db.cases[k].customer)
  }

  ghost predicate PlanIsFair(db: Db, t: Task) {
    t.Planned? && t.decision.target.Stopped? ==> PersonOut(db, t.snapshot.key, t.snapshot.customer)
  }

  ghost predicate Fair(s: Sys) {
    (forall k :: StopIsFair(s.db, k)) && (forall d | d in s.tasks :: PlanIsFair(s.db, s.tasks[d]))
  }

  lemma PersonStaysOut(s: Sys, step: Step, k: Key, customer: Option<CustomerId>)
    requires Safe(s) && PersonOut(s.db, k, customer)
    ensures PersonOut(Next(s, step).db, k, customer)
  {
    hide Safe, Next;
    var j :| SpeaksFor(s.db, j, k, customer);
    OptOutStays(s, step, j);
    assert SpeaksFor(Next(s, step).db, j, k, customer);
  }

  // Dispatch proposes to stop a case only when it found an opt-out.
  lemma RefusedForGood(s: Sys, c: RecoveryCase, now: Time)
    requires Safe(s) && c in s.seen
    requires MayContact(s.db, s.p, c, now).Some? && RefusalTarget(MayContact(s.db, s.p, c, now).value).Stopped?
    ensures PersonOut(s.db, c.key, c.customer)
  {
    SeenRow(s, c);
    hide Safe, ContactSum;
    if c.attention.optedOut {
      assert SpeaksFor(s.db, c.key, c.key, c.customer);
    } else {
      var others := OthersOf(s.db, c.customer.value, c.key);
      var j :| j in others && s.db.cases[j].attention.optedOut;
      assert SpeaksFor(s.db, j, c.key, c.customer);
    }
  }

  lemma SeenRow(s: Sys, c: RecoveryCase)
    requires Safe(s) && c in s.seen
    ensures c.key in s.db.cases && Newer(c, s.db.cases[c.key])
  {
  }

  lemma NewPlanIsFair(s: Sys, step: Step, d: nat)
    requires Safe(s) && d in Next(s, step).tasks && !(d in s.tasks && s.tasks[d] == Next(s, step).tasks[d])
    ensures PlanIsFair(s.db, Next(s, step).tasks[d])
  {
    hide Safe, Ingest, CancelCommit, CommitState, CreateCommit, CompleteAction, ClaimAction, Reopen, SavePreview,
      MayContact, PersonOut, RefusalTarget, SweptLink, CreateIntent;
    if step.PlanTimer? && step.d == d && Free(s, d) && step.snapshot in s.seen && step.snapshot.state.RetryScheduled? {
      if MayContact(s.db, s.p, step.snapshot, step.at).Some?
         && RefusalTarget(MayContact(s.db, s.p, step.snapshot, step.at).value).Stopped? {
        RefusedForGood(s, step.snapshot, step.at);
      }
    } else if step.CheckContact? && step.d == d && Free(s, d) && step.snapshot in s.seen {
      if MayContact(s.db, s.p, step.snapshot, step.at).Some?
         && RefusalTarget(MayContact(s.db, s.p, step.snapshot, step.at).value).Stopped? {
        RefusedForGood(s, step.snapshot, step.at);
      }
    }
  }

  lemma PlansStayFair(s: Sys, step: Step)
    requires Safe(s) && Fair(s)
    ensures forall d | d in Next(s, step).tasks :: PlanIsFair(Next(s, step).db, Next(s, step).tasks[d])
  {
    hide Safe, Next, PersonOut, StopIsFair;
    forall d | d in Next(s, step).tasks ensures PlanIsFair(Next(s, step).db, Next(s, step).tasks[d]) {
      var t := Next(s, step).tasks[d];
      if !(d in s.tasks && s.tasks[d] == t) {
        NewPlanIsFair(s, step, d);
      }
      assert PlanIsFair(s.db, t);
      if t.Planned? && t.decision.target.Stopped? {
        PersonStaysOut(s, step, t.snapshot.key, t.snapshot.customer);
      }
    }
  }

  // Nothing rewrites why a stopped case was stopped.
  lemma CauseStands(s: Sys, step: Step, k: Key)
    requires Safe(s) && k in s.db.cases && s.db.cases[k].state.Stopped?
    ensures k in Next(s, step).db.cases && Next(s, step).db.cases[k].failure == s.db.cases[k].failure
  {
    hide Safe, Next, Ruled, Reopened;
    if step.Webhook? {
      EventKeepsCause(s, step.e, step.degraded, k);
    } else if step.OperatorReopens? {
      ReopensAreRuled(s, step.key, step.failureClass, step.degraded, step.at);
    } else if IsLinkStep(step) {
      LinkSteps(s, step);
    } else if step.CancelReturns? || step.CommitPlan? || step.PreviewSaved? {
      SavesKeepCause(s, step, k);
    } else {
      CasesStandStill(s, step);
    }
  }

  lemma SavesKeepCause(s: Sys, step: Step, k: Key)
    requires Safe(s) && k in s.db.cases && (step.CancelReturns? || step.CommitPlan? || step.PreviewSaved?)
    ensures k in Next(s, step).db.cases && Next(s, step).db.cases[k].failure == s.db.cases[k].failure
  {
    RowsAreKeyed(s.db, s.p);
    hide Safe, CancelDone, CommitsPlan, SavePreview;
    if step.CancelReturns? {
      CancelKeepsCause(s, step.pc, step.cancelAnswer, step.at, k);
    } else if step.CommitPlan? {
      PlanKeepsCause(s, step.d, k);
    } else {
      PreviewKeepsCause(s.db, step.snapshot, step.at, k);
    }
  }

  lemma EventKeepsCause(s: Sys, e: PaymentEvent, degraded: bool, k: Key)
    requires Safe(s) && k in s.db.cases && s.db.cases[k].state.Stopped?
    ensures var s' := Next(s, Webhook(e, degraded));
      k in s'.db.cases && s'.db.cases[k].failure == s.db.cases[k].failure
  {
    hide Safe, Next, EventLeaves;
    if e.id in s.db.claimed {
      HeardAlready(s, e, degraded);
    } else {
      EventsLeave(s, e, degraded);
      LeavesCause(s.db, Next(s, Webhook(e, degraded)).db, e, degraded, s.p, k);
    }
  }

  lemma LeavesCause(db: Db, db': Db, e: PaymentEvent, degraded: bool, p: Settings, k: Key)
    requires EventLeaves(db, db', e, degraded, p) && k in db.cases && db.cases[k].state.Stopped?
    ensures k in db'.cases && db'.cases[k].failure == db.cases[k].failure
  {
    hide Ruled, Learns, Blank, OnlyCounts, LinkFate, OtherLink, Reports, Secures;
    if IsFailureEvent(e.kind) {
      hide SuccessLeaves, LinkLeaves, ReversalLeaves;
    } else if IsSuccessEvent(e.kind) {
      hide FailureLeaves, LinkLeaves, ReversalLeaves;
    } else if IsLinkEvent(e.kind) {
      hide FailureLeaves, SuccessLeaves, ReversalLeaves;
    } else {
      hide FailureLeaves, SuccessLeaves, LinkLeaves;
    }
  }

  lemma CancelKeepsCause(s: Sys, pc: PendingCancel, answer: Answer<LinkStatus>, at: Time, k: Key)
    requires Keyed(s.db) && k in s.db.cases
    ensures var s' := CancelDone(s, pc, answer, at);
      k in s'.db.cases && s'.db.cases[k].failure == s.db.cases[k].failure
  {
    hide CancelCommit;
    CancelCommitKeepsCause(s.db, pc, answer, at, k);
  }

  lemma CancelCommitKeepsCause(db: Db, pc: PendingCancel, answer: Answer<LinkStatus>, at: Time, k: Key)
    requires Keyed(db) && k in db.cases
    ensures var r := CancelCommit(db, pc, answer, at);
      r.Ok? ==> k in r.value.cases && r.value.cases[k].failure == db.cases[k].failure
  {
    if pc.key in db.cases {
      var c := db.cases[pc.key];
      assert AfterCancel(c, answer, at).key == pc.key && AfterCancel(c, answer, at).failure == c.failure;
    }
    hide AfterCancel;
  }

  lemma PlanKeepsCause(s: Sys, d: nat, k: Key)
    requires Keyed(s.db) && k in s.db.cases
    ensures var s' := CommitsPlan(s, d);
      k in s'.db.cases && s'.db.cases[k].failure == s.db.cases[k].failure
  {
    if d in s.tasks && s.tasks[d].Planned? {
      StateKeepsCause(s.db, s.tasks[d].snapshot, s.tasks[d].decision, s.tasks[d].now, k);
    }
    hide CommitState;
  }

  lemma StateKeepsCause(db: Db, snapshot: RecoveryCase, d: Decision, now: Time, k: Key)
    requires Keyed(db) && k in db.cases
    ensures var db' := CommitState(db, snapshot, d, now).0;
      k in db'.cases && db'.cases[k].failure == db.cases[k].failure
  {
    hide AllowedTransition, ParkedReason;
  }

  lemma PreviewKeepsCause(db: Db, snapshot: RecoveryCase, at: Time, k: Key)
    requires Keyed(db) && k in db.cases
    ensures var r := SavePreview(db, snapshot, at);
      r.Ok? ==> k in r.value.cases && r.value.cases[k].failure == db.cases[k].failure
  {
  }

  // What dispatch stops, it planned to stop.
  lemma PlannedStop(s: Sys, d: nat, k: Key)
    requires Safe(s) && Enters(s.db, CommitsPlan(s, d).db, k, Stopped)
    ensures d in s.tasks && s.tasks[d].Planned?
    ensures var t := s.tasks[d];
      && t.decision.target.Stopped? && t.snapshot.key == k
      && k in s.db.cases && s.db.cases[k].customer == t.snapshot.customer
  {
    if d in s.tasks && s.tasks[d].Planned? {
      var t := s.tasks[d];
      assert TaskOk(t, s.seen, s.p) && Newer(t.snapshot, s.db.cases[t.snapshot.key]);
      assert s.db.cases[t.snapshot.key].key == t.snapshot.key by {
        assert CaseOk(t.snapshot.key, s.db.cases[t.snapshot.key], s.p);
      }
    }
    hide Safe, AllowedTransition;
  }

  lemma StopStaysFair(s: Sys, step: Step, k: Key)
    requires Safe(s) && Fair(s)
    ensures StopIsFair(Next(s, step).db, k)
  {
    hide Safe, Next, PersonOut;
    var db, db' := s.db, Next(s, step).db;
    if Enters(db, db', k, Stopped) {
      ParkingEntered(s, step, k);
      if step.CommitPlan? {
        StopWasPlanned(s, step, k);
        PersonStaysOut(s, step, k, db.cases[k].customer);
        OptOutStays(s, step, k);
      } else if db'.cases[k].attention.optedOut {
        assert SpeaksFor(db', k, k, db'.cases[k].customer);
        assert PersonOut(db', k, db'.cases[k].customer) by {
          IsOut(db', k, db'.cases[k].customer);
        }
      }
    } else if k in db'.cases && db'.cases[k].state.Stopped? {
      assert StopIsFair(db, k);
      CauseStands(s, step, k);
      OptOutStays(s, step, k);
      if db.cases[k].failure.cause != Some(Risk) {
        PersonStaysOut(s, step, k, db.cases[k].customer);
      }
    }
  }

  lemma IsOut(db: Db, k: Key, customer: Option<CustomerId>)
    requires SpeaksFor(db, k, k, customer)
    ensures PersonOut(db, k, customer)
  {
  }

  lemma StopWasPlanned(s: Sys, step: Step, k: Key)
    requires Safe(s) && Fair(s) && step.CommitPlan? && Enters(s.db, Next(s, step).db, k, Stopped)
    ensures k in s.db.cases && PersonOut(s.db, k, s.db.cases[k].customer)
  {
    hide Safe, CommitsPlan, PersonOut;
    PlannedStop(s, step.d, k);
    assert PlanIsFair(s.db, s.tasks[step.d]);
  }

  lemma {:induction false} RunIsFair(p: Settings, n: nat, steps: seq<Step>)
    ensures Fair(Run(Init(p, n), steps))
  {
    hide Safe, Next, StopIsFair, PlanIsFair;
    if steps == [] {
      NothingIsUnfair(p, n);
    } else {
      var before, last := steps[..|steps| - 1], steps[|steps| - 1];
      RunIsFair(p, n, before);
      SafeInit(p, n);
      SafeRun(Init(p, n), before);
      PlansStayFair(Run(Init(p, n), before), last);
      forall k ensures StopIsFair(Run(Init(p, n), steps).db, k) {
        StopStaysFair(Run(Init(p, n), before), last, k);
      }
    }
  }

  lemma NothingIsUnfair(p: Settings, n: nat)
    ensures Fair(Init(p, n))
  {
  }

  // A case is given up for good only for a risk decision or because its person is not to be contacted: an elapsed
  // retry, a spent budget, a running cooldown or a provider's refusal never stops one.
  lemma StoppedForAReason(s: Sys, k: Key)
    requires Reachable(s) && k in s.db.cases && s.db.cases[k].state.Stopped?
    ensures s.db.cases[k].failure.cause == Some(Risk) || PersonOut(s.db, k, s.db.cases[k].customer)
  {
    hide Run, PersonOut;
    var p, n, steps :| s == Run(Init(p, n), steps);
    RunIsFair(p, n, steps);
    assert StopIsFair(s.db, k);
  }

  // ------------------------------------------------------------ one attempt

  ghost predicate TriedOnce(db: Db) {
    forall k {:trigger CreateKey(k)} :: CreateKey(k) in db.actions ==> db.actions[CreateKey(k)].attempts == 1
  }

  lemma StillTriedOnce(s: Sys, step: Step)
    requires Safe(s) && TriedOnce(s.db)
    ensures TriedOnce(Next(s, step).db)
  {
    hide Safe, Next, Moves;
    if step.CommitLink? {
      CommitTriesNothing(s, step);
    } else if step.RecordIntent? {
      IntentTriesOnce(s, step);
    } else {
      QuietSteps(s, step);
    }
  }

  lemma CommitTriesNothing(s: Sys, step: Step)
    requires Safe(s) && TriedOnce(s.db) && step.CommitLink?
    ensures TriedOnce(Next(s, step).db)
  {
    hide Safe, CreateCommit;
    if step.d in s.tasks && s.tasks[step.d].Answered? {
      CreateSettles(s, step.d);
      hide CommitsLink, OnlyRow, LinkedTo, LinkRefused;
    }
  }

  lemma IntentTriesOnce(s: Sys, step: Step)
    requires TriedOnce(s.db) && step.RecordIntent?
    ensures TriedOnce(Next(s, step).db)
  {
  }

  // Creating a link is tried once: no create on record, in whatever way it ended, counts a second attempt.
  lemma {:induction false} CreatesAreTriedOnce(p: Settings, n: nat, steps: seq<Step>)
    ensures TriedOnce(Run(Init(p, n), steps).db)
  {
    hide Safe, Next;
    if steps != [] {
      var before := steps[..|steps| - 1];
      CreatesAreTriedOnce(p, n, before);
      SafeInit(p, n);
      SafeRun(Init(p, n), before);
      hide TriedOnce;
      StillTriedOnce(Run(Init(p, n), before), steps[|steps| - 1]);
    }
  }
}
