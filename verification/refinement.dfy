// How the service's sequential operations are runs of the protocol, so that what holds of every run holds of them.
module Refinement {
  import opened Base
  import opened Models
  import opened Engine
  import opened Protocol

  ghost predicate Leads(s: Sys, s': Sys) {
    exists steps :: s' == Run(s, steps)
  }

  lemma {:induction false} RunConcat(s: Sys, a: seq<Step>, b: seq<Step>)
    ensures Run(s, a + b) == Run(Run(s, a), b)
  {
    hide Next;
    if b == [] {
      assert a + b == a;
    } else {
      RunConcat(s, a, b[..|b| - 1]);
      assert (a + b)[..|a + b| - 1] == a + b[..|b| - 1];
    }
  }

  lemma LeadsNowhere(s: Sys)
    ensures Leads(s, s)
  {
    assert s == Run(s, []);
  }

  lemma LeadsBy(s: Sys, step: Step)
    ensures Leads(s, Next(s, step))
  {
    hide Next;
    assert [step][..0] == [];
    assert Run(s, [step]) == Next(Run(s, []), step);
  }

  lemma LeadsOn(a: Sys, b: Sys, c: Sys)
    requires Leads(a, b) && Leads(b, c)
    ensures Leads(a, c)
  {
    var x :| b == Run(a, x);
    var y :| c == Run(b, y);
    RunConcat(a, x, y);
    assert c == Run(a, x + y);
  }

  lemma LeadsByTwo(s: Sys, a: Step, b: Step)
    ensures Leads(s, Next(Next(s, a), b))
  {
    hide Next, Leads;
    LeadsBy(s, a);
    LeadsBy(Next(s, a), b);
    LeadsOn(s, Next(s, a), Next(Next(s, a), b));
  }

  lemma LeadsByFour(s: Sys, a: Step, b: Step, c: Step, d: Step)
    ensures Leads(s, Next(Next(Next(Next(s, a), b), c), d))
  {
    hide Next, Leads;
    LeadsByTwo(s, a, b);
    var mid := Next(Next(s, a), b);
    LeadsByTwo(mid, c, d);
    LeadsOn(s, mid, Next(Next(mid, c), d));
  }

  // Reading a batch.
  lemma {:induction false} ReadingLeads(s: Sys, batch: seq<RecoveryCase>)
    requires forall c | c in batch :: c.key in s.db.cases && s.db.cases[c.key] == c
    ensures Leads(s, s.(seen := s.seen + (set c | c in batch)))
  {
    if batch == [] {
      assert s.seen + (set c | c in batch) == s.seen;
      LeadsNowhere(s);
    } else {
      var rest, c := batch[..|batch| - 1], batch[|batch| - 1];
      assert forall x :: x in batch <==> x in rest || x == c;
      hide Leads;
      ReadingLeads(s, rest);
      var mid := s.(seen := s.seen + (set x | x in rest));
      LeadsBy(mid, ReadCase(c.key));
      assert Next(mid, ReadCase(c.key)).seen == s.seen + (set x | x in batch);
      LeadsOn(s, mid, Next(mid, ReadCase(c.key)));
    }
  }

  predicate Timed(c: RecoveryCase) {
    c.state.Cooldown? || c.state.RetryScheduled?
  }

  // A timer promotion: plan from the snapshot, then commit.
  lemma TimerLeads(s: Sys, d: nat, c: RecoveryCase, degraded: bool, slot: bool, offset: int, now: Time)
    requires Free(s, d) && c in s.seen && Timed(c) && c.nextActionAt.Some? && c.nextActionAt.value <= now
    ensures var plan := PlanTimed(s.db, s.p, c, degraded, slot, offset, now);
      Leads(s, s.(db := CommitState(s.db, c, plan, now).0))
  {
    hide PlanTimed, CommitState, Leads;
    var a, b := PlanTimer(d, c, degraded, slot, offset, now), CommitPlan(d);
    LeadsByTwo(s, a, b);
    assert Next(s, a).tasks - {d} == s.tasks;
  }

  // A refused contact check: the refusal is planned and committed.
  lemma RefusalLeads(s: Sys, d: nat, c: RecoveryCase, now: Time)
    requires Free(s, d) && c in s.seen && c.state.ConsentRequired? && MayContact(s.db, s.p, c, now).Some?
    ensures var reason := MayContact(s.db, s.p, c, now).value;
      Leads(s, s.(db := CommitState(s.db, c, Decision(RefusalTarget(reason), reason, None), now).0))
  {
    hide MayContact, CommitState, Leads, RefusalTarget;
    var a, b := CheckContact(d, c, now), CommitPlan(d);
    LeadsByTwo(s, a, b);
    assert Next(s, a).tasks - {d} == s.tasks;
  }

  // Where the protocol is once the provider has answered a create.
  function Asked(s: Sys, key: Key, now: Time): Sys {
    s.(db := CreateIntent(s.db, key, now).0, creates := s.creates + multiset{key})
  }

  // Check, intent and provider call.
  lemma AskingSteps(s: Sys, d: nat, c: RecoveryCase, answer: Answer<NewLink>, now: Time)
    requires Free(s, d) && c in s.seen && c.state.ConsentRequired? && MayContact(s.db, s.p, c, now).None?
    requires CreateIntent(s.db, c.key, now).1
    ensures Next(Next(Next(s, CheckContact(d, c, now)), RecordIntent(d)), ProviderCreates(d, answer)) ==
      Asked(s, c.key, now).(tasks := s.tasks[d := Answered(c.key, answer, now)])
  {
    hide MayContact, CreateIntent;
    var s1 := Next(s, CheckContact(d, c, now));
    assert s1 == s.(tasks := s.tasks[d := Checked(c, now)]);
    var s2 := Next(s1, RecordIntent(d));
    assert s2 == s.(db := CreateIntent(s.db, c.key, now).0, tasks := s.tasks[d := Creating(c.key, now)]);
  }

  // A link creation that got through.
  lemma CreationLeads(s: Sys, d: nat, c: RecoveryCase, answer: Answer<NewLink>, now: Time)
    requires Free(s, d) && c in s.seen && c.state.ConsentRequired? && MayContact(s.db, s.p, c, now).None?
    requires CreateIntent(s.db, c.key, now).1
    requires CreateCommit(Asked(s, c.key, now).db, c.key, answer, now).Ok?
    ensures exists log :: Leads(s, Asked(s, c.key, now).(
      db := CreateCommit(Asked(s, c.key, now).db, c.key, answer, now).value.0, contacts := log))
  {
    hide MayContact, CreateCommit, Leads, CreateIntent, Next;
    AskingSteps(s, d, c, answer, now);
    LeadsByFour(s, CheckContact(d, c, now), RecordIntent(d), ProviderCreates(d, answer), CommitLink(d));
    CommittingStep(s, Asked(s, c.key, now), d, c.key, answer, now);
  }

  lemma CommittingStep(s: Sys, asked: Sys, d: nat, key: Key, answer: Answer<NewLink>, now: Time)
    requires d !in s.tasks && asked.tasks == s.tasks && CreateCommit(asked.db, key, answer, now).Ok?
    ensures exists log ::
      Next(asked.(tasks := s.tasks[d := Answered(key, answer, now)]), CommitLink(d)) ==
        asked.(db := CreateCommit(asked.db, key, answer, now).value.0, contacts := log)
  {
    hide CreateCommit;
    var s3 := asked.(tasks := s.tasks[d := Answered(key, answer, now)]);
    assert s3.tasks - {d} == s.tasks;
    assert Next(s3, CommitLink(d)) ==
      asked.(db := CreateCommit(asked.db, key, answer, now).value.0, contacts := Next(s3, CommitLink(d)).contacts);
  }

  // A link creation whose outcome could not be committed.
  lemma LostCreationLeads(s: Sys, d: nat, c: RecoveryCase, answer: Answer<NewLink>, now: Time)
    requires Free(s, d) && c in s.seen && c.state.ConsentRequired? && MayContact(s.db, s.p, c, now).None?
    requires CreateIntent(s.db, c.key, now).1
    ensures Leads(s, Asked(s, c.key, now))
  {
    hide MayContact, CreateIntent, Leads;
    AskingSteps(s, d, c, answer, now);
    LeadsByFour(s, CheckContact(d, c, now), RecordIntent(d), ProviderCreates(d, answer), DispatcherCrashes(d));
    assert (s.tasks[d := Answered(c.key, answer, now)] - {d}) == s.tasks;
  }

  // A delivery, with the cancel it hands on; `committed` says whether the cancel's outcome was committed.
  lemma DeliveryLeads(s: Sys, e: PaymentEvent, degraded: bool, answer: Answer<LinkStatus>, now: Time, committed: bool)
    requires Ingest(s.db, e, degraded, s.p).Ok?
    ensures var (db1, pending) := Ingest(s.db, e, degraded, s.p).value;
      if pending.None? then Leads(s, s.(db := db1))
      else
        var s1 := s.(db := db1, issued := s.issued + multiset{pending.value.action});
        var r := CancelCommit(db1, pending.value, answer, now);
        Leads(s, if committed && r.Ok? then s1.(db := r.value) else s1)
  {
    hide Ingest, CancelCommit, Leads;
    var (db1, pending) := Ingest(s.db, e, degraded, s.p).value;
    if pending.None? {
      LeadsBy(s, Webhook(e, degraded));
    } else {
      var mid := Next(s, Webhook(e, degraded));
      assert mid.cancels - multiset{pending.value} == s.cancels;
      LeadsByTwo(s, Webhook(e, degraded),
                 if committed then CancelReturns(pending.value, answer, now) else CancelLost(pending.value));
    }
  }

  lemma ReopenLeads(s: Sys, key: Key, fc: Option<FailureClass>, degraded: bool, now: Time)
    requires Reopen(s.db, key, fc, degraded, now, s.p).Ok?
    ensures Leads(s, s.(db := Reopen(s.db, key, fc, degraded, now, s.p).value))
  {
    hide Reopen, Leads;
    LeadsBy(s, OperatorReopens(key, fc, degraded, now));
  }

  // A sweep lists a failed cancel.
  function Listed(s: Sys, ak: ActionKey): PendingCancel
    requires SweptLink(s.db, ak).Some?
  {
    PendingCancel(ak.key, ak, SweptLink(s.db, ak).value)
  }

  lemma ListingLeads(s: Sys, ak: ActionKey)
    requires ak.IsCancel() && ak in s.db.actions && s.db.actions[ak].status == Failed && SweptLink(s.db, ak).Some?
    ensures Leads(s, s.(swept := s.swept + {Listed(s, ak)}))
  {
    hide Leads, SweptLink;
    LeadsBy(s, SweepLists(ak));
  }

  // The link reads cancelled already: close the row.
  lemma ClosingLeads(s: Sys, pc: PendingCancel)
    requires pc in s.swept && pc.key in s.db.cases && s.db.cases[pc.key].linkStatus == Some(LinkStatus.Cancelled)
    ensures Leads(s, s.(db := CompleteAction(s.db, pc.action, Succeeded, None), closing := s.closing + {pc.action}))
  {
    hide Leads, CompleteAction;
    LeadsByTwo(s, SweepSeesCancelled(pc), SweepCloses(pc.action));
  }

  // A reclaimed cancel, its answer committed or lost.
  lemma RetryLeads(s: Sys, pc: PendingCancel, answer: Answer<LinkStatus>, now: Time, committed: bool)
    requires pc in s.swept && Claimable(s.db, pc.action, s.p.maxLinkCancelAttempts)
    ensures var a := Action(ActionStatus.Started, 1, Some(pc.link), 0);
      var s1 := s.(db := ClaimAction(s.db, pc.action, a, s.p.maxLinkCancelAttempts).0,
                   issued := s.issued + multiset{pc.action});
      var r := CancelCommit(s1.db, pc, answer, now);
      Leads(s, if committed && r.Ok? then s1.(db := r.value) else s1)
  {
    hide CancelCommit, Leads;
    var mid := Next(s, SweepClaims(pc));
    assert mid.cancels - multiset{pc} == s.cancels;
    LeadsByTwo(s, SweepClaims(pc), if committed then CancelReturns(pc, answer, now) else CancelLost(pc));
  }
}

// What holds in every reachable state holds after every service operation.
module RunSafety {
  import opened Protocol
  import opened ProtocolTheorems
  import opened Refinement

  lemma ReachableOn(s: Sys, s': Sys)
    requires Reachable(s) && Leads(s, s')
    ensures Reachable(s') && Safe(s')
  {
    var p, n, a :| s == Run(Init(p, n), a);
    var b :| s' == Run(s, b);
    RunConcat(Init(p, n), a, b);
    ReachableIsSafe(s') by {
      assert s' == Run(Init(p, n), a + b);
    }
    hide Safe;
  }
}
