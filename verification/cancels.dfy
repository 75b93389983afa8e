// The invariant of the link-cancellation side of the protocol: cancels are claimed one at a time and boundedly
// often, and a collected case never keeps a payable link unattended.
module CancelSafety {
  import opened Base
  import opened Models
  import opened Engine
  import opened Effects
  import opened Protocol
  import opened LinkSafety

  // Every keyed cancel ever issued is counted by its row, rows stay within the attempt limit, and each is about
  // its case's one link.
  ghost predicate Counted(db: Db, issued: multiset<ActionKey>, p: Settings) {
    forall ak: ActionKey | ak.IsCancel() ::
      && issued[ak] == (if ak in db.actions then db.actions[ak].attempts else 0)
      && (ak in db.actions ==>
            && 1 <= db.actions[ak].attempts <= Max(1, p.maxLinkCancelAttempts)
            && ak.key in db.cases && db.cases[ak.key].linkId.Some?
            && (ak.LateCancelKey? ==> db.cases[ak.key].linkId == Some(ak.link)))
  }

  // A cancel in flight is alone on its key, and its row cannot be claimed meanwhile.
  ghost predicate AloneInFlight(db: Db, cancels: multiset<PendingCancel>) {
    && (forall pc | pc in cancels :: cancels[pc] == 1 && pc.action in db.actions
          && (db.actions[pc.action].status.Started? || db.actions[pc.action].status.Succeeded?))
    && (forall pc, pc' | pc in cancels && pc' in cancels && pc != pc' :: pc.action != pc'.action)
  }

  ghost predicate OnRecord(db: Db, swept: set<PendingCancel>, closing: set<ActionKey>) {
    && (forall pc | pc in swept :: pc.action in db.actions)
    && (forall ak | ak in closing :: ak in db.actions)
  }

  predicate Held(st: CaseState) {
    st.AuthorizedPendingCapture? || st.RecoveredNatural? || st.RecoveryReversed?
  }

  predicate CancelOnRecord(c: RecoveryCase, actions: map<ActionKey, Action>) {
    LateCancelOf(c) in actions || ReversalCancelKey(c.key) in actions
  }

  // While a link is payable, each of its cancels is under way or the case is flagged, and a collected or reversed
  // case has one.
  ghost predicate Attended(c: RecoveryCase, actions: map<ActionKey, Action>, closing: set<ActionKey>) {
    c.HasCancellableLink() ==>
      && (Held(c.state) ==> CancelOnRecord(c, actions))
      && (forall ak: ActionKey | ak in actions && ak.IsCancel() && ak.key == c.key ::
            c.reconcile || (actions[ak].status.Started? && ak !in closing))
  }

  ghost predicate AllAttended(db: Db, closing: set<ActionKey>) {
    forall k | k in db.cases :: db.cases[k].key == k && Attended(db.cases[k], db.actions, closing)
  }

  ghost predicate CancelInv(s: Sys) {
    && KeysOk(s)
    && Counted(s.db, s.issued, s.p)
    && AloneInFlight(s.db, s.cancels)
    && OnRecord(s.db, s.swept, s.closing)
    && AllAttended(s.db, s.closing)
  }

  // ------------------------------------------------------------- calm steps

  // A case change that cannot leave a payable link less attended than it was.
  predicate Calm(c: RecoveryCase, c': RecoveryCase) {
    && c'.key == c.key
    && (c.linkId.Some? ==> c'.linkId == c.linkId)
    && (c.linkId.Some? && c'.HasCancellableLink() ==>
          c.HasCancellableLink() && (c.reconcile ==> c'.reconcile) && (Held(c'.state) ==> Held(c.state)))
    && (c.linkId.None? ==> !Held(c'.state) || c'.linkId.None?)
  }

  ghost predicate CalmDb(db: Db, db': Db) {
    && (forall k | k in db.cases :: k in db'.cases && Calm(db.cases[k], db'.cases[k]))
    && (forall k | k in db'.cases && k !in db.cases :: db'.cases[k].key == k && db'.cases[k].linkId.None?)
    && SameCancels(db, db')
  }

  ghost predicate SameCancels(db: Db, db': Db) {
    forall ak: ActionKey | ak.IsCancel() :: (ak in db.actions <==> ak in db'.actions)
      && (ak in db.actions ==> db.actions[ak] == db'.actions[ak])
  }

  lemma CalmKeeps(s: Sys, s': Sys)
    requires CancelInv(s) && CalmDb(s.db, s'.db) && s'.p == s.p
    requires s'.cancels == s.cancels && s'.swept == s.swept && s'.closing == s.closing && s'.issued == s.issued
    ensures CancelInv(s')
  {
    assert KeysOk(s');
    CalmCounts(s, s');
    CalmAttends(s, s');
  }

  lemma CalmCounts(s: Sys, s': Sys)
    requires KeysOk(s) && Counted(s.db, s.issued, s.p) && AloneInFlight(s.db, s.cancels)
    requires OnRecord(s.db, s.swept, s.closing) && CalmDb(s.db, s'.db) && s'.p == s.p
    requires s'.cancels == s.cancels && s'.swept == s.swept && s'.closing == s.closing && s'.issued == s.issued
    ensures Counted(s'.db, s'.issued, s'.p) && AloneInFlight(s'.db, s'.cancels) && OnRecord(s'.db, s'.swept, s'.closing)
  {
    forall pc | pc in s'.cancels
      ensures pc.action in s'.db.actions && s'.db.actions[pc.action] == s.db.actions[pc.action]
    {
      assert pc.action.IsCancel();
    }
    forall pc | pc in s'.swept ensures pc.action in s'.db.actions {
      assert pc.action.IsCancel();
    }
    forall ak | ak in s'.closing ensures ak in s'.db.actions {
      assert ak.IsCancel();
    }
  }

  lemma CalmAttends(s: Sys, s': Sys)
    requires Counted(s.db, s.issued, s.p) && AllAttended(s.db, s.closing)
    requires CalmDb(s.db, s'.db) && s'.closing == s.closing
    ensures AllAttended(s'.db, s'.closing)
  {
    forall k | k in s'.db.cases
      ensures s'.db.cases[k].key == k && Attended(s'.db.cases[k], s'.db.actions, s'.closing)
    {
      var c' := s'.db.cases[k];
      if k in s.db.cases && c'.HasCancellableLink() {
        var c := s.db.cases[k];
        assert Calm(c, c') && Attended(c, s.db.actions, s.closing);
        if Held(c'.state) {
          assert LateCancelOf(c').IsCancel() && ReversalCancelKey(k).IsCancel();
          assert CancelOnRecord(c, s.db.actions);
        }
        forall ak: ActionKey | ak in s'.db.actions && ak.IsCancel() && ak.key == c'.key
          ensures c'.reconcile || (s'.db.actions[ak].status.Started? && ak !in s'.closing)
        {
          assert ak in s.db.actions && s.db.cases[ak.key].linkId.Some?;
        }
      }
    }
  }

  lemma CalmFailure(c: RecoveryCase, e: PaymentEvent, degraded: bool, p: Settings)
    requires !IsFinal(c.state)
    ensures Calm(c, AfterFailure(c, e, degraded, p))
  {
    DecisionFits(WithFailure(c, e, p), degraded, e.at, p);
    hide Decide;
  }

  lemma CalmLinkEvent(c: RecoveryCase, e: PaymentEvent)
    ensures Calm(c, AfterLinkEvent(c, e))
  {
    var outcome := LinkOutcome(e.kind, c.state == AuthorizedPendingCapture);
    assert !outcome.0.Issued? && !outcome.0.Created?;
    hide LinkOutcome, AllowedTransition;
  }

  lemma CalmReopen(c: RecoveryCase, fc: Option<FailureClass>, degraded: bool, now: Time, p: Settings)
    requires c.state.ManualReview?
    ensures Calm(c, AfterReopen(c, fc, degraded, now, p))
  {
    var c1 := c.(failure := c.failure.(cause := if fc.Some? then fc else c.failure.cause), attempts := 0,
                 stopReason := None, nextActionAt := None);
    DecisionFits(c1, degraded, now, p);
    hide Decide;
  }

  lemma RowsAreKeyed(db: Db, p: Settings)
    requires DbOk(db, p)
    ensures Keyed(db)
  {
  }

  lemma CalmReflexive(db: Db)
    requires Keyed(db)
    ensures CalmDb(db, db)
  {
  }

  // A transaction that saves a calm change over its row, and completes or records no cancel, is calm.
  lemma CalmSave(db: Db, c: RecoveryCase, db': Db)
    requires Keyed(db) && c.key in db.cases && Calm(db.cases[c.key], c) && SameCancels(db, db')
    requires db'.cases == db.cases[c.key := c.(version := c.version + 1)]
    ensures CalmDb(db, db')
  {
  }

  lemma CalmFailureDb(db: Db, e: PaymentEvent, degraded: bool, p: Settings)
    requires DbOk(db, p)
    ensures HandleFailure(db, e, degraded, p).Ok? && CalmDb(db, HandleFailure(db, e, degraded, p).value)
  {
    assert e.key in db.cases ==> CaseOk(e.key, db.cases[e.key], p);
    hide AfterFailure, Quiet, Moves, Calm, CalmDb, DbOk, CaseOk, Carries, Saved, FromFailedEvent;
    FailureEffect(db, e, degraded, p);
    RowsAreKeyed(db, p);
    CalmReflexive(db);
    if e.key !in db.cases {
      CalmInsert(db, e, degraded, p);
    } else if !IsFinal(db.cases[e.key].state) {
      var c := db.cases[e.key];
      CalmFailure(c, e, degraded, p);
      FailureCase(c, e, degraded, p);
      SavedShape(c, AfterFailure(c, e, degraded, p));
      CalmSave(db, AfterFailure(c, e, degraded, p), HandleFailure(db, e, degraded, p).value);
    }
  }

  lemma SavedShape(c: RecoveryCase, c': RecoveryCase)
    requires Saved(c, c')
    ensures c'.key == c.key && c'.version == c.version
  {
  }

  lemma CalmInsert(db: Db, e: PaymentEvent, degraded: bool, p: Settings)
    requires DbOk(db, p) && e.key !in db.cases
    ensures HandleFailure(db, e, degraded, p).Ok? && CalmDb(db, HandleFailure(db, e, degraded, p).value)
  {
    FailureEffect(db, e, degraded, p);
    FailureCase(FromFailedEvent(e), e, degraded, p);
    hide AfterFailure, Quiet, Moves, DbOk;
  }

  lemma CalmLinkDb(db: Db, e: PaymentEvent, p: Settings)
    requires DbOk(db, p)
    ensures HandleLink(db, e).Ok? && CalmDb(db, HandleLink(db, e).value)
  {
    hide AfterLinkEvent, Quiet, Moves, Calm, CalmDb, DbOk, CaseOk, Carries, Saved, SameCancels, Keyed;
    RowOk(db, e.key, p);
    LinkEffect(db, e, p);
    RowsAreKeyed(db, p);
    CalmReflexive(db);
    if e.key in db.cases {
      var c := db.cases[e.key];
      CalmLinkEvent(c, e);
      LinkEventCase(c, e, p);
      SavedShape(c, AfterLinkEvent(c, e));
      if HandleLink(db, e).value != db {
        SameActions(db, HandleLink(db, e).value);
        CalmSave(db, AfterLinkEvent(c, e), HandleLink(db, e).value);
      }
    }
  }

  lemma SameActions(db: Db, db': Db)
    requires db'.actions == db.actions
    ensures SameCancels(db, db')
  {
  }

  // Dispatchers and operators never disturb the cancels.
  lemma DispatchIsCalm(s: Sys, step: Step)
    requires Inv(s) && CancelInv(s) && IsDispatchStep(step)
    ensures CancelInv(Next(s, step))
  {
    DispatchSparesCancels(s, step);
    DispatchCalmDb(s, step);
    hide Inv, CancelInv, CalmDb, Next;
    CalmKeeps(s, Next(s, step));
  }

  lemma CalmCommitLink(s: Sys, d: nat)
    requires Inv(s)
    ensures CalmDb(s.db, CommitsLink(s, d).db)
  {
    RowsAreKeyed(s.db, s.p);
    CalmReflexive(s.db);
    if d in s.tasks && s.tasks[d].Answered? {
      AnswerOwnsRow(s, d);
      CalmCreateCommit(s.db, s.tasks[d].key, s.tasks[d].answer, s.tasks[d].now);
    }
    hide Inv, CreateCommit, CalmDb;
  }

  lemma CalmCreateCommit(db: Db, k: Key, answer: Answer<NewLink>, now: Time)
    requires Keyed(db) && (k in db.cases ==> db.cases[k].linkId.None?)
    ensures var r := CreateCommit(db, k, answer, now);
      r.Ok? ==> CalmDb(db, r.value.0)
  {
    var r := CreateCommit(db, k, answer, now);
    CalmReflexive(db);
    if r.Ok? {
      var db' := r.value.0;
      assert SameCancels(db, db');
      if k in db.cases && db.cases[k].state == ConsentRequired {
        var c := db.cases[k];
        if answer.Refused? {
          CalmSave(db, AfterCreateRefused(c, answer.retryable, now).value, db');
        } else {
          CalmSave(db, AfterLinkCreated(c, answer.value, now).value, db');
        }
      }
    }
  }

  lemma CalmCommitPlan(s: Sys, d: nat)
    requires DbOk(s.db, s.p) && TasksOk(s)
    ensures CalmDb(s.db, CommitsPlan(s, d).db)
  {
    RowsAreKeyed(s.db, s.p);
    CalmReflexive(s.db);
    if d in s.tasks && s.tasks[d].Planned? {
      var t := s.tasks[d];
      assert TaskOk(t, s.seen, s.p) && !Held(t.decision.target);
      hide TaskOk, AllowedTransition, DbOk, TasksOk, PlanFits;
      var db' := CommitsPlan(s, d).db;
      if db' != s.db {
        CalmSave(s.db, AfterPlan(s.db.cases[t.snapshot.key], t.decision, t.now), db');
      }
    }
  }

  lemma CalmReopenDb(db: Db, key: Key, fc: Option<FailureClass>, degraded: bool, at: Time, p: Settings)
    requires DbOk(db, p) && Reopen(db, key, fc, degraded, at, p).Ok?
    ensures CalmDb(db, Reopen(db, key, fc, degraded, at, p).value)
  {
    RowsAreKeyed(db, p);
    CalmReopen(db.cases[key], fc, degraded, at, p);
    hide AfterReopen, DbOk, Calm, CalmDb;
    CalmSave(db, AfterReopen(db.cases[key], fc, degraded, at, p), Reopen(db, key, fc, degraded, at, p).value);
  }

  lemma DispatchCalmDb(s: Sys, step: Step)
    requires Inv(s) && IsDispatchStep(step)
    ensures CalmDb(s.db, Next(s, step).db)
  {
    RowsAreKeyed(s.db, s.p);
    CalmReflexive(s.db);
    if step.CommitPlan? {
      CalmCommitPlan(s, step.d);
      hide CommitsPlan, Inv, CalmDb;
    } else if step.CommitLink? {
      CalmCommitLink(s, step.d);
      hide CommitsLink, Inv, CalmDb;
    } else if step.OperatorReopens? {
      if Reopen(s.db, step.key, step.failureClass, step.degraded, step.at, s.p).Ok? {
        CalmReopenDb(s.db, step.key, step.failureClass, step.degraded, step.at, s.p);
      }
      hide Reopen, Inv, CalmDb;
    } else if step.PreviewSaved? {
      CalmPreview(s.db, step.snapshot, step.at);
      hide SavePreview, Inv, CalmDb;
    } else {
      hide Inv, Next, Calm;
      CalmOthers(s, step);
    }
  }

  lemma CalmPreview(db: Db, snapshot: RecoveryCase, at: Time)
    requires Keyed(db)
    ensures SavePreview(db, snapshot, at).Ok? ==> CalmDb(db, SavePreview(db, snapshot, at).value)
  {
    if SavePreview(db, snapshot, at).Ok? {
      CalmSave(db, db.cases[snapshot.key].(preview := true, updatedAt := at), SavePreview(db, snapshot, at).value);
    }
  }

  lemma CalmOthers(s: Sys, step: Step)
    requires IsDispatchStep(step) && !step.CommitPlan? && !step.CommitLink? && !step.OperatorReopens?
      && !step.PreviewSaved?
    ensures Next(s, step).db.cases == s.db.cases && SameCancels(s.db, Next(s, step).db)
  {
    hide SameCancels, CreateIntent, MayContact, PlanTimed, Ingests, CancelDone, CommitsPlan, CommitsLink, ListsFailed,
      SeesCancelled, Closes, Reclaims, Reopen, SavePreview;
    SameCancelsReflexive(s.db);
    if step.RecordIntent? && step.d in s.tasks && s.tasks[step.d].Checked? {
      IntentIsCalm(s.db, s.tasks[step.d].snapshot.key, s.tasks[step.d].now);
    }
  }

  lemma SameCancelsReflexive(db: Db)
    ensures SameCancels(db, db)
  {
  }

  lemma IntentIsCalm(db: Db, key: Key, now: Time)
    ensures CreateIntent(db, key, now).0.cases == db.cases && SameCancels(db, CreateIntent(db, key, now).0)
    ensures SameCancels(db, db)
  {
  }

  // ----------------------------------------------------------- cancel steps

  // A claim won on a cancel key: the row is started, one more attempt is counted, and everything else stays.
  ghost predicate Won(actions: map<ActionKey, Action>, actions': map<ActionKey, Action>, ak: ActionKey, max: int) {
    && ak in actions'
    && actions' == actions[ak := actions'[ak]]
    && actions'[ak].status.Started?
    && (ak !in actions ==> actions'[ak].attempts == 1)
    && (ak in actions ==>
          actions[ak].status.Failed? && actions[ak].attempts < max && actions'[ak].attempts == actions[ak].attempts + 1)
  }

  ghost predicate Launched(s: Sys, s': Sys, pc: PendingCancel) {
    && pc.action.IsCancel()
    && Won(s.db.actions, s'.db.actions, pc.action, s.p.maxLinkCancelAttempts)
    && s'.p == s.p
    && (forall k | k in s.db.cases && s.db.cases[k].linkId.Some? ::
          k in s'.db.cases && s'.db.cases[k].linkId == s.db.cases[k].linkId)
    && pc.action.key in s'.db.cases && s'.db.cases[pc.action.key].linkId.Some?
    && (pc.action.LateCancelKey? ==> s'.db.cases[pc.action.key].linkId == Some(pc.action.link))
    && s'.cancels == s.cancels + multiset{pc}
    && s'.issued == s.issued + multiset{pc.action}
    && s'.swept == s.swept
    && s'.closing == s.closing
  }

  lemma LaunchCounts(s: Sys, s': Sys, pc: PendingCancel)
    requires Counted(s.db, s.issued, s.p) && Launched(s, s', pc)
    ensures Counted(s'.db, s'.issued, s'.p)
  {
  }

  lemma LaunchIsAlone(s: Sys, s': Sys, pc: PendingCancel)
    requires AloneInFlight(s.db, s.cancels) && OnRecord(s.db, s.swept, s.closing) && Launched(s, s', pc)
    ensures AloneInFlight(s'.db, s'.cancels) && OnRecord(s'.db, s'.swept, s'.closing)
  {
    assert forall c | c in s.cancels :: c.action != pc.action;
  }

  // Launching a cancel of a case that stays attended.
  lemma LaunchAttends(c: RecoveryCase, actions: map<ActionKey, Action>, actions': map<ActionKey, Action>,
                      closing: set<ActionKey>, ak: ActionKey, max: int)
    requires Attended(c, actions, closing) && Won(actions, actions', ak, max) && closing <= actions.Keys
    requires ak.IsCancel()
    ensures Attended(c, actions', closing)
  {
  }

  lemma ReclaimKeeps(s: Sys, pc: PendingCancel)
    requires CancelInv(s)
    ensures CancelInv(Reclaims(s, pc))
  {
    var s' := Reclaims(s, pc);
    if pc in s.swept && Claimable(s.db, pc.action, s.p.maxLinkCancelAttempts) {
      LaunchKeepsKeys(s, s'.db, Some(pc));
      assert Launched(s, s', pc);
      LaunchCounts(s, s', pc);
      LaunchIsAlone(s, s', pc);
      hide KeysOk, Counted, Launched, AloneInFlight;
      forall k | k in s'.db.cases ensures Attended(s'.db.cases[k], s'.db.actions, s'.closing) {
        LaunchAttends(s.db.cases[k], s.db.actions, s'.db.actions, s.closing, pc.action, s.p.maxLinkCancelAttempts);
      }
    }
  }

  lemma ListingKeepsCancels(s: Sys, ak: ActionKey)
    requires CancelInv(s)
    ensures CancelInv(ListsFailed(s, ak))
  {
    hide Counted, Attended;
  }

  // A sweep marks a row for closing only while its case's link reads cancelled, so no payable link loses attention.
  lemma MarkingKeepsCancels(s: Sys, pc: PendingCancel)
    requires CancelInv(s)
    ensures CancelInv(SeesCancelled(s, pc))
  {
    var s' := SeesCancelled(s, pc);
    hide Counted, AloneInFlight;
    forall k | k in s.db.cases ensures Attended(s.db.cases[k], s.db.actions, s'.closing) {
      assert Attended(s.db.cases[k], s.db.actions, s.closing);
    }
  }

  lemma LosingKeepsCancels(s: Sys, pc: PendingCancel)
    requires CancelInv(s)
    ensures CancelInv(s.(cancels := s.cancels - multiset{pc}))
  {
    hide Counted, Attended;
  }

  lemma ClosesKeepsCancels(s: Sys, ak: ActionKey)
    requires CancelInv(s)
    ensures CancelInv(Closes(s, ak))
  {
    var s' := Closes(s, ak);
    if ak in s.closing {
      assert ak.IsCancel() && ak in s.db.actions;
      assert Counted(s'.db, s'.issued, s'.p) && AloneInFlight(s'.db, s'.cancels);
      assert OnRecord(s'.db, s'.swept, s'.closing);
      forall k | k in s'.db.cases ensures Attended(s'.db.cases[k], s'.db.actions, s'.closing) {
        assert Attended(s.db.cases[k], s.db.actions, s.closing);
      }
    }
  }

  // The commit alone: the action row settles, and of the cases only this one changes.
  ghost predicate SettledDb(db: Db, db': Db, pc: PendingCancel) {
    && pc.action in db.actions && pc.key in db.cases
    && (exists row ::
          && db'.actions == db.actions[pc.action := row]
          && (row.status.Failed? || row.status.Succeeded?)
          && row.attempts == db.actions[pc.action].attempts)
    && db'.cases.Keys == db.cases.Keys
    && (forall k | k in db.cases && k != pc.key :: db'.cases[k] == db.cases[k])
    && db'.cases[pc.key].key == pc.key
    && db'.cases[pc.key].linkId == db.cases[pc.key].linkId
    && db'.cases[pc.key].state == db.cases[pc.key].state
    && (db'.cases[pc.key].HasCancellableLink() ==> db'.cases[pc.key].reconcile)
  }

  // A cancel's outcome: its row settles, its case keeps its link, and if that is still payable the case is flagged.
  ghost predicate Settled(s: Sys, s': Sys, pc: PendingCancel) {
    && pc in s.cancels && SettledDb(s.db, s'.db, pc)
    && s' == s.(db := s'.db, cancels := s.cancels - multiset{pc})
  }

  lemma FlagsWhatStaysPayable(c: RecoveryCase, answer: Answer<LinkStatus>, at: Time)
    ensures var c' := AfterCancel(c, answer, at);
      && (c'.HasCancellableLink() ==> c'.reconcile)
      && c'.linkId == c.linkId && c'.key == c.key && c'.state == c.state && c'.version == c.version
  {
  }

  lemma CommitSettles(db: Db, pc: PendingCancel, answer: Answer<LinkStatus>, at: Time)
    requires pc.action in db.actions && pc.key in db.cases && db.cases[pc.key].key == pc.key
    ensures CancelCommit(db, pc, answer, at).Ok? && SettledDb(db, CancelCommit(db, pc, answer, at).value, pc)
  {
    FlagsWhatStaysPayable(db.cases[pc.key], answer, at);
    hide AfterCancel;
    var row := db.actions[pc.action].(status := if answer.Refused? then Failed else Succeeded, link := Some(pc.link));
    assert CancelCommit(db, pc, answer, at).value.actions == db.actions[pc.action := row];
  }

  lemma CancelSettles(s: Sys, pc: PendingCancel, answer: Answer<LinkStatus>, at: Time)
    requires CancelInv(s) && pc in s.cancels
    ensures Settled(s, CancelDone(s, pc, answer, at), pc)
  {
    assert pc.action.IsCancel() && pc.action.key == pc.key && pc.action in s.db.actions && pc.key in s.db.cases;
    assert s.db.cases[pc.key].key == pc.key;
    hide CancelInv, SettledDb, CancelCommit;
    CommitSettles(s.db, pc, answer, at);
  }

  lemma SettledCounts(s: Sys, s': Sys, pc: PendingCancel)
    requires KeysOk(s) && Counted(s.db, s.issued, s.p) && AloneInFlight(s.db, s.cancels)
    requires OnRecord(s.db, s.swept, s.closing) && Settled(s, s', pc)
    ensures KeysOk(s') && Counted(s'.db, s'.issued, s'.p) && AloneInFlight(s'.db, s'.cancels)
    ensures OnRecord(s'.db, s'.swept, s'.closing)
  {
    SettledRows(s, s', pc);
    SettledAlone(s, s', pc);
    hide Counted, AloneInFlight, KeysOk;
  }

  lemma SettledAlone(s: Sys, s': Sys, pc: PendingCancel)
    requires AloneInFlight(s.db, s.cancels) && Settled(s, s', pc)
    ensures AloneInFlight(s'.db, s'.cancels)
  {
  }

  lemma SettledRows(s: Sys, s': Sys, pc: PendingCancel)
    requires KeysOk(s) && Counted(s.db, s.issued, s.p) && Settled(s, s', pc)
    ensures KeysOk(s') && Counted(s'.db, s'.issued, s'.p)
  {
  }

  lemma SettledAttends(s: Sys, s': Sys, pc: PendingCancel)
    requires KeysOk(s) && Counted(s.db, s.issued, s.p) && AllAttended(s.db, s.closing) && Settled(s, s', pc)
    ensures AllAttended(s'.db, s'.closing)
  {
    forall k | k in s'.db.cases
      ensures s'.db.cases[k].key == k && Attended(s'.db.cases[k], s'.db.actions, s'.closing)
    {
      assert s.db.cases[k].key == k && Attended(s.db.cases[k], s.db.actions, s.closing);
      if k == pc.key {
        assert pc.action.IsCancel() && pc.action.key == k && pc.action in s.db.actions;
        assert CancelOnRecord(s'.db.cases[k], s'.db.actions);
      }
    }
  }

  lemma CancelDoneKeepsCancels(s: Sys, pc: PendingCancel, answer: Answer<LinkStatus>, at: Time)
    requires CancelInv(s)
    ensures CancelInv(CancelDone(s, pc, answer, at))
  {
    if pc in s.cancels {
      CancelSettles(s, pc, answer, at);
      SettledCounts(s, CancelDone(s, pc, answer, at), pc);
      SettledAttends(s, CancelDone(s, pc, answer, at), pc);
    }
  }

  // ----------------------------------------------------- success and reversal

  predicate SameLink(c: RecoveryCase, c': RecoveryCase) {
    c'.key == c.key && c'.linkId == c.linkId && c'.linkStatus == c.linkStatus && (c.reconcile ==> c'.reconcile)
  }

  // What a claim on the case's live link under `ak` did to the action rows.
  ghost predicate ClaimOutcome(c: RecoveryCase, ak: ActionKey, pending: Option<PendingCancel>,
                               actions: map<ActionKey, Action>, actions': map<ActionKey, Action>, max: int)
  {
    if pending.Some? then
      && c.linkId.Some?
      && pending.value == PendingCancel(c.key, ak, c.linkId.value)
      && Won(actions, actions', ak, max)
    else
      actions' == actions && (c.HasCancellableLink() ==> ak in actions)
  }

  // An event that collects or reverses case k and claims, if it can, the cancel of its live link.
  ghost predicate Collects(db: Db, db': Db, k: Key, ak: ActionKey, pending: Option<PendingCancel>, max: int) {
    && db'.cases.Keys == db.cases.Keys && k in db.cases && db.cases[k].key == k
    && (forall j | j in db.cases :: SameLink(db.cases[j], db'.cases[j]))
    && (forall j | j in db.cases && j != k :: db'.cases[j].state == db.cases[j].state)
    && (ak == LateCancelOf(db.cases[k]) || ak == ReversalCancelKey(k))
    && ClaimOutcome(db.cases[k], ak, pending, db.actions, db'.actions, max)
  }

  lemma ClaimCollects(db: Db, c: RecoveryCase, ak: ActionKey, at: Time, p: Settings)
    ensures var (db', pending) := ClaimCancel(db, c, ak, at, p);
      db'.cases == db.cases && ClaimOutcome(c, ak, pending, db.actions, db'.actions, p.maxLinkCancelAttempts)
  {
  }

  lemma SuccessCollects(db: Db, e: PaymentEvent, p: Settings)
    requires DbOk(db, p) && e.key in db.cases && !IsFinal(db.cases[e.key].state)
    ensures var r := HandleSuccess(db, e, p);
      && r.Ok?
      && Collects(db, r.value.0, e.key, LateCancelOf(db.cases[e.key]), r.value.1, p.maxLinkCancelAttempts)
  {
    var c := db.cases[e.key];
    SuccessCase(c, e, p);
    var c' := AfterSuccess(c, e).value;
    assert SameLink(c, c') && LateCancelOf(c') == LateCancelOf(c) && c'.version == c.version && c.key == e.key;
    ClaimCollects(db, c', LateCancelOf(c), e.at, p);
    hide AfterSuccess, ClaimCancel, DbOk, CaseOk, Saved, Won;
  }

  lemma OptOutKeepsLinks(db: Db, customer: CustomerId, exclude: Key)
    requires Keyed(db)
    ensures var db' := OptOutCustomer(db, customer, exclude);
      && db'.cases.Keys == db.cases.Keys && db'.actions == db.actions
      && (forall j | j in db.cases :: SameLink(db.cases[j], db'.cases[j]) && db'.cases[j].state == db.cases[j].state)
      && (exclude in db.cases ==> db'.cases[exclude] == db.cases[exclude])
  {
  }

  lemma ReversalCollects(db: Db, e: PaymentEvent, p: Settings)
    requires DbOk(db, p) && e.key in db.cases && !db.cases[e.key].state.RecoveryReversed?
    ensures var r := HandleReversal(db, e, p);
      && r.Ok?
      && Collects(db, r.value.0, e.key, ReversalCancelKey(e.key), r.value.1, p.maxLinkCancelAttempts)
  {
    var c := db.cases[e.key];
    RowsAreKeyed(db, p);
    ReversalKeepsLink(c, e);
    assert c.key == e.key by {
      assert Keyed(db);
    }
    hide AfterReversal, DbOk, CaseOk, OptOutCustomer, ClaimCancel, ClaimOutcome, SameLink, Keyed;
    ClaimCollects(db, c, ReversalCancelKey(e.key), e.at, p);
    var db1 := ClaimCancel(db, c, ReversalCancelKey(c.key), e.at, p).0;
    var db2 := if c.customer.Some? then OptOutCustomer(db1, c.customer.value, c.key) else db1;
    OptOutsKeepLinks(db1, c);
    ReversedLast(db1, db2, c, AfterReversal(c, e));
  }

  lemma ReversalKeepsLink(c: RecoveryCase, e: PaymentEvent)
    ensures var c' := AfterReversal(c, e);
      SameLink(c, c') && SameLink(c, c'.(version := c'.version + 1)) && c'.version == c.version && c'.key == c.key
  {
  }

  lemma OptOutsKeepLinks(db: Db, c: RecoveryCase)
    requires Keyed(db) && c.key in db.cases && db.cases[c.key] == c
    ensures var db' := if c.customer.Some? then OptOutCustomer(db, c.customer.value, c.key) else db;
      && db'.cases.Keys == db.cases.Keys && db'.actions == db.actions && db'.cases[c.key] == c
      && (forall j | j in db.cases :: SameLink(db.cases[j], db'.cases[j]) && db'.cases[j].state == db.cases[j].state)
  {
    if c.customer.Some? {
      OptOutKeepsLinks(db, c.customer.value, c.key);
    }
    hide OptOutCustomer;
  }

  // The reversed case is saved after the opt-outs.
  lemma ReversedLast(db1: Db, db2: Db, c: RecoveryCase, c': RecoveryCase)
    requires db2.cases.Keys == db1.cases.Keys && db2.actions == db1.actions && c.key in db2.cases
    requires db2.cases[c.key] == c && c'.key == c.key && c'.version == c.version
    requires SameLink(c, c'.(version := c'.version + 1))
    requires forall j | j in db1.cases ::
      SameLink(db1.cases[j], db2.cases[j]) && db2.cases[j].state == db1.cases[j].state
    requires db1.cases[c.key] == c
    ensures var r := SaveCase(db2, c');
      && r.Ok? && r.value.cases.Keys == db1.cases.Keys && r.value.actions == db1.actions
      && (forall j | j in db1.cases :: SameLink(db1.cases[j], r.value.cases[j]))
      && (forall j | j in db1.cases && j != c.key :: r.value.cases[j].state == db1.cases[j].state)
  {
    hide SameLink;
  }

  lemma CollectedAttends(db: Db, db': Db, k: Key, ak: ActionKey, pending: Option<PendingCancel>, max: int,
                         closing: set<ActionKey>)
    requires AllAttended(db, closing) && Collects(db, db', k, ak, pending, max) && closing <= db.actions.Keys
    ensures AllAttended(db', closing)
  {
    forall j | j in db'.cases ensures db'.cases[j].key == j && Attended(db'.cases[j], db'.actions, closing) {
      var c, c' := db.cases[j], db'.cases[j];
      assert SameLink(c, c') && Attended(c, db.actions, closing);
      assert ak.IsCancel() && LateCancelOf(c') == LateCancelOf(c);
      if pending.Some? {
        LaunchAttends(c, db.actions, db'.actions, closing, ak, max);
      }
    }
  }

  lemma CollectKeeps(s: Sys, s': Sys, k: Key, ak: ActionKey, pending: Option<PendingCancel>)
    requires CancelInv(s) && Collects(s.db, s'.db, k, ak, pending, s.p.maxLinkCancelAttempts)
    requires s' == Launch(s, s'.db, pending)
    ensures CancelInv(s')
  {
    assert s.closing <= s.db.actions.Keys;
    CollectedAttends(s.db, s'.db, k, ak, pending, s.p.maxLinkCancelAttempts, s.closing);
    hide AllAttended, Counted, AloneInFlight, Launched;
    if pending.Some? {
      LaunchedByEvent(s, s', k, ak, pending.value);
      hide Collects;
      LaunchCounts(s, s', pending.value);
      LaunchIsAlone(s, s', pending.value);
      LaunchKeepsKeys(s, s'.db, pending);
    } else {
      CollectedWithoutClaim(s.db, s'.db, k, ak, s.issued, s.cancels, s.p);
    }
  }

  lemma CollectedWithoutClaim(db: Db, db': Db, k: Key, ak: ActionKey, issued: multiset<ActionKey>,
                              cancels: multiset<PendingCancel>, p: Settings)
    requires Counted(db, issued, p) && AloneInFlight(db, cancels)
    requires Collects(db, db', k, ak, None, p.maxLinkCancelAttempts)
    ensures Counted(db', issued, p) && AloneInFlight(db', cancels) && db'.actions == db.actions
  {
  }

  lemma LaunchedByEvent(s: Sys, s': Sys, k: Key, ak: ActionKey, pc: PendingCancel)
    requires Collects(s.db, s'.db, k, ak, Some(pc), s.p.maxLinkCancelAttempts)
    requires s' == Launch(s, s'.db, Some(pc))
    ensures Launched(s, s', pc) && pc.action.key == pc.key
  {
    hide Won;
    assert SameLink(s.db.cases[k], s'.db.cases[k]);
  }

  lemma ClaimIsCalm(db: Db, id: EventId, db': Db)
    requires CalmDb(Claim(db, id), db')
    ensures CalmDb(db, db')
  {
  }

  lemma WebhookKeepsCancels(s: Sys, e: PaymentEvent, degraded: bool)
    requires DbOk(s.db, s.p) && CancelInv(s)
    ensures CancelInv(Ingests(s, e, degraded))
  {
    hide CancelInv, DbOk;
    if e.id in s.db.claimed {
      assert Ingests(s, e, degraded) == s;
    } else if IsFailureEvent(e.kind) || IsLinkEvent(e.kind) {
      CalmWebhook(s, e, degraded);
    } else {
      CollectingKeeps(s, e, degraded);
    }
  }

  lemma CalmWebhook(s: Sys, e: PaymentEvent, degraded: bool)
    requires DbOk(s.db, s.p) && CancelInv(s) && e.id !in s.db.claimed
    requires IsFailureEvent(e.kind) || IsLinkEvent(e.kind)
    ensures CancelInv(Ingests(s, e, degraded))
  {
    hide HandleFailure, HandleLink, HandleSuccess, HandleReversal, CalmDb, DbOk, CancelInv;
    var db := Claim(s.db, e.id);
    ClaimIsInvisible(s.db, e.id, db, s.p);
    if IsFailureEvent(e.kind) {
      CalmFailureDb(db, e, degraded, s.p);
    } else {
      CalmLinkDb(db, e, s.p);
    }
    var s' := Ingests(s, e, degraded);
    ClaimIsCalm(s.db, e.id, s'.db);
    CalmKeeps(s, s');
  }

  // Whether the event reaches a case it can collect or reverse.
  predicate Reaches(db: Db, e: PaymentEvent) {
    && e.key in db.cases
    && (if IsSuccessEvent(e.kind) then !IsFinal(db.cases[e.key].state) else !db.cases[e.key].state.RecoveryReversed?)
  }

  lemma HandleCollects(s: Sys, e: PaymentEvent, degraded: bool, ak: ActionKey)
    requires DbOk(s.db, s.p) && !IsFailureEvent(e.kind) && !IsLinkEvent(e.kind) && Reaches(s.db, e)
    requires ak == if IsSuccessEvent(e.kind) then LateCancelOf(s.db.cases[e.key]) else ReversalCancelKey(e.key)
    ensures var r := Handle(Claim(s.db, e.id), e, degraded, s.p);
      r.Ok? && Collects(s.db, r.value.0, e.key, ak, r.value.1, s.p.maxLinkCancelAttempts)
  {
    var db := Claim(s.db, e.id);
    assert DbOk(db, s.p);
    hide DbOk, HandleFailure, HandleLink;
    if IsSuccessEvent(e.kind) {
      hide HandleSuccess, HandleReversal;
      SuccessCollects(db, e, s.p);
    } else {
      hide HandleSuccess, HandleReversal;
      ReversalCollects(db, e, s.p);
    }
    CollectsFromClaim(s.db, e.id, Handle(db, e, degraded, s.p).value.0, e.key, ak,
                      Handle(db, e, degraded, s.p).value.1, s.p.maxLinkCancelAttempts);
  }

  lemma CollectsFromClaim(db: Db, id: EventId, db': Db, k: Key, ak: ActionKey, pending: Option<PendingCancel>, max: int)
    requires Collects(Claim(db, id), db', k, ak, pending, max)
    ensures Collects(db, db', k, ak, pending, max)
  {
  }

  lemma CollectingKeeps(s: Sys, e: PaymentEvent, degraded: bool)
    requires DbOk(s.db, s.p) && CancelInv(s) && e.id !in s.db.claimed
    requires !IsFailureEvent(e.kind) && !IsLinkEvent(e.kind)
    ensures CancelInv(Ingests(s, e, degraded))
  {
    if Reaches(s.db, e) {
      var ak := if IsSuccessEvent(e.kind) then LateCancelOf(s.db.cases[e.key]) else ReversalCancelKey(e.key);
      hide CancelInv, DbOk, Collects, Handle, Reaches;
      HandleCollects(s, e, degraded, ak);
      CollectKeeps(s, Ingests(s, e, degraded), e.key, ak, Handle(Claim(s.db, e.id), e, degraded, s.p).value.1);
    } else {
      ClaimKeepsCancels(s, e.id);
      hide CancelInv, DbOk, ClaimCancel, AfterSuccess, AfterReversal;
    }
  }

  lemma ClaimKeepsCancels(s: Sys, id: EventId)
    requires CancelInv(s)
    ensures CancelInv(s.(db := Claim(s.db, id)))
  {
  }

  lemma CancelInvNext(s: Sys, step: Step)
    requires Inv(s) && CancelInv(s)
    ensures CancelInv(Next(s, step))
  {
    hide Inv, CancelInv, Next;
    if IsDispatchStep(step) {
      DispatchIsCalm(s, step);
    } else {
      CancelStepsKeep(s, step);
    }
  }

  lemma CancelStepsKeep(s: Sys, step: Step)
    requires Inv(s) && CancelInv(s) && !IsDispatchStep(step)
    ensures CancelInv(Next(s, step))
  {
    hide Inv, CancelInv, DbOk, Ingests, CancelDone, ListsFailed, SeesCancelled, Closes, Reclaims;
    RowsAreOk(s);
    match step
    case Webhook(e, degraded) => WebhookKeepsCancels(s, e, degraded);
    case CancelReturns(pc, answer, at) => CancelDoneKeepsCancels(s, pc, answer, at);
    case CancelLost(pc) => LosingKeepsCancels(s, pc);
    case SweepLists(ak) => ListingKeepsCancels(s, ak);
    case SweepSeesCancelled(pc) => MarkingKeepsCancels(s, pc);
    case SweepCloses(ak) => ClosesKeepsCancels(s, ak);
    case SweepClaims(pc) => ReclaimKeeps(s, pc);
    case _ => assert false;
  }

  lemma RowsAreOk(s: Sys)
    requires Inv(s)
    ensures DbOk(s.db, s.p)
  {
  }
}
