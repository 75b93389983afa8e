// Which event takes a case where: the engine's policy as a table over whole steps, and what it means over runs.
module Policy {
  import opened Base
  import opened Models
  import opened Engine
  import opened Effects
  import opened Protocol
  import opened LinkSafety
  import opened CancelSafety
  import opened ProtocolTheorems

  // The change leaves case k in a state it was not in before.
  predicate Enters(db: Db, db': Db, k: Key, st: CaseState) {
    k in db'.cases && db'.cases[k].state == st && (k in db.cases ==> db.cases[k].state != st)
  }

  // The step delivers an event about case k for the first time.
  predicate Hears(s: Sys, step: Step, k: Key) {
    step.Webhook? && step.e.key == k && step.e.id !in s.db.claimed
  }

  // ---------------------------------------------------------------- failures

  predicate Timed(st: CaseState) {
    st.Cooldown? || st.RetryScheduled?
  }

  // A failure the policy has to rule on: of an invoice not seen before, or of one left to its timers.
  predicate FailureToRule(s: Sys, step: Step, k: Key) {
    Hears(s, step, k) && IsFailureEvent(step.e.kind) && (k in s.db.cases ==> Timed(s.db.cases[k].state))
  }

  predicate ReopenToRule(s: Sys, step: Step, k: Key) {
    step.OperatorReopens? && step.key == k && k in s.db.cases && s.db.cases[k].state.ManualReview?
  }

  predicate ToRule(s: Sys, step: Step, k: Key) {
    FailureToRule(s, step, k) || ReopenToRule(s, step, k)
  }

  // The policy's table, read off the case it leaves. An opt-out or a risk stops the case for good; spent attempts or
  // an unreadable failure park it for a human; a failure the customer must mend asks for their consent; and a failure
  // that may pass is retried, after a cooldown if the issuer is failing.
  predicate Ruled(c: RecoveryCase, degraded: bool, at: Time, p: Settings) {
    var cause := c.failure.cause;
    var stopped := c.attention.optedOut || cause == Some(Risk);
    var parked := !stopped && (c.attempts >= p.maxRecoveryAttempts || cause == Some(Unknown));
    var asked := !stopped && !parked && cause == Some(CustomerAction);
    && (c.state.Stopped? <==> stopped)
    && (c.state.ManualReview? <==> parked)
    && (c.state.ConsentRequired? <==> asked)
    && (c.state.Cooldown? <==> !stopped && !parked && !asked && degraded)
    && (c.state.RetryScheduled? <==> !stopped && !parked && !asked && !degraded)
    && c.nextActionAt == (if c.state.Cooldown? then Some(at + p.cooldown)
                          else if c.state.RetryScheduled? then Some(at + p.retryEscalationAfter) else None)
    && c.stopReason == (if c.attention.optedOut then Some(CustomerOptedOut)
                        else if stopped then Some(RiskPolicyStop)
                        else if parked && c.attempts >= p.maxRecoveryAttempts then Some(RetryAttemptsExhausted)
                        else if parked then Some(UnclassifiedFailure) else None)
  }

  // The code a failure is judged by: its own, unless it brings none.
  predicate JudgedBy(code: Option<string>, e: PaymentEvent, earlier: Option<string>) {
    if e.code.None? || e.code == Some("") then code == earlier else code == e.code
  }

  // What a case learns from a failure, against what was known of it.
  predicate Learns(c: RecoveryCase, c': RecoveryCase, e: PaymentEvent, p: Settings) {
    && JudgedBy(c'.failure.code, e, c.failure.code)
    && c'.failure.cause == Some(p.classify(c'.failure.code))
    && c'.failure.issuer == Lower(e.issuer) && c'.failure.rail == e.rail
    && c'.attempts == c.attempts + 1
    && c'.amount == (if e.amount > 0 then e.amount else c.amount)
    && c'.updatedAt >= c.updatedAt && c'.updatedAt >= e.at
    && (c'.updatedAt == c.updatedAt || c'.updatedAt == e.at)
    && c'.attention == c.attention && c'.reconcile == c.reconcile && c'.reversal == c.reversal
    && c'.customer == c.customer && c'.preview == c.preview
    && c'.linkId == c.linkId && c'.linkStatus == c.linkStatus
  }

  // An invoice as its first failure finds it: nobody contacted, no attempt counted, no code known.
  predicate Blank(c: RecoveryCase, e: PaymentEvent) {
    && c.failure.code.None? && c.attempts == 0 && c.amount == e.amount && c.updatedAt == e.at
    && c.attention == Attention(0, DEFAULT_MAX_CONTACTS_7D, false, None)
    && c.customer == e.customer && !c.reconcile && c.reversal.None? && !c.preview
    && c.linkId.None? && c.linkStatus.None?
  }

  // A case an event only counts: its fate stands.
  predicate OnlyCounts(c: RecoveryCase, c': RecoveryCase, e: PaymentEvent) {
    && c'.attempts == c.attempts + 1
    && c'.amount == (if c.amount <= 0 && e.amount > 0 then e.amount else c.amount)
    && c' == c.(attempts := c'.attempts, amount := c'.amount, updatedAt := Max(c.updatedAt, e.at),
                version := c.version + 1)
  }

  // A reopened case starts over with a fresh budget of attempts, under the cause the operator names, if any.
  predicate Reopened(c: RecoveryCase, c': RecoveryCase, fc: Option<FailureClass>, at: Time) {
    && c'.attempts == 0 && c'.updatedAt == at
    && (fc.Some? ==> c'.failure.cause == fc) && (fc.None? ==> c'.failure.cause == c.failure.cause)
    && c'.failure.code == c.failure.code && c'.failure.issuer == c.failure.issuer && c'.failure.rail == c.failure.rail
    && c'.attention == c.attention && c'.amount == c.amount && c'.reconcile == c.reconcile
    && c'.reversal == c.reversal && c'.customer == c.customer && c'.preview == c.preview
    && c'.linkId == c.linkId && c'.linkStatus == c.linkStatus
  }

  // ------------------------------------------------- failures, row by row

  lemma DecisionRuled(c: RecoveryCase, degraded: bool, at: Time, p: Settings)
    ensures var d := Decide(c, degraded, at, p);
      && Ruled(c.(state := d.target, nextActionAt := d.nextActionAt, stopReason := ParkedReason(d)), degraded, at, p)
      && (d.target.Stopped? || d.target.ManualReview? || d.target.ConsentRequired? || Timed(d.target))
  {
  }

  lemma FailureRuled(c: RecoveryCase, e: PaymentEvent, degraded: bool, p: Settings)
    requires Timed(c.state) || c.state.Open?
    ensures var c' := AfterFailure(c, e, degraded, p);
      Ruled(c', degraded, e.at, p) && Learns(c, c', e, p)
  {
    hide Decide, Ruled;
    DecisionRuled(WithFailure(c, e, p), degraded, e.at, p);
  }

  lemma ReopenRuled(c: RecoveryCase, fc: Option<FailureClass>, degraded: bool, at: Time, p: Settings)
    requires c.state.ManualReview?
    ensures var c' := AfterReopen(c, fc, degraded, at, p);
      Ruled(c', degraded, at, p) && Reopened(c, c', fc, at)
  {
    var c1 := c.(failure := c.failure.(cause := if fc.Some? then fc else c.failure.cause),
                 attempts := 0, stopReason := None, nextActionAt := None);
    DecisionRuled(c1, degraded, at, p);
    hide Decide;
  }

  // Of all rows only one is written, and its version moves on.
  ghost predicate Writes(db: Db, db': Db, k: Key, c: RecoveryCase) {
    db'.cases == db.cases[k := c.(version := c.version + 1)]
  }

  lemma FailureWrites(db: Db, e: PaymentEvent, degraded: bool, p: Settings)
    requires DbOk(db, p)
    ensures var r := HandleFailure(db, e, degraded, p);
      && r.Ok?
      && (if e.key !in db.cases then Writes(db, r.value, e.key, AfterFailure(FromFailedEvent(e), e, degraded, p))
          else if IsFinal(db.cases[e.key].state) then r.value == db
          else Writes(db, r.value, e.key, AfterFailure(db.cases[e.key], e, degraded, p)))
  {
    var c := if e.key in db.cases then db.cases[e.key] else FromFailedEvent(e);
    assert e.key in db.cases ==> CaseOk(e.key, db.cases[e.key], p);
    if !IsFinal(c.state) {
      FailureCase(c, e, degraded, p);
      SavedShape(c, AfterFailure(c, e, degraded, p));
      assert c.key == e.key;
      hide AfterFailure, DbOk;
      var db1 := db.(cases := db.cases[e.key := c]);
      assert db1.cases[e.key := AfterFailure(c, e, degraded, p)] == db.cases[e.key := AfterFailure(c, e, degraded, p)];
    }
  }

  // What a failure leaves of case k, known before or not.
  ghost predicate FailureLeaves(db: Db, db': Db, k: Key, e: PaymentEvent, degraded: bool, p: Settings) {
    && db'.cases.Keys == db.cases.Keys + {k}
    && (forall j | j in db.cases && j != k :: db'.cases[j] == db.cases[j])
    && (if k !in db.cases then
          && Ruled(db'.cases[k], degraded, e.at, p)
          && exists blank :: Blank(blank, e) && Learns(blank, db'.cases[k], e, p)
        else if Timed(db.cases[k].state) then
          Ruled(db'.cases[k], degraded, e.at, p) && Learns(db.cases[k], db'.cases[k], e, p)
        else if IsFinal(db.cases[k].state) then db'.cases[k] == db.cases[k]
        else OnlyCounts(db.cases[k], db'.cases[k], e))
  }

  // A failure is ruled on by the table if the invoice is new or left to its timers; it is only counted while a link,
  // a capture or a human is being waited for; and nothing at all comes of it once the case is closed.
  lemma FailuresAreRuled(s: Sys, e: PaymentEvent, degraded: bool)
    requires Safe(s) && e.id !in s.db.claimed && IsFailureEvent(e.kind)
    ensures FailureLeaves(s.db, Next(s, Webhook(e, degraded)).db, e.key, e, degraded, s.p)
  {
    hide Safe, HandleFailure, DbOk, FailureLeaves;
    ClaimKeepsRows(s, e.id);
    FailureLeavesDb(Claim(s.db, e.id), e, degraded, s.p);
    SameRowsFailure(s.db, e.id, HandleFailure(Claim(s.db, e.id), e, degraded, s.p).value, e, degraded, s.p);
  }

  lemma ClaimKeepsRows(s: Sys, id: EventId)
    requires Safe(s)
    ensures DbOk(Claim(s.db, id), s.p)
  {
  }

  lemma SameRowsFailure(db: Db, id: EventId, db': Db, e: PaymentEvent, degraded: bool, p: Settings)
    requires FailureLeaves(Claim(db, id), db', e.key, e, degraded, p)
    ensures FailureLeaves(db, db', e.key, e, degraded, p)
  {
    hide Ruled, Learns, Blank, OnlyCounts;
  }

  lemma FailureLeavesDb(db: Db, e: PaymentEvent, degraded: bool, p: Settings)
    requires DbOk(db, p)
    ensures HandleFailure(db, e, degraded, p).Ok?
    ensures FailureLeaves(db, HandleFailure(db, e, degraded, p).value, e.key, e, degraded, p)
  {
    assert e.key in db.cases ==> !db.cases[e.key].state.Classified? && !db.cases[e.key].state.Open? by {
      assert e.key in db.cases ==> CaseOk(e.key, db.cases[e.key], p);
    }
    hide HandleFailure, DbOk, Ruled, Learns, Blank, OnlyCounts, AfterFailure, FromFailedEvent;
    FailureWrites(db, e, degraded, p);
    FirstSeenIsBlank(e);
    var c := if e.key in db.cases then db.cases[e.key] else FromFailedEvent(e);
    if !IsFinal(c.state) {
      FailureFate(c, e, degraded, p);
    }
  }

  lemma FirstSeenIsBlank(e: PaymentEvent)
    ensures Blank(FromFailedEvent(e), e) && FromFailedEvent(e).state.Open?
  {
  }

  lemma FailureFate(c: RecoveryCase, e: PaymentEvent, degraded: bool, p: Settings)
    requires !c.state.Classified? && !IsFinal(c.state)
    ensures var c' := AfterFailure(c, e, degraded, p).(version := c.version + 1);
      && (Timed(c.state) || c.state.Open? ==> Ruled(c', degraded, e.at, p) && Learns(c, c', e, p))
      && (!Timed(c.state) && !c.state.Open? ==> OnlyCounts(c, c', e))
      && AfterFailure(c, e, degraded, p).version == c.version
  {
    hide Decide;
    if Timed(c.state) || c.state.Open? {
      FailureRuled(c, e, degraded, p);
    }
  }

  // --------------------------------------------------------------- successes

  // Money that is in: a capture, a paid order, or an authorisation reported as captured already.
  predicate Secures(e: PaymentEvent) {
    e.kind.PaymentCaptured? || e.kind.OrderPaid? || e.captured
  }

  // What a success leaves of case k; `launched` says that a cancel of its link was started.
  ghost predicate SuccessLeaves(db: Db, db': Db, k: Key, e: PaymentEvent, launched: bool) {
    if k !in db.cases || IsFinal(db.cases[k].state) then db'.cases == db.cases
    else
      && db'.cases.Keys == db.cases.Keys
      && (forall j | j in db.cases && j != k :: db'.cases[j] == db.cases[j])
      && Collected(db.cases[k], db'.cases[k], e, launched)
  }

  predicate Collected(c: RecoveryCase, c': RecoveryCase, e: PaymentEvent, launched: bool) {
    && (c'.state.RecoveredNatural? <==> Secures(e))
    && (c'.state.AuthorizedPendingCapture? <==> !Secures(e))
    && c'.stopReason == Some(if Secures(e) then OriginalPaymentCaptured else LateAuthorisationPendingCapture)
    && c' == c.(state := c'.state, stopReason := c'.stopReason, nextActionAt := None, preview := c.preview && !launched,
                updatedAt := Max(c.updatedAt, e.at), version := c.version + 1)
  }

  lemma SuccessFate(c: RecoveryCase, e: PaymentEvent, p: Settings)
    requires CaseOk(e.key, c, p) && !IsFinal(c.state)
    ensures var r := AfterSuccess(c, e);
      && r.Ok? && r.value.key == c.key && r.value.version == c.version && r.value.preview == c.preview
      && Collected(c, r.value.(version := c.version + 1), e, false)
      && Collected(c, r.value.(preview := false, version := c.version + 1), e, true)
  {
    hide Secures;
    assert Secures(e) == Captured(e) by {
      SecuresIsCaptured(e);
    }
    hide Captured;
  }

  lemma SecuresIsCaptured(e: PaymentEvent)
    ensures Secures(e) == Captured(e)
  {
  }

  // A success closes an open case as recovered exactly when the money is in, and otherwise holds it for the capture.
  lemma SuccessesSettle(s: Sys, e: PaymentEvent, degraded: bool)
    requires Safe(s) && e.id !in s.db.claimed && IsSuccessEvent(e.kind)
    ensures var s' := Next(s, Webhook(e, degraded));
      SuccessLeaves(s.db, s'.db, e.key, e, s'.cancels != s.cancels)
  {
    hide Safe, HandleSuccess, HandleFailure, DbOk;
    ClaimKeepsRows(s, e.id);
    var db := Claim(s.db, e.id);
    SuccessLeavesDb(db, e, s.p);
    var (db', pending) := HandleSuccess(db, e, s.p).value;
    if pending.Some? {
      assert (s.cancels + multiset{pending.value})[pending.value] == s.cancels[pending.value] + 1;
    }
    hide Collected;
  }

  lemma SuccessLeavesDb(db: Db, e: PaymentEvent, p: Settings)
    requires DbOk(db, p)
    ensures var r := HandleSuccess(db, e, p);
      r.Ok? && SuccessLeaves(db, r.value.0, e.key, e, r.value.1.Some?)
  {
    if e.key in db.cases && !IsFinal(db.cases[e.key].state) {
      var c := db.cases[e.key];
      assert CaseOk(e.key, c, p) && c.key == e.key;
      SuccessFate(c, e, p);
      var c' := AfterSuccess(c, e).value;
      ClaimCollects(db, c', LateCancelOf(c'), e.at, p);
      hide AfterSuccess, ClaimCancel, DbOk, CaseOk, Collected, ClaimOutcome;
    }
  }

  // ------------------------------------------------------------- link events

  predicate Reports(kind: EventType, status: LinkStatus) {
    && (kind.PaymentLinkPaid? <==> status == LinkStatus.Paid)
    && (kind.PaymentLinkPartiallyPaid? <==> status == LinkStatus.PartiallyPaid)
    && (kind.PaymentLinkCancelled? <==> status == LinkStatus.Cancelled)
    && (kind.PaymentLinkExpired? <==> status == LinkStatus.Expired)
  }

  // The event names another link than the case's own.
  predicate OtherLink(c: RecoveryCase, e: PaymentEvent) {
    c.linkId.Some? && e.linkId.Some? && e.linkId.value != c.linkId.value
  }

  predicate MovedFor(c: RecoveryCase, c': RecoveryCase, st: CaseState, reason: Reason) {
    c'.state == st && c'.stopReason == Some(reason) && c'.nextActionAt.None? && c'.reconcile == c.reconcile
  }

  predicate StoodBy(c: RecoveryCase, c': RecoveryCase) {
    c'.state == c.state && c'.nextActionAt == c.nextActionAt
  }

  // What a link event makes of an open case: paying the link settles it, unless the original payment is held as well,
  // which is one collection too many; a link that will not be paid in full needs a human, unless the payment is held.
  predicate LinkFate(c: RecoveryCase, c': RecoveryCase, kind: EventType) {
    var held := c.state.AuthorizedPendingCapture?;
    match kind
    case PaymentLinkPaid =>
      if held then MovedFor(c, c', ManualReview, DuplicateCollectionRequiresReconciliation)
      else if c.state.LinkSent? || c.state.ManualReview? then MovedFor(c, c', RecoveredByLink, PaymentLinkWasCaptured)
      else StoodBy(c, c') && c'.reconcile && c'.stopReason == Some(UnexpectedLinkEventFrom(c.state))
    case PaymentLinkPartiallyPaid => MovedFor(c, c', ManualReview, PartialRecoveryRequiresReconciliation)
    case PaymentLinkCancelled =>
      if held then StoodBy(c, c') && c'.reconcile == c.reconcile && c'.stopReason == c.stopReason
      else MovedFor(c, c', ManualReview, RecoveryLinkCancelled)
    case _ =>
      if held then StoodBy(c, c') && c'.reconcile == c.reconcile && c'.stopReason == c.stopReason
      else MovedFor(c, c', ManualReview, RecoveryLinkExpired)
  }

  // What a link event leaves of a row: a closed case is only flagged, an open one learns the status and loses its
  // draft.
  predicate Linked(c: RecoveryCase, c': RecoveryCase, e: PaymentEvent) {
    if IsFinal(c.state) then
      c' == c.(reconcile := true, stopReason := Some(LateLinkEventRequiresReconciliation),
               updatedAt := Max(c.updatedAt, e.at), version := c.version + 1)
    else
      && c'.linkStatus.Some? && Reports(e.kind, c'.linkStatus.value)
      && LinkFate(c, c', e.kind)
      && c' == c.(linkStatus := c'.linkStatus, preview := false, state := c'.state, stopReason := c'.stopReason,
                  nextActionAt := c'.nextActionAt, reconcile := c'.reconcile, updatedAt := Max(c.updatedAt, e.at),
                  version := c.version + 1)
  }

  ghost predicate LinkLeaves(db: Db, db': Db, k: Key, e: PaymentEvent) {
    if k !in db.cases || OtherLink(db.cases[k], e) then db'.cases == db.cases
    else
      && db'.cases.Keys == db.cases.Keys
      && (forall j | j in db.cases && j != k :: db'.cases[j] == db.cases[j])
      && Linked(db.cases[k], db'.cases[k], e)
  }

  lemma LinkEventFate(c: RecoveryCase, e: PaymentEvent)
    requires IsLinkEvent(e.kind) && !c.state.Open? && !c.state.Classified?
    ensures Linked(c, AfterLinkEvent(c, e).(version := c.version + 1), e)
    ensures AfterLinkEvent(c, e).key == c.key && AfterLinkEvent(c, e).version == c.version
  {
    if !IsFinal(c.state) {
      OpenLinkFate(c, e);
      hide LinkFate, Reports, AllowedTransition, LinkOutcome;
    }
  }

  lemma OpenLinkFate(c: RecoveryCase, e: PaymentEvent)
    requires IsLinkEvent(e.kind) && !c.state.Open? && !c.state.Classified? && !IsFinal(c.state)
    ensures var c' := AfterLinkEvent(c, e);
      && LinkFate(c, c'.(version := c.version + 1), e.kind)
      && c'.linkStatus.Some? && Reports(e.kind, c'.linkStatus.value)
  {
  }

  // A link event does exactly this, in whatever order events arrive.
  lemma LinkEventsSettle(s: Sys, e: PaymentEvent, degraded: bool)
    requires Safe(s) && e.id !in s.db.claimed && IsLinkEvent(e.kind)
    ensures LinkLeaves(s.db, Next(s, Webhook(e, degraded)).db, e.key, e)
  {
    hide Safe, HandleLink, HandleFailure, HandleSuccess, HandleReversal, DbOk, Linked;
    ClaimKeepsRows(s, e.id);
    LinkLeavesDb(Claim(s.db, e.id), e, s.p);
  }

  lemma LinkLeavesDb(db: Db, e: PaymentEvent, p: Settings)
    requires DbOk(db, p) && IsLinkEvent(e.kind)
    ensures var r := HandleLink(db, e);
      r.Ok? && LinkLeaves(db, r.value, e.key, e)
  {
    if e.key in db.cases {
      assert CaseOk(e.key, db.cases[e.key], p);
      LinkEventFate(db.cases[e.key], e);
      hide AfterLinkEvent, DbOk, CaseOk, Linked;
    }
  }

  // --------------------------------------------------------------- reversals

  predicate IsReversalEvent(kind: EventType) {
    kind.PaymentDisputeCreated? || kind.RefundCreated? || kind.RefundProcessed?
  }

  // What a reversal leaves of its own case: silenced, flagged, dated, and reversed unless it had been stopped.
  predicate TurnedBack(c: RecoveryCase, c': RecoveryCase, e: PaymentEvent) {
    && c'.state == (if c.state.Stopped? then Stopped else RecoveryReversed)
    && c' == c.(state := c'.state, attention := c.attention.(optedOut := true), reconcile := true,
                reversal := Some(Reversal(e.kind, e.at)), updatedAt := Max(c.updatedAt, e.at),
                version := c.version + 1)
  }

  // And of any other: the same person's are silenced, everyone else's stand.
  predicate SilencedWith(c: RecoveryCase, c': RecoveryCase, reversed: RecoveryCase) {
    if reversed.customer.Some? && c.customer == reversed.customer && !c.attention.optedOut then
      c' == c.(attention := c.attention.(optedOut := true), version := c.version + 1)
    else c' == c
  }

  ghost predicate ReversalLeaves(db: Db, db': Db, k: Key, e: PaymentEvent) {
    if k !in db.cases || db.cases[k].state.RecoveryReversed? then db'.cases == db.cases
    else
      && db'.cases.Keys == db.cases.Keys
      && TurnedBack(db.cases[k], db'.cases[k], e)
      && forall j | j in db.cases && j != k :: SilencedWith(db.cases[j], db'.cases[j], db.cases[k])
  }

  lemma ReversalFate(c: RecoveryCase, e: PaymentEvent)
    requires !c.state.RecoveryReversed?
    ensures var c' := AfterReversal(c, e);
      TurnedBack(c, c'.(version := c.version + 1), e) && c'.key == c.key && c'.version == c.version
  {
  }

  lemma OptOutSilences(db: Db, c: RecoveryCase)
    requires Keyed(db) && c.key in db.cases && db.cases[c.key] == c
    ensures var db' := if c.customer.Some? then OptOutCustomer(db, c.customer.value, c.key) else db;
      && db'.cases.Keys == db.cases.Keys && db'.cases[c.key] == c && db'.actions == db.actions
      && forall j | j in db.cases && j != c.key :: SilencedWith(db.cases[j], db'.cases[j], c)
  {
  }

  lemma ReversalLeavesDb(db: Db, e: PaymentEvent, p: Settings)
    requires DbOk(db, p)
    ensures var r := HandleReversal(db, e, p);
      r.Ok? && ReversalLeaves(db, r.value.0, e.key, e)
  {
    if e.key in db.cases && !db.cases[e.key].state.RecoveryReversed? {
      var c := db.cases[e.key];
      RowsAreKeyed(db, p);
      ReversalFate(c, e);
      ClaimCollects(db, c, ReversalCancelKey(c.key), e.at, p);
      var db1 := ClaimCancel(db, c, ReversalCancelKey(c.key), e.at, p).0;
      OptOutSilences(db1, c);
      hide AfterReversal, ClaimCancel, OptOutCustomer, DbOk, TurnedBack, SilencedWith, ClaimOutcome;
    }
  }

  lemma ReversalsSettle(s: Sys, e: PaymentEvent, degraded: bool)
    requires Safe(s) && e.id !in s.db.claimed && IsReversalEvent(e.kind)
    ensures ReversalLeaves(s.db, Next(s, Webhook(e, degraded)).db, e.key, e)
  {
    hide Safe, HandleLink, HandleFailure, HandleSuccess, HandleReversal, DbOk, ReversalLeaves;
    ClaimKeepsRows(s, e.id);
    ReversalLeavesDb(Claim(s.db, e.id), e, s.p);
    SameRowsReversal(s.db, e.id, HandleReversal(Claim(s.db, e.id), e, s.p).value.0, e);
  }

  lemma SameRowsReversal(db: Db, id: EventId, db': Db, e: PaymentEvent)
    requires ReversalLeaves(Claim(db, id), db', e.key, e)
    ensures ReversalLeaves(db, db', e.key, e)
  {
    hide TurnedBack, SilencedWith;
  }

  // ---------------------------------------------------------------- reopening

  ghost predicate ReopenLeaves(db: Db, db': Db, k: Key, fc: Option<FailureClass>, degraded: bool, at: Time,
                               p: Settings)
  {
    if k !in db.cases || !db.cases[k].state.ManualReview? then db' == db
    else
      && db'.cases.Keys == db.cases.Keys
      && (forall j | j in db.cases && j != k :: db'.cases[j] == db.cases[j])
      && Ruled(db'.cases[k], degraded, at, p) && Reopened(db.cases[k], db'.cases[k], fc, at)
      && ReopenKey(k, at) in db'.actions && db.actions.Keys <= db'.actions.Keys
  }

  // An operator's reopen puts a parked case through the same table, with its attempts forgotten, and goes on record.
  lemma ReopensAreRuled(s: Sys, k: Key, fc: Option<FailureClass>, degraded: bool, at: Time)
    requires Safe(s)
    ensures ReopenLeaves(s.db, Next(s, OperatorReopens(k, fc, degraded, at)).db, k, fc, degraded, at, s.p)
  {
    hide Safe, Reopen, ReopenLeaves, DbOk;
    assert DbOk(s.db, s.p) by {
      SafeRows(s);
    }
    ReopenLeavesDb(s.db, k, fc, degraded, at, s.p);
    if Reopen(s.db, k, fc, degraded, at, s.p).Err? {
      ReopenNothing(s.db, k, fc, degraded, at, s.p);
    }
  }

  lemma SafeRows(s: Sys)
    requires Safe(s)
    ensures DbOk(s.db, s.p)
  {
  }

  lemma ReopenNothing(db: Db, k: Key, fc: Option<FailureClass>, degraded: bool, at: Time, p: Settings)
    requires k !in db.cases || !db.cases[k].state.ManualReview?
    ensures ReopenLeaves(db, db, k, fc, degraded, at, p)
  {
  }

  lemma ReopenLeavesDb(db: Db, k: Key, fc: Option<FailureClass>, degraded: bool, at: Time, p: Settings)
    requires DbOk(db, p)
    ensures var r := Reopen(db, k, fc, degraded, at, p);
      && (r.Ok? <==> k in db.cases && db.cases[k].state.ManualReview?)
      && (r.Ok? ==> ReopenLeaves(db, r.value, k, fc, degraded, at, p))
  {
    hide Reopen, AfterReopen, Ruled, Reopened, DbOk;
    ReopenWrites(db, k, fc, degraded, at, p);
    if k in db.cases && db.cases[k].state.ManualReview? {
      ReopenRuled(db.cases[k], fc, degraded, at, p);
      RuledOnceSaved(AfterReopen(db.cases[k], fc, degraded, at, p), db.cases[k], fc, degraded, at, p);
    }
  }

  lemma RuledOnceSaved(c: RecoveryCase, c0: RecoveryCase, fc: Option<FailureClass>, degraded: bool, at: Time,
                       p: Settings)
    requires Ruled(c, degraded, at, p) && Reopened(c0, c, fc, at)
    ensures Ruled(c.(version := c.version + 1), degraded, at, p)
    ensures Reopened(c0, c.(version := c.version + 1), fc, at)
  {
  }

  lemma ReopenWrites(db: Db, k: Key, fc: Option<FailureClass>, degraded: bool, at: Time, p: Settings)
    requires DbOk(db, p)
    ensures var r := Reopen(db, k, fc, degraded, at, p);
      && (r.Ok? <==> k in db.cases && db.cases[k].state.ManualReview?)
      && (r.Ok? ==> Writes(db, r.value, k, AfterReopen(db.cases[k], fc, degraded, at, p))
                    && ReopenKey(k, at) in r.value.actions && db.actions.Keys <= r.value.actions.Keys)
  {
    if k in db.cases && db.cases[k].state.ManualReview? {
      assert CaseOk(k, db.cases[k], p);
      ReopenCase(db.cases[k], fc, degraded, at, p);
      SavedShape(db.cases[k], AfterReopen(db.cases[k], fc, degraded, at, p));
      hide AfterReopen, DbOk, CaseOk, Saved;
    }
  }

  // ----------------------------------------------------------- every entry

  predicate Elsewhere(db: Db, db': Db, k: Key) {
    && (k in db'.cases <==> k in db.cases)
    && (k in db.cases ==> db'.cases[k].state == db.cases[k].state)
  }

  // An event heard before, or about another case, moves case k nowhere.
  lemma OthersStand(s: Sys, e: PaymentEvent, degraded: bool, k: Key)
    requires Safe(s) && (k != e.key || e.id in s.db.claimed)
    ensures Elsewhere(s.db, Next(s, Webhook(e, degraded)).db, k)
  {
    hide Safe, Next, EventLeaves;
    if e.id in s.db.claimed {
      HeardAlready(s, e, degraded);
    } else {
      EventsLeave(s, e, degraded);
      LeavesElsewhere(s.db, Next(s, Webhook(e, degraded)).db, e, degraded, s.p, k);
    }
  }

  // A delivery heard before changes nothing.
  lemma HeardAlready(s: Sys, e: PaymentEvent, degraded: bool)
    requires e.id in s.db.claimed
    ensures Next(s, Webhook(e, degraded)) == s
  {
    hide Handle;
  }

  lemma LeavesElsewhere(db: Db, db': Db, e: PaymentEvent, degraded: bool, p: Settings, k: Key)
    requires EventLeaves(db, db', e, degraded, p) && k != e.key
    ensures Elsewhere(db, db', k)
  {
    hide Ruled, Learns, Blank, OnlyCounts, Collected, Linked, TurnedBack;
    if IsFailureEvent(e.kind) {
      hide SuccessLeaves, LinkLeaves, ReversalLeaves;
    } else if IsSuccessEvent(e.kind) {
      hide FailureLeaves, LinkLeaves, ReversalLeaves;
    } else if IsLinkEvent(e.kind) {
      hide FailureLeaves, SuccessLeaves, ReversalLeaves;
    } else {
      hide FailureLeaves, SuccessLeaves, LinkLeaves;
    }
  }

  // Dispatch moves a case only from one timed state to the next, or to where it needs no timer.
  lemma PlanEntries(s: Sys, d: nat, k: Key, st: CaseState)
    requires Safe(s) && Enters(s.db, CommitsPlan(s, d).db, k, st)
    ensures k in s.db.cases
    ensures st.RetryScheduled? ==> s.db.cases[k].state.Cooldown?
    ensures st.ConsentRequired? ==> s.db.cases[k].state.RetryScheduled?
    ensures st.RetryScheduled? || st.ConsentRequired? || st.ManualReview? || st.Stopped?
  {
    if d in s.tasks && s.tasks[d].Planned? {
      var t := s.tasks[d];
      assert TaskOk(t, s.seen, s.p) && Newer(t.snapshot, s.db.cases[t.snapshot.key]);
      assert s.db.cases[t.snapshot.key].key == t.snapshot.key by {
        assert CaseOk(t.snapshot.key, s.db.cases[t.snapshot.key], s.p);
      }
    }
    hide Safe, Newer, AllowedTransition;
  }

  // Apart from events, reopens, plans and link outcomes, nothing moves a case.
  lemma OnlyTheseMove(s: Sys, step: Step, k: Key, st: CaseState)
    requires Safe(s) && Enters(s.db, Next(s, step).db, k, st)
    ensures Hears(s, step, k) || ReopenToRule(s, step, k) || step.CommitPlan? || step.CommitLink?
    ensures step.CommitLink? ==> k in s.db.cases && s.db.cases[k].state.ConsentRequired?
                                 && (st.LinkSent? || st.ManualReview?)
  {
    hide Next, Safe, Ruled, Reopened;
    if step.Webhook? {
      if !Hears(s, step, k) {
        OthersStand(s, step.e, step.degraded, k);
      }
    } else if step.OperatorReopens? {
      ReopensAreRuled(s, step.key, step.failureClass, step.degraded, step.at);
    } else if IsLinkStep(step) {
      LinkSteps(s, step);
    } else if !step.CommitPlan? {
      StandsStill(s, step, k);
    }
  }

  lemma StandsStill(s: Sys, step: Step, k: Key)
    requires Safe(s) && IsAutomatic(step) && !step.CommitPlan? && !IsLinkStep(step)
    ensures Elsewhere(s.db, Next(s, step).db, k)
  {
    hide Next, Safe, Quiet;
    SameKeysStep(s, step);
    if k in s.db.cases {
      CancelsKeepStates(s, step, k);
    }
  }

  lemma SameKeysStep(s: Sys, step: Step)
    requires Safe(s) && IsAutomatic(step) && !step.CommitPlan? && !IsLinkStep(step)
    ensures Next(s, step).db.cases.Keys == s.db.cases.Keys
  {
    hide Safe, CancelDone, SavePreview;
    if step.CancelReturns? {
      ReturnKeepsKeys(s, step.pc, step.cancelAnswer, step.at);
    } else if step.PreviewSaved? {
      PreviewKeepsKeys(s, step.snapshot, step.at);
    } else {
      hide Next;
      CasesStandStill(s, step);
    }
  }

  lemma ReturnKeepsKeys(s: Sys, pc: PendingCancel, answer: Answer<LinkStatus>, at: Time)
    requires Safe(s)
    ensures CancelDone(s, pc, answer, at).db.cases.Keys == s.db.cases.Keys
  {
    hide Inv, CancelCommit;
    if pc in s.cancels {
      assert CancelInv(s);
      hide CancelInv;
      CancelSettles(s, pc, answer, at);
    }
  }

  lemma PreviewKeepsKeys(s: Sys, snapshot: RecoveryCase, at: Time)
    requires Safe(s)
    ensures SavePreview(s.db, snapshot, at).Ok? ==> SavePreview(s.db, snapshot, at).value.cases.Keys == s.db.cases.Keys
  {
    RowsAreKeyed(s.db, s.p);
    hide Safe;
  }

  // What a first delivery leaves, whatever its kind.
  ghost predicate EventLeaves(db: Db, db': Db, e: PaymentEvent, degraded: bool, p: Settings) {
    && (IsFailureEvent(e.kind) ==> FailureLeaves(db, db', e.key, e, degraded, p))
    && (IsSuccessEvent(e.kind) ==> exists launched :: SuccessLeaves(db, db', e.key, e, launched))
    && (IsLinkEvent(e.kind) ==> LinkLeaves(db, db', e.key, e))
    && (IsReversalEvent(e.kind) ==> ReversalLeaves(db, db', e.key, e))
  }

  lemma EventsLeave(s: Sys, e: PaymentEvent, degraded: bool)
    requires Safe(s) && e.id !in s.db.claimed
    ensures EventLeaves(s.db, Next(s, Webhook(e, degraded)).db, e, degraded, s.p)
  {
    hide Safe, Next, FailureLeaves, SuccessLeaves, LinkLeaves, ReversalLeaves;
    if IsFailureEvent(e.kind) {
      FailuresAreRuled(s, e, degraded);
    } else if IsSuccessEvent(e.kind) {
      SuccessesSettle(s, e, degraded);
    } else if IsLinkEvent(e.kind) {
      LinkEventsSettle(s, e, degraded);
    } else {
      ReversalsSettle(s, e, degraded);
    }
  }

  // Where a first delivery takes its case, whatever its kind.
  ghost predicate Fate(db: Db, db': Db, e: PaymentEvent, degraded: bool, p: Settings) {
    var k := e.key;
    && (k in db'.cases <==> k in db.cases || IsFailureEvent(e.kind))
    && (k in db'.cases ==>
          var st, c' := if k in db.cases then db.cases[k].state else Open, db'.cases[k];
          if IsFailureEvent(e.kind) && (k !in db.cases || Timed(st)) then Ruled(c', degraded, e.at, p)
          else if IsSuccessEvent(e.kind) && !IsFinal(st) then
            c'.state == if Secures(e) then RecoveredNatural else AuthorizedPendingCapture
          else if IsLinkEvent(e.kind) && !IsFinal(st) && !OtherLink(db.cases[k], e) then
            LinkFate(db.cases[k], c', e.kind)
          else if IsReversalEvent(e.kind) && !st.Stopped? then c'.state == RecoveryReversed
          else c'.state == st)
  }

  lemma EventFate(s: Sys, e: PaymentEvent, degraded: bool)
    requires Safe(s) && e.id !in s.db.claimed
    ensures Fate(s.db, Next(s, Webhook(e, degraded)).db, e, degraded, s.p)
  {
    hide Safe, Next, Fate, EventLeaves;
    EventsLeave(s, e, degraded);
    LeavesFate(s.db, Next(s, Webhook(e, degraded)).db, e, degraded, s.p);
  }

  lemma LeavesFate(db: Db, db': Db, e: PaymentEvent, degraded: bool, p: Settings)
    requires EventLeaves(db, db', e, degraded, p)
    ensures Fate(db, db', e, degraded, p)
  {
    hide Ruled, LinkFate, Learns, Blank, SilencedWith, OtherLink, Secures;
    if IsFailureEvent(e.kind) {
      assert e.key in db'.cases;
    } else if IsSuccessEvent(e.kind) {
      hide FailureLeaves, LinkLeaves, ReversalLeaves;
      var launched :| SuccessLeaves(db, db', e.key, e, launched);
    } else if IsLinkEvent(e.kind) {
      hide FailureLeaves, SuccessLeaves, ReversalLeaves;
    } else {
      hide FailureLeaves, SuccessLeaves, LinkLeaves;
    }
  }

  // What takes a case into a state: an event heard, a reopen, a plan committed or a link's outcome.
  lemma Entry(s: Sys, step: Step, k: Key, st: CaseState)
    requires Safe(s)
    ensures Hears(s, step, k) ==> Fate(s.db, Next(s, step).db, step.e, step.degraded, s.p)
    ensures ReopenToRule(s, step, k) && k in Next(s, step).db.cases ==>
      Ruled(Next(s, step).db.cases[k], step.degraded, step.at, s.p)
    ensures Enters(s.db, Next(s, step).db, k, st) ==>
      || Hears(s, step, k)
      || ReopenToRule(s, step, k)
      || (k in s.db.cases && step.CommitPlan?
          && (st.ManualReview? || st.Stopped? || (st.RetryScheduled? && s.db.cases[k].state.Cooldown?)
              || (st.ConsentRequired? && s.db.cases[k].state.RetryScheduled?)))
      || (k in s.db.cases && step.CommitLink? && s.db.cases[k].state.ConsentRequired?
          && (st.LinkSent? || st.ManualReview?))
  {
    hide Safe, Next, Fate, Ruled, Reopened;
    if Hears(s, step, k) {
      EventFate(s, step.e, step.degraded);
    }
    if ReopenToRule(s, step, k) {
      ReopensAreRuled(s, k, step.failureClass, step.degraded, step.at);
    }
    if Enters(s.db, Next(s, step).db, k, st) {
      OnlyTheseMove(s, step, k, st);
      if step.CommitPlan? {
        PlanEntered(s, step, k, st);
      }
    }
  }

  lemma PlanEntered(s: Sys, step: Step, k: Key, st: CaseState)
    requires Safe(s) && step.CommitPlan? && Enters(s.db, Next(s, step).db, k, st)
    ensures k in s.db.cases
    ensures st.ManualReview? || st.Stopped? || (st.RetryScheduled? && s.db.cases[k].state.Cooldown?)
      || (st.ConsentRequired? && s.db.cases[k].state.RetryScheduled?)
  {
    hide Safe, CommitsPlan;
    PlanEntries(s, step.d, k, st);
  }

  // Money counts as recovered from the original payment exactly when an event says that it is in, on a case still open.
  lemma RecoveredExactly(s: Sys, step: Step, k: Key)
    requires Safe(s)
    ensures Enters(s.db, Next(s, step).db, k, RecoveredNatural) <==>
      && Hears(s, step, k) && IsSuccessEvent(step.e.kind) && Secures(step.e)
      && k in s.db.cases && !IsFinal(s.db.cases[k].state)
  {
    hide Safe, Next, Secures, OtherLink;
    Entry(s, step, k, RecoveredNatural);
  }

  // And it is held for a capture exactly on an authorisation that is none.
  lemma HeldExactly(s: Sys, step: Step, k: Key)
    requires Safe(s)
    ensures Enters(s.db, Next(s, step).db, k, AuthorizedPendingCapture) <==>
      && Hears(s, step, k) && step.e.kind.PaymentAuthorized? && !step.e.captured
      && k in s.db.cases && !IsFinal(s.db.cases[k].state) && !s.db.cases[k].state.AuthorizedPendingCapture?
  {
    hide Safe, Next, OtherLink;
    Entry(s, step, k, AuthorizedPendingCapture);
  }

  // A case counts as recovered by its link exactly when that link is reported paid while the case waits for it, or for
  // a human, and for no capture.
  lemma PaidByLinkExactly(s: Sys, step: Step, k: Key)
    requires Safe(s)
    ensures Enters(s.db, Next(s, step).db, k, RecoveredByLink) <==>
      && Hears(s, step, k) && step.e.kind.PaymentLinkPaid?
      && k in s.db.cases && (s.db.cases[k].state.LinkSent? || s.db.cases[k].state.ManualReview?)
      && !OtherLink(s.db.cases[k], step.e)
  {
    hide Safe, Next, Secures, OtherLink;
    Entry(s, step, k, RecoveredByLink);
  }

  // A recovery is reversed exactly by a dispute or a refund, and only a stopped case is past reversing.
  lemma ReversedExactly(s: Sys, step: Step, k: Key)
    requires Safe(s)
    ensures Enters(s.db, Next(s, step).db, k, RecoveryReversed) <==>
      && Hears(s, step, k) && IsReversalEvent(step.e.kind)
      && k in s.db.cases && !s.db.cases[k].state.Stopped? && !s.db.cases[k].state.RecoveryReversed?
  {
    hide Safe, Next, Secures, OtherLink;
    Entry(s, step, k, RecoveryReversed);
  }

  // The instant an event or an operator acts at.
  function At(step: Step): Time
    requires step.Webhook? || step.OperatorReopens?
  {
    if step.Webhook? then step.e.at else step.at
  }

  // The policy ruled on case k with this verdict, and found it neither to be stopped nor to be parked.
  predicate Cleared(s: Sys, step: Step, k: Key, c: RecoveryCase) {
    && ToRule(s, step, k)
    && !c.attention.optedOut && c.failure.cause != Some(Risk) && c.failure.cause != Some(Unknown)
    && c.attempts < s.p.maxRecoveryAttempts
  }

  predicate CooldownFor(s: Sys, step: Step, k: Key, c: RecoveryCase) {
    && Cleared(s, step, k, c) && step.degraded && c.failure.cause != Some(CustomerAction)
    && c.nextActionAt == Some(At(step) + s.p.cooldown)
  }

  predicate RetryFor(s: Sys, step: Step, k: Key, c: RecoveryCase) {
    && Cleared(s, step, k, c) && !step.degraded && c.failure.cause != Some(CustomerAction)
    && c.nextActionAt == Some(At(step) + s.p.retryEscalationAfter)
  }

  // Dispatch moves case k on from `from`.
  predicate MovesOn(s: Sys, step: Step, k: Key, from: CaseState) {
    step.CommitPlan? && k in s.db.cases && s.db.cases[k].state == from
  }

  // A case cools down only because its issuer was failing when the policy ruled on it, and for exactly the cooldown; a
  // retry is scheduled only on a healthy issuer, for exactly the escalation time, or when a cooldown ends; consent is
  // asked for only when the customer must act, or when a scheduled retry has run out.
  lemma TimersEntered(s: Sys, step: Step, k: Key)
    requires Safe(s)
    ensures var s' := Next(s, step);
      && (Enters(s.db, s'.db, k, Cooldown) ==> CooldownFor(s, step, k, s'.db.cases[k]))
      && (Enters(s.db, s'.db, k, RetryScheduled) ==>
            MovesOn(s, step, k, Cooldown) || RetryFor(s, step, k, s'.db.cases[k]))
      && (Enters(s.db, s'.db, k, ConsentRequired) ==>
            || MovesOn(s, step, k, RetryScheduled)
            || (Cleared(s, step, k, s'.db.cases[k]) && s'.db.cases[k].failure.cause == Some(CustomerAction)))
  {
    hide Safe, Next, Secures, OtherLink;
    Entry(s, step, k, Cooldown);
    Entry(s, step, k, RetryScheduled);
    Entry(s, step, k, ConsentRequired);
  }

  // A link event that leaves work for a human: too much was collected, or too little will be.
  predicate LinkNeedsHuman(c: RecoveryCase, e: PaymentEvent) {
    && IsLinkEvent(e.kind) && !OtherLink(c, e)
    && (if c.state.AuthorizedPendingCapture? then e.kind.PaymentLinkPaid? || e.kind.PaymentLinkPartiallyPaid?
        else !e.kind.PaymentLinkPaid?)
  }

  // A case is parked for a human by the policy, by what became of its link, or by dispatch; and outside dispatch it is
  // stopped only for an opt-out or a risk.
  lemma ParkingEntered(s: Sys, step: Step, k: Key)
    requires Safe(s)
    ensures var s' := Next(s, step);
      && (Enters(s.db, s'.db, k, ManualReview) ==>
            || (FailureToRule(s, step, k) && (s'.db.cases[k].attempts >= s.p.maxRecoveryAttempts
                                              || s'.db.cases[k].failure.cause == Some(Unknown)))
            || (Hears(s, step, k) && k in s.db.cases && LinkNeedsHuman(s.db.cases[k], step.e))
            || (k in s.db.cases && (step.CommitPlan? || (step.CommitLink? && s.db.cases[k].state.ConsentRequired?))))
      && (Enters(s.db, s'.db, k, Stopped) ==>
            || (k in s.db.cases && step.CommitPlan?)
            || (ToRule(s, step, k)
                && (s'.db.cases[k].attention.optedOut || s'.db.cases[k].failure.cause == Some(Risk))))
  {
    hide Safe, Next, Secures, OtherLink;
    Entry(s, step, k, ManualReview);
    Entry(s, step, k, Stopped);
  }
}
