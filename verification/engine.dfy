// What each committed transaction of the recovery engine does to the database (app/service.py over app/store.py).
// Every function is one transaction, or the read part that precedes one; provider calls happen between them.
module Engine {
  import opened Base
  import opened Models

  // Policy settings; `classify` is the failure classifier and `digest` the hash of logical keys, inputs to the engine.
  datatype Settings = Settings(
    cooldown: int,
    retryEscalationAfter: int,
    contactCooldown: int,
    maxRecoveryAttempts: int,
    maxLinkCancelAttempts: int,
    releaseJitter: int,
    maxReleasesPerTick: int,
    dispatchBatchSize: int,
    linkCancelRetryBatch: int,
    digest: Key -> nat,
    classify: Option<string> -> FailureClass)

  datatype ActionKey =
    | CreateKey(key: Key)
    | LateCancelKey(key: Key, link: LinkId)
    | ReversalCancelKey(key: Key)
    | ReopenKey(key: Key, at: Time)
  {
    predicate IsCancel() {
      LateCancelKey? || ReversalCancelKey?
    }
  }

  datatype ActionStatus = Started | Failed | Succeeded | Superseded

  datatype Action = Action(status: ActionStatus, attempts: int, link: Option<LinkId>, createdAt: Time)

  datatype Db = Db(cases: map<Key, RecoveryCase>, actions: map<ActionKey, Action>, claimed: set<EventId>)

  datatype Fault =
    | ForbiddenTransition(from: CaseState, to: CaseState)
    | VersionConflict(key: Key)
    | NoSuchCase(key: Key)
    | NotInManualReview(state: CaseState)
    | CaseChanged(key: Key)
    | DuplicateCase(key: Key)
    | OutOfCalendar              // an instant that cannot be written as a timestamp

  // A recorded intent to cancel a link, carried out after the commit.
  datatype PendingCancel = PendingCancel(key: Key, action: ActionKey, link: LinkId)

  // What a provider call brings back.
  datatype Answer<+T> = Accepted(value: T) | Refused(retryable: bool)

  datatype NewLink = NewLink(id: LinkId, status: LinkStatus)

  datatype Decision = Decision(target: CaseState, reason: Reason, nextActionAt: Option<Time>)

  // ------------------------------------------------------------------ store

  function TransitionTo(c: RecoveryCase, target: CaseState): Result<RecoveryCase, Fault> {
    if CanTransition(c.state, target) then Ok(c.(state := target))
    else Err(ForbiddenTransition(c.state, target))
  }

  // Compare-and-swap on the version the caller read.
  function SaveCase(db: Db, c: RecoveryCase): Result<Db, Fault> {
    if c.key in db.cases && db.cases[c.key].version == c.version then
      Ok(db.(cases := db.cases[c.key := c.(version := c.version + 1)]))
    else
      Err(VersionConflict(c.key))
  }

  // ON CONFLICT DO NOTHING: the flag says whether the row is new.
  function RecordAction(db: Db, ak: ActionKey, a: Action): (Db, bool) {
    if ak in db.actions then (db, false) else (db.(actions := db.actions[ak := a.(attempts := 1)]), true)
  }

  predicate Claimable(db: Db, ak: ActionKey, maxAttempts: int) {
    ak in db.actions ==> db.actions[ak].status == Failed && db.actions[ak].attempts < maxAttempts
  }

  // Like RecordAction, but a failed row with attempts left may be claimed again.
  function ClaimAction(db: Db, ak: ActionKey, a: Action, maxAttempts: int): (Db, bool) {
    if ak !in db.actions then
      (db.(actions := db.actions[ak := a.(attempts := 1)]), true)
    else if Claimable(db, ak, maxAttempts) then
      var row := db.actions[ak];
      (db.(actions := db.actions[ak := row.(status := a.status, attempts := row.attempts + 1)]), true)
    else
      (db, false)
  }

  function CompleteAction(db: Db, ak: ActionKey, status: ActionStatus, link: Option<LinkId>): Db {
    if ak in db.actions then
      var row := db.actions[ak];
      db.(actions := db.actions[ak := row.(status := status, link := if link.Some? then link else row.link)])
    else
      db
  }

  predicate SameCustomer(c: RecoveryCase, customer: CustomerId, exclude: Key) {
    c.customer == Some(customer) && c.key != exclude
  }

  // Every other case of one person, silenced.
  function OptOutCustomer(db: Db, customer: CustomerId, exclude: Key): Db {
    db.(cases := map k | k in db.cases ::
      var c := db.cases[k];
      if SameCustomer(c, customer, exclude) && !c.attention.optedOut
      then c.(attention := c.attention.(optedOut := true), version := c.version + 1)
      else c)
  }

  // ---------------------------------------------------- customer-wide budget

  function OthersOf(db: Db, customer: CustomerId, exclude: Key): set<Key> {
    set k | k in db.cases && SameCustomer(db.cases[k], customer, exclude)
  }

  ghost function ContactSum(db: Db, keys: set<Key>): int
    requires keys <= db.cases.Keys
  {
    if keys == {} then 0
    else
      var k :| k in keys;
      db.cases[k].attention.contacts + ContactSum(db, keys - {k})
  }

  predicate AnyOptedOut(db: Db, keys: set<Key>)
    requires keys <= db.cases.Keys
  {
    exists k | k in keys :: db.cases[k].attention.optedOut
  }

  // No contact of these cases lies within the cooldown before `now`.
  predicate AllCooled(db: Db, keys: set<Key>, now: Time, cooldown: int)
    requires keys <= db.cases.Keys
  {
    forall k | k in keys ::
      var last := db.cases[k].attention.lastContactAt;
      last.Some? ==> now - last.value >= cooldown
  }

  // Own budget first, then opt-out, budget and cooldown over the customer's other cases. The snapshot may be
  // stale; the other cases are read live. None means allowed.
  ghost function MayContact(db: Db, p: Settings, snapshot: RecoveryCase, now: Time): Option<Reason> {
    var own := snapshot.attention.CanContact(now, p.contactCooldown);
    if own.Some? then own
    else if snapshot.customer.None? then None
    else
      var others := OthersOf(db, snapshot.customer.value, snapshot.key);
      if AnyOptedOut(db, others) then Some(CustomerOptedOut)
      else if snapshot.attention.Effective(now) + ContactSum(db, others) >= snapshot.attention.maxContacts then
        Some(ContactBudgetExhausted)
      else if !AllCooled(db, others, now, p.contactCooldown) then Some(ContactCooldownActive)
      else None
  }

  function RefusalTarget(reason: Reason): CaseState {
    if reason.ContactBudgetExhausted? || reason.ContactCooldownActive? then ManualReview else Stopped
  }

  // ------------------------------------------------------------------ policy

  // `degraded` is the health verdict for the case's issuer and rail at `now`.
  function Decide(c: RecoveryCase, degraded: bool, now: Time, p: Settings): Decision {
    if c.attention.optedOut then Decision(Stopped, CustomerOptedOut, None)
    else if c.failure.cause == Some(Risk) then Decision(Stopped, RiskPolicyStop, None)
    else if c.attempts >= p.maxRecoveryAttempts then Decision(ManualReview, RetryAttemptsExhausted, None)
    else if c.failure.cause == Some(Unknown) then Decision(ManualReview, UnclassifiedFailure, None)
    else if c.failure.cause == Some(CustomerAction) then Decision(ConsentRequired, CustomerActionRequired, None)
    else if degraded then Decision(Cooldown, ObservedIssuerDegradation, Some(now + p.cooldown))
    else Decision(RetryScheduled, SafeRetryWindow, Some(now + p.retryEscalationAfter))
  }

  function ParkedReason(d: Decision): Option<Reason> {
    if d.target.Stopped? || d.target.ManualReview? then Some(d.reason) else None
  }

  // ----------------------------------------------------------- event handlers

  function Touched(c: RecoveryCase, at: Time): RecoveryCase {
    c.(updatedAt := Max(c.updatedAt, at))
  }

  predicate AlreadyActioned(s: CaseState) {
    s.ConsentRequired? || s.LinkSent? || s.AuthorizedPendingCapture? || s.ManualReview?
  }

  // An event without a code, or with an empty one, leaves the case its earlier code.
  function CodeFor(c: RecoveryCase, e: PaymentEvent): Option<string> {
    if e.code.Some? && e.code.value != "" then e.code else c.failure.code
  }

  function WithFailure(c: RecoveryCase, e: PaymentEvent, p: Settings): RecoveryCase {
    var code := CodeFor(c, e);
    Touched(c, e.at).(failure := Failure(Some(p.classify(code)), code, Lower(e.issuer), e.rail),
                      amount := if e.amount > 0 then e.amount else c.amount, attempts := c.attempts + 1)
  }

  function WithAttempt(c: RecoveryCase, e: PaymentEvent): RecoveryCase {
    Touched(c, e.at).(attempts := c.attempts + 1,
                      amount := if e.amount > 0 && c.amount <= 0 then e.amount else c.amount)
  }

  // What a failure event makes of a case that is still being worked on.
  function AfterFailure(c: RecoveryCase, e: PaymentEvent, degraded: bool, p: Settings): RecoveryCase {
    if AlreadyActioned(c.state) then WithAttempt(c, e)
    else
      var c1 := WithFailure(c, e, p);
      var d := Decide(c1, degraded, e.at, p);
      if !CanTransition(c1.state, d.target) then c1
      else c1.(state := d.target, nextActionAt := d.nextActionAt, stopReason := ParkedReason(d))
  }

  function HandleFailure(db: Db, e: PaymentEvent, degraded: bool, p: Settings): Result<Db, Fault> {
    if e.key in db.cases then
      var c := db.cases[e.key];
      if IsFinal(c.state) then Ok(db) else SaveCase(db, AfterFailure(c, e, degraded, p))
    else
      var c := FromFailedEvent(e);
      SaveCase(db.(cases := db.cases[e.key := c]), AfterFailure(c, e, degraded, p))
  }

  // Claims a cancel of the case's live link; None when there is none to cancel or the claim is refused.
  function ClaimCancel(db: Db, c: RecoveryCase, ak: ActionKey, at: Time, p: Settings)
    : (Db, Option<PendingCancel>)
  {
    if !c.HasCancellableLink() then (db, None)
    else
      var (db1, won) := ClaimAction(db, ak, Action(Started, 1, c.linkId, at), p.maxLinkCancelAttempts);
      (db1, if won then Some(PendingCancel(c.key, ak, c.linkId.value)) else None)
  }

  predicate Captured(e: PaymentEvent) {
    e.captured || e.kind.PaymentCaptured? || e.kind.OrderPaid?
  }

  function AfterSuccess(c: RecoveryCase, e: PaymentEvent): Result<RecoveryCase, Fault> {
    var c1 :- TransitionTo(Touched(c, e.at), if Captured(e) then RecoveredNatural else AuthorizedPendingCapture);
    Ok(c1.(nextActionAt := None, stopReason :=
      Some(if Captured(e) then OriginalPaymentCaptured else LateAuthorisationPendingCapture)))
  }

  function LateCancelOf(c: RecoveryCase): ActionKey {
    LateCancelKey(c.key, if c.linkId.Some? then c.linkId.value else "")
  }

  function HandleSuccess(db: Db, e: PaymentEvent, p: Settings): Result<(Db, Option<PendingCancel>), Fault> {
    if e.key !in db.cases || IsFinal(db.cases[e.key].state) then Ok((db, None))
    else
      var c :- AfterSuccess(db.cases[e.key], e);
      var (db1, pending) := ClaimCancel(db, c, LateCancelOf(c), e.at, p);
      // The preview points at a link about to be revoked.
      var db2 :- SaveCase(db1, if pending.Some? then c.(preview := false) else c);
      Ok((db2, pending))
  }

  function AfterReversal(c: RecoveryCase, e: PaymentEvent): RecoveryCase {
    var c1 := Touched(c, e.at).(attention := c.attention.(optedOut := true), reconcile := true,
                                reversal := Some(Reversal(e.kind, e.at)));
    if CanTransition(c1.state, RecoveryReversed) then c1.(state := RecoveryReversed) else c1
  }

  function HandleReversal(db: Db, e: PaymentEvent, p: Settings): Result<(Db, Option<PendingCancel>), Fault> {
    if e.key !in db.cases || db.cases[e.key].state == RecoveryReversed then Ok((db, None))
    else
      var c := db.cases[e.key];
      var (db1, pending) := ClaimCancel(db, c, ReversalCancelKey(c.key), e.at, p);
      var db2 := if c.customer.Some? then OptOutCustomer(db1, c.customer.value, c.key) else db1;
      var db3 :- SaveCase(db2, AfterReversal(c, e));
      Ok((db3, pending))
  }

  // The link status an event reports, and where it would move a case that is (not) awaiting capture.
  function LinkOutcome(kind: EventType, awaiting: bool): (LinkStatus, Option<CaseState>, Reason) {
    if kind == PaymentLinkPaid then
      if awaiting then (Paid, Some(ManualReview), DuplicateCollectionRequiresReconciliation)
      else (Paid, Some(RecoveredByLink), PaymentLinkWasCaptured)
    else if kind == PaymentLinkPartiallyPaid then
      (PartiallyPaid, Some(ManualReview), PartialRecoveryRequiresReconciliation)
    else if kind == PaymentLinkCancelled then
      (Cancelled, if awaiting then None else Some(ManualReview), RecoveryLinkCancelled)
    else
      (Expired, if awaiting then None else Some(ManualReview), RecoveryLinkExpired)
  }

  function AfterLinkEvent(c: RecoveryCase, e: PaymentEvent): RecoveryCase {
    var c1 := Touched(c, e.at);
    if IsFinal(c.state) then
      c1.(reconcile := true, stopReason := Some(LateLinkEventRequiresReconciliation))
    else
      var (status, target, reason) := LinkOutcome(e.kind, c.state == AuthorizedPendingCapture);
      var c2 := c1.(preview := false, linkStatus := Some(status));
      if target.None? then c2
      else if CanTransition(c2.state, target.value) then
        c2.(state := target.value, stopReason := Some(reason), nextActionAt := None)
      else
        c2.(reconcile := true, stopReason := Some(UnexpectedLinkEventFrom(c2.state)))
  }

  function HandleLink(db: Db, e: PaymentEvent): Result<Db, Fault> {
    if e.key !in db.cases then Ok(db)
    else
      var c := db.cases[e.key];
      if e.linkId.Some? && c.linkId.Some? && e.linkId != c.linkId then Ok(db)
      else SaveCase(db, AfterLinkEvent(c, e))
  }

  function Handle(db: Db, e: PaymentEvent, degraded: bool, p: Settings): Result<(Db, Option<PendingCancel>), Fault> {
    if IsFailureEvent(e.kind) then
      var db1 :- HandleFailure(db, e, degraded, p);
      Ok((db1, None))
    else if IsSuccessEvent(e.kind) then HandleSuccess(db, e, p)
    else if IsLinkEvent(e.kind) then
      var db1 :- HandleLink(db, e);
      Ok((db1, None))
    else HandleReversal(db, e, p)
  }

  function Claim(db: Db, id: EventId): Db {
    db.(claimed := db.claimed + {id})
  }

  // The ingest transaction: a delivery already claimed changes nothing. An Err means the whole transaction, claim
  // included, is rolled back.
  function Ingest(db: Db, e: PaymentEvent, degraded: bool, p: Settings): Result<(Db, Option<PendingCancel>), Fault> {
    if e.id in db.claimed then Ok((db, None)) else Handle(Claim(db, e.id), e, degraded, p)
  }

  // ------------------------------------------------------------ cancel outcome

  function AfterCancel(c: RecoveryCase, answer: Answer<LinkStatus>, now: Time): RecoveryCase {
    var c1 := c.(updatedAt := now);
    if answer.Refused? then c1.(reconcile := true, stopReason := Some(PaymentLinkCancelFailed))
    else
      var c2 := c1.(linkStatus := Some(answer.value), preview := false);
      if answer.value != Cancelled then
        c2.(reconcile := true, stopReason := Some(LinkCancelReturnedNonCancellableStatus))
      else if c2.stopReason == Some(PaymentLinkCancelFailed) then
        c2.(reconcile := false, stopReason := None)
      else c2
  }

  function CancelCommit(db: Db, pc: PendingCancel, answer: Answer<LinkStatus>, now: Time): Result<Db, Fault> {
    var db1 := CompleteAction(db, pc.action, if answer.Refused? then Failed else Succeeded, Some(pc.link));
    if pc.key !in db1.cases then Ok(db1)
    else SaveCase(db1, AfterCancel(db1.cases[pc.key], answer, now))
  }

  // ----------------------------------------------------------------- dispatch

  // Where a due timed case should go. `slot` says whether the issuer's release quota still had room.
  ghost function PlanTimed(db: Db, p: Settings, snapshot: RecoveryCase, degraded: bool, slot: bool, offset: int,
                           now: Time): Decision
  {
    if snapshot.state == Cooldown then
      if degraded then Decision(Cooldown, IssuerStillDegraded, Some(now + p.cooldown))
      else if !slot then Decision(Cooldown, ReleaseRateLimited, Some(now + p.releaseJitter))
      else Decision(RetryScheduled, IssuerRecovered, Some(now + p.retryEscalationAfter + offset))
    else if snapshot.attempts >= p.maxRecoveryAttempts then
      Decision(ManualReview, RetryAttemptsExhausted, None)
    else
      var refusal := MayContact(db, p, snapshot, now);
      if refusal.Some? then Decision(RefusalTarget(refusal.value), refusal.value, None)
      else Decision(ConsentRequired, RetryWindowElapsed, None)
  }

  function AfterPlan(c: RecoveryCase, d: Decision, now: Time): RecoveryCase {
    c.(state := d.target, nextActionAt := d.nextActionAt, updatedAt := now,
       stopReason := if ParkedReason(d).Some? then ParkedReason(d) else c.stopReason)
  }

  // Applies a dispatch decision unless the case moved on since the snapshot; the flag says it was applied.
  function CommitState(db: Db, snapshot: RecoveryCase, d: Decision, now: Time): (Db, bool) {
    if snapshot.key !in db.cases then (db, false)
    else
      var c := db.cases[snapshot.key];
      if c.version != snapshot.version || IsFinal(c.state) || !CanTransition(c.state, d.target) then (db, false)
      else
        var r := SaveCase(db, AfterPlan(c, d, now));
        if r.Ok? then (r.value, true) else (db, false)
  }

  function CreateIntent(db: Db, key: Key, now: Time): (Db, bool) {
    RecordAction(db, CreateKey(key), Action(Started, 1, None, now))
  }

  function AfterCreateRefused(c: RecoveryCase, retryable: bool, now: Time): Result<RecoveryCase, Fault> {
    var c1 :- TransitionTo(c, ManualReview);
    Ok(c1.(stopReason := Some(if retryable then PaymentLinkCreateUnavailable else PaymentLinkCreateRejected),
           updatedAt := now))
  }

  function AfterLinkCreated(c: RecoveryCase, link: NewLink, now: Time): Result<RecoveryCase, Fault> {
    var c1 :- TransitionTo(c.(linkId := Some(link.id), linkStatus := Some(link.status),
                              attention := c.attention.RecordContact(now)), LinkSent);
    Ok(c1.(nextActionAt := None, updatedAt := now))
  }

  // The outcome of a link creation. The flag says whether the link was superseded and must be cancelled quietly.
  function CreateCommit(db: Db, key: Key, answer: Answer<NewLink>, now: Time): Result<(Db, bool), Fault> {
    var live := key in db.cases && db.cases[key].state == ConsentRequired;
    if answer.Refused? then
      var db1 := CompleteAction(db, CreateKey(key), Failed, None);
      if !live then Ok((db1, false))
      else
        var c :- AfterCreateRefused(db1.cases[key], answer.retryable, now);
        var db2 :- SaveCase(db1, c);
        Ok((db2, false))
    else if !live then
      Ok((CompleteAction(db, CreateKey(key), Superseded, Some(answer.value.id)), true))
    else
      var c :- AfterLinkCreated(db.cases[key], answer.value, now);
      var db1 :- SaveCase(db, c);
      Ok((CompleteAction(db1, CreateKey(key), Succeeded, Some(answer.value.id)), false))
  }

  // ----------------------------------------------------------------- operator

  function AfterReopen(c: RecoveryCase, failureClass: Option<FailureClass>, degraded: bool, now: Time, p: Settings)
    : RecoveryCase
  {
    var c1 := c.(failure := c.failure.(cause := if failureClass.Some? then failureClass else c.failure.cause),
                 attempts := 0, stopReason := None, nextActionAt := None);
    var d := Decide(c1, degraded, now, p);
    var c2 := if CanTransition(c1.state, d.target) then c1.(state := d.target) else c1;
    c2.(stopReason := ParkedReason(d), nextActionAt := d.nextActionAt, updatedAt := now)
  }

  function Reopen(db: Db, key: Key, failureClass: Option<FailureClass>, degraded: bool, now: Time, p: Settings)
    : Result<Db, Fault>
  {
    if key !in db.cases then Err(NoSuchCase(key))
    else if db.cases[key].state != ManualReview then Err(NotInManualReview(db.cases[key].state))
    else
      var (db1, _) := RecordAction(db, ReopenKey(key, now), Action(Succeeded, 1, None, now));
      SaveCase(db1, AfterReopen(db.cases[key], failureClass, degraded, now, p))
  }

  // Stores a draft written from an earlier read of the case.
  function SavePreview(db: Db, snapshot: RecoveryCase, now: Time): Result<Db, Fault> {
    if snapshot.key !in db.cases then Err(NoSuchCase(snapshot.key))
    else
      var c := db.cases[snapshot.key];
      if c.state != LinkSent || c.linkId != snapshot.linkId then Err(CaseChanged(snapshot.key))
      else SaveCase(db, c.(preview := true, updatedAt := now))
  }
}
