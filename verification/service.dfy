// The recovery service (app/service.py) as an object over the store, the health monitor and the payment provider.
// Each method is proved to do to the stored cases exactly what the engine's model says, rolling back on failure.
module Service {
  import opened Base
  import opened Models
  import opened Engine
  import opened Stamps
  import opened Rows
  import opened Queries
  import opened ServiceModel
  import opened Store
  import opened Health
  import opened Windows
  import opened Delivery
  import opened Effects
  import opened Serving
  import opened Protocol
  import opened Refinement
  import R = Release

  // The payment provider: an oracle that may answer anything, and logs of what it was asked.
  class PaymentGateway {
    const createScript: nat -> Answer<NewLink>
    const cancelScript: nat -> Answer<LinkStatus>
    var creates: seq<Key>
    var cancels: seq<LinkId>
    ghost var keyed: seq<PendingCancel>      // the recorded actions some of the cancels were made for

    constructor (createScript: nat -> Answer<NewLink>, cancelScript: nat -> Answer<LinkStatus>)
      ensures this.createScript == createScript && this.cancelScript == cancelScript
      ensures creates == [] && cancels == [] && keyed == []
    {
      this.createScript, this.cancelScript := createScript, cancelScript;
      creates, cancels, keyed := [], [], [];
    }

    method CreatePaymentLink(reference: Key) returns (answer: Answer<NewLink>)
      modifies this`creates
      ensures creates == old(creates) + [reference] && answer == createScript(|old(creates)|)
    {
      answer := createScript(|creates|);
      creates := creates + [reference];
    }

    method CancelPaymentLink(link: LinkId, ghost purpose: Option<PendingCancel>)
      returns (answer: Answer<LinkStatus>)
      requires purpose.Some? ==> purpose.value.link == link
      modifies this`cancels, this`keyed
      ensures cancels == old(cancels) + [link] && answer == cancelScript(|old(cancels)|)
      ensures keyed == old(keyed) + if purpose.Some? then [purpose.value] else []
    {
      answer := cancelScript(|cancels|);
      cancels := cancels + [link];
      keyed := keyed + if purpose.Some? then [purpose.value] else [];
    }

    ghost function Log(): Calls
      reads this
    {
      Calls(creates, cancels, keyed)
    }
  }

  class RecoveryService {
    const store: RecoveryStore
    const health: BankHealthMonitor
    const gateway: PaymentGateway
    const settings: Settings

    ghost predicate Valid()
      reads this, store, health
    {
      store.Valid() && health.Valid()
    }

    ghost function Contents(): Db
      reads this, store
    {
      store.Contents()
    }

    constructor (store: RecoveryStore, health: BankHealthMonitor, gateway: PaymentGateway, settings: Settings)
      requires store.Valid() && health.Valid()
      ensures Valid() && this.store == store && this.health == health && this.gateway == gateway
      ensures this.settings == settings
    {
      this.store, this.health, this.gateway, this.settings := store, health, gateway, settings;
    }

    // ------------------------------------------------------------- policy

    method Decide(c: RecoveryCase, now: Time) returns (d: Decision)
      requires Valid()
      modifies health
      ensures Valid()
      ensures d == Engine.Decide(c, old(health.Peek(HealthOf(c), now)).degraded, now, settings)
      ensures health.State() in {old(health.State()), health.Read(old(health.State()), HealthOf(c), now)}
    {
      if c.attention.optedOut {
        return Decision(Stopped, CustomerOptedOut, None);
      }
      if c.failure.cause == Some(Risk) {
        return Decision(Stopped, RiskPolicyStop, None);
      }
      if c.attempts >= settings.maxRecoveryAttempts {
        return Decision(ManualReview, RetryAttemptsExhausted, None);
      }
      if c.failure.cause == Some(FailureClass.Unknown) {
        return Decision(ManualReview, UnclassifiedFailure, None);
      }
      if c.failure.cause == Some(CustomerAction) {
        return Decision(ConsentRequired, CustomerActionRequired, None);
      }
      var snapshot := health.SnapshotAt(c.failure.issuer, c.failure.rail, now);
      if snapshot.degraded {
        return Decision(Cooldown, ObservedIssuerDegradation, Some(now + settings.cooldown));
      }
      d := Decision(RetryScheduled, SafeRetryWindow, Some(now + settings.retryEscalationAfter));
    }

    // -------------------------------------------------------- event handlers

    // save_case inside a transaction.
    method Save(c: RecoveryCase) returns (r: Result<(), Fault>)
      requires Valid()
      modifies store
      ensures Valid()
      ensures Matches(r, Plain(Engine.SaveCase(old(Contents()), c)), Contents(), true)
    {
      hide Indexed, BankHealthMonitor.Valid, SaveOutcome, Matches, Plain, Engine.SaveCase;
      ghost var before := Contents();
      var saved := store.SaveCase(c);
      r := if saved.Ok? then Ok(()) else Err(saved.error);
      SaveMatches(before, c, saved, Contents());
    }

    // What an event does to the health window, and the verdict a decision on it then reads.
    ghost function Observes(h: Memory, e: PaymentEvent): (Memory, bool) {
      if IsFailureEvent(e.kind) then
        var h' := health.Written(h, OutcomeKey(e), Obs(e.at, false));
        (h', health.PeekIn(h'.windows, OutcomeKey(e), e.at).degraded)
      else if IsSuccessEvent(e.kind) then (health.Written(h, OutcomeKey(e), Obs(e.at, true)), false)
      else (h, false)
    }

    // Feed the issuer's health; the verdict is the one a decision at this instant would read.
    method ObserveOutcome(e: PaymentEvent, succeeded: bool) returns (ghost degraded: bool)
      requires Valid()
      modifies health
      ensures Valid()
      ensures health.State() == health.Written(old(health.State()), OutcomeKey(e), Obs(e.at, succeeded))
      ensures degraded == health.PeekIn(health.windows, OutcomeKey(e), e.at).degraded
      ensures health.Read(health.State(), OutcomeKey(e), e.at) == health.State()
    {
      hide Indexed, BankHealthMonitor.Written, BankHealthMonitor.Read, Lower, BankHealthMonitor.PeekIn;
      ghost var was := health.State();
      health.Consistent();
      health.Observe(e.issuer, e.rail, succeeded, e.at);
      health.WrittenIsRead(was, OutcomeKey(e), Obs(e.at, succeeded));
      degraded := health.PeekIn(health.windows, OutcomeKey(e), e.at).degraded;
    }

    method HandleFailure(existing: Option<RecoveryCase>, e: PaymentEvent)
      returns (r: Result<(), Fault>, ghost degraded: bool)
      requires Valid() && existing == Lookup(Contents(), e.key)
      modifies store, health
      ensures Valid()
      ensures Matches(r, Plain(Engine.HandleFailure(old(Contents()), e, degraded, settings)), Contents(), InRange(e.at))
      ensures health.State() == health.Written(old(health.State()), OutcomeKey(e), Obs(e.at, false))
      ensures degraded == health.PeekIn(health.windows, OutcomeKey(e), e.at).degraded
    {
      hide Engine.AfterFailure, FromFailedEvent, Stampable, Indexed, BankHealthMonitor.Valid, Engine.SaveCase, Matches,
        InRange, BankHealthMonitor.Written, BankHealthMonitor.Read, BankHealthMonitor.PeekIn, Lower;
      degraded := ObserveOutcome(e, false);
      ghost var model := Plain(Engine.HandleFailure(Contents(), e, degraded, settings));
      FreshIsStampable(e);
      var c;
      if existing.None? {
        c := FromFailedEvent(e);
        var inserted := store.InsertCase(c);
        if inserted.Err? {
          r := Err(inserted.error);
          MatchesWhenLate(r, model, Contents(), InRange(e.at));
          return;
        }
      } else {
        c := existing.value;
      }
      if IsFinal(c.state) {
        r := Ok(());
        MatchesAsIs(r, model, Contents(), InRange(e.at));
        return;
      }
      c := AfterFailure(c, e, degraded);
      ghost var mid := Contents();
      r := Save(c);
      assert model == Plain(Engine.SaveCase(mid, c));
      MatchesWhenLate(r, model, Contents(), InRange(e.at));
    }

    // What the failure makes of the case, before it is saved.
    method AfterFailure(case0: RecoveryCase, e: PaymentEvent, ghost degraded: bool) returns (c: RecoveryCase)
      requires Valid() && degraded == health.PeekIn(health.windows, OutcomeKey(e), e.at).degraded
      requires health.Read(health.State(), OutcomeKey(e), e.at) == health.State()
      modifies health
      ensures Valid() && health.State() == old(health.State())
      ensures c == Engine.AfterFailure(case0, e, degraded, settings)
    {
      if AlreadyActioned(case0.state) {
        c := RecordAttempt(case0, e);
        return;
      }
      c := Reclassify(case0, e);
      hide Engine.Decide, WithFailure, WithAttempt, AllowedTransition, Lower, BankHealthMonitor.Read,
        BankHealthMonitor.PeekIn;
      var d := Decide(c, e.at);
      if !CanTransition(c.state, d.target) {
        return;
      }
      c := c.(state := d.target);
      c := c.(nextActionAt := d.nextActionAt);
      c := c.(stopReason := if d.target.Stopped? || d.target.ManualReview? then Some(d.reason) else None);
    }

    // A failure against a case whose state must not change.
    method RecordAttempt(case0: RecoveryCase, e: PaymentEvent) returns (c: RecoveryCase)
      ensures c == WithAttempt(case0, e)
    {
      c := case0.(attempts := case0.attempts + 1);
      c := c.(updatedAt := Max(c.updatedAt, e.at));
      if e.amount > 0 && c.amount <= 0 {
        c := c.(amount := e.amount);
      }
    }

    method Reclassify(case0: RecoveryCase, e: PaymentEvent) returns (c: RecoveryCase)
      ensures c == WithFailure(case0, e, settings)
      ensures HealthOf(c) == OutcomeKey(e)
    {
      LowerTwice(e.issuer);
      hide Lower;
      var code := if e.code.Some? && e.code.value != "" then e.code else case0.failure.code;
      c := case0.(failure := Failure(Some(settings.classify(code)), code, Lower(e.issuer), e.rail));
      if e.amount > 0 {
        c := c.(amount := e.amount);
      }
      c := c.(attempts := c.attempts + 1);
      c := c.(updatedAt := Max(c.updatedAt, e.at));
    }

    // Record the intent to cancel the case's live link; the network call happens after the commit.
    method ScheduleLinkCancel(c: RecoveryCase, ak: ActionKey, now: Time)
      returns (r: Result<Option<PendingCancel>, Fault>)
      requires Valid()
      modifies store
      ensures Valid()
      ensures if r.Ok? then (Contents(), r.value) == ClaimCancel(old(Contents()), c, ak, now, settings)
              else r.error == Fault.OutOfCalendar && !InRange(now)
    {
      hide Stampable, Indexed, BankHealthMonitor.Valid, Engine.ClaimAction;
      if !c.HasCancellableLink() {
        return Ok(None);
      }
      var claimed := store.ClaimAction(ak, Action(ActionStatus.Started, 1, c.linkId, now),
                                       settings.maxLinkCancelAttempts);
      if claimed.Err? {
        return Err(claimed.error);
      }
      r := Ok(if claimed.value then Some(PendingCancel(c.key, ak, c.linkId.value)) else None);
    }

    // Save the case and hand on the cancel recorded before it.
    method SaveWith(c: RecoveryCase, pending: Option<PendingCancel>) returns (r: Result<Option<PendingCancel>, Fault>)
      requires Valid()
      modifies store
      ensures Valid()
      ensures Matches(r, With(Engine.SaveCase(old(Contents()), c), pending), Contents(), true)
    {
      hide Engine.SaveCase;
      var saved := Save(c);
      r := if saved.Ok? then Ok(pending) else Err(saved.error);
    }

    method HandleSuccess(existing: Option<RecoveryCase>, e: PaymentEvent)
      returns (r: Result<Option<PendingCancel>, Fault>)
      requires Valid() && existing == Lookup(Contents(), e.key)
      modifies store, health
      ensures Valid()
      ensures Matches(r, Engine.HandleSuccess(old(Contents()), e, settings), Contents(), InRange(e.at))
      ensures health.State() == health.Written(old(health.State()), OutcomeKey(e), Obs(e.at, true))
    {
      hide Stampable, Indexed, BankHealthMonitor.Valid, Matches, InRange, SuccessOf, Engine.HandleSuccess,
        BankHealthMonitor.Written, BankHealthMonitor.Read, BankHealthMonitor.PeekIn;
      ghost var model := Engine.HandleSuccess(Contents(), e, settings);
      SuccessUnfolds(Contents(), e, settings);
      ghost var degraded := ObserveOutcome(e, true);
      if existing.None? || IsFinal(existing.value.state) {
        r := Ok(None);
        MatchesAsIs(r, model, Contents(), InRange(e.at));
      } else {
        r := Succeed(existing.value, e);
      }
    }

    method Succeed(c: RecoveryCase, e: PaymentEvent) returns (r: Result<Option<PendingCancel>, Fault>)
      requires Valid()
      modifies store
      ensures Valid()
      ensures Matches(r, SuccessOf(old(Contents()), c, e, settings), Contents(), InRange(e.at))
    {
      hide Stampable, Indexed, BankHealthMonitor.Valid, Matches, InRange, Collected, Engine.AfterSuccess;
      ghost var model := SuccessOf(Contents(), c, e, settings);
      var after := AfterSuccess(c, e);
      if after.Err? {
        r := Err(after.error);
        MatchesError(r, model, Contents(), InRange(e.at));
      } else {
        r := CollectCase(after.value, e.at);
        MatchesWhenLate(r, model, Contents(), InRange(e.at));
      }
    }

    // Claim the cancel of a collected case's live link, then save the case.
    method CollectCase(case0: RecoveryCase, at: Time) returns (r: Result<Option<PendingCancel>, Fault>)
      requires Valid()
      modifies store
      ensures Valid()
      ensures Matches(r, Collected(old(Contents()), case0, at, settings), Contents(), true)
           || (!InRange(at) && r == Err(Fault.OutOfCalendar))
    {
      hide Stampable, Indexed, BankHealthMonitor.Valid, Engine.SaveCase, Matches, InRange, ClaimCancel;
      var c := case0;
      var claimed := ScheduleLinkCancel(c, LateCancelOf(c), at);
      if claimed.Err? {
        return claimed;
      }
      if claimed.value.Some? {
        c := c.(preview := false);
      }
      r := SaveWith(c, claimed.value);
    }

    method AfterSuccess(case0: RecoveryCase, e: PaymentEvent) returns (r: Result<RecoveryCase, Fault>)
      ensures r == Engine.AfterSuccess(case0, e)
    {
      hide AllowedTransition;
      var c := case0.(updatedAt := Max(case0.updatedAt, e.at));
      var captured := e.captured || e.kind.PaymentCaptured? || e.kind.OrderPaid?;
      var target := if captured then RecoveredNatural else AuthorizedPendingCapture;
      if !CanTransition(c.state, target) {
        return Err(ForbiddenTransition(c.state, target));
      }
      c := c.(state := target);
      c := c.(stopReason := Some(if captured then OriginalPaymentCaptured else LateAuthorisationPendingCapture));
      c := c.(nextActionAt := None);
      r := Ok(c);
    }

    method HandleLink(existing: Option<RecoveryCase>, e: PaymentEvent) returns (r: Result<(), Fault>)
      requires Valid() && existing == Lookup(Contents(), e.key)
      modifies store
      ensures Valid()
      ensures Matches(r, Plain(Engine.HandleLink(old(Contents()), e)), Contents(), InRange(e.at))
    {
      hide Stampable, Indexed, BankHealthMonitor.Valid, Engine.SaveCase, Matches, InRange, Engine.AfterLinkEvent;
      ghost var model := Plain(Engine.HandleLink(Contents(), e));
      if existing.None? || (e.linkId.Some? && existing.value.linkId.Some? && e.linkId != existing.value.linkId) {
        r := Ok(());
        MatchesAsIs(r, model, Contents(), InRange(e.at));
        return;
      }
      var c := AfterLinkEvent(existing.value, e);
      r := Save(c);
      MatchesWhenLate(r, model, Contents(), InRange(e.at));
    }

    method AfterLinkEvent(case0: RecoveryCase, e: PaymentEvent) returns (c: RecoveryCase)
      ensures c == Engine.AfterLinkEvent(case0, e)
    {
      hide AllowedTransition;
      c := case0.(updatedAt := Max(case0.updatedAt, e.at));
      if IsFinal(c.state) {
        c := c.(reconcile := true, stopReason := Some(LateLinkEventRequiresReconciliation));
        return;
      }
      c := c.(preview := false);
      var awaiting := c.state == AuthorizedPendingCapture;
      var target: Option<CaseState>, reason;
      if e.kind.PaymentLinkPaid? {
        c := c.(linkStatus := Some(Paid));
        if awaiting {
          target, reason := Some(ManualReview), DuplicateCollectionRequiresReconciliation;
        } else {
          target, reason := Some(RecoveredByLink), PaymentLinkWasCaptured;
        }
      } else if e.kind.PaymentLinkPartiallyPaid? {
        c := c.(linkStatus := Some(PartiallyPaid));
        target, reason := Some(ManualReview), PartialRecoveryRequiresReconciliation;
      } else if e.kind.PaymentLinkCancelled? {
        c := c.(linkStatus := Some(LinkStatus.Cancelled));
        target := if awaiting then None else Some(ManualReview);
        reason := RecoveryLinkCancelled;
      } else {
        c := c.(linkStatus := Some(Expired));
        target := if awaiting then None else Some(ManualReview);
        reason := RecoveryLinkExpired;
      }
      if target.Some? {
        if CanTransition(c.state, target.value) {
          c := c.(state := target.value, stopReason := Some(reason), nextActionAt := None);
        } else {
          c := c.(reconcile := true, stopReason := Some(UnexpectedLinkEventFrom(c.state)));
        }
      }
    }

    method HandleReversal(existing: Option<RecoveryCase>, e: PaymentEvent)
      returns (r: Result<Option<PendingCancel>, Fault>)
      requires Valid() && existing == Lookup(Contents(), e.key)
      modifies store
      ensures Valid()
      ensures Matches(r, Engine.HandleReversal(old(Contents()), e, settings), Contents(), InRange(e.at))
    {
      hide Stampable, Indexed, BankHealthMonitor.Valid, Matches, InRange, ClaimCancel, Reversed, Engine.HandleReversal;
      ghost var model := Engine.HandleReversal(Contents(), e, settings);
      ReversalUnfolds(Contents(), e, settings);
      if existing.None? || existing.value.state == RecoveryReversed {
        r := Ok(None);
        MatchesAsIs(r, model, Contents(), InRange(e.at));
        return;
      }
      var c := existing.value;
      var claimed := ScheduleLinkCancel(c, ReversalCancelKey(c.key), e.at);
      if claimed.Err? {
        r := claimed;
      } else {
        r := ReverseCase(c, claimed.value, e);
      }
      MatchesWhenLate(r, model, Contents(), InRange(e.at));
    }

    // Silence the person everywhere, then save the reversed case itself.
    method ReverseCase(c: RecoveryCase, pending: Option<PendingCancel>, e: PaymentEvent)
      returns (r: Result<Option<PendingCancel>, Fault>)
      requires Valid()
      modifies store
      ensures Valid()
      ensures Matches(r, Reversed(old(Contents()), c, pending, e), Contents(), true)
    {
      hide Stampable, Indexed, BankHealthMonitor.Valid, Engine.SaveCase, Matches, Engine.AfterReversal,
        Engine.OptOutCustomer;
      if c.customer.Some? {
        store.OptOutCustomer(c.customer.value, c.key);
      }
      var c' := AfterReversal(c, e);
      r := SaveWith(c', pending);
    }

    method AfterReversal(case0: RecoveryCase, e: PaymentEvent) returns (c: RecoveryCase)
      ensures c == Engine.AfterReversal(case0, e)
    {
      hide AllowedTransition;
      c := case0.(attention := case0.attention.(optedOut := true));
      c := c.(reversal := Some(Reversal(e.kind, e.at)));
      c := c.(reconcile := true);
      c := c.(updatedAt := Max(c.updatedAt, e.at));
      if CanTransition(c.state, RecoveryReversed) {
        c := c.(state := RecoveryReversed);
      }
    }

    // ------------------------------------------------------------- ingest

    method Handle(e: PaymentEvent) returns (r: Result<Option<PendingCancel>, Fault>, ghost degraded: bool)
      requires Valid()
      modifies store, health
      ensures Valid()
      ensures Matches(r, Engine.Handle(old(Contents()), e, degraded, settings), Contents(), InRange(e.at))
      ensures (health.State(), degraded) == Observes(old(health.State()), e)
    {
      hide Stampable, Indexed, BankHealthMonitor.Valid, Matches, InRange, With, Engine.Handle, Engine.HandleFailure,
        Engine.HandleSuccess, Engine.HandleLink, Engine.HandleReversal, BankHealthMonitor.Written,
        BankHealthMonitor.PeekIn;
      var existing := store.GetCase(e.key);
      degraded := false;
      if IsFailureEvent(e.kind) {
        r, degraded := HandleFailureEvent(existing, e);
      } else if IsSuccessEvent(e.kind) {
        r := HandleSuccess(existing, e);
      } else if IsLinkEvent(e.kind) {
        r := HandleLinkEvent(existing, e);
      } else {
        r := HandleReversal(existing, e);
      }
      HandleUnfolds(old(Contents()), e, degraded, settings);
    }

    method HandleFailureEvent(existing: Option<RecoveryCase>, e: PaymentEvent)
      returns (r: Result<Option<PendingCancel>, Fault>, ghost degraded: bool)
      requires Valid() && existing == Lookup(Contents(), e.key)
      modifies store, health
      ensures Valid()
      ensures Matches(r, With(Engine.HandleFailure(old(Contents()), e, degraded, settings), None), Contents(),
                      InRange(e.at))
      ensures health.State() == health.Written(old(health.State()), OutcomeKey(e), Obs(e.at, false))
      ensures degraded == health.PeekIn(health.windows, OutcomeKey(e), e.at).degraded
    {
      hide Stampable, Indexed, BankHealthMonitor.Valid, Matches, InRange, Plain, With, Engine.HandleFailure,
        BankHealthMonitor.Written, BankHealthMonitor.PeekIn;
      var done;
      done, degraded := HandleFailure(existing, e);
      r := Quietly(done);
      NothingToCancel(done, Engine.HandleFailure(old(Contents()), e, degraded, settings), Contents(), InRange(e.at));
    }

    method HandleLinkEvent(existing: Option<RecoveryCase>, e: PaymentEvent)
      returns (r: Result<Option<PendingCancel>, Fault>)
      requires Valid() && existing == Lookup(Contents(), e.key)
      modifies store
      ensures Valid()
      ensures Matches(r, With(Engine.HandleLink(old(Contents()), e), None), Contents(), InRange(e.at))
    {
      hide Stampable, Indexed, BankHealthMonitor.Valid, Matches, InRange, Plain, With, Engine.HandleLink;
      var done := HandleLink(existing, e);
      r := Quietly(done);
      NothingToCancel(done, Engine.HandleLink(old(Contents()), e), Contents(), InRange(e.at));
    }

    // The ingest transaction: claim the delivery, handle it, and undo everything if that fails. The health window is
    // no part of the store: what it was fed stays.
    method IngestTransaction(e: PaymentEvent)
      returns (r: Result<Option<PendingCancel>, Fault>, newly: bool, ghost degraded: bool)
      requires Valid()
      modifies store, health
      ensures Valid()
      ensures degraded == Observes(old(health.State()), e).1
      ensures Commits(r, Engine.Ingest(old(Contents()), e, degraded, settings), old(Contents()), Contents(),
                      InRange(e.at))
      ensures !InRange(e.at) ==> r == Err(Fault.OutOfCalendar)
      ensures r.Ok? ==> (newly <==> e.id !in old(store.processed))
      ensures health.State() ==
        if InRange(e.at) && e.id !in old(store.processed) then Observes(old(health.State()), e).0
        else old(health.State())
      ensures old(e.id in store.processed) ==> unchanged(health)
    {
      hide Stampable, Indexed, BankHealthMonitor.Valid, Matches, InRange, Engine.Handle, Observes;
      var rows, actions, processed := store.rows, store.actions, store.processed;
      ghost var before, cases := Contents(), store.cases;
      newly, degraded := false, Observes(health.State(), e).1;
      var claimed := store.ClaimEvent(e.id, e.at);
      if claimed.Err? {
        r := Err(claimed.error);
        MatchesWhenLate(r, Engine.Ingest(before, e, degraded, settings), Contents(), InRange(e.at));
      } else if !claimed.value {
        r := Ok(None);
        assert Contents() == before;
        MatchesAsIs(r, Engine.Ingest(before, e, degraded, settings), Contents(), InRange(e.at));
      } else {
        newly := true;
        r, degraded := Handle(e);
        if r.Err? {
          MatchesAnyContents(r, Engine.Handle(Claim(before, e.id), e, degraded, settings), Contents(), before,
                             InRange(e.at));
          store.Rollback(rows, actions, processed, cases);
        }
      }
    }

    // ------------------------------------------------------ link cancellation

    // Ask the provider, then commit what it said.
    method ExecuteCancel(pc: PendingCancel, now: Time) returns (r: Result<(), Fault>)
      requires Valid()
      modifies store, gateway`cancels, gateway`keyed
      ensures Valid()
      ensures gateway.cancels == old(gateway.cancels) + [pc.link]
      ensures gateway.keyed == old(gateway.keyed) + [pc]
      ensures var answer := gateway.cancelScript(|old(gateway.cancels)|);
        Commits(r, Plain(Engine.CancelCommit(old(Contents()), pc, answer, now)), old(Contents()), Contents(),
                InRange(now))
    {
      hide Commits, InRange, Indexed, BankHealthMonitor.Valid, Engine.CancelCommit;
      var answer := gateway.CancelPaymentLink(pc.link, Some(pc));
      r := CancelTransaction(pc, answer, now);
    }

    method CancelTransaction(pc: PendingCancel, answer: Answer<LinkStatus>, now: Time) returns (r: Result<(), Fault>)
      requires Valid()
      modifies store
      ensures Valid()
      ensures Commits(r, Plain(Engine.CancelCommit(old(Contents()), pc, answer, now)), old(Contents()), Contents(),
                      InRange(now))
    {
      hide Stampable, Indexed, BankHealthMonitor.Valid, Matches, InRange, Engine.CancelCommit;
      var rows, actions, processed := store.rows, store.actions, store.processed;
      ghost var before, cases := Contents(), store.cases;
      r := CancelBody(pc, answer, now);
      if r.Err? {
        MatchesAnyContents(r, Plain(Engine.CancelCommit(before, pc, answer, now)), Contents(), before, InRange(now));
        store.Rollback(rows, actions, processed, cases);
      }
    }

    method CancelBody(pc: PendingCancel, answer: Answer<LinkStatus>, now: Time) returns (r: Result<(), Fault>)
      requires Valid()
      modifies store
      ensures Valid()
      ensures Matches(r, Plain(Engine.CancelCommit(old(Contents()), pc, answer, now)), Contents(), InRange(now))
    {
      hide Matches, InRange, Indexed, BankHealthMonitor.Valid, Settlement, Engine.CompleteAction, Engine.CancelCommit;
      ghost var model := Plain(Engine.CancelCommit(Contents(), pc, answer, now));
      CancelUnfolds(Contents(), pc, answer, now);
      var done := store.CompleteAction(pc.action, if answer.Refused? then Failed else Succeeded, Some(pc.link), now);
      if done.Err? {
        r := Err(done.error);
      } else {
        r := SettleCase(pc.key, answer, now);
      }
      MatchesWhenLate(r, model, Contents(), InRange(now));
    }

    method SettleCase(key: Key, answer: Answer<LinkStatus>, now: Time) returns (r: Result<(), Fault>)
      requires Valid()
      modifies store
      ensures Valid()
      ensures Matches(r, Plain(Settlement(old(Contents()), key, answer, now)), Contents(), true)
    {
      hide Matches, Plain, Stampable, Indexed, BankHealthMonitor.Valid, Engine.SaveCase, Engine.AfterCancel;
      var latest := store.GetCase(key);
      if latest.None? {
        MatchesDone(Contents());
        return Ok(());
      }
      var c := AfterCancel(latest.value, answer, now);
      r := Save(c);
    }

    method AfterCancel(case0: RecoveryCase, answer: Answer<LinkStatus>, now: Time) returns (c: RecoveryCase)
      ensures c == Engine.AfterCancel(case0, answer, now)
    {
      c := case0;
      if answer.Refused? {
        // The original payment is still held or recovered: a human must revoke the link.
        c := c.(reconcile := true);
        c := c.(stopReason := Some(PaymentLinkCancelFailed));
        c := c.(updatedAt := now);
        return;
      }
      c := c.(linkStatus := Some(answer.value));
      c := c.(preview := false);
      if answer.value != LinkStatus.Cancelled {
        c := c.(reconcile := true);
        c := c.(stopReason := Some(LinkCancelReturnedNonCancellableStatus));
      } else if c.stopReason == Some(PaymentLinkCancelFailed) {
        c := c.(reconcile := false);
        c := c.(stopReason := None);
      }
      c := c.(updatedAt := now);
    }

    // Everything a delivery can touch, and what surrounds it.
    ghost function Whole(): Plant<Memory>
      reads this, store, health, gateway
    {
      Plant(Contents(), health.State(), gateway.cancels)
    }

    ghost function Surroundings(): Env<Memory> {
      Env(settings, (h, db, e) => Observes(h, e), asked => gateway.cancelScript(|asked|))
    }

    // One delivery from end to end: its transaction, then the one cancel that hands on, and what the caller is told.
    // A redelivery touches nothing: not the store, not the health window, not the provider. Whatever happens is a run
    // of the protocol.
    method Ingest(e: PaymentEvent, ghost s: Sys)
      returns (r: Result<bool, Fault>, ghost t: Result<Option<PendingCancel>, Fault>, ghost committed: Db,
               ghost s': Sys)
      requires Valid() && s.db == Contents() && s.p == settings
      modifies store, health, gateway`cancels, gateway`keyed
      ensures Valid()
      ensures Commits(t, Engine.Ingest(old(Contents()), e, Observes(old(health.State()), e).1, settings),
                      old(Contents()), committed, InRange(e.at))
      ensures DeliveryEnded(t, r, old(e.id !in store.processed), committed, Contents(), e, old(gateway.Log()),
                            gateway.Log(), gateway.cancelScript)
      ensures (Whole(), Told(r)) == Serve(Surroundings(), old(Whole()), e)
      ensures r.Ok? ==> (r.value <==> e.id !in old(store.processed))
      ensures old(e.id in store.processed) ==> unchanged(health, gateway) && Contents() == old(Contents())
      ensures Leads(s, s') && s' == s.(db := Contents(), issued := s'.issued)
      ensures Mirrored(s, s', old(gateway.Log()), gateway.Log())
    {
      hide Indexed, BankHealthMonitor.Valid, Engine.Ingest, Engine.CancelCommit, InRange, Leads, Mirrored, Commits,
        Observes, Serve;
      ghost var before, h, log := Contents(), health.State(), gateway.Log();
      ghost var degraded;
      AllWritable();
      var outcome, newly;
      outcome, newly, degraded := IngestTransaction(e);
      t, committed := outcome, Contents();
      AllWritable();
      CommittedWell(t, before, committed, e, degraded, settings, InRange(e.at));
      if outcome.Err? {
        r := Err(outcome.error);
      } else if outcome.value.None? {
        r := Ok(newly);
      } else {
        var c := ExecuteCancel(outcome.value.value, e.at);
        r := if c.Ok? then Ok(newly) else Err(c.error);
        BareIs(c, newly);
      }
      AllWritable();
      DeliveryServes(Surroundings(), Plant(before, h, log.cancels), e, t, r, committed, Contents(), health.State(), log,
                     gateway.Log(), gateway.cancelScript);
      s' := DeliveryRuns(s, t, r, committed, Contents(), e, degraded, log, gateway.Log(), gateway.cancelScript);
    }

    lemma AllWritable()
      requires Valid()
      ensures Writable(Contents())
    {
      hide Stampable;
    }

    // ------------------------------------------------------------ dispatch

    // Budget, opt-out and cooldown across the whole customer; None when contacting is allowed.
    method MayContact(c: RecoveryCase, now: Time) returns (refusal: Option<Reason>)
      requires Valid()
      ensures refusal == Engine.MayContact(Contents(), settings, c, now)
    {
      hide Indexed, BankHealthMonitor.Valid, ContactSum, IsLatest;
      refusal := c.attention.CanContact(now, settings.contactCooldown);
      if refusal.Some? || c.customer.None? {
        return;
      }
      var contacts, latest, optedOut := store.CustomerContactState(c.customer.value, c.key);
      LatestDecidesCooldown(Contents(), OthersOf(Contents(), c.customer.value, c.key), latest, now,
                            settings.contactCooldown);
      if optedOut {
        return Some(CustomerOptedOut);
      }
      if c.attention.Effective(now) + contacts >= c.attention.maxContacts {
        return Some(ContactBudgetExhausted);
      }
      if latest.Some? && now - latest.value < settings.contactCooldown {
        return Some(ContactCooldownActive);
      }
      refusal := None;
    }

    // Apply a decision unless the case moved on since the snapshot; losing the race is not an error.
    method CommitState(snapshot: RecoveryCase, d: Decision, now: Time) returns (r: Result<bool, Fault>)
      requires Valid()
      modifies store
      ensures Valid()
      ensures Commits(r, Ok(Engine.CommitState(old(Contents()), snapshot, d, now)), old(Contents()), Contents(), true)
    {
      hide Stampable, Indexed, BankHealthMonitor.Valid, AllowedTransition, Engine.SaveCase, SaveOutcome, Matches,
        Engine.CommitState;
      ghost var before := Contents();
      CommitUnfolds(before, snapshot, d, now);
      var latest := store.GetCase(snapshot.key);
      if latest.None? || latest.value.version != snapshot.version || IsFinal(latest.value.state)
         || !CanTransition(latest.value.state, d.target) {
        r := Ok(false);
        MatchesAsIs(r, Ok(Engine.CommitState(before, snapshot, d, now)), Contents(), true);
        return;
      }
      KeyedRow(store.rows, store.cases, snapshot.key);
      CurrentSaves(before, latest.value, d, now);
      var c := latest.value.(state := d.target);
      c := c.(nextActionAt := d.nextActionAt);
      if d.target.Stopped? || d.target.ManualReview? {
        c := c.(stopReason := Some(d.reason));
      }
      c := c.(updatedAt := now);
      assert c == AfterPlan(latest.value, d, now);
      var saved := store.SaveCase(c);
      r := Raced(saved);
      PlanMatches(before, c, saved, Contents());
    }

    // Take one of this issuer's release slots for the current tick.
    method ClaimReleaseSlot(budget: R.Budget, c: RecoveryCase) returns (budget': R.Budget, granted: bool)
      ensures (budget', granted) == R.ClaimSlot(budget, R.SlotOf(c), settings.maxReleasesPerTick)
    {
      var slot := (c.failure.issuer, c.failure.rail);
      var used := if slot in budget then budget[slot] else 0;
      if used >= settings.maxReleasesPerTick {
        return budget, false;
      }
      budget', granted := budget[slot := used + 1], true;
    }

    // Cooldown expiry and retry escalation.
    method PromoteTimedCase(snapshot: RecoveryCase, now: Time, budget: R.Budget)
      returns (r: Result<bool, Fault>, budget': R.Budget, ghost degraded: bool)
      requires Valid()
      modifies store, health
      ensures Valid()
      ensures degraded == old(health.Peek(HealthOf(snapshot), now)).degraded
      ensures health.State() in {old(health.State()), health.Read(old(health.State()), HealthOf(snapshot), now)}
      ensures budget' == R.BudgetAfter(budget, settings, snapshot, degraded, now)
      ensures var plan := R.Plan(old(Contents()), budget, settings, snapshot, degraded, now);
        if plan.None? then r == Ok(false) && Contents() == old(Contents())
        else Commits(r, Ok(Engine.CommitState(old(Contents()), snapshot, plan.value, now)), old(Contents()),
                     Contents(), true)
    {
      hide Stampable, Indexed, BankHealthMonitor.Valid, Commits, Engine.MayContact, Engine.CommitState,
        BankHealthMonitor.Peek, BankHealthMonitor.Read;
      degraded := health.Peek(HealthOf(snapshot), now).degraded;
      budget' := budget;
      if snapshot.nextActionAt.None? || snapshot.nextActionAt.value > now {
        r := Ok(false);
        return;
      }
      var d;
      if snapshot.state == Cooldown {
        d, budget' := PlanRelease(snapshot, now, budget);
      } else {
        d := PlanEscalation(snapshot, now);
      }
      r := CommitState(snapshot, d, now);
    }

    method PlanRelease(snapshot: RecoveryCase, now: Time, budget: R.Budget) returns (d: Decision, budget': R.Budget)
      requires Valid() && snapshot.state == Cooldown && R.Due(snapshot, now)
      modifies health
      ensures Valid()
      ensures health.State() == health.Read(old(health.State()), HealthOf(snapshot), now)
      ensures var degraded := old(health.Peek(HealthOf(snapshot), now)).degraded;
        && budget' == R.BudgetAfter(budget, settings, snapshot, degraded, now)
        && R.Plan(Contents(), budget, settings, snapshot, degraded, now) == Some(d)
    {
      hide Indexed, Engine.MayContact, R.ReleaseOffset, BankHealthMonitor.Read;
      budget' := budget;
      var snapshotted := health.SnapshotAt(snapshot.failure.issuer, snapshot.failure.rail, now);
      if snapshotted.degraded {
        d := Decision(Cooldown, IssuerStillDegraded, Some(now + settings.cooldown));
        return;
      }
      var granted;
      budget', granted := ClaimReleaseSlot(budget, snapshot);
      if !granted {
        d := Decision(Cooldown, ReleaseRateLimited, Some(now + settings.releaseJitter));
      } else {
        d := Decision(RetryScheduled, IssuerRecovered,
                      Some(now + settings.retryEscalationAfter + R.ReleaseOffset(settings, snapshot.key)));
      }
    }

    method PlanEscalation(snapshot: RecoveryCase, now: Time) returns (d: Decision)
      requires Valid() && snapshot.state != Cooldown && R.Due(snapshot, now)
      ensures forall budget, degraded ::
        && R.Plan(Contents(), budget, settings, snapshot, degraded, now) == Some(d)
        && R.BudgetAfter(budget, settings, snapshot, degraded, now) == budget
    {
      hide Indexed, BankHealthMonitor.Valid, Engine.MayContact, R.ReleaseOffset;
      if snapshot.attempts >= settings.maxRecoveryAttempts {
        return Decision(ManualReview, RetryAttemptsExhausted, None);
      }
      var refusal := MayContact(snapshot, now);
      if refusal.Some? {
        d := Decision(RefusalTarget(refusal.value), refusal.value, None);
      } else {
        d := Decision(ConsentRequired, RetryWindowElapsed, None);
      }
    }

    // Three phases: record the intent, call the provider with no transaction open, persist the outcome.
    method CreateRecoveryLink(snapshot: RecoveryCase, now: Time) returns (r: Result<(), Fault>)
      requires Valid()
      modifies store, gateway
      ensures Valid()
      ensures LinkAttempt(r, old(Contents()), Contents(), settings, snapshot, now,
                          gateway.createScript(|old(gateway.creates)|),
                            gateway.creates == old(gateway.creates) + [snapshot.key])
      ensures gateway.keyed == old(gateway.keyed)
      ensures if gateway.creates == old(gateway.creates) then gateway.cancels == old(gateway.cancels)
              else
                && gateway.creates == old(gateway.creates) + [snapshot.key]
                && gateway.cancels == old(gateway.cancels) +
                     Unwanted(old(Contents()), snapshot.key, gateway.createScript(|old(gateway.creates)|))
    {
      hide Stampable, Indexed, BankHealthMonitor.Valid, Engine.MayContact, Engine.CommitState, Engine.CreateCommit,
        Commits, InRange,
        Engine.RecordAction;
      var refusal := MayContact(snapshot, now);
      if refusal.Some? {
        var committed := CommitState(snapshot, RefusalPlan(refusal.value), now);
        r := if committed.Ok? then Ok(()) else Err(committed.error);
        DropFlag(committed, Engine.CommitState(old(Contents()), snapshot, RefusalPlan(refusal.value), now),
                 old(Contents()), Contents());
        return;
      }
      var recorded := store.RecordAction(CreateKey(snapshot.key), Action(ActionStatus.Started, 1, None, now));
      if recorded.Err? {
        return Err(recorded.error);
      }
      if !recorded.value {
        assert Contents() == old(Contents()) by {
          RecordedTwice(old(Contents()), snapshot.key, now);
        }
        return Ok(());
      }
      var answer := gateway.CreatePaymentLink(snapshot.key);
      ghost var db1 := Contents();
      var outcome := CommitLink(snapshot.key, answer, now);
      CommitEnds(outcome, Engine.CreateCommit(db1, snapshot.key, answer, now), db1, Contents());
      r := if outcome.Ok? then Ok(()) else Err(outcome.error);
    }

    // The outcome transaction. A link no longer wanted is cancelled on the spot, whatever the provider says to that.
    method CommitLink(key: Key, answer: Answer<NewLink>, now: Time) returns (r: Result<bool, Fault>)
      requires Valid()
      modifies store, gateway`cancels, gateway`keyed
      ensures Valid()
      ensures Commits(r, Engine.CreateCommit(old(Contents()), key, answer, now), old(Contents()), Contents(),
                      InRange(now))
      ensures gateway.cancels == old(gateway.cancels) + Unwanted(old(Contents()), key, answer)
      ensures gateway.keyed == old(gateway.keyed) && (r == Ok(true) ==> Unwanted(old(Contents()), key, answer) != [])
    {
      hide Stampable, Matches, Indexed, BankHealthMonitor.Valid, InRange, Engine.CreateCommit;
      var rows, actions, processed := store.rows, store.actions, store.processed;
      ghost var before, cases := Contents(), store.cases;
      var latest := store.GetCase(key);
      var live := latest.Some? && latest.value.state == ConsentRequired;
      if latest.Some? {
        KeyedRow(store.rows, store.cases, key);
      }
      LinkUnfolds(before, key, answer, now);
      if answer.Refused? {
        r := CommitRefusal(key, answer.retryable, now);
      } else if !live {
        var ignored := gateway.CancelPaymentLink(answer.value.id, None);
        r := CommitSuperseded(key, answer.value.id, now);
      } else {
        r := CommitSent(latest.value, answer.value, now);
      }
      if r.Err? {
        MatchesAnyContents(r, Engine.CreateCommit(before, key, answer, now), Contents(), before, InRange(now));
        store.Rollback(rows, actions, processed, cases);
      }
    }

    method CommitRefusal(key: Key, retryable: bool, now: Time) returns (r: Result<bool, Fault>)
      requires Valid()
      modifies store
      ensures Valid()
      ensures Matches(r, RefusedLink(old(Contents()), key, retryable, now), Contents(), InRange(now)) && r != Ok(true)
    {
      hide Stampable, Matches, Indexed, BankHealthMonitor.Valid, InRange, Engine.SaveCase, Engine.CompleteAction,
        AllowedTransition,
        ParkedRefusal;
      ghost var model := RefusedLink(Contents(), key, retryable, now);
      CompletionKeepsCases(Contents(), CreateKey(key), Failed, None);
      var done := store.CompleteAction(CreateKey(key), Failed, None, now);
      if done.Err? {
        r := Err(done.error);
        MatchesWhenLate(r, model, Contents(), InRange(now));
        return;
      }
      var latest := store.GetCase(key);
      if latest.None? || latest.value.state != ConsentRequired {
        r := Ok(false);
        MatchesAsIs(r, model, Contents(), InRange(now));
        return;
      }
      r := ParkRefused(latest.value, retryable, now);
      MatchesWhenLate(r, model, Contents(), InRange(now));
    }

    method ParkRefused(case0: RecoveryCase, retryable: bool, now: Time) returns (r: Result<bool, Fault>)
      requires Valid() && case0.state == ConsentRequired
      modifies store
      ensures Valid()
      ensures Matches(r, ParkedRefusal(old(Contents()), case0, retryable, now), Contents(), true) && r != Ok(true)
    {
      hide Stampable, Matches, Indexed, BankHealthMonitor.Valid, Engine.SaveCase;
      var c := case0.(state := ManualReview);
      c := c.(stopReason := Some(if retryable then PaymentLinkCreateUnavailable else PaymentLinkCreateRejected));
      c := c.(updatedAt := now);
      assert AfterCreateRefused(case0, retryable, now) == Ok(c);
      ghost var before := Contents();
      var saved := Save(c);
      r := if saved.Ok? then Ok(false) else Err(saved.error);
      FlagMatches(saved, Engine.SaveCase(before, c), Contents());
    }

    method CommitSuperseded(key: Key, link: LinkId, now: Time) returns (r: Result<bool, Fault>)
      requires Valid()
      modifies store
      ensures Valid()
      ensures Matches(r, Ok((Engine.CompleteAction(old(Contents()), CreateKey(key), Superseded, Some(link)), true)),
                      Contents(), InRange(now))
    {
      hide Stampable, Indexed, BankHealthMonitor.Valid, InRange, Engine.CompleteAction;
      var done := store.CompleteAction(CreateKey(key), Superseded, Some(link), now);
      r := if done.Ok? then Ok(true) else Err(done.error);
    }

    method CommitSent(case0: RecoveryCase, link: NewLink, now: Time) returns (r: Result<bool, Fault>)
      requires Valid() && case0.state == ConsentRequired
      modifies store
      ensures Valid()
      ensures Matches(r, SentLink(old(Contents()), case0, link, now), Contents(), InRange(now)) && r != Ok(true)
    {
      hide Stampable, Indexed, BankHealthMonitor.Valid, InRange, Engine.SaveCase, Engine.CompleteAction, Matches;
      var c := case0.(linkId := Some(link.id));
      c := c.(linkStatus := Some(link.status));
      c := c.(attention := c.attention.RecordContact(now));
      c := c.(state := LinkSent);
      c := c.(nextActionAt := None);
      c := c.(updatedAt := now);
      assert AfterLinkCreated(case0, link, now) == Ok(c);
      hide AfterLinkCreated;
      ghost var before := Contents();
      var saved := Save(c);
      if saved.Err? {
        r := Err(saved.error);
        SentFails(saved, before, c, Contents(), case0.key, link, InRange(now));
        return;
      }
      SavedContents(saved, before, c, Contents());
      var done := store.CompleteAction(CreateKey(case0.key), Succeeded, Some(link.id), now);
      r := if done.Ok? then Ok(false) else Err(done.error);
      if done.Ok? {
        MatchesAsIs(r, SentLink(before, case0, link, now), Contents(), InRange(now));
      } else {
        MatchesWhenLate(r, SentLink(before, case0, link, now), Contents(), InRange(now));
      }
    }

    // ------------------------------------------------------ operator actions

    // Put a case parked for a human back into the machine, by re-deciding it.
    method Reopen(key: Key, failureClass: Option<FailureClass>, now: Time)
      returns (r: Result<(), Fault>, ghost degraded: bool)
      requires Valid()
      modifies store, health
      ensures Valid()
      ensures Commits(r, Plain(Engine.Reopen(old(Contents()), key, failureClass, degraded, now, settings)),
                      old(Contents()), Contents(), InRange(now))
      ensures key in old(Contents()).cases ==>
        var watched := HealthOf(old(Contents()).cases[key]);
        && degraded == old(health.Peek(watched, now)).degraded
        && health.State() in {old(health.State()), health.Read(old(health.State()), watched, now)}
      ensures key !in old(Contents()).cases ==> health.State() == old(health.State())
    {
      hide Stampable, Matches, Indexed, BankHealthMonitor.Valid, InRange, Engine.Reopen, ReopenCommit,
        BankHealthMonitor.Read, BankHealthMonitor.Peek;
      var rows, actions, processed := store.rows, store.actions, store.processed;
      ghost var before, cases := Contents(), store.cases;
      var latest := store.GetCase(key);
      degraded := latest.Some? && health.Peek(HealthOf(latest.value), now).degraded;
      ReopenUnfolds(before, key, failureClass, degraded, now, settings);
      if latest.None? {
        r := Err(NoSuchCase(key));
        MatchesError(r, Plain(Engine.Reopen(before, key, failureClass, degraded, now, settings)), Contents(),
                     InRange(now));
      } else if latest.value.state != ManualReview {
        r := Err(NotInManualReview(latest.value.state));
        MatchesError(r, Plain(Engine.Reopen(before, key, failureClass, degraded, now, settings)), Contents(),
                     InRange(now));
      } else {
        r := ReopenBody(key, latest.value, failureClass, degraded, now);
        if r.Err? {
          MatchesAnyContents(r, Plain(ReopenCommit(before, key, latest.value, failureClass, degraded, now, settings)),
                             Contents(), before, InRange(now));
          store.Rollback(rows, actions, processed, cases);
        }
      }
    }

    method ReopenBody(key: Key, case0: RecoveryCase, failureClass: Option<FailureClass>, ghost degraded: bool,
                      now: Time)
      returns (r: Result<(), Fault>)
      requires Valid() && degraded == health.Peek(HealthOf(case0), now).degraded
      modifies store, health
      ensures Valid()
      ensures Matches(r, Plain(ReopenCommit(old(Contents()), key, case0, failureClass, degraded, now, settings)),
                      Contents(), InRange(now))
      ensures health.State() in {old(health.State()), health.Read(old(health.State()), HealthOf(case0), now)}
    {
      hide Stampable, Matches, Indexed, BankHealthMonitor.Valid, InRange, Engine.SaveCase, Engine.AfterReopen,
        Engine.RecordAction, BankHealthMonitor.Read;
      ghost var model := Plain(ReopenCommit(Contents(), key, case0, failureClass, degraded, now, settings));
      var recorded := store.RecordAction(ReopenKey(key, now), Action(ActionStatus.Succeeded, 1, None, now));
      if recorded.Err? {
        r := Err(recorded.error);
      } else {
        var c := AfterReopen(case0, failureClass, degraded, now);
        r := Save(c);
      }
      MatchesWhenLate(r, model, Contents(), InRange(now));
    }

    method AfterReopen(case0: RecoveryCase, failureClass: Option<FailureClass>, ghost degraded: bool, now: Time)
      returns (c: RecoveryCase)
      requires Valid() && degraded == health.Peek(HealthOf(case0), now).degraded
      modifies health
      ensures Valid()
      ensures c == Engine.AfterReopen(case0, failureClass, degraded, now, settings)
      ensures health.State() in {old(health.State()), health.Read(old(health.State()), HealthOf(case0), now)}
    {
      hide Indexed, BankHealthMonitor.Valid, AllowedTransition, Engine.Decide, BankHealthMonitor.Read;
      c := case0;
      if failureClass.Some? {
        c := c.(failure := c.failure.(cause := failureClass));
      }
      c := c.(attempts := 0);
      c := c.(stopReason := None);
      c := c.(nextActionAt := None);
      var d := Decide(c, now);
      if CanTransition(c.state, d.target) {
        c := c.(state := d.target);
      }
      c := c.(stopReason := if d.target.Stopped? || d.target.ManualReview? then Some(d.reason) else None);
      c := c.(nextActionAt := d.nextActionAt);
      c := c.(updatedAt := now);
    }

    // The commit half of an outreach preview: keep the draft only if the case still offers the same link.
    method StorePreview(snapshot: RecoveryCase, now: Time) returns (r: Result<(), Fault>)
      requires Valid()
      modifies store
      ensures Valid()
      ensures Commits(r, Plain(Engine.SavePreview(old(Contents()), snapshot, now)), old(Contents()), Contents(),
                      InRange(now))
    {
      hide Stampable, Matches, Indexed, BankHealthMonitor.Valid, InRange, Engine.SaveCase;
      ghost var before := Contents();
      ghost var model := Plain(Engine.SavePreview(before, snapshot, now));
      var latest := store.GetCase(snapshot.key);
      if latest.None? {
        r := Err(NoSuchCase(snapshot.key));
        MatchesError(r, model, Contents(), InRange(now));
        return;
      }
      if latest.value.state != LinkSent || latest.value.linkId != snapshot.linkId {
        r := Err(CaseChanged(snapshot.key));
        MatchesError(r, model, Contents(), InRange(now));
        return;
      }
      var saved := store.SaveCase(latest.value.(preview := true, updatedAt := now));
      r := if saved.Ok? then Ok(()) else Err(saved.error);
      SaveMatches(before, latest.value.(preview := true, updatedAt := now), saved, Contents());
      MatchesWhenLate(r, model, Contents(), InRange(now));
    }

    // ---------------------------------------------------------- dispatch tick

    // First pass: timers, each decision committed in turn. The turns taken are those release control speaks of.
    method TimerPass(now: Time, ghost s: Sys, ghost d: nat)
      returns (r: Result<(), Fault>, ghost turns: seq<R.Turn>, ghost s': Sys)
      requires Valid() && Tracks(s, Contents(), settings, d)
      modifies store, health
      ensures Valid()
      ensures Leads(s, s') && Tracks(s', Contents(), settings, d) && s'.creates == s.creates && s'.issued == s.issued
      ensures TimersDid(settings, old(Contents()), turns, now, Contents(), r.Ok?)
      ensures forall t | t in turns :: t.degraded == old(health.Peek(HealthOf(t.c), now)).degraded
      ensures OnlyRead(old(health.State()), health.State(), now - health.window)
    {
      hide Stampable, Indexed, BankHealthMonitor.Valid, InRange, IsDueBatch, Leads, R.Chained, Engine.CommitState,
        R.Plan, R.BudgetOver, R.BudgetAfter, Stuck, Commits, OnlyRead, BankHealthMonitor.PeekIn, BankHealthMonitor.Read;
      turns, s' := [], s;
      ghost var h := health.State();
      health.ReadOnlyReads(h, HealthKey("", Card), now);
      LeadsNowhere(s);
      R.ChainStarts(settings, Contents(), now);
      var due := store.DueCases({Cooldown, RetryScheduled}, now, Some(settings.dispatchBatchSize));
      if due.Err? {
        return Err(due.error), turns, s';
      }
      var batch := due.value;
      BatchRows(Contents(), {Cooldown, RetryScheduled}, now, Some(settings.dispatchBatchSize), batch);
      s' := s.(seen := s.seen + set c | c in batch);
      ReadingLeads(s, batch);
      var budget: R.Budget := map[];
      for i := 0 to |batch|
        invariant Valid() && R.Taken(turns) == batch[..i]
        invariant Leads(s, s') && Tracks(s', Contents(), settings, d) && (forall c | c in batch :: c in s'.seen)
        invariant s'.creates == s.creates && s'.issued == s.issued
        invariant R.Chained(settings, old(Contents()), turns, now, Contents())
        invariant budget == R.BudgetOver(settings, turns, now)
        invariant OnlyRead(h, health.State(), now - health.window)
        invariant forall t | t in turns :: t.degraded == health.PeekIn(h.windows, HealthOf(t.c), now).degraded
      {
        ghost var before, b, degraded, mid := Contents(), budget, false, health.State();
        var promoted;
        promoted, budget, degraded := PromoteTimedCase(batch[i], now, budget);
        health.SameVerdicts(h, mid, now);
        health.ReadOnlyReads(mid, HealthOf(batch[i]), now);
        ReadingOn(h, mid, health.State(), now - health.window);
        if promoted.Err? {
          PromotionSticks(promoted, before, Contents(), settings, turns, batch[i], degraded, now);
          assert TimersTook(settings, turns, now, Contents(), false, batch);
          return Err(promoted.error), turns, s';
        }
        PromotionEnds(promoted, before, Contents(), settings, b, batch[i], degraded, now);
        PromotionLeads(s', d, batch[i], b, degraded, now);
        LeadsOn(s, s', s'.(db := Contents()));
        R.ChainGrows(settings, old(Contents()), turns, now, R.Turn(batch[i], degraded, before), Contents());
        turns, s' := turns + [R.Turn(batch[i], degraded, before)], s'.(db := Contents());
      }
      assert TimersTook(settings, turns, now, Contents(), true, batch);
      r := Ok(());
    }

    lemma StoreIsValid()
      requires Valid()
      ensures store.Valid() && Contents().cases == store.cases && Contents().actions == store.actions
    {
      hide Indexed;
    }

    // Second pass: a recovery link for each case waiting on consent.
    method LinkPass(now: Time, ghost s: Sys, ghost d: nat)
      returns (r: Result<(), Fault>, ghost turns: seq<LinkTurn>, ghost s': Sys)
      requires Valid() && Tracks(s, Contents(), settings, d)
      modifies store, gateway
      ensures Valid()
      ensures Leads(s, s') && Tracks(s', Contents(), settings, d)
      ensures LinksDid(settings, old(Contents()), turns, now, Contents(), r.Ok?)
      ensures gateway.Log() == AfterLinks(old(gateway.Log()), turns)
      ensures LinksAnswered(turns, gateway.createScript, old(gateway.Log()))
      ensures Mirrored(s, s', old(gateway.Log()), gateway.Log())
    {
      hide Stampable, Indexed, BankHealthMonitor.Valid, InRange, IsDueBatch, Leads, LinkAttempt, Linking, LinksDid,
        AfterLink, Unwanted, Mirrored, Tracks, Valid, Contents, AllRead, PaymentGateway.Log;
      StoreIsValid();
      turns, s' := [], s;
      ghost var db0, log := Contents(), gateway.Log();
      TrackedDb(s, db0, settings, d);
      LeadsNowhere(s);
      LinksStart(settings, db0, [], now);
      MirrorStarts(s, s, log);
      var due := store.DueCases({ConsentRequired}, now, Some(settings.dispatchBatchSize));
      if due.Err? {
        return Err(due.error), turns, s';
      }
      var batch := due.value;
      s' := ReadAll(s, db0, settings, d, {ConsentRequired}, now, Some(settings.dispatchBatchSize), batch);
      LinksStart(settings, db0, batch, now);
      MirrorStarts(s, s', log);
      for i := 0 to |batch|
        invariant Valid() && (turns != [] ==> turns[|turns| - 1].r.Ok?)
        invariant Leads(s, s') && Tracks(s', Contents(), settings, d) && AllRead(s', {ConsentRequired}, batch)
        invariant Linking(settings, db0, batch, i, turns, now, Contents())
        invariant gateway.Log() == AfterLinks(log, turns) && LinksAnswered(turns, gateway.createScript, log)
        invariant Mirrored(s, s', log, gateway.Log())
      {
        ghost var before := gateway.Log();
        ghost var mid, t;
        HasRead(s', {ConsentRequired}, batch, i);
        r, t, mid := LinkTurnFor(batch[i], now, s', d);
        MirrorGrows(s, s', mid, log, before, gateway.Log());
        LeadsOn(s, s', mid);
        StillRead(s', mid, {ConsentRequired}, batch);
        LinkAnswersGrow(turns, gateway.createScript, log, t);
        LinksGrow(settings, db0, batch, i, turns, now, t, Contents());
        turns, s' := turns + [t], mid;
        if r.Err? {
          return;
        }
      }
      LinksEnd(settings, db0, batch, turns, now, Contents());
      r := Ok(());
    }

    // One case of the link pass, and where it takes the protocol.
    method LinkTurnFor(c: RecoveryCase, now: Time, ghost s: Sys, ghost d: nat)
      returns (r: Result<(), Fault>, ghost t: LinkTurn, ghost s': Sys)
      requires Valid() && Tracks(s, Contents(), settings, d) && c in s.seen && c.state.ConsentRequired?
      modifies store, gateway
      ensures Valid()
      ensures t.c == c && t.db == old(Contents()) && t.r == r
      ensures t.answer == gateway.createScript(|old(gateway.Log()).creates|)
      ensures LinkAttempt(r, old(Contents()), Contents(), settings, c, now, t.answer, t.called)
      ensures gateway.Log() == AfterLink(old(gateway.Log()), t)
      ensures Leads(s, s') && Tracks(s', Contents(), settings, d) && s'.seen == s.seen
      ensures Mirrored(s, s', old(gateway.Log()), gateway.Log())
    {
      hide Stampable, Indexed, BankHealthMonitor.Valid, InRange, Leads, LinkAttempt, Mirrored, Unwanted;
      ghost var before, log := Contents(), gateway.Log();
      r := CreateRecoveryLink(c, now);
      ghost var answer, called := gateway.createScript(|log.creates|), gateway.creates != log.creates;
      assert called <==> gateway.creates == log.creates + [c.key];
      t := LinkTurn(c, before, r, answer, called);
      s' := LinkLeads(s, d, c, answer, now, r, Contents(), called);
      assert log.creates + [] == log.creates && log.keyed + [] == log.keyed && ActionsOf([]) == [];
      MirrorsMore(s, s', log, gateway.Log(), if called then [c.key] else [], []);
    }

    // One failed cancel of the sweep: close it if the link reads cancelled, else claim it again and ask once more.
    method SweepOne(ak: ActionKey, row: Action, now: Time) returns (r: Result<(), Fault>, ghost t: SweepTurn)
      requires Valid()
      modifies store, gateway`cancels, gateway`keyed
      ensures Valid()
      ensures t.ak == ak && t.row == row && t.db == old(Contents()) && t.r == r
      ensures t.answer == gateway.cancelScript(|old(gateway.Log()).cancels|)
      ensures SweepOutcome(r, old(Contents()), Contents(), settings, ak, row, now, t.answer, t.called)
      ensures gateway.Log() == AfterSweep(old(gateway.Log()), t)
    {
      hide Stampable, Indexed, BankHealthMonitor.Valid, InRange, Commits, Engine.CancelCommit, Engine.ClaimAction,
        Engine.CompleteAction;
      ghost var before, answer := Contents(), gateway.cancelScript(|gateway.cancels|);
      t := SweepTurn(ak, row, before, Ok(()), answer, false);
      var latest := store.GetCase(ak.key);
      var link := if row.link.Some? || latest.None? then row.link else latest.value.linkId;
      if latest.None? || link.None? {
        r := Ok(());
        return;
      }
      if latest.value.linkStatus == Some(LinkStatus.Cancelled) {
        var closed := store.CompleteAction(ak, Succeeded, None, now);
        r := if closed.Ok? then Ok(()) else Err(closed.error);
        t := t.(r := r);
        return;
      }
      var claimed := store.ClaimAction(ak, Action(ActionStatus.Started, 1, link, row.createdAt),
                                       settings.maxLinkCancelAttempts);
      if claimed.Err? {
        r := Err(claimed.error);
        t := t.(r := r);
        return;
      }
      LostClaim(before, ak, Action(ActionStatus.Started, 1, link, row.createdAt), settings.maxLinkCancelAttempts);
      if !claimed.value {
        r := Ok(());
        return;
      }
      r := ExecuteCancel(PendingCancel(ak.key, ak, link.value), now);
      t := t.(r := r, called := true);
    }

    // One row of the sweep, and where it takes the protocol.
    method SweepTurnFor(ak: ActionKey, row: Action, now: Time, ghost s: Sys, ghost d: nat, ghost db0: Db,
                        ghost stale: seq<ActionKey>, ghost i: nat)
      returns (r: Result<(), Fault>, ghost t: SweepTurn, ghost s': Sys)
      requires Valid() && Tracks(s, Contents(), settings, d)
      requires i < |stale| && stale[i] == ak && ak in db0.actions && db0.actions[ak] == row
      requires AllListed(s, db0, stale) && Standing(db0, Contents())
      modifies store, gateway`cancels, gateway`keyed
      ensures Valid()
      ensures t.ak == ak && t.row == row && t.db == old(Contents()) && t.r == r
      ensures t.answer == gateway.cancelScript(|old(gateway.Log()).cancels|)
      ensures SweepOutcome(r, old(Contents()), Contents(), settings, ak, row, now, t.answer, t.called)
      ensures gateway.Log() == AfterSweep(old(gateway.Log()), t)
      ensures Leads(s, s') && Tracks(s', Contents(), settings, d)
      ensures AllListed(s', db0, stale) && Standing(db0, Contents())
      ensures Mirrored(s, s', old(gateway.Log()), gateway.Log())
    {
      hide Stampable, Indexed, BankHealthMonitor.Valid, InRange, Leads, SweepOutcome, Standing, AllListed, Mirrored,
        CancelFor;
      ghost var log := gateway.Log();
      r, t := SweepOne(ak, row, now);
      s' := SweepLeads(s, db0, stale, i, now, r, Contents(), t.answer, t.called);
      assert log.creates + [] == log.creates && log.keyed + [] == log.keyed;
      OneAction(t);
      MirrorsMore(s, s', log, gateway.Log(), [], if t.called then [CancelFor(t)] else []);
    }

    // The sweep: retry failed cancels, oldest first, at most a batch of them.
    method SweepPass(now: Time, ghost s: Sys, ghost d: nat)
      returns (r: Result<(), Fault>, ghost turns: seq<SweepTurn>, ghost s': Sys)
      requires Valid() && Tracks(s, Contents(), settings, d)
      modifies store, gateway`cancels, gateway`keyed
      ensures Valid()
      ensures Leads(s, s') && Tracks(s', Contents(), settings, d)
      ensures SweepsDid(settings, old(Contents()), turns, now, Contents(), r.Ok?)
      ensures gateway.Log() == AfterSweeps(old(gateway.Log()), turns)
      ensures SweepsAnswered(turns, gateway.cancelScript, old(gateway.Log()))
      ensures settings.linkCancelRetryBatch >= 0 ==> |turns| <= settings.linkCancelRetryBatch
      ensures Mirrored(s, s', old(gateway.Log()), gateway.Log())
    {
      hide Stampable, Indexed, BankHealthMonitor.Valid, InRange, Leads, SweepOutcome, Standing, IsSweepBatch, AllListed,
        Sweeping, SweepsDid, AfterSweep, Mirrored, Tracks, Valid, Contents, PaymentGateway.Log;
      StoreIsValid();
      var stale := store.FailedCancels(settings.maxLinkCancelAttempts, settings.linkCancelRetryBatch);
      var listed := store.actions;
      ghost var db0, log := Contents(), gateway.Log();
      TrackedDb(s, db0, settings, d);
      SweepRows(db0.actions, stale, settings.maxLinkCancelAttempts, settings.linkCancelRetryBatch);
      turns := [];
      s' := ListAll(s, stale, settings.maxLinkCancelAttempts);
      ListingTracks(s, s', db0, settings, d);
      SweepsStart(settings, db0, stale, now);
      StandingStill(store.rows, db0);
      MirrorStarts(s, s', log);
      for i := 0 to |stale|
        invariant Valid() && |turns| == i && (turns != [] ==> turns[|turns| - 1].r.Ok?)
        invariant Leads(s, s') && Tracks(s', Contents(), settings, d)
        invariant AllListed(s', db0, stale) && Standing(db0, Contents())
        invariant Sweeping(settings, db0, stale, i, turns, now, Contents())
        invariant gateway.Log() == AfterSweeps(log, turns) && SweepsAnswered(turns, gateway.cancelScript, log)
        invariant Mirrored(s, s', log, gateway.Log())
      {
        ghost var before := gateway.Log();
        ghost var mid, t;
        r, t, mid := SweepTurnFor(stale[i], listed[stale[i]], now, s', d, db0, stale, i);
        MirrorGrows(s, s', mid, log, before, gateway.Log());
        LeadsOn(s, s', mid);
        SweepAnswersGrow(turns, gateway.cancelScript, log, t);
        SweepsGrow(settings, db0, stale, i, turns, now, t, Contents());
        turns, s' := turns + [t], mid;
        if r.Err? {
          return;
        }
      }
      SweepsEnd(settings, db0, stale, turns, now, Contents());
      r := Ok(());
    }

    // The dispatch tick. Wherever it stops, what it did is a run of the protocol.
    method DispatchDueActions(now: Time, ghost s: Sys, ghost d: nat)
      returns (r: Result<(), Fault>, ghost trace: TickTrace, ghost s': Sys)
      requires Valid() && Tracks(s, Contents(), settings, d)
      modifies store, health, gateway
      ensures Valid()
      ensures Leads(s, s') && Tracks(s', Contents(), settings, d)
      ensures TickDid(settings, old(Contents()), trace, now, Contents(), r.Ok?)
      ensures forall t | t in trace.turns :: t.degraded == old(health.Peek(HealthOf(t.c), now)).degraded
      ensures OnlyRead(old(health.State()), health.State(), now - health.window)
      ensures gateway.creates == old(gateway.creates) + AskedFor(trace.links)
      ensures gateway.cancels == old(gateway.cancels) + Superfluous(trace.links) + LinksOf(Retried(trace.sweeps))
      ensures gateway.keyed == old(gateway.keyed) + Retried(trace.sweeps)
      ensures LinksAnswered(trace.links, gateway.createScript, old(gateway.Log()))
      ensures SweepsAnswered(trace.sweeps, gateway.cancelScript, AfterLinks(old(gateway.Log()), trace.links))
      ensures Mirrored(s, s', old(gateway.Log()), gateway.Log())
    {
      hide Indexed, BankHealthMonitor.Valid, Leads, TimersDid, LinksDid, SweepsDid, Mirrored, AfterLink, AfterSweep,
        AskedFor, Superfluous, Retried, LinksOf, OnlyRead;
      ghost var turns, links, sweeps, s1, s2;
      ghost var log := gateway.Log();
      NoCalls(log, gateway.createScript, gateway.cancelScript);
      r, turns, s1 := TimerPass(now, s, d);
      ghost var timed := Contents();
      MirrorStarts(s, s1, log);
      if r.Err? {
        return r, TickTrace(turns, timed, false, [], timed, false, []), s1;
      }
      r, links, s2 := LinkPass(now, s1, d);
      ghost var linked, mid := Contents(), gateway.Log();
      LinkCalls(log, links);
      LeadsOn(s, s1, s2);
      MirrorGrows(s, s1, s2, log, log, mid);
      if r.Err? {
        NoCalls(mid, gateway.createScript, gateway.cancelScript);
        return r, TickTrace(turns, timed, true, links, linked, false, []), s2;
      }
      r, sweeps, s' := SweepPass(now, s2, d);
      SweepCalls(mid, sweeps);
      trace := TickTrace(turns, timed, true, links, linked, true, sweeps);
      LeadsOn(s, s2, s');
      MirrorGrows(s, s2, s', log, mid, gateway.Log());
    }
  }

  // The outcomes a list of events reports, as the health window is fed them.
  function Outcomes(es: seq<PaymentEvent>): seq<Record<HealthKey>> {
    if es == [] then []
    else
      var e := es[|es| - 1];
      Outcomes(es[..|es| - 1])
      + if IsFailureEvent(e.kind) || IsSuccessEvent(e.kind) then
          [Record(OutcomeKey(e), Obs(e.at, IsSuccessEvent(e.kind)))]
        else []
  }

  // However often webhooks are redelivered, the health window holds each event's outcome once.
  lemma {:induction false} OutcomesCountOnce(service: RecoveryService, w: Plant<Memory>, es: seq<PaymentEvent>)
    requires DbOk(w.db, service.settings)
    ensures DeliverAll(service.Surroundings(), w, es).health.history ==
      w.health.history + Outcomes(FirstOccurrences(es, w.db.claimed))
  {
    hide Engine.Ingest, Engine.CancelCommit, DbOk, Deliver, Outcomes, RecoveryService.Observes;
    if es == [] {
      NoOutcomes(w.health.history);
    } else {
      var rest, e := es[..|es| - 1], es[|es| - 1];
      OutcomesCountOnce(service, w, rest);
      AllClaimed(service.Surroundings(), w, rest);
      DeliveryFeeds(service, DeliverAll(service.Surroundings(), w, rest), e);
      OneMoreFirst(w.health.history, FirstOccurrences(rest, w.db.claimed), e);
    }
  }

  lemma NoOutcomes(history: seq<Record<HealthKey>>)
    ensures history + Outcomes([]) == history
  {
  }

  lemma OneMoreFirst(history: seq<Record<HealthKey>>, firsts: seq<PaymentEvent>, e: PaymentEvent)
    ensures firsts + [] == firsts
    ensures (history + Outcomes(firsts)) + [] == history + Outcomes(firsts)
    ensures history + Outcomes(firsts) + Outcomes([e]) == history + Outcomes(firsts + [e])
  {
    OneMoreOutcome(firsts, e);
  }

  lemma OneMoreOutcome(es: seq<PaymentEvent>, e: PaymentEvent)
    ensures Outcomes(es + [e]) == Outcomes(es) + Outcomes([e])
  {
    assert (es + [e])[..|es|] == es && [e][..0] == [];
  }

  lemma DeliveryFeeds(service: RecoveryService, w: Plant<Memory>, e: PaymentEvent)
    ensures Deliver(service.Surroundings(), w, e).health.history ==
      w.health.history + if e.id in w.db.claimed then [] else Outcomes([e])
  {
    hide Deliver, Outcomes;
    DeliveryObserves(service.Surroundings(), w, e);
    ObservingRecords(service, w.health, e);
    assert w.health.history + [] == w.health.history;
    hide RecoveryService.Observes;
  }

  lemma ObservingRecords(service: RecoveryService, h: Memory, e: PaymentEvent)
    ensures service.Observes(h, e).0.history == h.history + Outcomes([e])
  {
    assert [e][..0] == [] && Outcomes([]) == [];
    hide Trimmed, Kept, Without, Members, BankHealthMonitor.PeekIn, BankHealthMonitor.OrderWith,
      BankHealthMonitor.Ousted, Lower;
  }
}
