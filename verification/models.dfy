// Shared small types.
module Base {
  datatype Option<+T> = None | Some(value: T)

  datatype Result<+T, +E> = Ok(value: T) | Err(error: E) {
    predicate IsFailure() {
      Err?
    }
    function PropagateFailure<U>(): Result<U, E>
      requires Err?
    {
      Err(error)
    }
    function Extract(): T
      requires Ok?
    {
      value
    }
  }

  function Max(a: int, b: int): int {
    if a < b then b else a
  }
}

// The recovery case, its state machine and the events that drive it (app/models.py).
module Models {
  import opened Base

  // Instants and durations are integers counting microseconds.
  type Time = int
  type Key = string         // a case's logical key
  type LinkId = string
  type CustomerId = string
  type EventId = string

  const SECOND: int := 1_000_000
  const MINUTE: int := 60 * SECOND
  const HOUR: int := 3_600_000_000
  const DAY: int := 24 * HOUR
  const CONTACT_WINDOW: int := 7 * DAY
  const DEFAULT_MAX_CONTACTS_7D: int := 2

  datatype CaseState =
    | Open
    | Classified
    | Cooldown
    | RetryScheduled
    | ConsentRequired
    | LinkSent
    | AuthorizedPendingCapture
    | RecoveredNatural
    | RecoveredByLink
    | Stopped
    | ManualReview
    | RecoveryReversed

  datatype FailureClass = Transient | CustomerAction | Risk | Unknown

  datatype Rail = Card | UpiAutopay | Emandate | UnknownRail

  datatype EventType =
    | PaymentFailed
    | PaymentAuthorized
    | PaymentCaptured
    | OrderPaid
    | SubscriptionPending
    | SubscriptionHalted
    | PaymentLinkPaid
    | PaymentLinkPartiallyPaid
    | PaymentLinkCancelled
    | PaymentLinkExpired
    | PaymentDisputeCreated
    | RefundCreated
    | RefundProcessed

  predicate IsFailureEvent(k: EventType) {
    k.PaymentFailed? || k.SubscriptionPending? || k.SubscriptionHalted?
  }

  predicate IsSuccessEvent(k: EventType) {
    k.PaymentAuthorized? || k.PaymentCaptured? || k.OrderPaid?
  }

  predicate IsLinkEvent(k: EventType) {
    k.PaymentLinkPaid? || k.PaymentLinkPartiallyPaid? || k.PaymentLinkCancelled? || k.PaymentLinkExpired?
  }

  predicate IsFinal(s: CaseState) {
    s.RecoveredNatural? || s.RecoveredByLink? || s.Stopped? || s.RecoveryReversed?
  }

  // The transition table.
  predicate AllowedTransition(from: CaseState, to: CaseState) {
    match from
    case Open =>
      to.RecoveryReversed? || to.Classified? || to.Cooldown? || to.RetryScheduled? || to.ConsentRequired? ||
      to.AuthorizedPendingCapture? || to.RecoveredNatural? || to.Stopped? || to.ManualReview?
    case Classified =>
      to.RecoveryReversed? || to.Cooldown? || to.RetryScheduled? || to.ConsentRequired? || to.Stopped? ||
      to.AuthorizedPendingCapture? || to.RecoveredNatural? || to.ManualReview?
    case Cooldown =>
      to.RecoveryReversed? || to.RetryScheduled? || to.ConsentRequired? || to.AuthorizedPendingCapture? ||
      to.RecoveredNatural? || to.Stopped? || to.ManualReview?
    case RetryScheduled =>
      to.RecoveryReversed? || to.Cooldown? || to.ConsentRequired? || to.AuthorizedPendingCapture? ||
      to.RecoveredNatural? || to.Stopped? || to.ManualReview?
    case ConsentRequired =>
      to.RecoveryReversed? || to.LinkSent? || to.AuthorizedPendingCapture? || to.RecoveredNatural? ||
      to.Stopped? || to.ManualReview?
    case LinkSent =>
      to.RecoveryReversed? || to.AuthorizedPendingCapture? || to.RecoveredNatural? || to.RecoveredByLink? ||
      to.ManualReview? || to.Stopped?
    case AuthorizedPendingCapture => to.RecoveryReversed? || to.RecoveredNatural? || to.ManualReview? || to.Stopped?
    case ManualReview =>
      to.RecoveryReversed? || to.AuthorizedPendingCapture? || to.RecoveredNatural? || to.RecoveredByLink? ||
      to.Stopped? || to.Cooldown? || to.RetryScheduled? || to.ConsentRequired?
    case RecoveredNatural => to.RecoveryReversed?
    case RecoveredByLink => to.RecoveryReversed?
    case Stopped => false
    case RecoveryReversed => false
  }

  // Staying put is always allowed.
  predicate CanTransition(from: CaseState, to: CaseState) {
    to == from || AllowedTransition(from, to)
  }

  // What the provider reports for a payment link; any other text is kept verbatim.
  datatype LinkStatus = Issued | Created | Paid | PartiallyPaid | Cancelled | Expired | OtherStatus(text: string)

  datatype Reason =
    | CustomerOptedOut
    | ContactBudgetExhausted
    | ContactCooldownActive
    | RiskPolicyStop
    | RetryAttemptsExhausted
    | UnclassifiedFailure
    | CustomerActionRequired
    | ObservedIssuerDegradation
    | SafeRetryWindow
    | IssuerStillDegraded
    | ReleaseRateLimited
    | IssuerRecovered
    | RetryWindowElapsed
    | PaymentLinkCreateUnavailable
    | PaymentLinkCreateRejected
    | OriginalPaymentCaptured
    | LateAuthorisationPendingCapture
    | LateLinkEventRequiresReconciliation
    | DuplicateCollectionRequiresReconciliation
    | PaymentLinkWasCaptured
    | PartialRecoveryRequiresReconciliation
    | RecoveryLinkCancelled
    | RecoveryLinkExpired
    | UnexpectedLinkEventFrom(state: CaseState)
    | PaymentLinkCancelFailed
    | LinkCancelReturnedNonCancellableStatus

  datatype PaymentEvent = PaymentEvent(
    id: EventId,
    kind: EventType,
    key: Key,
    at: Time,
    amount: int,
    linkId: Option<LinkId>,
    customer: Option<CustomerId>,
    issuer: string,
    rail: Rail,
    code: Option<string>,
    captured: bool)

  // The contact budget carried by each case.
  datatype Attention = Attention(contacts: int, maxContacts: int, optedOut: bool, lastContactAt: Option<Time>) {
    // Contacts that still count against the rolling window.
    function Effective(now: Time): int {
      if lastContactAt.Some? && now - lastContactAt.value >= CONTACT_WINDOW then 0 else contacts
    }

    // None when contacting is allowed, else the refusal.
    function CanContact(now: Time, cooldown: int): Option<Reason> {
      if optedOut then Some(CustomerOptedOut)
      else if Effective(now) >= maxContacts then Some(ContactBudgetExhausted)
      else if lastContactAt.Some? && now - lastContactAt.value < cooldown then Some(ContactCooldownActive)
      else None
    }

    function RecordContact(now: Time): Attention {
      this.(contacts := Effective(now) + 1, lastContactAt := Some(now))
    }
  }

  const FRESH_ATTENTION: Attention := Attention(0, DEFAULT_MAX_CONTACTS_7D, false, None)

  datatype Failure = Failure(cause: Option<FailureClass>, code: Option<string>, issuer: string, rail: Rail)

  datatype Reversal = Reversal(reason: EventType, at: Time)

  datatype RecoveryCase = RecoveryCase(
    key: Key,
    amount: int,
    state: CaseState,
    failure: Failure,
    customer: Option<CustomerId>,
    linkId: Option<LinkId>,
    linkStatus: Option<LinkStatus>,
    preview: bool,
    nextActionAt: Option<Time>,
    stopReason: Option<Reason>,
    reconcile: bool,
    reversal: Option<Reversal>,
    attempts: int,
    version: int,
    attention: Attention,
    updatedAt: Time)
  {
    predicate HasCancellableLink() {
      linkId.Some? && (linkStatus == Some(Issued) || linkStatus == Some(Created))
    }
  }

  // ASCII lower-casing of issuer names.
  function Lower(s: string): string {
    seq(|s|, i requires 0 <= i < |s| => if 'A' <= s[i] <= 'Z' then s[i] - 'A' + 'a' else s[i])
  }

  function FromFailedEvent(e: PaymentEvent): RecoveryCase {
    RecoveryCase(e.key, e.amount, Open, Failure(None, None, Lower(e.issuer), e.rail), e.customer, None, None, false,
                 None, None, false, None, 0, 0, FRESH_ATTENTION, e.at)
  }
}

// The O(1) contact counter against the true sliding window (app/models.py:248-281).
module ContactWindow {
  import opened Base
  import opened Models

  ghost predicate TimeOrdered(ts: seq<Time>) {
    forall i, j :: 0 <= i < j < |ts| ==> ts[i] <= ts[j]
  }

  // The budget after recording contacts at the given instants, starting fresh.
  function AfterContacts(ts: seq<Time>): Attention {
    if ts == [] then FRESH_ATTENTION
    else AfterContacts(ts[..|ts| - 1]).RecordContact(ts[|ts| - 1])
  }

  // Contacts strictly inside the seven days before `now`.
  function InWindow(ts: seq<Time>, now: Time): nat {
    if ts == [] then 0
    else InWindow(ts[..|ts| - 1], now) + if now - ts[|ts| - 1] < CONTACT_WINDOW then 1 else 0
  }

  lemma {:induction false} NothingInWindow(ts: seq<Time>, now: Time)
    requires forall i :: 0 <= i < |ts| ==> now - ts[i] >= CONTACT_WINDOW
    ensures InWindow(ts, now) == 0
  {
    if ts != [] {
      NothingInWindow(ts[..|ts| - 1], now);
    }
  }

  lemma {:induction false} LastContact(ts: seq<Time>)
    requires ts != []
    ensures AfterContacts(ts).lastContactAt == Some(ts[|ts| - 1])
  {
  }

  // The counter never under-counts: whatever the window really holds at `now`, the budget charges at least that.
  lemma {:induction false} CounterNeverUnderCounts(ts: seq<Time>, now: Time)
    requires TimeOrdered(ts)
    requires ts != [] ==> ts[|ts| - 1] <= now
    ensures AfterContacts(ts).Effective(now) >= InWindow(ts, now)
  {
    if ts == [] {
    } else {
      var prior, last := ts[..|ts| - 1], ts[|ts| - 1];
      LastContact(ts);
      if now - last >= CONTACT_WINDOW {
        NothingInWindow(ts, now);
      } else {
        CounterNeverUnderCounts(prior, last);
        WindowShrinks(prior, last, now);
      }
    }
  }

  lemma {:induction false} WindowShrinks(ts: seq<Time>, early: Time, late: Time)
    requires early <= late
    ensures InWindow(ts, late) <= InWindow(ts, early)
  {
    if ts != [] {
      WindowShrinks(ts[..|ts| - 1], early, late);
    }
  }

  // Over any time-ordered history in which every contact passed `CanContact`, no seven-day window ever holds
  // more than the maximum.
  ghost predicate EachAllowed(ts: seq<Time>, cooldown: int) {
    forall i :: 0 <= i < |ts| ==> AfterContacts(ts[..i]).CanContact(ts[i], cooldown) == None
  }

  lemma {:induction false} MaxIsFixed(ts: seq<Time>)
    ensures AfterContacts(ts).maxContacts == DEFAULT_MAX_CONTACTS_7D && !AfterContacts(ts).optedOut
  {
    if ts != [] {
      MaxIsFixed(ts[..|ts| - 1]);
    }
  }

  lemma {:induction false} WindowNeverExceedsMax(ts: seq<Time>, cooldown: int, now: Time)
    requires TimeOrdered(ts) && EachAllowed(ts, cooldown)
    requires ts != [] ==> ts[|ts| - 1] <= now
    ensures InWindow(ts, now) <= DEFAULT_MAX_CONTACTS_7D
  {
    if ts != [] {
      var prior, last := ts[..|ts| - 1], ts[|ts| - 1];
      assert EachAllowed(prior, cooldown) by {
        forall i | 0 <= i < |prior| ensures AfterContacts(prior[..i]).CanContact(prior[i], cooldown) == None {
          assert prior[..i] == ts[..i];
        }
      }
      assert AfterContacts(ts[..|ts| - 1]).CanContact(ts[|ts| - 1], cooldown) == None;
      MaxIsFixed(prior);
      CounterNeverUnderCounts(prior, last);
      WindowShrinks(prior, last, now);
    }
  }
}
