// The engine as a state machine: webhooks, dispatchers, the cancel sweep, operators and crashes interleave freely
// between transactions, and the payment provider may answer anything at any time.
module Protocol {
  import opened Base
  import opened Models
  import opened Engine

  // What one dispatcher has under way between transactions.
  datatype Task =
    | Planned(snapshot: RecoveryCase, decision: Decision, now: Time)
    | Checked(snapshot: RecoveryCase, now: Time)      // the contact check passed
    | Creating(key: Key, now: Time)                   // the create intent is committed
    | Answered(key: Key, answer: Answer<NewLink>, now: Time)

  datatype Contact = Contact(key: Key, customer: Option<CustomerId>, at: Time)

  datatype Sys = Sys(
    db: Db,
    p: Settings,
    dispatchers: nat,
    tasks: map<nat, Task>,
    cancels: multiset<PendingCancel>,   // provider cancels in flight
    seen: set<RecoveryCase>,            // rows some dispatcher has read, however long ago
    swept: set<PendingCancel>,          // failed cancels some sweep has listed
    closing: set<ActionKey>,            // rows a sweep decided to close as already cancelled
    creates: multiset<Key>,             // log of provider create calls
    issued: multiset<ActionKey>,        // log of keyed cancels handed to the provider
    contacts: seq<Contact>)             // log of links sent

  datatype Step =
    | Webhook(e: PaymentEvent, degraded: bool)
    | CancelReturns(pc: PendingCancel, cancelAnswer: Answer<LinkStatus>, at: Time)
    | CancelLost(pc: PendingCancel)
    | ReadCase(key: Key)
    | PlanTimer(d: nat, snapshot: RecoveryCase, degraded: bool, slot: bool, offset: int, at: Time)
    | CheckContact(d: nat, snapshot: RecoveryCase, at: Time)
    | CommitPlan(d: nat)
    | RecordIntent(d: nat)
    | ProviderCreates(d: nat, createAnswer: Answer<NewLink>)
    | CommitLink(d: nat)
    | DispatcherCrashes(d: nat)
    | SweepLists(action: ActionKey)
    | SweepSeesCancelled(pc: PendingCancel)
    | SweepCloses(action: ActionKey)
    | SweepClaims(pc: PendingCancel)
    | OperatorReopens(key: Key, failureClass: Option<FailureClass>, degraded: bool, at: Time)
    | PreviewSaved(snapshot: RecoveryCase, at: Time)

  function Init(p: Settings, dispatchers: nat): Sys {
    Sys(Db(map[], map[], {}), p, dispatchers, map[], multiset{}, {}, {}, {}, multiset{}, multiset{}, [])
  }

  predicate Free(s: Sys, d: nat) {
    d < s.dispatchers && d !in s.tasks
  }

  // A failed transaction leaves the database as it was.
  function Committed(s: Sys, r: Result<Db, Fault>): Sys {
    if r.Ok? then s.(db := r.value) else s
  }

  function Launch(s: Sys, db: Db, pending: Option<PendingCancel>): Sys {
    if pending.None? then s.(db := db)
    else s.(db := db, cancels := s.cancels + multiset{pending.value},
            issued := s.issued + multiset{pending.value.action})
  }

  // ---------------------------------------------------------------- steps
  // A step that is not enabled changes nothing.

  function Ingests(s: Sys, e: PaymentEvent, degraded: bool): Sys {
    var r := Ingest(s.db, e, degraded, s.p);
    if r.Ok? then Launch(s, r.value.0, r.value.1) else s
  }

  function CancelDone(s: Sys, pc: PendingCancel, answer: Answer<LinkStatus>, at: Time): Sys {
    if pc !in s.cancels then s
    else Committed(s.(cancels := s.cancels - multiset{pc}), CancelCommit(s.db, pc, answer, at))
  }

  function Reads(s: Sys, key: Key): Sys {
    if key in s.db.cases then s.(seen := s.seen + {s.db.cases[key]}) else s
  }

  function Assigned(s: Sys, d: nat, t: Task): Sys {
    s.(tasks := s.tasks[d := t])
  }

  function Idle(s: Sys, d: nat): Sys {
    s.(tasks := s.tasks - {d})
  }

  // Timers are planned from rows read as due and timed.
  ghost function PlansTimer(s: Sys, d: nat, snapshot: RecoveryCase, degraded: bool, slot: bool, offset: int, at: Time)
    : Sys
  {
    if !Free(s, d) || snapshot !in s.seen || !(snapshot.state.Cooldown? || snapshot.state.RetryScheduled?)
       || snapshot.nextActionAt.None? || snapshot.nextActionAt.value > at then s
    else Assigned(s, d, Planned(snapshot, PlanTimed(s.db, s.p, snapshot, degraded, slot, offset, at), at))
  }

  ghost function ChecksContact(s: Sys, d: nat, snapshot: RecoveryCase, at: Time): Sys {
    if !Free(s, d) || snapshot !in s.seen || snapshot.state != ConsentRequired then s
    else
      var refusal := MayContact(s.db, s.p, snapshot, at);
      if refusal.None? then Assigned(s, d, Checked(snapshot, at))
      else Assigned(s, d, Planned(snapshot, Decision(RefusalTarget(refusal.value), refusal.value, None), at))
  }

  function CommitsPlan(s: Sys, d: nat): Sys {
    if d !in s.tasks || !s.tasks[d].Planned? then s
    else
      var t := s.tasks[d];
      Idle(s, d).(db := CommitState(s.db, t.snapshot, t.decision, t.now).0)
  }

  function RecordsIntent(s: Sys, d: nat): Sys {
    if d !in s.tasks || !s.tasks[d].Checked? then s
    else
      var t := s.tasks[d];
      var (db, recorded) := CreateIntent(s.db, t.snapshot.key, t.now);
      if recorded then Assigned(s.(db := db), d, Creating(t.snapshot.key, t.now)) else Idle(s, d)
  }

  function CallsProvider(s: Sys, d: nat, answer: Answer<NewLink>): Sys {
    if d !in s.tasks || !s.tasks[d].Creating? then s
    else
      var t := s.tasks[d];
      Assigned(s, d, Answered(t.key, answer, t.now)).(creates := s.creates + multiset{t.key})
  }

  function CommitsLink(s: Sys, d: nat): Sys {
    if d !in s.tasks || !s.tasks[d].Answered? then s
    else
      var t := s.tasks[d];
      var r := CreateCommit(s.db, t.key, t.answer, t.now);
      if r.Err? then Idle(s, d)
      else if t.answer.Refused? || r.value.1 || t.key !in s.db.cases then Idle(s, d).(db := r.value.0)
      else
        var sent := Contact(t.key, s.db.cases[t.key].customer, t.now);
        Idle(s, d).(db := r.value.0, contacts := s.contacts + [sent])
  }

  // The link a sweep would cancel: the one the row recorded, else the case's.
  function SweptLink(db: Db, ak: ActionKey): Option<LinkId> {
    if ak !in db.actions then None
    else if db.actions[ak].link.Some? then db.actions[ak].link
    else if ak.key in db.cases then db.cases[ak.key].linkId
    else None
  }

  function ListsFailed(s: Sys, ak: ActionKey): Sys {
    if ak.IsCancel() && ak in s.db.actions && s.db.actions[ak].status == Failed && SweptLink(s.db, ak).Some?
    then s.(swept := s.swept + {PendingCancel(ak.key, ak, SweptLink(s.db, ak).value)})
    else s
  }

  function SeesCancelled(s: Sys, pc: PendingCancel): Sys {
    if pc in s.swept && pc.key in s.db.cases && s.db.cases[pc.key].linkStatus == Some(Cancelled)
    then s.(closing := s.closing + {pc.action})
    else s
  }

  function Closes(s: Sys, ak: ActionKey): Sys {
    if ak in s.closing then s.(db := CompleteAction(s.db, ak, Succeeded, None)) else s
  }

  function Reclaims(s: Sys, pc: PendingCancel): Sys {
    if pc !in s.swept then s
    else
      var (db, won) := ClaimAction(s.db, pc.action, Action(Started, 1, Some(pc.link), 0), s.p.maxLinkCancelAttempts);
      Launch(s, db, if won then Some(pc) else None)
  }

  ghost function Next(s: Sys, step: Step): Sys {
    match step
    case Webhook(e, degraded) => Ingests(s, e, degraded)
    case CancelReturns(pc, answer, at) => CancelDone(s, pc, answer, at)
    case CancelLost(pc) => s.(cancels := s.cancels - multiset{pc})
    case ReadCase(key) => Reads(s, key)
    case PlanTimer(d, snapshot, degraded, slot, offset, at) => PlansTimer(s, d, snapshot, degraded, slot, offset, at)
    case CheckContact(d, snapshot, at) => ChecksContact(s, d, snapshot, at)
    case CommitPlan(d) => CommitsPlan(s, d)
    case RecordIntent(d) => RecordsIntent(s, d)
    case ProviderCreates(d, answer) => CallsProvider(s, d, answer)
    case CommitLink(d) => CommitsLink(s, d)
    case DispatcherCrashes(d) => Idle(s, d)
    case SweepLists(ak) => ListsFailed(s, ak)
    case SweepSeesCancelled(pc) => SeesCancelled(s, pc)
    case SweepCloses(ak) => Closes(s, ak)
    case SweepClaims(pc) => Reclaims(s, pc)
    case OperatorReopens(key, failureClass, degraded, at) =>
      Committed(s, Reopen(s.db, key, failureClass, degraded, at, s.p))
    case PreviewSaved(snapshot, at) => Committed(s, SavePreview(s.db, snapshot, at))
  }

  ghost function Run(s: Sys, steps: seq<Step>): Sys {
    if steps == [] then s else Next(Run(s, steps[..|steps| - 1]), steps[|steps| - 1])
  }
}
