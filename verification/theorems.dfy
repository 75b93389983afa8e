// What the protocol guarantees over every run, whatever the interleaving and whatever the provider answers.
module ProtocolTheorems {
  import opened Base
  import opened Models
  import opened Engine
  import opened Effects
  import opened Protocol
  import opened Counting
  import opened LinkSafety
  import opened CancelSafety

  ghost predicate Safe(s: Sys) {
    Inv(s) && CancelInv(s)
  }

  lemma SafeInit(p: Settings, dispatchers: nat)
    ensures Safe(Init(p, dispatchers))
  {
    var s := Init(p, dispatchers);
    assert forall u :: Sent(s.db, u) == {} && Live(s, u) == {};
  }

  lemma SafeNext(s: Sys, step: Step)
    requires Safe(s)
    ensures Safe(Next(s, step))
  {
    hide Inv;
    InvNext(s, step) by {
      assert KeysOk(s);
    }
    hide CancelInv;
    CancelInvNext(s, step);
  }

  lemma {:induction false} SafeRun(s: Sys, steps: seq<Step>)
    requires Safe(s)
    ensures Safe(Run(s, steps))
  {
    hide Safe, Next;
    if steps != [] {
      SafeRun(s, steps[..|steps| - 1]);
      SafeNext(Run(s, steps[..|steps| - 1]), steps[|steps| - 1]);
    }
  }

  // A state some run from an empty database reaches.
  ghost predicate Reachable(s: Sys) {
    exists p, dispatchers, steps :: s == Run(Init(p, dispatchers), steps)
  }

  lemma ReachableIsSafe(s: Sys)
    requires Reachable(s)
    ensures Safe(s)
  {
    var p, dispatchers, steps :| s == Run(Init(p, dispatchers), steps);
    SafeInit(p, dispatchers);
    SafeRun(Init(p, dispatchers), steps);
  }

  // ---------------------------------------------------------- payable links

  // A cancel action on record for case k.
  predicate CancelOf(db: Db, ak: ActionKey, k: Key) {
    ak in db.actions && ak.IsCancel() && ak.key == k
  }

  // A collected or reversed case whose link is recorded payable has a cancel on record, and that cancel is under way
  // or the case is in front of a human.
  lemma RecordedLinksAreAttended(s: Sys, k: Key)
    requires Reachable(s) && k in s.db.cases
    requires Held(s.db.cases[k].state) && s.db.cases[k].HasCancellableLink()
    ensures exists ak: ActionKey :: CancelOf(s.db, ak, k)
    ensures forall ak: ActionKey | CancelOf(s.db, ak, k) ::
      s.db.actions[ak].status == ActionStatus.Started || s.db.cases[k].reconcile
  {
    ReachableIsSafe(s);
    var c := s.db.cases[k];
    assert Attended(c, s.db.actions, s.closing) && c.key == k;
    hide Inv;
    assert CancelOf(s.db, LateCancelOf(c), k) || CancelOf(s.db, ReversalCancelKey(k), k);
  }

  // ------------------------------------------------------------- cancelling

  // However ingest, the sweep and crashes interleave: one cancel in flight per key, and in all at most the
  // configured number ever issued, so retrying quiesces.
  lemma CancelsAreBounded(s: Sys, ak: ActionKey)
    requires Reachable(s) && ak.IsCancel()
    ensures s.issued[ak] <= Max(1, s.p.maxLinkCancelAttempts)
    ensures forall pc, pc' | pc in s.cancels && pc' in s.cancels && pc.action == ak && pc'.action == ak :: pc == pc'
    ensures forall pc | pc in s.cancels && pc.action == ak :: s.cancels[pc] == 1
    ensures ak in s.db.actions && s.db.actions[ak].attempts >= s.p.maxLinkCancelAttempts ==>
      !Claimable(s.db, ak, s.p.maxLinkCancelAttempts)
  {
    ReachableIsSafe(s);
    hide Inv;
  }

  // ---------------------------------------------------------- link creation

  // One provider call per logical key; and a case names a link exactly when it has been contacted, exactly when
  // its create action succeeded, exactly when it is in the log of links sent.
  lemma OneLinkPerCase(s: Sys, k: Key)
    requires Reachable(s)
    ensures s.creates[k] <= 1
    ensures k in s.db.cases ==>
      var c := s.db.cases[k];
      && (c.linkId.Some? <==> c.attention.contacts == 1)
      && (c.linkId.Some? <==> CreateSucceeded(s.db, k))
      && (c.linkId.Some? <==> exists i :: 0 <= i < |s.contacts| && s.contacts[i].key == k)
    ensures forall i, j | 0 <= i < j < |s.contacts| :: s.contacts[i].key != s.contacts[j].key
  {
    ReachableIsSafe(s);
    hide CancelInv, SeenOk, TasksOk, BudgetOk, CooledOk;
  }

  predicate IsLinkStep(step: Step) {
    step.RecordIntent? || step.CommitLink?
  }

  ghost predicate StepQuiet(s: Sys, s': Sys) {
    Quiet(s.db, s'.db) && Moves(s.db, s'.db) && s'.contacts == s.contacts && s'.p == s.p
  }

  lemma WebhookMoves(s: Sys, e: PaymentEvent, degraded: bool)
    requires DbOk(s.db, s.p)
    ensures StepQuiet(s, Ingests(s, e, degraded))
  {
    hide DbOk, Ingest, Quiet, Moves;
    IngestIsTotal(s.db, e, degraded, s.p);
  }

  lemma CancelMoves(s: Sys, pc: PendingCancel, answer: Answer<LinkStatus>, at: Time)
    requires DbOk(s.db, s.p) && KeysOk(s)
    ensures StepQuiet(s, CancelDone(s, pc, answer, at))
  {
    hide DbOk, CancelCommit, Quiet, Moves;
    QuietReflexive(s.db);
    if pc in s.cancels {
      CancelEffect(s.db, pc, answer, at, s.p);
    }
  }

  lemma SweepMoves(s: Sys, ak: ActionKey, pc: PendingCancel)
    requires KeysOk(s)
    ensures StepQuiet(s, Closes(s, ak)) && StepQuiet(s, Reclaims(s, pc))
  {
    hide ClaimAction, CompleteAction, Quiet, Moves;
    QuietReflexive(s.db);
    var a := Action(ActionStatus.Started, 1, Some(pc.link), 0);
    if ak in s.closing {
      ClaimMoves(s.db, ak, a, 0, Succeeded, None);
    }
    if pc in s.swept {
      ClaimMoves(s.db, pc.action, a, s.p.maxLinkCancelAttempts, Succeeded, None);
    }
  }

  // Outside the two link-creation commits, every step is quiet and moves each case along at most one edge.
  lemma QuietSteps(s: Sys, step: Step)
    requires Safe(s) && !IsLinkStep(step)
    ensures StepQuiet(s, Next(s, step))
  {
    assert DbOk(s.db, s.p) && KeysOk(s);
    hide Safe, DbOk, KeysOk, StepQuiet;
    match step
    case Webhook(e, degraded) => WebhookMoves(s, e, degraded);
    case CancelReturns(pc, answer, at) => CancelMoves(s, pc, answer, at);
    case CommitPlan(d) => PlanMoves(s, d);
    case SweepCloses(ak) => SweepMoves(s, ak, PendingCancel("", ak, ""));
    case SweepClaims(pc) => SweepMoves(s, pc.action, pc);
    case _ => OperatorMoves(s, step);
  }

  lemma OperatorMoves(s: Sys, step: Step)
    requires DbOk(s.db, s.p) && !IsLinkStep(step)
    requires !step.Webhook? && !step.CancelReturns? && !step.CommitPlan? && !step.SweepCloses? && !step.SweepClaims?
    ensures StepQuiet(s, Next(s, step))
  {
    hide Reopen, SavePreview, Quiet, Moves, DbOk, MayContact, PlanTimed, Ingests, CancelDone, CommitsPlan, CommitsLink,
      RecordsIntent, Closes, Reclaims;
    QuietReflexive(s.db);
    if step.OperatorReopens? {
      ReopenEffect(s.db, step.key, step.failureClass, step.degraded, step.at, s.p);
    } else if step.PreviewSaved? {
      PreviewEffect(s.db, step.snapshot, step.at, s.p);
    }
  }

  lemma PlanMoves(s: Sys, d: nat)
    requires Safe(s)
    ensures StepQuiet(s, CommitsPlan(s, d))
  {
    QuietReflexive(s.db);
    if d in s.tasks && s.tasks[d].Planned? {
      var t := s.tasks[d];
      assert TaskOk(t, s.seen, s.p) && Newer(t.snapshot, s.db.cases[t.snapshot.key]);
      CommitStateEffect(s.db, t.snapshot, t.decision, t.now, s.p);
    }
    hide Safe, CommitState, Quiet, Moves;
  }

  // Case k leaves ConsentRequired, either for a human or, with a log entry, for LinkSent; nothing else moves.
  ghost predicate LinkMove(s: Sys, s': Sys, k: Key) {
    && k in s.db.cases && s.db.cases[k].state.ConsentRequired?
    && s'.p == s.p
    && s'.db.cases.Keys == s.db.cases.Keys
    && (forall j | j in s.db.cases && j != k :: s'.db.cases[j] == s.db.cases[j])
    && var c, c' := s.db.cases[k], s'.db.cases[k];
      && c'.customer == c.customer
      && c'.attention.optedOut == c.attention.optedOut
      && c'.amount == c.amount && c'.reversal == c.reversal
      && (if s'.contacts == s.contacts then c'.state.ManualReview? && c'.linkId == c.linkId
          else c'.state.LinkSent? && exists at :: s'.contacts == s.contacts + [Contact(k, c.customer, at)])
  }

  ghost predicate CasesStand(s: Sys, s': Sys) {
    s'.p == s.p && s'.db.cases == s.db.cases && s'.contacts == s.contacts
  }

  lemma LinkSteps(s: Sys, step: Step)
    requires Safe(s) && IsLinkStep(step)
    ensures CasesStand(s, Next(s, step)) ||
      (step.CommitLink? && step.d in s.tasks && s.tasks[step.d].Answered?
       && LinkMove(s, Next(s, step), s.tasks[step.d].key))
  {
    hide Safe, CommitsLink, RecordsIntent, LinkMove, CasesStand;
    if step.RecordIntent? {
      IdleLinkSteps(s, step.d);
    } else if step.d in s.tasks && s.tasks[step.d].Answered? && s.tasks[step.d].key in s.db.cases
              && s.db.cases[s.tasks[step.d].key].state.ConsentRequired? {
      CommitMoves(s, step.d);
    } else {
      IdleLinkSteps(s, step.d);
    }
  }

  lemma IdleLinkSteps(s: Sys, d: nat)
    ensures CasesStand(s, RecordsIntent(s, d))
    ensures (d in s.tasks && s.tasks[d].Answered? && s.tasks[d].key in s.db.cases
             && s.db.cases[s.tasks[d].key].state.ConsentRequired?) || CasesStand(s, CommitsLink(s, d))
  {
    hide AfterCreateRefused, AfterLinkCreated, SaveCase;
  }

  lemma CommitMoves(s: Sys, d: nat)
    requires Safe(s) && d in s.tasks && s.tasks[d].Answered?
    requires s.tasks[d].key in s.db.cases && s.db.cases[s.tasks[d].key].state.ConsentRequired?
    ensures LinkMove(s, CommitsLink(s, d), s.tasks[d].key)
  {
    var t := s.tasks[d];
    AnswerOwnsRow(s, d);
    assert DbOk(s.db, s.p) && LinksOk(s.db);
    hide Safe;
    if t.answer.Accepted? {
      hide CreateCommit, DbOk, LinksOk;
      SentDb(s.db, t.key, t.answer.value, t.now, s.p);
      SentMoves(s, CommitsLink(s, d), t.key, t.now);
    } else {
      RefusedMoves(s.db, t.key, t.answer.retryable, t.now, s.p);
      hide CreateCommit, DbOk, LinksOk;
    }
  }

  lemma SentMoves(s: Sys, s': Sys, k: Key, now: Time)
    requires JustSent(s.db, s'.db, k, now, s.p) && s'.p == s.p && s.db.cases[k].state.ConsentRequired?
    requires s'.contacts == s.contacts + [Contact(k, s.db.cases[k].customer, now)]
    ensures LinkMove(s, s', k)
  {
    hide CaseOk;
  }

  lemma RefusedMoves(db: Db, k: Key, retryable: bool, now: Time, p: Settings)
    requires DbOk(db, p) && k in db.cases && db.cases[k].state.ConsentRequired?
    ensures var r := CreateCommit(db, k, Refused(retryable), now);
      && r.Ok?
      && r.value.0.cases.Keys == db.cases.Keys
      && (forall j | j in db.cases && j != k :: r.value.0.cases[j] == db.cases[j])
      && var c, c' := db.cases[k], r.value.0.cases[k];
        && c'.customer == c.customer && c'.attention == c.attention && c'.linkId == c.linkId && c'.state.ManualReview?
        && c'.amount == c.amount && c'.reversal == c.reversal
  {
    assert CaseOk(k, db.cases[k], p);
    hide DbOk, CaseOk, AfterLinkCreated, AfterCreateRefused, AllowedTransition, CompleteAction;
    RefusedCase(db.cases[k], retryable, now, p);
    RowsKeepCases(db, CreateKey(k), Failed, 0, Action(ActionStatus.Started, 1, None, now));
  }

  // ------------------------------------------------------------ case histories

  // Every step of every run moves each case along at most one edge of the transition table; a case appears by one
  // edge out of Open.
  lemma EveryStepIsAnEdge(s: Sys, step: Step)
    requires Safe(s)
    ensures Moves(s.db, Next(s, step).db) && Next(s, step).p == s.p
  {
    hide Safe, Next;
    if IsLinkStep(step) {
      LinkSteps(s, step);
    } else {
      QuietSteps(s, step);
    }
  }

  // Webhooks cannot fail in a reachable state: no forbidden transition, no version conflict, and the branch that
  // holds a case because the policy proposed a forbidden target is never taken.
  lemma IngestNeverFaults(s: Sys, e: PaymentEvent, degraded: bool)
    requires Reachable(s)
    ensures Ingest(s.db, e, degraded, s.p).Ok?
    ensures var c := if e.key in s.db.cases then s.db.cases[e.key] else FromFailedEvent(e);
      !IsFinal(c.state) && !AlreadyActioned(c.state) ==>
        CanTransition(c.state, Decide(WithFailure(c, e, s.p), degraded, e.at, s.p).target)
  {
    ReachableIsSafe(s);
    IngestIsTotal(s.db, e, degraded, s.p);
    assert e.key in s.db.cases ==> CaseOk(e.key, s.db.cases[e.key], s.p);
    var c := if e.key in s.db.cases then s.db.cases[e.key] else FromFailedEvent(e);
    DecisionFits(WithFailure(c, e, s.p), degraded, e.at, s.p);
    hide Ingest, Decide, Safe;
  }

  // No committed case is Open or Classified; timed cases have a deadline and attempts to spare, so the dispatcher's
  // exhaustion branch is dead code; cases waiting for consent have no deadline.
  lemma CommittedRows(s: Sys, k: Key)
    requires Reachable(s) && k in s.db.cases
    ensures var c := s.db.cases[k];
      && c.key == k && !c.state.Open? && !c.state.Classified?
      && (c.state.Cooldown? || c.state.RetryScheduled? ==>
            c.nextActionAt.Some? && c.attempts < s.p.maxRecoveryAttempts)
      && (c.state.ConsentRequired? ==> c.nextActionAt.None?)
    ensures forall c | c in s.seen && c.state.RetryScheduled? :: c.attempts < s.p.maxRecoveryAttempts
  {
    ReachableIsSafe(s);
    assert CaseOk(k, s.db.cases[k], s.p);
  }

  predicate Absorbed(db: Db, k: Key) {
    k in db.cases && (db.cases[k].state.Stopped? || db.cases[k].state.RecoveryReversed?)
  }

  // Stopped and RecoveryReversed are final over every entry point.
  lemma {:induction false} StoppedStaysStopped(s: Sys, steps: seq<Step>, k: Key)
    requires Safe(s) && Absorbed(s.db, k)
    ensures k in Run(s, steps).db.cases && Run(s, steps).db.cases[k].state == s.db.cases[k].state
  {
    hide Safe, Next;
    if steps != [] {
      var before := steps[..|steps| - 1];
      StoppedStaysStopped(s, before, k);
      SafeRun(s, before);
      EveryStepIsAnEdge(Run(s, before), steps[|steps| - 1]);
    }
  }

  predicate InLinkSent(db: Db, k: Key) {
    k in db.cases && db.cases[k].state == LinkSent
  }

  // How often case k enters LinkSent along a run.
  ghost function Entries(s: Sys, steps: seq<Step>, k: Key): nat {
    if steps == [] then 0
    else
      var before := steps[..|steps| - 1];
      Entries(s, before, k)
      + if !InLinkSent(Run(s, before).db, k) && InLinkSent(Run(s, steps).db, k) then 1 else 0
  }

  function LogCount(log: seq<Contact>, k: Key): nat {
    if log == [] then 0 else LogCount(log[..|log| - 1], k) + if log[|log| - 1].key == k then 1 else 0
  }

  // The only step that takes a case into LinkSent is the one that logs its contact.
  lemma EntryIsLogged(s: Sys, step: Step, k: Key)
    requires Safe(s)
    ensures var s' := Next(s, step);
      LogCount(s'.contacts, k) ==
        LogCount(s.contacts, k) + if !InLinkSent(s.db, k) && InLinkSent(s'.db, k) then 1 else 0
  {
    hide Safe, Next;
    if IsLinkStep(step) {
      LinkSteps(s, step);
    } else {
      QuietSteps(s, step);
    }
  }

  // LinkSent is entered once per logged contact, hence at most once over any run.
  lemma {:induction false} LinkSentOnce(p: Settings, n: nat, steps: seq<Step>, k: Key)
    ensures Entries(Init(p, n), steps, k) == LogCount(Run(Init(p, n), steps).contacts, k) <= 1
  {
    EntriesAreLogged(Init(p, n), steps, k) by {
      SafeInit(p, n);
    }
    var s := Run(Init(p, n), steps);
    assert Reachable(s);
    OneLinkPerCase(s, k);
    hide Run, Entries;
    DistinctLogCount(s.contacts, k);
  }

  lemma {:induction false} EntriesAreLogged(s: Sys, steps: seq<Step>, k: Key)
    requires Safe(s)
    ensures LogCount(Run(s, steps).contacts, k) == LogCount(s.contacts, k) + Entries(s, steps, k)
  {
    hide Safe, Next, LogCount, InLinkSent;
    if steps != [] {
      var before := steps[..|steps| - 1];
      EntriesAreLogged(s, before, k);
      SafeRun(s, before);
      EntryIsLogged(Run(s, before), steps[|steps| - 1], k);
    }
  }

  lemma {:induction false} DistinctLogCount(log: seq<Contact>, k: Key)
    requires forall i, j | 0 <= i < j < |log| :: log[i].key != log[j].key
    ensures LogCount(log, k) <= 1
    ensures LogCount(log, k) == 1 ==> exists i :: 0 <= i < |log| && log[i].key == k
  {
    if log != [] {
      DistinctLogCount(log[..|log| - 1], k);
    }
  }

  // ------------------------------------------------------------- burned keys

  // A create that failed keeps its key.
  predicate Burned(db: Db, k: Key) {
    CreateKey(k) in db.actions && db.actions[CreateKey(k)].status == Failed
  }

  lemma CommitTouchesOwnRow(db: Db, key: Key, answer: Answer<NewLink>, now: Time, k: Key)
    requires k != key && Burned(db, k)
    ensures CreateCommit(db, key, answer, now).Ok? ==> Burned(CreateCommit(db, key, answer, now).value.0, k)
  {
    hide AfterLinkCreated, AfterCreateRefused;
  }

  lemma BurnedStays(s: Sys, step: Step, k: Key)
    requires Safe(s) && Burned(s.db, k)
    ensures Burned(Next(s, step).db, k)
  {
    hide Next, Safe, Moves;
    if step.RecordIntent? {
      BurnedBeforeIntent(s, step, k);
    } else if step.CommitLink? {
      BurnedBeforeCommit(s, step, k);
    } else {
      QuietSteps(s, step);
    }
  }

  lemma BurnedBeforeIntent(s: Sys, step: Step, k: Key)
    requires step.RecordIntent? && Burned(s.db, k)
    ensures Burned(Next(s, step).db, k)
  {
  }

  lemma BurnedBeforeCommit(s: Sys, step: Step, k: Key)
    requires Safe(s) && step.CommitLink? && Burned(s.db, k)
    ensures Burned(Next(s, step).db, k)
  {
    hide Inv, CancelInv, CreateCommit;
    if step.d in s.tasks && s.tasks[step.d].Answered? {
      var t := s.tasks[step.d];
      AnswerOwnsRow(s, step.d);
      CommitTouchesOwnRow(s.db, t.key, t.answer, t.now, k);
    }
  }

  // Once its create has failed, a case can never be sent a link again, whatever webhooks, operators or dispatchers do:
  // a reopened case may wait for consent forever.
  lemma {:induction false} BurnedForever(s: Sys, steps: seq<Step>, k: Key)
    requires Safe(s) && Burned(s.db, k)
    ensures var s' := Run(s, steps);
      Burned(s'.db, k) && (k in s'.db.cases ==> s'.db.cases[k].linkId.None? && !s'.db.cases[k].state.LinkSent?)
  {
    hide Safe, Next, Burned;
    if steps != [] {
      BurnedForever(s, steps[..|steps| - 1], k);
      SafeRun(s, steps[..|steps| - 1]);
      BurnedStays(Run(s, steps[..|steps| - 1]), steps[|steps| - 1], k);
    }
    SafeRun(s, steps);
    BurnedHasNoLink(Run(s, steps), k);
  }

  lemma BurnedHasNoLink(s: Sys, k: Key)
    requires Safe(s) && Burned(s.db, k)
    ensures k in s.db.cases ==> s.db.cases[k].linkId.None? && !s.db.cases[k].state.LinkSent?
  {
    assert LinksOk(s.db);
    assert k in s.db.cases ==> CaseOk(k, s.db.cases[k], s.p);
    hide CancelInv, Inv;
  }

  // ------------------------------------------------------ customer-wide budget

  // The cases whose links went to one person.
  function KeysTo(log: seq<Contact>, u: CustomerId): set<Key> {
    if log == [] then {}
    else KeysTo(log[..|log| - 1], u) + if log[|log| - 1].customer == Some(u) then {log[|log| - 1].key} else {}
  }

  // Links sent to one person.
  function LinksTo(log: seq<Contact>, u: CustomerId): nat {
    if log == [] then 0 else LinksTo(log[..|log| - 1], u) + if log[|log| - 1].customer == Some(u) then 1 else 0
  }

  lemma {:induction false} KeysToIsLogged(log: seq<Contact>, u: CustomerId, k: Key)
    requires k in KeysTo(log, u)
    ensures exists i :: 0 <= i < |log| && log[i].key == k && log[i].customer == Some(u)
  {
    var rest := log[..|log| - 1];
    if k in KeysTo(rest, u) {
      KeysToIsLogged(rest, u, k);
      var i :| 0 <= i < |rest| && rest[i].key == k && rest[i].customer == Some(u);
      assert log[i].key == k;
    } else {
      assert log[|log| - 1].key == k;
    }
  }

  lemma {:induction false} LinksAreKeys(log: seq<Contact>, u: CustomerId)
    requires forall i, j | 0 <= i < j < |log| :: log[i].key != log[j].key
    ensures LinksTo(log, u) == |KeysTo(log, u)|
  {
    if log != [] {
      var rest, k := log[..|log| - 1], log[|log| - 1].key;
      LinksAreKeys(rest, u);
      if k in KeysTo(rest, u) {
        KeysToIsLogged(rest, u, k);
      }
    }
  }

  // With n dispatchers a known customer is sent at most max + n - 1 links over all their invoices, ever; one
  // dispatcher keeps the budget exact.
  lemma BudgetAcrossInvoices(s: Sys, u: CustomerId)
    requires Reachable(s) && s.dispatchers >= 1
    ensures LinksTo(s.contacts, u) <= DEFAULT_MAX_CONTACTS_7D + s.dispatchers - 1
  {
    ReachableIsSafe(s);
    LinksAreKeys(s.contacts, u);
    hide CancelInv, SeenOk, TasksOk, LedgerOk, CooledOk;
    forall k | k in KeysTo(s.contacts, u) ensures k in Sent(s.db, u) {
      KeysToIsLogged(s.contacts, u, k);
    }
    SubsetCount(KeysTo(s.contacts, u), Sent(s.db, u));
  }

  // And with one dispatcher, two contacts with one person are never closer than the cooldown, in log order.
  lemma ContactsAreSpaced(s: Sys)
    requires Reachable(s) && s.dispatchers == 1
    ensures Spaced(s.contacts, s.p.contactCooldown)
  {
    ReachableIsSafe(s);
    hide CancelInv, SeenOk, TasksOk, LedgerOk, ContactsOk;
  }

  // ----------------------------------------------------------------- opt-out

  // Someone whose payment was reversed: a silenced case that can never move again.
  ghost predicate Silenced(db: Db, u: CustomerId) {
    exists k :: SilencedBy(db, u, k)
  }

  predicate SilencedBy(db: Db, u: CustomerId, k: Key) {
    Absorbed(db, k) && db.cases[k].customer == Some(u) && db.cases[k].attention.optedOut && db.cases[k].key == k
  }

  // A committed reversal silences its person: the reversed case for good, and every other case of theirs.
  lemma ReversalSilences(s: Sys, e: PaymentEvent, degraded: bool)
    requires Safe(s) && e.id !in s.db.claimed && e.key in s.db.cases && !s.db.cases[e.key].state.RecoveryReversed?
    requires !IsFailureEvent(e.kind) && !IsSuccessEvent(e.kind) && !IsLinkEvent(e.kind)
    requires s.db.cases[e.key].customer.Some?
    ensures var s', u := Ingests(s, e, degraded), s.db.cases[e.key].customer.value;
      && SilencedBy(s'.db, u, e.key)
      && forall k | k in s'.db.cases && s'.db.cases[k].customer == Some(u) :: s'.db.cases[k].attention.optedOut
  {
    assert DbOk(Claim(s.db, e.id), s.p);
    hide Safe, DbOk, HandleReversal, HandleFailure, HandleSuccess, HandleLink;
    SilencesDb(Claim(s.db, e.id), e, s.p);
  }

  lemma SilencesDb(db: Db, e: PaymentEvent, p: Settings)
    requires DbOk(db, p) && e.key in db.cases && !db.cases[e.key].state.RecoveryReversed?
    requires db.cases[e.key].customer.Some?
    ensures var r, u := HandleReversal(db, e, p), db.cases[e.key].customer.value;
      && r.Ok? && SilencedBy(r.value.0, u, e.key)
      && forall k | k in r.value.0.cases && r.value.0.cases[k].customer == Some(u) ::
           r.value.0.cases[k].attention.optedOut
  {
    var c := db.cases[e.key];
    RowsAreKeyed(db, p);
    ReversalFinal(c, e);
    ClaimCollects(db, c, ReversalCancelKey(c.key), e.at, p);
    hide AfterReversal, ClaimCancel, ClaimOutcome, DbOk, OptOutCustomer, Keyed;
    var db1 := ClaimCancel(db, c, ReversalCancelKey(c.key), e.at, p).0;
    assert c.key == e.key by {
      assert Keyed(db);
    }
    SilencesOthers(db1, c.customer.value, c.key);
  }

  lemma ReversalFinal(c: RecoveryCase, e: PaymentEvent)
    ensures var c' := AfterReversal(c, e);
      && c'.customer == c.customer && c'.attention.optedOut && c'.key == c.key && c'.version == c.version
      && (c'.state.Stopped? || c'.state.RecoveryReversed?)
  {
  }

  lemma SilencesOthers(db: Db, u: CustomerId, exclude: Key)
    requires Keyed(db)
    ensures var db' := OptOutCustomer(db, u, exclude);
      && db'.cases.Keys == db.cases.Keys
      && (exclude in db.cases ==> db'.cases[exclude] == db.cases[exclude])
      && (forall k | k in db.cases && k != exclude && db'.cases[k].customer == Some(u) ::
            db'.cases[k].attention.optedOut)
  {
  }

  // Dispatch work that could still end in a link for this person.
  function TaskCase(t: Task): Key {
    match t
    case Planned(c, _, _) => c.key
    case Checked(c, _) => c.key
    case Creating(k, _) => k
    case Answered(k, _, _) => k
  }

  ghost function CanStillSend(s: Sys, u: CustomerId): set<nat> {
    set d | d in s.tasks && LiveFor(s.tasks[d], s.db, u) && !Absorbed(s.db, TaskCase(s.tasks[d]))
  }

  // Links sent to this person plus links that could still be.
  ghost function Potential(s: Sys, u: CustomerId): nat {
    LinksTo(s.contacts, u) + |CanStillSend(s, u)|
  }

  // A silenced case stays what it is: its state is absorbing and opt-outs are never cleared.
  lemma SilenceLasts(s: Sys, step: Step, u: CustomerId)
    requires Safe(s) && Silenced(s.db, u)
    ensures Silenced(Next(s, step).db, u)
  {
    var s' := Next(s, step);
    var k :| SilencedBy(s.db, u, k);
    RowsKeptKeyed(s, step);
    hide Next, Safe, AllowedTransition, CaseOk;
    StoppedStays(s, step, k);
    OptOutStays(s, step, k);
    assert SilencedBy(s'.db, u, k);
  }

  lemma RowsKeptKeyed(s: Sys, step: Step)
    requires Safe(s)
    ensures Keyed(Next(s, step).db)
  {
    SafeNext(s, step);
    hide Next;
  }

  lemma StoppedStays(s: Sys, step: Step, k: Key)
    requires Safe(s) && Absorbed(s.db, k)
    ensures k in Next(s, step).db.cases && Next(s, step).db.cases[k].state == s.db.cases[k].state
  {
    hide Next, Safe;
    EveryStepIsAnEdge(s, step);
  }

  // What is known of a case stays known: whose it is, that they opted out, that money is due, that it was reversed.
  predicate FactsStay(c: RecoveryCase, c': RecoveryCase) {
    && c'.customer == c.customer
    && (c.attention.optedOut ==> c'.attention.optedOut)
    && (c.amount > 0 ==> c'.amount > 0)
    && (c.reversal.Some? ==> c'.reversal.Some?)
  }

  // No event, dispatcher or operator ever clears an opt-out, forgets an amount or a reversal, or hands a case to
  // another customer.
  lemma OptOutStays(s: Sys, step: Step, k: Key)
    requires Safe(s) && k in s.db.cases
    ensures var s' := Next(s, step);
      && k in s'.db.cases
      && s'.db.cases[k].customer == s.db.cases[k].customer
      && FactsStay(s.db.cases[k], s'.db.cases[k])
  {
    hide Next, Safe, Moves;
    if IsLinkStep(step) {
      LinkSteps(s, step);
    } else {
      QuietSteps(s, step);
    }
  }

  lemma {:induction false} FactsSurvive(s: Sys, steps: seq<Step>, k: Key)
    requires Safe(s) && k in s.db.cases
    ensures k in Run(s, steps).db.cases && FactsStay(s.db.cases[k], Run(s, steps).db.cases[k])
  {
    hide Safe, Next;
    if steps != [] {
      var before := steps[..|steps| - 1];
      FactsSurvive(s, before, k);
      SafeRun(s, before);
      OptOutStays(Run(s, before), steps[|steps| - 1], k);
    }
  }

  // No check made for a silenced person opens new work that could end in a link: the reversed case refuses from
  // the live read of any other case, and the reversed case itself can no longer be sent anything.
  lemma ChecksAreRefused(s: Sys, d: nat, c: RecoveryCase, at: Time, u: CustomerId)
    requires Safe(s) && Silenced(s.db, u) && Free(s, d) && c in s.seen && c.customer == Some(u)
    requires MayContact(s.db, s.p, c, at).None?
    ensures Absorbed(s.db, c.key)
  {
    var k :| SilencedBy(s.db, u, k);
    assert c.key != k ==> k in OthersOf(s.db, u, c.key);
  }

  // Work under way after a step was under way before it, on the same case, or has just passed its contact check.
  ghost predicate OldWork(s: Sys, s': Sys, d: nat)
    requires d in s'.tasks
  {
    d in s.tasks && TaskCase(s.tasks[d]) == TaskCase(s'.tasks[d])
    && (s'.tasks[d] == s.tasks[d] || (s.tasks[d].Checked? && s'.tasks[d].Creating?)
        || (s.tasks[d].Creating? && s'.tasks[d].Answered?))
  }

  ghost predicate NewCheck(s: Sys, s': Sys, d: nat)
    requires d in s'.tasks
  {
    && Free(s, d) && s'.db == s.db
    && s'.tasks[d].Checked?
    && s'.tasks[d].snapshot in s.seen
    && MayContact(s.db, s.p, s'.tasks[d].snapshot, s'.tasks[d].now).None?
  }

  lemma WorkProvenance(s: Sys, step: Step, d: nat)
    requires d in Next(s, step).tasks
    ensures OldWork(s, Next(s, step), d) || Next(s, step).tasks[d].Planned? || NewCheck(s, Next(s, step), d)
  {
    if IsDispatchStep(step) {
      hide CommitState, CreateCommit, CreateIntent, Reopen, SavePreview, MayContact, PlanTimed, Ingests, CancelDone,
        ListsFailed, SeesCancelled, Closes, Reclaims;
    } else {
      hide Next;
      TasksStand(s, step);
    }
  }

  // Events, answers and sweeps leave the dispatchers to their work.
  lemma TasksStand(s: Sys, step: Step)
    requires !IsDispatchStep(step)
    ensures Next(s, step).tasks == s.tasks
  {
    hide Ingests, CancelDone, ListsFailed, SeesCancelled, Closes, Reclaims, Reads, PlansTimer, ChecksContact,
      CommitsPlan, RecordsIntent, CallsProvider, CommitsLink, Reopen, SavePreview, Idle;
    match step
    case Webhook(e, degraded) => IngestsAlone(s, e, degraded);
    case CancelReturns(pc, answer, at) => ReturnsAlone(s, pc, answer, at);
    case SweepLists(ak) => SweepsAlone(s, ak, PendingCancel("", ak, ""));
    case SweepSeesCancelled(pc) => SweepsAlone(s, pc.action, pc);
    case SweepCloses(ak) => SweepsAlone(s, ak, PendingCancel("", ak, ""));
    case SweepClaims(pc) => SweepsAlone(s, pc.action, pc);
    case _ =>
  }

  lemma IngestsAlone(s: Sys, e: PaymentEvent, degraded: bool)
    ensures Ingests(s, e, degraded).tasks == s.tasks
  {
    hide Ingest;
  }

  lemma ReturnsAlone(s: Sys, pc: PendingCancel, answer: Answer<LinkStatus>, at: Time)
    ensures CancelDone(s, pc, answer, at).tasks == s.tasks
  {
    hide CancelCommit;
  }

  lemma SweepsAlone(s: Sys, ak: ActionKey, pc: PendingCancel)
    ensures ListsFailed(s, ak).tasks == SeesCancelled(s, pc).tasks == Closes(s, ak).tasks == Reclaims(s, pc).tasks
      == s.tasks
  {
    hide SweptLink, CompleteAction, ClaimAction;
  }

  lemma CreateKeysStay(s: Sys, step: Step, k: Key)
    requires Safe(s) && CreateKey(k) in s.db.actions
    ensures CreateKey(k) in Next(s, step).db.actions
  {
    if step.CommitLink? {
      hide Safe;
      if step.d in s.tasks && s.tasks[step.d].Answered? {
        CommitKeepsRows(s.db, s.tasks[step.d].key, s.tasks[step.d].answer, s.tasks[step.d].now, k);
      }
      hide CreateCommit;
    } else if IsLinkStep(step) {
      hide Safe, MayContact, CreateCommit;
    } else {
      hide Next, Safe, Moves;
      QuietSteps(s, step);
    }
  }

  lemma CommitKeepsRows(db: Db, key: Key, answer: Answer<NewLink>, now: Time, k: Key)
    requires CreateKey(k) in db.actions
    ensures CreateCommit(db, key, answer, now).Ok? ==>
      CreateKey(k) in CreateCommit(db, key, answer, now).value.0.actions
  {
    hide AfterLinkCreated, AfterCreateRefused;
  }

  lemma TaskIsAboutARow(s: Sys, d: nat)
    requires Safe(s) && d in s.tasks
    ensures TaskCase(s.tasks[d]) in s.db.cases
    ensures s.tasks[d].Checked? ==> s.tasks[d].snapshot.customer == s.db.cases[TaskCase(s.tasks[d])].customer
  {
    var t := s.tasks[d];
    assert TaskOk(t, s.seen, s.p);
    if HasIntent(t) {
      assert CreateKey(t.key) in s.db.actions;
    } else {
      assert Newer(t.snapshot, s.db.cases[t.snapshot.key]);
    }
    hide DbOk, CancelInv;
  }

  // Live work was live before.
  lemma LiveBackwards(s: Sys, step: Step, d: nat, u: CustomerId)
    requires Safe(s) && d in Next(s, step).tasks && OldWork(s, Next(s, step), d)
    requires LiveFor(Next(s, step).tasks[d], Next(s, step).db, u)
    ensures LiveFor(s.tasks[d], s.db, u)
  {
    hide Next, Safe;
    var t, k := s.tasks[d], TaskCase(s.tasks[d]);
    TaskIsAboutARow(s, d);
    if t.Checked? && Next(s, step).tasks[d].Creating? {
      IntentWasFresh(s, step, d);
    }
    OptOutStays(s, step, k);
    if CreateKey(k) in s.db.actions {
      CreateKeysStay(s, step, k);
    }
  }

  lemma IntentWasFresh(s: Sys, step: Step, d: nat)
    requires d in s.tasks && d in Next(s, step).tasks && s.tasks[d].Checked? && Next(s, step).tasks[d].Creating?
    ensures CreateKey(TaskCase(s.tasks[d])) !in s.db.actions
  {
    hide Ingest, CancelCommit, CommitState, CreateCommit, CompleteAction, ClaimAction, Reopen, SavePreview, MayContact,
      PlanTimed;
  }

  // Work that could still end in a link is old work, on a case that was not absorbed either.
  lemma NoNewWork(s: Sys, step: Step, u: CustomerId)
    requires Safe(s) && Silenced(s.db, u)
    ensures CanStillSend(Next(s, step), u) <= CanStillSend(s, u)
  {
    hide Next, Safe, LiveFor, Absorbed, OldWork, NewCheck;
    forall d | d in CanStillSend(Next(s, step), u) ensures d in CanStillSend(s, u) {
      WorkWasLive(s, step, u, d);
    }
  }

  lemma WorkWasLive(s: Sys, step: Step, u: CustomerId, d: nat)
    requires Safe(s) && Silenced(s.db, u) && d in CanStillSend(Next(s, step), u)
    ensures d in CanStillSend(s, u)
  {
    hide Next, Safe, MayContact;
    var s' := Next(s, step);
    WorkProvenance(s, step, d);
    if OldWork(s, s', d) {
      LiveBackwards(s, step, d, u);
      if Absorbed(s.db, TaskCase(s.tasks[d])) {
        StoppedStays(s, step, TaskCase(s.tasks[d]));
      }
    } else if NewCheck(s, s', d) {
      ChecksAreRefused(s, d, s'.tasks[d].snapshot, s'.tasks[d].now, u);
    }
  }

  lemma PotentialNeverGrows(s: Sys, step: Step, u: CustomerId)
    requires Safe(s) && Silenced(s.db, u)
    ensures Potential(Next(s, step), u) <= Potential(s, u)
  {
    var s' := Next(s, step);
    NoNewWork(s, step, u);
    SubsetCount(CanStillSend(s', u), CanStillSend(s, u));
    if IsLinkStep(step) {
      LinkStepSpends(s, step, u);
    } else {
      hide Next, Safe, Quiet, Moves;
      QuietSteps(s, step);
    }
  }

  lemma CommitFreesDispatcher(s: Sys, step: Step)
    requires step.CommitLink? && step.d in s.tasks && s.tasks[step.d].Answered?
    ensures step.d !in Next(s, step).tasks
  {
    hide CreateCommit;
  }

  // Sending a link uses up the dispatcher that was going to send it.
  lemma LinkStepSpends(s: Sys, step: Step, u: CustomerId)
    requires Safe(s) && IsLinkStep(step) && CanStillSend(Next(s, step), u) <= CanStillSend(s, u)
    ensures Potential(Next(s, step), u) <= Potential(s, u)
  {
    hide Safe, Next, LinkMove, CanStillSend;
    LinkSteps(s, step);
    if CasesStand(s, Next(s, step)) {
      SubsetCount(CanStillSend(Next(s, step), u), CanStillSend(s, u));
    } else {
      CommitFreesDispatcher(s, step);
      SentSpends(s, Next(s, step), step.d, u);
    }
  }

  lemma SentSpends(s: Sys, s': Sys, d: nat, u: CustomerId)
    requires d in s.tasks && s.tasks[d].Answered? && LinkMove(s, s', s.tasks[d].key) && d !in s'.tasks
    requires CanStillSend(s', u) <= CanStillSend(s, u)
    ensures Potential(s', u) <= Potential(s, u)
  {
    SubsetCount(CanStillSend(s', u), CanStillSend(s, u));
    if s.db.cases[s.tasks[d].key].customer == Some(u) {
      assert d in CanStillSend(s, u) && d !in CanStillSend(s', u);
      SubsetCount(CanStillSend(s', u), CanStillSend(s, u) - {d});
    }
  }

  // Opt-out is permanent and person-wide. Once a reversal has silenced someone, every link sent to them over the
  // rest of any run comes from dispatch work already past its check at that moment: new checks, invoices opened
  // later, reopened cases and further events add none.
  lemma {:induction false} OptOutIsPermanent(s: Sys, steps: seq<Step>, u: CustomerId)
    requires Safe(s) && Silenced(s.db, u)
    ensures Silenced(Run(s, steps).db, u)
    ensures LinksTo(Run(s, steps).contacts, u) <= LinksTo(s.contacts, u) + |CanStillSend(s, u)|
    ensures Potential(Run(s, steps), u) <= Potential(s, u)
  {
    hide Safe, Next, Silenced, CanStillSend, LinksTo;
    if steps != [] {
      var before, last := steps[..|steps| - 1], steps[|steps| - 1];
      OptOutIsPermanent(s, before, u);
      SafeRun(s, before);
      SilenceLasts(Run(s, before), last, u);
      PotentialNeverGrows(Run(s, before), last, u);
    }
  }

  // ----------------------------------------------------------- dispatch alone

  function Rank(st: CaseState): nat {
    match st
    case Cooldown => 3
    case RetryScheduled => 2
    case ConsentRequired => 1
    case _ => 0
  }

  // Everything but new information: no webhook and no operator.
  predicate IsAutomatic(step: Step) {
    !step.Webhook? && !step.OperatorReopens?
  }

  lemma PlanLowersRank(s: Sys, d: nat, k: Key)
    requires Safe(s) && k in s.db.cases
    ensures var s' := CommitsPlan(s, d);
      && k in s'.db.cases
      && (s'.db.cases[k].state == s.db.cases[k].state || Rank(s'.db.cases[k].state) < Rank(s.db.cases[k].state))
  {
    if d in s.tasks && s.tasks[d].Planned? {
      var t := s.tasks[d];
      assert TaskOk(t, s.seen, s.p) && Newer(t.snapshot, s.db.cases[t.snapshot.key]);
      assert s.db.cases[t.snapshot.key].key == t.snapshot.key by {
        assert CaseOk(t.snapshot.key, s.db.cases[t.snapshot.key], s.p);
      }
    }
    hide Safe, Newer, AllowedTransition;
  }

  lemma CancelsKeepStates(s: Sys, step: Step, k: Key)
    requires Safe(s) && k in s.db.cases && IsAutomatic(step) && !step.CommitPlan? && !IsLinkStep(step)
    ensures var s' := Next(s, step);
      k in s'.db.cases && s'.db.cases[k].state == s.db.cases[k].state
  {
    RowsAreKeyed(s.db, s.p);
    hide Safe, CancelDone, SavePreview;
    if step.CancelReturns? {
      CancelKeepsState(s, step.pc, step.cancelAnswer, step.at, k);
    } else if step.PreviewSaved? {
      PreviewKeepsState(s.db, step.snapshot, step.at, k);
    } else {
      hide Next;
      CasesStandStill(s, step);
    }
  }

  lemma CasesStandStill(s: Sys, step: Step)
    requires IsAutomatic(step) && !step.CommitPlan? && !IsLinkStep(step) && !step.CancelReturns? && !step.PreviewSaved?
    ensures Next(s, step).db.cases == s.db.cases
  {
    if step.SweepLists? || step.SweepSeesCancelled? || step.SweepCloses? || step.SweepClaims? {
      hide Next;
      SweepsStandStill(s, step);
    } else if IsDispatchStep(step) {
      hide Next, SameCancels;
      CalmOthers(s, step);
    } else {
      hide Ingests, CancelDone, CommitsPlan, CommitsLink, RecordsIntent, SavePreview, Reopen, PlansTimer,
        ChecksContact, ListsFailed, SeesCancelled, Closes, Reclaims;
    }
  }

  lemma SweepsStandStill(s: Sys, step: Step)
    requires step.SweepLists? || step.SweepSeesCancelled? || step.SweepCloses? || step.SweepClaims?
    ensures Next(s, step).db.cases == s.db.cases
  {
    hide SweptLink, CompleteAction, ClaimAction;
    if step.SweepCloses? {
      RowsKeepCases(s.db, step.action, Succeeded, s.p.maxLinkCancelAttempts, Action(ActionStatus.Started, 1, None, 0));
    } else if step.SweepClaims? {
      RowsKeepCases(s.db, step.pc.action, Succeeded, s.p.maxLinkCancelAttempts,
                    Action(ActionStatus.Started, 1, Some(step.pc.link), 0));
    }
  }

  lemma RowsKeepCases(db: Db, ak: ActionKey, status: ActionStatus, max: int, a: Action)
    ensures CompleteAction(db, ak, status, None).cases == db.cases
    ensures ClaimAction(db, ak, a, max).0.cases == db.cases
  {
  }

  lemma CancelKeepsState(s: Sys, pc: PendingCancel, answer: Answer<LinkStatus>, at: Time, k: Key)
    requires Keyed(s.db) && k in s.db.cases
    ensures var s' := CancelDone(s, pc, answer, at);
      k in s'.db.cases && s'.db.cases[k].state == s.db.cases[k].state
  {
    hide CancelCommit;
    CancelCommitKeepsState(s.db, pc, answer, at, k);
  }

  lemma CancelCommitKeepsState(db: Db, pc: PendingCancel, answer: Answer<LinkStatus>, at: Time, k: Key)
    requires Keyed(db) && k in db.cases
    ensures CancelCommit(db, pc, answer, at).Ok? ==>
      k in CancelCommit(db, pc, answer, at).value.cases
      && CancelCommit(db, pc, answer, at).value.cases[k].state == db.cases[k].state
  {
    if pc.key in db.cases {
      FlagsWhatStaysPayable(db.cases[pc.key], answer, at);
    }
    hide AfterCancel;
  }

  lemma PreviewKeepsState(db: Db, snapshot: RecoveryCase, at: Time, k: Key)
    requires Keyed(db) && k in db.cases
    ensures SavePreview(db, snapshot, at).Ok? ==>
      k in SavePreview(db, snapshot, at).value.cases
      && SavePreview(db, snapshot, at).value.cases[k].state == db.cases[k].state
  {
  }

  lemma AutomaticLowersRank(s: Sys, step: Step, k: Key)
    requires Safe(s) && k in s.db.cases && IsAutomatic(step)
    ensures var s' := Next(s, step);
      && k in s'.db.cases
      && (s'.db.cases[k].state == s.db.cases[k].state || Rank(s'.db.cases[k].state) < Rank(s.db.cases[k].state))
  {
    hide Safe, CommitsPlan;
    if IsLinkStep(step) {
      LinkSteps(s, step);
      hide Next;
    } else if step.CommitPlan? {
      PlanLowersRank(s, step.d, k);
    } else {
      CancelsKeepStates(s, step, k);
    }
  }

  // How often case k changes state along a run.
  ghost function Changes(s: Sys, steps: seq<Step>, k: Key): nat
  {
    if steps == [] then 0
    else
      var before := steps[..|steps| - 1];
      var db, db' := Run(s, before).db, Run(s, steps).db;
      Changes(s, before, k)
      + if k in db.cases && k in db'.cases && db.cases[k].state != db'.cases[k].state then 1 else 0
  }

  // Left to the engine, a case changes state at most three times.
  lemma {:induction false} AtMostThreeChanges(s: Sys, steps: seq<Step>, k: Key)
    requires Safe(s) && k in s.db.cases
    requires forall i | 0 <= i < |steps| :: IsAutomatic(steps[i])
    ensures k in Run(s, steps).db.cases
    ensures Changes(s, steps, k) + Rank(Run(s, steps).db.cases[k].state) <= Rank(s.db.cases[k].state) <= 3
  {
    hide Safe, Next;
    if steps != [] {
      var before := steps[..|steps| - 1];
      AtMostThreeChanges(s, before, k);
      SafeRun(s, before);
      AutomaticLowersRank(Run(s, before), steps[|steps| - 1], k);
    }
  }
}
