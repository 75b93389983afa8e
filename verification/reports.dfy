// What was reported about each case's link over a run, and what the engine does about a link reported payable.
module Reports {
  import opened Base
  import opened Models
  import opened Engine
  import opened Effects
  import opened Protocol
  import opened LinkSafety
  import opened CancelSafety
  import opened ProtocolTheorems
  import opened InFlight
  import opened Policy
  import opened Outcomes

  // The link each case was given and the last word on each, taken from what was reported alone.
  datatype Word = Word(link: map<Key, LinkId>, status: map<Key, LinkStatus>)

  function Told<T>(m: map<Key, T>, k: Key): Option<T> {
    if k in m then Some(m[k]) else None
  }

  function StatusOf(kind: EventType): LinkStatus {
    match kind
    case PaymentLinkPaid => LinkStatus.Paid
    case PaymentLinkPartiallyPaid => LinkStatus.PartiallyPaid
    case PaymentLinkCancelled => LinkStatus.Cancelled
    case _ => LinkStatus.Expired
  }

  // The event speaks of the link case k was given, or of none in particular.
  predicate AboutLink(h: Word, e: PaymentEvent) {
    e.linkId.Some? && e.key in h.link ==> e.linkId.value == h.link[e.key]
  }

  // A report counts when it is taken in: the answer to a create or to a cancel when its outcome is committed, a link
  // event on its first delivery to an open case.
  predicate TakesLink(s: Sys, step: Step) {
    && step.CommitLink? && step.d in s.tasks && s.tasks[step.d].Answered? && s.tasks[step.d].answer.Accepted?
    && s.tasks[step.d].key in s.db.cases && s.db.cases[s.tasks[step.d].key].state.ConsentRequired?
  }

  predicate TakesCancel(s: Sys, step: Step) {
    step.CancelReturns? && step.pc in s.cancels && step.cancelAnswer.Accepted?
  }

  predicate TakesEvent(h: Word, s: Sys, step: Step) {
    && step.Webhook? && step.e.id !in s.db.claimed && IsLinkEvent(step.e.kind) && AboutLink(h, step.e)
    && step.e.key in s.db.cases && !IsFinal(s.db.cases[step.e.key].state)
  }

  function Noted(h: Word, s: Sys, step: Step): Word {
    if TakesLink(s, step) then
      var t := s.tasks[step.d];
      Word(h.link[t.key := t.answer.value.id], h.status[t.key := t.answer.value.status])
    else if TakesCancel(s, step) then h.(status := h.status[step.pc.key := step.cancelAnswer.value])
    else if TakesEvent(h, s, step) then h.(status := h.status[step.e.key := StatusOf(step.e.kind)])
    else h
  }

  ghost function NotedIn(s: Sys, steps: seq<Step>): Word {
    if steps == [] then Word(map[], map[])
    else
      var before := steps[..|steps| - 1];
      Noted(NotedIn(s, before), Run(s, before), steps[|steps| - 1])
  }

  // ---------------------------------------------------------- rows and reports

  predicate RowAgrees(c: RecoveryCase, k: Key, h: Word) {
    c.linkId == Told(h.link, k) && c.linkStatus == Told(h.status, k)
  }

  ghost predicate Agrees(db: Db, h: Word) {
    && (forall k | k in db.cases :: RowAgrees(db.cases[k], k, h))
    && h.link.Keys <= db.cases.Keys && h.status.Keys <= db.cases.Keys
  }

  // Links and their statuses stand; a new case has none.
  ghost predicate SameLinks(db: Db, db': Db) {
    && (forall k | k in db.cases ::
          && k in db'.cases
          && db'.cases[k].linkId == db.cases[k].linkId && db'.cases[k].linkStatus == db.cases[k].linkStatus)
    && (forall k | k in db'.cases && k !in db.cases :: db'.cases[k].linkId.None? && db'.cases[k].linkStatus.None?)
  }

  lemma SameLinksAgree(db: Db, db': Db, h: Word)
    requires Agrees(db, h) && SameLinks(db, db')
    ensures Agrees(db', h)
  {
  }

  lemma EventSpares(db: Db, db': Db, e: PaymentEvent, degraded: bool, p: Settings)
    requires EventLeaves(db, db', e, degraded, p) && !IsLinkEvent(e.kind)
    ensures SameLinks(db, db')
  {
    hide Ruled, LinkFate, OtherLink, Policy.Reports, Secures;
    if IsFailureEvent(e.kind) {
      hide SuccessLeaves, LinkLeaves, ReversalLeaves;
    } else if IsSuccessEvent(e.kind) {
      hide FailureLeaves, LinkLeaves, ReversalLeaves;
    } else {
      hide FailureLeaves, SuccessLeaves, LinkLeaves;
    }
  }

  lemma EventAgrees(s: Sys, step: Step, h: Word)
    requires Safe(s) && Agrees(s.db, h) && step.Webhook?
    ensures Agrees(Next(s, step).db, Noted(h, s, step))
  {
    hide Safe, Next, EventLeaves, Agrees;
    if step.e.id in s.db.claimed {
      HeardAlready(s, step.e, step.degraded);
    } else {
      EventsLeave(s, step.e, step.degraded);
      if IsLinkEvent(step.e.kind) {
        LinkEventAgrees(s.db, Next(s, step).db, step.e, step.degraded, s.p, h, Noted(h, s, step));
      } else {
        EventSpares(s.db, Next(s, step).db, step.e, step.degraded, s.p);
        SameLinksAgree(s.db, Next(s, step).db, h);
      }
    }
  }

  lemma LinkEventAgrees(db: Db, db': Db, e: PaymentEvent, degraded: bool, p: Settings, h: Word, h': Word)
    requires EventLeaves(db, db', e, degraded, p) && IsLinkEvent(e.kind) && Agrees(db, h)
    requires h' == if AboutLink(h, e) && e.key in db.cases && !IsFinal(db.cases[e.key].state)
                   then h.(status := h.status[e.key := StatusOf(e.kind)]) else h
    ensures Agrees(db', h')
  {
    hide FailureLeaves, SuccessLeaves, ReversalLeaves, LinkFate;
    if e.key in db.cases {
      assert RowAgrees(db.cases[e.key], e.key, h);
    }
  }

  lemma ReturnAgrees(s: Sys, step: Step, h: Word)
    requires Safe(s) && Agrees(s.db, h) && step.CancelReturns?
    ensures Agrees(Next(s, step).db, Noted(h, s, step))
  {
    hide Safe, CancelDone, CancelLeaves, Agrees;
    if step.pc in s.cancels {
      CancelSettlesRow(s, step.pc, step.cancelAnswer, step.at);
      AnswerAgrees(s.db, CancelDone(s, step.pc, step.cancelAnswer, step.at).db, step.pc, step.cancelAnswer, step.at, h);
    } else {
      NotAwaited(s, step.pc, step.cancelAnswer, step.at);
    }
  }

  lemma AnswerAgrees(db: Db, db': Db, pc: PendingCancel, answer: Answer<LinkStatus>, at: Time, h: Word)
    requires Agrees(db, h) && CancelLeaves(db, db', pc, answer, at)
    ensures Agrees(db', if answer.Accepted? then h.(status := h.status[pc.key := answer.value]) else h)
  {
    hide CancelEnds;
  }

  lemma NotAwaited(s: Sys, pc: PendingCancel, answer: Answer<LinkStatus>, at: Time)
    requires pc !in s.cancels
    ensures CancelDone(s, pc, answer, at) == s
  {
  }

  lemma CommitAgrees(s: Sys, step: Step, h: Word)
    requires Safe(s) && Agrees(s.db, h) && step.CommitLink?
    ensures Agrees(Next(s, step).db, Noted(h, s, step))
  {
    hide Safe, CommitsLink;
    if step.d in s.tasks && s.tasks[step.d].Answered? {
      CreateSettles(s, step.d);
      hide CreateEnds;
    } else {
      NothingToCommit(s, step.d);
    }
  }

  lemma NothingToCommit(s: Sys, d: nat)
    requires d !in s.tasks || !s.tasks[d].Answered?
    ensures CommitsLink(s, d) == s
  {
  }

  lemma SavesAgree(s: Sys, step: Step, h: Word)
    requires Safe(s) && Agrees(s.db, h) && (step.CommitPlan? || step.PreviewSaved? || step.OperatorReopens?)
    ensures Agrees(Next(s, step).db, h)
  {
    hide Safe, Next, Agrees;
    SavesSpare(s, step);
    SameLinksAgree(s.db, Next(s, step).db, h);
  }

  lemma SavesSpare(s: Sys, step: Step)
    requires Safe(s) && (step.CommitPlan? || step.PreviewSaved? || step.OperatorReopens?)
    ensures SameLinks(s.db, Next(s, step).db)
  {
    hide Safe, Next, Ruled, SameLinks, DraftLeaves, ReopenLeaves;
    if step.PreviewSaved? {
      DraftSettles(s, step.snapshot, step.at);
      DraftSpares(s.db, Next(s, step).db, step.snapshot, step.at);
    } else if step.OperatorReopens? {
      ReopensAreRuled(s, step.key, step.failureClass, step.degraded, step.at);
      ReopenSpares(s.db, Next(s, step).db, step.key, step.failureClass, step.degraded, step.at, s.p);
    } else {
      PlanSpares(s, step);
    }
  }

  lemma DraftSpares(db: Db, db': Db, snapshot: RecoveryCase, at: Time)
    requires DraftLeaves(db, db', snapshot, at)
    ensures SameLinks(db, db')
  {
  }

  lemma ReopenSpares(db: Db, db': Db, k: Key, fc: Option<FailureClass>, degraded: bool, at: Time, p: Settings)
    requires ReopenLeaves(db, db', k, fc, degraded, at, p)
    ensures SameLinks(db, db')
  {
    hide Ruled;
  }

  lemma PlanSpares(s: Sys, step: Step)
    requires Safe(s) && step.CommitPlan?
    ensures SameLinks(s.db, Next(s, step).db)
  {
    hide Safe, CommitState;
    if step.d in s.tasks && s.tasks[step.d].Planned? {
      PlanSettles(s, step.d);
    }
  }

  lemma AgreesNext(s: Sys, step: Step, h: Word)
    requires Safe(s) && Agrees(s.db, h)
    ensures Agrees(Next(s, step).db, Noted(h, s, step))
  {
    hide Safe, Next, Agrees;
    if step.Webhook? {
      EventAgrees(s, step, h);
    } else if step.CancelReturns? {
      ReturnAgrees(s, step, h);
    } else if step.CommitLink? {
      CommitAgrees(s, step, h);
    } else if step.CommitPlan? || step.PreviewSaved? || step.OperatorReopens? {
      SavesAgree(s, step, h);
    } else {
      if step.RecordIntent? {
        IdleLinkSteps(s, step.d);
        IntentStands(s, step);
      } else {
        CasesStandStill(s, step);
      }
      StandingAgrees(s.db, Next(s, step).db, h);
    }
  }

  lemma IntentStands(s: Sys, step: Step)
    requires step.RecordIntent?
    ensures Next(s, step).db.cases == s.db.cases
  {
    hide RecordsIntent;
    IdleLinkSteps(s, step.d);
  }

  lemma StandingAgrees(db: Db, db': Db, h: Word)
    requires Agrees(db, h) && db'.cases == db.cases
    ensures Agrees(db', h)
  {
  }

  lemma {:induction false} RunAgrees(p: Settings, n: nat, steps: seq<Step>)
    ensures Agrees(Run(Init(p, n), steps).db, NotedIn(Init(p, n), steps))
  {
    hide Safe, Next, Noted;
    if steps != [] {
      var before := steps[..|steps| - 1];
      RunAgrees(p, n, before);
      SafeInit(p, n);
      SafeRun(Init(p, n), before);
      hide Agrees;
      AgreesNext(Run(Init(p, n), before), steps[|steps| - 1], NotedIn(Init(p, n), before));
    }
  }

  // Over every run, each case names the link it was given, if any, with the status last reported for it.
  lemma RecordedAsReported(p: Settings, n: nat, steps: seq<Step>, k: Key)
    requires k in Run(Init(p, n), steps).db.cases
    ensures var c, h := Run(Init(p, n), steps).db.cases[k], NotedIn(Init(p, n), steps);
      c.linkId == Told(h.link, k) && c.linkStatus == Told(h.status, k)
  {
    RunAgrees(p, n, steps);
    hide Run, NotedIn;
  }

  // ------------------------------------------------------- cancels and reports

  predicate NamesLink(h: Word, k: Key, link: LinkId) {
    k in h.link && h.link[k] == link
  }

  // Every cancel recorded, listed or in flight is of the link its case was given.
  ghost predicate RowsName(actions: map<ActionKey, Action>, h: Word) {
    forall ak: ActionKey | ak in actions && ak.IsCancel() ::
      actions[ak].link.Some? && NamesLink(h, ak.key, actions[ak].link.value)
  }

  ghost predicate CallsName(s: Sys, h: Word) {
    && (forall pc | pc in s.cancels :: NamesLink(h, pc.key, pc.link))
    && (forall pc | pc in s.swept :: NamesLink(h, pc.key, pc.link))
  }

  ghost predicate Named(s: Sys, h: Word) {
    RowsName(s.db.actions, h) && CallsName(s, h)
  }

  // A case is given one link.
  lemma LinkStays(s: Sys, step: Step, h: Word, k: Key, link: LinkId)
    requires Safe(s) && Agrees(s.db, h) && NamesLink(h, k, link)
    ensures NamesLink(Noted(h, s, step), k, link)
  {
    hide Safe, Agrees;
    if TakesLink(s, step) && s.tasks[step.d].key == k {
      AnswerOwnsRow(s, step.d) by {
        assert Inv(s) by {
          SafeInv(s);
        }
      }
      NoLinkYet(s, k);
      assert RowAgrees(s.db.cases[k], k, h) by {
        AgreesAt(s.db, h, k);
      }
      assert false;
    }
  }

  lemma SafeInv(s: Sys)
    requires Safe(s)
    ensures Inv(s) && CancelInv(s) && DbOk(s.db, s.p)
  {
  }

  lemma AgreesAt(db: Db, h: Word, k: Key)
    requires Agrees(db, h) && k in db.cases
    ensures RowAgrees(db.cases[k], k, h)
  {
  }

  lemma NamesStay(s: Sys, step: Step, h: Word, s': Sys)
    requires Safe(s) && Agrees(s.db, h) && Named(s', h)
    ensures Named(s', Noted(h, s, step))
  {
    hide Safe, Agrees, Noted;
    forall k, link | NamesLink(h, k, link) ensures NamesLink(Noted(h, s, step), k, link) {
      LinkStays(s, step, h, k, link);
    }
  }

  // A claim names the link of the case it was made for.
  lemma ClaimNames(db: Db, c: RecoveryCase, ak: ActionKey, at: Time, p: Settings, h: Word)
    requires RowsName(db.actions, h) && ak.key == c.key && RowAgrees(c, c.key, h)
    ensures var (db', pending) := ClaimCancel(db, c, ak, at, p);
      && db'.cases == db.cases && RowsName(db'.actions, h)
      && (pending.Some? ==> NamesLink(h, pending.value.key, pending.value.link))
  {
  }

  lemma SuccessNames(db: Db, e: PaymentEvent, p: Settings, h: Word)
    requires DbOk(db, p) && Agrees(db, h) && RowsName(db.actions, h)
    ensures var r := HandleSuccess(db, e, p);
      && r.Ok? && RowsName(r.value.0.actions, h)
      && (r.value.1.Some? ==> NamesLink(h, r.value.1.value.key, r.value.1.value.link))
  {
    if e.key in db.cases && !IsFinal(db.cases[e.key].state) {
      var c := db.cases[e.key];
      assert CaseOk(e.key, c, p) && c.key == e.key && RowAgrees(c, e.key, h);
      SuccessFate(c, e, p);
      SuccessCase(c, e, p);
      ClaimNames(db, AfterSuccess(c, e).value, LateCancelOf(c), e.at, p, h);
    }
    hide AfterSuccess, ClaimCancel, DbOk, CaseOk, Agrees, RowsName;
  }

  lemma ReversalNames(db: Db, e: PaymentEvent, p: Settings, h: Word)
    requires DbOk(db, p) && Agrees(db, h) && RowsName(db.actions, h)
    ensures var r := HandleReversal(db, e, p);
      && r.Ok? && RowsName(r.value.0.actions, h)
      && (r.value.1.Some? ==> NamesLink(h, r.value.1.value.key, r.value.1.value.link))
  {
    ReversalLeavesDb(db, e, p);
    if e.key in db.cases && !db.cases[e.key].state.RecoveryReversed? {
      var c := db.cases[e.key];
      assert CaseOk(e.key, c, p) && c.key == e.key && RowAgrees(c, e.key, h);
      ClaimNames(db, c, ReversalCancelKey(c.key), e.at, p, h);
    }
    hide AfterReversal, ClaimCancel, DbOk, CaseOk, Agrees, RowsName, ReversalLeaves;
  }

  lemma EventNames(s: Sys, e: PaymentEvent, degraded: bool, h: Word)
    requires Safe(s) && Agrees(s.db, h) && Named(s, h)
    ensures Named(Ingests(s, e, degraded), h)
  {
    hide Safe, Agrees, RowsName, CallsName, DbOk, Handle, Launch;
    if e.id !in s.db.claimed {
      ClaimKeepsRows(s, e.id);
      StandingAgrees(s.db, Claim(s.db, e.id), h);
      HandleNames(Claim(s.db, e.id), e, degraded, s.p, h);
      var (db, pending) := Handle(Claim(s.db, e.id), e, degraded, s.p).value;
      LaunchNames(s, db, pending, h);
    } else {
      LaunchNames(s, s.db, None, h);
    }
  }

  lemma LaunchNames(s: Sys, db: Db, pending: Option<PendingCancel>, h: Word)
    requires RowsName(db.actions, h) && CallsName(s, h)
    requires pending.Some? ==> NamesLink(h, pending.value.key, pending.value.link)
    ensures Named(Launch(s, db, pending), h)
  {
    hide RowsName, NamesLink;
  }

  lemma HandleNames(db: Db, e: PaymentEvent, degraded: bool, p: Settings, h: Word)
    requires DbOk(db, p) && Agrees(db, h) && RowsName(db.actions, h)
    ensures var r := Handle(db, e, degraded, p);
      && r.Ok? && RowsName(r.value.0.actions, h)
      && (r.value.1.Some? ==> NamesLink(h, r.value.1.value.key, r.value.1.value.link))
  {
    hide Agrees, RowsName, DbOk, CalmDb, HandleSuccess, HandleReversal, HandleFailure, HandleLink;
    if IsFailureEvent(e.kind) {
      CalmFailureDb(db, e, degraded, p);
      SameRowsName(db, HandleFailure(db, e, degraded, p).value, h);
    } else if IsSuccessEvent(e.kind) {
      SuccessNames(db, e, p, h);
    } else if IsLinkEvent(e.kind) {
      CalmLinkDb(db, e, p);
      SameRowsName(db, HandleLink(db, e).value, h);
    } else {
      ReversalNames(db, e, p, h);
    }
  }

  lemma SameRowsName(db: Db, db': Db, h: Word)
    requires RowsName(db.actions, h) && CalmDb(db, db')
    ensures RowsName(db'.actions, h)
  {
  }

  lemma DispatchNames(s: Sys, step: Step, h: Word)
    requires Safe(s) && Named(s, h) && IsDispatchStep(step)
    ensures Named(Next(s, step), h)
  {
    SafeInv(s);
    hide Safe, Inv, CancelInv, Next, RowsName;
    DispatchSparesCancels(s, step);
    DispatchCalmDb(s, step);
    SameRowsName(s.db, Next(s, step).db, h);
  }

  lemma ReturnNames(s: Sys, pc: PendingCancel, answer: Answer<LinkStatus>, at: Time, h: Word)
    requires Safe(s) && Named(s, h)
    ensures Named(CancelDone(s, pc, answer, at), h)
  {
    hide Safe, CancelDone, CancelLeaves, RowsName;
    if pc in s.cancels {
      OwnKey(s, pc);
      CancelSettlesRow(s, pc, answer, at);
      AnswerNames(s.db, CancelDone(s, pc, answer, at).db, pc, answer, at, h);
    } else {
      NotAwaited(s, pc, answer, at);
    }
  }

  lemma OwnKey(s: Sys, pc: PendingCancel)
    requires Safe(s) && pc in s.cancels
    ensures pc.action.IsCancel() && pc.action.key == pc.key
  {
    assert KeysOk(s);
  }

  lemma AnswerNames(db: Db, db': Db, pc: PendingCancel, answer: Answer<LinkStatus>, at: Time, h: Word)
    requires RowsName(db.actions, h) && CancelLeaves(db, db', pc, answer, at)
    requires pc.action.key == pc.key && NamesLink(h, pc.key, pc.link)
    ensures RowsName(db'.actions, h)
  {
    hide WrittenDown, OnlyRow, NamesLink;
  }

  lemma SweepNames(s: Sys, step: Step, h: Word)
    requires Safe(s) && Agrees(s.db, h) && Named(s, h)
    requires step.SweepLists? || step.SweepSeesCancelled? || step.SweepCloses? || step.SweepClaims? || step.CancelLost?
    ensures Named(Next(s, step), h)
  {
    hide Safe, Agrees, Named, ListsFailed, SeesCancelled, Closes, Reclaims;
    if step.SweepLists? {
      ListingNames(s, step.action, h);
    } else if step.SweepClaims? {
      ReclaimNames(s, step.pc, h);
    } else {
      RestNames(s, step, h);
    }
  }

  lemma ListingNames(s: Sys, ak: ActionKey, h: Word)
    requires Agrees(s.db, h) && Named(s, h)
    ensures Named(ListsFailed(s, ak), h)
  {
    if ak.IsCancel() && ak.key in s.db.cases {
      AgreesAt(s.db, h, ak.key);
    }
    hide Agrees;
  }

  lemma ReclaimNames(s: Sys, pc: PendingCancel, h: Word)
    requires Safe(s) && Named(s, h)
    ensures Named(Reclaims(s, pc), h)
  {
    SafeInv(s);
    assert pc in s.swept ==> pc.action.key == pc.key;
    hide Safe, Inv, CancelInv;
  }

  lemma RestNames(s: Sys, step: Step, h: Word)
    requires Named(s, h) && (step.SweepSeesCancelled? || step.SweepCloses? || step.CancelLost?)
    ensures Named(Next(s, step), h)
  {
    hide NamesLink;
  }

  lemma NamedNext(s: Sys, step: Step, h: Word)
    requires Safe(s) && Agrees(s.db, h) && Named(s, h)
    ensures Named(Next(s, step), Noted(h, s, step))
  {
    hide Safe, Agrees, Named, Noted;
    if step.Webhook? {
      EventNames(s, step.e, step.degraded, h);
    } else if step.CancelReturns? {
      ReturnNames(s, step.pc, step.cancelAnswer, step.at, h);
    } else if IsDispatchStep(step) {
      DispatchNames(s, step, h);
    } else {
      SweepNames(s, step, h);
    }
    NamesStay(s, step, h, Next(s, step));
  }

  lemma {:induction false} RunNames(p: Settings, n: nat, steps: seq<Step>)
    ensures Named(Run(Init(p, n), steps), NotedIn(Init(p, n), steps))
  {
    hide Safe, Next, Noted, Agrees;
    if steps != [] {
      var before := steps[..|steps| - 1];
      RunNames(p, n, before);
      RunAgrees(p, n, before);
      SafeInit(p, n);
      SafeRun(Init(p, n), before);
      hide Named;
      NamedNext(Run(Init(p, n), before), steps[|steps| - 1], NotedIn(Init(p, n), before));
    }
  }

  // Whatever cancels are recorded, or being asked of the provider, each is of the link its case was given and no other.
  lemma CancelsNameTheLink(p: Settings, n: nat, steps: seq<Step>)
    ensures var s, h := Run(Init(p, n), steps), NotedIn(Init(p, n), steps);
      && (forall pc | pc in s.cancels :: Told(h.link, pc.key) == Some(pc.link))
      && forall ak: ActionKey | ak in s.db.actions && ak.IsCancel() ::
           s.db.actions[ak].link.Some? && s.db.actions[ak].link == Told(h.link, ak.key)
  {
    RunNames(p, n, steps);
    hide Run, NotedIn;
  }

  // ------------------------------------------------------------ payable links

  // By all reports case k has a link that can still be paid.
  predicate Payable(h: Word, k: Key) {
    k in h.link && k in h.status && (h.status[k] == LinkStatus.Issued || h.status[k] == LinkStatus.Created)
  }

  lemma PayableIsRecorded(p: Settings, n: nat, steps: seq<Step>, k: Key)
    requires k in Run(Init(p, n), steps).db.cases && Payable(NotedIn(Init(p, n), steps), k)
    ensures Run(Init(p, n), steps).db.cases[k].HasCancellableLink()
  {
    RecordedAsReported(p, n, steps, k);
    hide Run, NotedIn;
  }

  // A collected or reversed case whose link was last reported payable has a cancel on record, and that cancel is under
  // way or the case is in front of a human.
  lemma PayableLinksAreAttended(p: Settings, n: nat, steps: seq<Step>, k: Key)
    requires var s := Run(Init(p, n), steps);
      k in s.db.cases && Held(s.db.cases[k].state) && Payable(NotedIn(Init(p, n), steps), k)
    ensures var s := Run(Init(p, n), steps);
      && (exists ak: ActionKey :: CancelOf(s.db, ak, k))
      && forall ak: ActionKey | CancelOf(s.db, ak, k) ::
           s.db.actions[ak].status == ActionStatus.Started || s.db.cases[k].reconcile
  {
    PayableIsRecorded(p, n, steps, k);
    var s := Run(Init(p, n), steps);
    assert Reachable(s);
    hide Reachable, NotedIn, Payable;
    RecordedLinksAreAttended(s, k);
  }

  // A call at the provider to cancel the link case k was given.
  ghost predicate CallInFlight(s: Sys, h: Word, ak: ActionKey) {
    exists pc :: pc in s.cancels && pc.action == ak && NamesLink(h, pc.key, pc.link)
  }

  // And if no human was asked to look at it, every cancel of it is in flight at the provider, for that very link,
  // unless its call was lost on the way.
  lemma PayableLinksAreBeingCancelled(p: Settings, n: nat, steps: seq<Step>, k: Key)
    requires var s := Run(Init(p, n), steps);
      && k in s.db.cases && Held(s.db.cases[k].state) && Payable(NotedIn(Init(p, n), steps), k)
      && !s.db.cases[k].reconcile
    ensures var s := Run(Init(p, n), steps);
      && (exists ak: ActionKey :: CancelOf(s.db, ak, k))
      && forall ak: ActionKey | CancelOf(s.db, ak, k) ::
           ak in LostIn(steps) || CallInFlight(s, NotedIn(Init(p, n), steps), ak)
  {
    PayableIsRecorded(p, n, steps, k);
    RecordedLinksAreBeingCancelled(p, n, steps, k);
    RunNames(p, n, steps);
    var s, h := Run(Init(p, n), steps), NotedIn(Init(p, n), steps);
    hide Run, NotedIn, LostIn, NamesLink, RowsName;
    forall ak: ActionKey | CancelOf(s.db, ak, k) && ak !in LostIn(steps) ensures CallInFlight(s, h, ak) {
      assert InFlightFor(s.cancels, ak);
      var pc :| pc in s.cancels && pc.action == ak;
      assert NamesLink(h, pc.key, pc.link);
    }
  }

  // The answer to a create is written over whatever was reported of the link while it was on its way: a payment
  // reported that early is lost from the status, and only the flag it raised remains.
  lemma EarlyPaymentIsOverwritten(s: Sys, d: nat, e: PaymentEvent, degraded: bool)
    requires Safe(s) && d in s.tasks && s.tasks[d].Answered? && s.tasks[d].answer.Accepted?
    requires s.tasks[d].key == e.key && e.key in s.db.cases && s.db.cases[e.key].state.ConsentRequired?
    requires e.kind.PaymentLinkPaid? && e.id !in s.db.claimed
    ensures var s1 := Next(s, Webhook(e, degraded));
      var s2 := Next(s1, CommitLink(d));
      && e.key in s1.db.cases && s1.db.cases[e.key].linkStatus == Some(LinkStatus.Paid)
      && e.key in s2.db.cases && s2.db.cases[e.key].state.LinkSent? && s2.db.cases[e.key].reconcile
      && s2.db.cases[e.key].linkStatus == Some(s.tasks[d].answer.value.status)
  {
    var s1 := Next(s, Webhook(e, degraded));
    hide Safe, CommitsLink;
    NoOtherLink(s, d);
    EarlyEvent(s, d, e, degraded);
    SafeNext(s, Webhook(e, degraded));
    hide Ingests;
    CreateSettles(s1, d);
  }

  lemma NoOtherLink(s: Sys, d: nat)
    requires Safe(s) && d in s.tasks && s.tasks[d].Answered? && s.tasks[d].key in s.db.cases
    ensures s.db.cases[s.tasks[d].key].linkId.None?
  {
    AnswerOwnsRow(s, d);
    NoLinkYet(s, s.tasks[d].key);
    hide Safe;
  }

  lemma EarlyEvent(s: Sys, d: nat, e: PaymentEvent, degraded: bool)
    requires Safe(s) && e.kind.PaymentLinkPaid? && e.id !in s.db.claimed && e.key in s.db.cases
    requires s.db.cases[e.key].state.ConsentRequired? && s.db.cases[e.key].linkId.None?
    ensures var s1 := Ingests(s, e, degraded);
      && s1.tasks == s.tasks && e.key in s1.db.cases
      && s1.db.cases[e.key].linkStatus == Some(LinkStatus.Paid)
      && s1.db.cases[e.key].state.ConsentRequired? && s1.db.cases[e.key].reconcile
  {
    hide Safe;
    LinkEventsSettle(s, e, degraded);
    hide Ingest;
  }
}
