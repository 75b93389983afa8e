// The effect of each transaction on the committed rows: it cannot fault, it keeps the row invariant, it moves every
// case along an edge of the transition table, and it leaves links, contacts and opt-outs alone.
module Effects {
  import opened Base
  import opened Models
  import opened Engine

  // What holds of every committed row.
  predicate CaseOk(k: Key, c: RecoveryCase, p: Settings) {
    && c.key == k
    && !c.state.Open? && !c.state.Classified?
    && c.attention.maxContacts == DEFAULT_MAX_CONTACTS_7D
    && c.attention.contacts == (if c.linkId.Some? then 1 else 0)
    && (c.linkId.Some? <==> c.attention.lastContactAt.Some?)
    && (c.state.Cooldown? || c.state.RetryScheduled? ==> c.nextActionAt.Some? && c.attempts < p.maxRecoveryAttempts)
    && (c.state.ConsentRequired? ==> c.nextActionAt.None?)
    && (c.state.LinkSent? ==> c.linkId.Some?)
  }

  // Every row is held under its own key.
  ghost predicate Keyed(db: Db) {
    forall k | k in db.cases :: db.cases[k].key == k
  }

  ghost predicate DbOk(db: Db, p: Settings) {
    forall k | k in db.cases :: CaseOk(k, db.cases[k], p)
  }

  // What no transaction but link creation may touch: links, contacts and create actions stay, opt-outs only grow,
  // no case becomes LinkSent, and a row whose version stands still is the same row.
  predicate Carries(c: RecoveryCase, c': RecoveryCase) {
    && c'.customer == c.customer
    && c'.linkId == c.linkId
    && c'.attention.contacts == c.attention.contacts
    && c'.attention.maxContacts == c.attention.maxContacts
    && c'.attention.lastContactAt == c.attention.lastContactAt
    && (c.attention.optedOut ==> c'.attention.optedOut)
    && (c.amount > 0 ==> c'.amount > 0)
    && (c.reversal.Some? ==> c'.reversal.Some?)
    && (c'.state.LinkSent? ==> c.state.LinkSent?)
    && c.version <= c'.version
    && (c.version == c'.version ==> c == c')
  }

  ghost predicate Quiet(db: Db, db': Db) {
    && (forall k | k in db.cases :: k in db'.cases && Carries(db.cases[k], db'.cases[k]))
    && (forall k | k in db'.cases && k !in db.cases ::
          db'.cases[k].linkId.None? && !db'.cases[k].state.LinkSent?)
    && (forall k {:trigger CreateKey(k)} :: (CreateKey(k) in db.actions <==> CreateKey(k) in db'.actions)
          && (CreateKey(k) in db.actions ==> db.actions[CreateKey(k)] == db'.actions[CreateKey(k)]))
  }

  // Every state change of a committed case is an edge of the transition table, a new case starting from Open.
  ghost predicate Moves(db: Db, db': Db) {
    && (forall k | k in db.cases :: k in db'.cases && CanTransition(db.cases[k].state, db'.cases[k].state))
    && (forall k | k in db'.cases && k !in db.cases :: CanTransition(Open, db'.cases[k].state))
  }

  // ------------------------------------------------- each transaction's effect

  // A case about to be saved over `c`.
  predicate Saved(c: RecoveryCase, c': RecoveryCase) {
    && c'.key == c.key
    && c'.version == c.version
    && CanTransition(c.state, c'.state)
    && Carries(c, c'.(version := c.version + 1))
  }

  // Saving a case that carries on from its row keeps every invariant.
  lemma Saves(db: Db, c: RecoveryCase, p: Settings)
    requires DbOk(db, p) && c.key in db.cases && Saved(db.cases[c.key], c) && CaseOk(c.key, c, p)
    ensures var r := SaveCase(db, c);
      r.Ok? && DbOk(r.value, p) && Quiet(db, r.value) && Moves(db, r.value)
  {
  }

  lemma Inserts(db: Db, e: PaymentEvent, degraded: bool, p: Settings)
    requires DbOk(db, p) && e.key !in db.cases
    ensures var c := FromFailedEvent(e);
      var r := SaveCase(db.(cases := db.cases[e.key := c]), AfterFailure(c, e, degraded, p));
      r.Ok? && DbOk(r.value, p) && Quiet(db, r.value) && Moves(db, r.value)
  {
    var c := FromFailedEvent(e);
    FailureCase(c, e, degraded, p);
    hide AfterFailure;
  }

  // Claiming or completing a cancel touches no case and no create action.
  lemma ClaimMoves(db: Db, ak: ActionKey, a: Action, max: int, status: ActionStatus, link: Option<LinkId>)
    requires ak.IsCancel()
    ensures Quiet(db, ClaimAction(db, ak, a, max).0) && Moves(db, ClaimAction(db, ak, a, max).0)
    ensures Quiet(db, CompleteAction(db, ak, status, link)) && Moves(db, CompleteAction(db, ak, status, link))
  {
  }

  lemma QuietReflexive(db: Db)
    ensures Quiet(db, db) && Moves(db, db)
  {
  }

  lemma QuietTransitive(a: Db, b: Db, c: Db)
    requires Quiet(a, b) && Quiet(b, c)
    ensures Quiet(a, c)
  {
    forall k | k in c.cases && k !in a.cases
      ensures c.cases[k].linkId.None? && !c.cases[k].state.LinkSent?
    {
    }
  }

  // A decision never proposes a timed state without a deadline and attempts to spare.
  predicate Fits(c: RecoveryCase, d: Decision, p: Settings) {
    && (d.target.Cooldown? || d.target.RetryScheduled? || d.target.ConsentRequired? || d.target.ManualReview?
        || d.target.Stopped?)
    && (d.target.Cooldown? || d.target.RetryScheduled? ==>
          d.nextActionAt.Some? && c.attempts < p.maxRecoveryAttempts)
    && (d.target.ConsentRequired? ==> d.nextActionAt.None?)
  }

  lemma DecisionFits(c: RecoveryCase, degraded: bool, now: Time, p: Settings)
    ensures Fits(c, Decide(c, degraded, now, p), p)
  {
  }

  lemma FailureCase(c: RecoveryCase, e: PaymentEvent, degraded: bool, p: Settings)
    requires CaseOk(e.key, c, p) || c == FromFailedEvent(e)
    requires !IsFinal(c.state)
    ensures var c' := AfterFailure(c, e, degraded, p);
      CaseOk(e.key, c', p) && Saved(c, c')
  {
    hide Decide;
    DecisionFits(WithFailure(c, e, p), degraded, e.at, p);
  }

  lemma FailureEffect(db: Db, e: PaymentEvent, degraded: bool, p: Settings)
    requires DbOk(db, p)
    ensures var r := HandleFailure(db, e, degraded, p);
      r.Ok? && DbOk(r.value, p) && Quiet(db, r.value) && Moves(db, r.value)
  {
    hide AfterFailure, FromFailedEvent;
    if e.key in db.cases {
      var c := db.cases[e.key];
      if !IsFinal(c.state) {
        FailureCase(c, e, degraded, p);
        Saves(db, AfterFailure(c, e, degraded, p), p);
      }
    } else {
      Inserts(db, e, degraded, p);
    }
  }

  // Claiming a cancel leaves every case and every create action alone.
  lemma ClaimEffect(db: Db, c: RecoveryCase, ak: ActionKey, at: Time, p: Settings)
    requires ak.IsCancel()
    ensures var db' := ClaimCancel(db, c, ak, at, p).0;
      db'.cases == db.cases && Quiet(db, db')
  {
  }

  lemma SuccessCase(c: RecoveryCase, e: PaymentEvent, p: Settings)
    requires CaseOk(e.key, c, p) && !IsFinal(c.state)
    ensures var r := AfterSuccess(c, e);
      && r.Ok?
      && CaseOk(e.key, r.value, p) && CaseOk(e.key, r.value.(preview := false), p)
      && Saved(c, r.value) && Saved(c, r.value.(preview := false))
  {
  }

  lemma RowOk(db: Db, k: Key, p: Settings)
    requires DbOk(db, p)
    ensures k in db.cases ==> CaseOk(k, db.cases[k], p) && db.cases[k].key == k
  {
  }

  lemma SuccessEffect(db: Db, e: PaymentEvent, p: Settings)
    requires DbOk(db, p)
    ensures var r := HandleSuccess(db, e, p);
      r.Ok? && DbOk(r.value.0, p) && Quiet(db, r.value.0) && Moves(db, r.value.0)
  {
    hide AfterSuccess, ClaimCancel, SaveCase, Saved, CaseOk, Quiet, Moves, DbOk;
    QuietReflexive(db);
    RowOk(db, e.key, p);
    if e.key in db.cases && !IsFinal(db.cases[e.key].state) {
      SuccessCase(db.cases[e.key], e, p);
      var c := AfterSuccess(db.cases[e.key], e).value;
      ClaimEffect(db, c, LateCancelOf(c), e.at, p);
      var (db1, pending) := ClaimCancel(db, c, LateCancelOf(c), e.at, p);
      var c' := if pending.Some? then c.(preview := false) else c;
      SameRows(db, db1, p);
      Saves(db1, c', p);
      QuietTransitive(db, db1, SaveCase(db1, c').value);
      MovesFrom(db, db1, SaveCase(db1, c').value);
    }
  }

  lemma SameRows(db: Db, db1: Db, p: Settings)
    requires db1.cases == db.cases && DbOk(db, p)
    ensures DbOk(db1, p)
  {
  }

  lemma MovesFrom(db: Db, db1: Db, db': Db)
    requires db1.cases == db.cases && Moves(db1, db')
    ensures Moves(db, db')
  {
  }

  lemma ReversalCase(c: RecoveryCase, e: PaymentEvent, p: Settings)
    requires CaseOk(e.key, c, p)
    ensures var c' := AfterReversal(c, e);
      CaseOk(e.key, c', p) && Saved(c, c')
  {
  }

  // Silencing a person's other cases keeps every invariant and leaves the reversed case itself for its caller.
  lemma OptOutsEffect(db: Db, db1: Db, c: RecoveryCase, p: Settings)
    requires DbOk(db, p) && db1.cases == db.cases && Quiet(db, db1) && c.key in db.cases && db.cases[c.key] == c
    ensures var db2 := if c.customer.Some? then OptOutCustomer(db1, c.customer.value, c.key) else db1;
      && DbOk(db2, p) && Quiet(db, db2) && c.key in db2.cases && db2.cases[c.key] == c
      && db2.cases.Keys == db.cases.Keys
      && (forall k | k in db.cases :: db2.cases[k].state == db.cases[k].state)
  {
  }

  lemma SaveAfterOptOuts(db: Db, db2: Db, c: RecoveryCase, p: Settings)
    requires DbOk(db2, p) && Quiet(db, db2) && db2.cases.Keys == db.cases.Keys
    requires forall k | k in db.cases :: db2.cases[k].state == db.cases[k].state
    requires c.key in db2.cases && Saved(db2.cases[c.key], c) && CaseOk(c.key, c, p)
    ensures var r := SaveCase(db2, c);
      r.Ok? && Quiet(db, r.value) && Moves(db, r.value)
  {
    Saves(db2, c, p);
    QuietTransitive(db, db2, SaveCase(db2, c).value);
  }

  lemma ReversalEffect(db: Db, e: PaymentEvent, p: Settings)
    requires DbOk(db, p)
    ensures var r := HandleReversal(db, e, p);
      r.Ok? && DbOk(r.value.0, p) && Quiet(db, r.value.0) && Moves(db, r.value.0)
  {
    if e.key in db.cases && db.cases[e.key].state != RecoveryReversed {
      var c := db.cases[e.key];
      assert CaseOk(e.key, c, p);
      ReversalCase(c, e, p);
      assert AfterReversal(c, e).key == e.key;
      hide AfterReversal, OptOutCustomer, ClaimCancel, SaveCase, Quiet, Moves, Saved, CaseOk, DbOk;
      var (db1, pending) := ClaimCancel(db, c, ReversalCancelKey(c.key), e.at, p);
      ClaimEffect(db, c, ReversalCancelKey(c.key), e.at, p);
      var db2 := if c.customer.Some? then OptOutCustomer(db1, c.customer.value, c.key) else db1;
      OptOutsEffect(db, db1, c, p);
      Saves(db2, AfterReversal(c, e), p);
      SaveAfterOptOuts(db, db2, AfterReversal(c, e), p);
    }
  }

  lemma LinkEventCase(c: RecoveryCase, e: PaymentEvent, p: Settings)
    requires CaseOk(e.key, c, p)
    ensures var c' := AfterLinkEvent(c, e);
      CaseOk(e.key, c', p) && Saved(c, c')
  {
    var target := LinkOutcome(e.kind, c.state == AuthorizedPendingCapture).1;
    assert target.Some? ==> target.value.ManualReview? || target.value.RecoveredByLink?;
    hide LinkOutcome, AllowedTransition;
  }

  lemma LinkEffect(db: Db, e: PaymentEvent, p: Settings)
    requires DbOk(db, p)
    ensures var r := HandleLink(db, e);
      r.Ok? && DbOk(r.value, p) && Quiet(db, r.value) && Moves(db, r.value)
  {
    QuietReflexive(db);
    if e.key in db.cases {
      assert CaseOk(e.key, db.cases[e.key], p);
      hide AfterLinkEvent, DbOk, CaseOk, Saved, Quiet, Moves, SaveCase;
      LinkEventCase(db.cases[e.key], e, p);
      Saves(db, AfterLinkEvent(db.cases[e.key], e), p);
    }
  }

  lemma HandleIsTotal(db: Db, e: PaymentEvent, degraded: bool, p: Settings)
    requires DbOk(db, p)
    ensures var r := Handle(db, e, degraded, p);
      && r.Ok? && DbOk(r.value.0, p) && Quiet(db, r.value.0) && Moves(db, r.value.0)
      && r.value.0.claimed == db.claimed
  {
    hide HandleFailure, HandleSuccess, HandleLink, HandleReversal, DbOk, Quiet, Moves;
    FailureEffect(db, e, degraded, p);
    SuccessEffect(db, e, p);
    LinkEffect(db, e, p);
    ReversalEffect(db, e, p);
    ClaimsSurvive(db, e, degraded, p);
  }

  lemma ClaimIsInvisible(db: Db, id: EventId, db': Db, p: Settings)
    requires DbOk(db, p)
    ensures DbOk(Claim(db, id), p)
    ensures Quiet(Claim(db, id), db') ==> Quiet(db, db')
    ensures Moves(Claim(db, id), db') ==> Moves(db, db')
  {
  }

  // No event faults in a database of well-formed rows, so no claim is ever rolled back.
  lemma IngestIsTotal(db: Db, e: PaymentEvent, degraded: bool, p: Settings)
    requires DbOk(db, p)
    ensures var r := Ingest(db, e, degraded, p);
      && r.Ok? && DbOk(r.value.0, p) && Quiet(db, r.value.0) && Moves(db, r.value.0)
      && r.value.0.claimed == db.claimed + {e.id}
  {
    if e.id in db.claimed {
      QuietReflexive(db);
      assert db.claimed == db.claimed + {e.id};
    } else {
      ClaimIsInvisible(db, e.id, db, p);
      HandleIsTotal(Claim(db, e.id), e, degraded, p);
      hide Handle, DbOk, Quiet, Moves;
      ClaimIsInvisible(db, e.id, Ingest(db, e, degraded, p).value.0, p);
    }
  }

  lemma ClaimsSurvive(db: Db, e: PaymentEvent, degraded: bool, p: Settings)
    ensures HandleFailure(db, e, degraded, p).Ok? ==> HandleFailure(db, e, degraded, p).value.claimed == db.claimed
    ensures HandleSuccess(db, e, p).Ok? ==> HandleSuccess(db, e, p).value.0.claimed == db.claimed
    ensures HandleLink(db, e).Ok? ==> HandleLink(db, e).value.claimed == db.claimed
    ensures HandleReversal(db, e, p).Ok? ==> HandleReversal(db, e, p).value.0.claimed == db.claimed
  {
    hide AfterFailure, AfterSuccess, AfterLinkEvent, AfterReversal;
  }

  // A cancel handed on by an event is keyed to the event's case and names the case's own link.
  predicate NamesOwnLink(db: Db, e: PaymentEvent, pending: Option<PendingCancel>) {
    pending.Some? ==>
      var pc := pending.value;
      && pc.key == e.key && e.key in db.cases && db.cases[e.key].linkId == Some(pc.link)
      && pc.action.IsCancel() && pc.action.key == e.key
  }

  lemma ClaimShape(db: Db, c: RecoveryCase, ak: ActionKey, at: Time, p: Settings)
    ensures var pending := ClaimCancel(db, c, ak, at, p).1;
      pending.Some? ==> pending.value.key == c.key && pending.value.action == ak && c.linkId == Some(pending.value.link)
  {
    hide ClaimAction;
  }

  lemma SuccessShape(db: Db, e: PaymentEvent, p: Settings)
    requires DbOk(db, p)
    ensures HandleSuccess(db, e, p).Ok? ==> NamesOwnLink(db, e, HandleSuccess(db, e, p).value.1)
  {
    if e.key in db.cases && !IsFinal(db.cases[e.key].state) {
      SuccessCase(db.cases[e.key], e, p);
      assert CaseOk(e.key, db.cases[e.key], p);
      var c := AfterSuccess(db.cases[e.key], e).value;
      ClaimShape(db, c, LateCancelOf(c), e.at, p);
    }
    hide AfterSuccess, ClaimCancel, SaveCase, DbOk;
  }

  lemma ReversalShape(db: Db, e: PaymentEvent, p: Settings)
    requires DbOk(db, p)
    ensures HandleReversal(db, e, p).Ok? ==> NamesOwnLink(db, e, HandleReversal(db, e, p).value.1)
  {
    if e.key in db.cases {
      assert CaseOk(e.key, db.cases[e.key], p);
      ClaimShape(db, db.cases[e.key], ReversalCancelKey(e.key), e.at, p);
    }
    hide AfterReversal, OptOutCustomer, ClaimCancel, SaveCase, DbOk;
  }

  lemma PendingShape(db: Db, e: PaymentEvent, degraded: bool, p: Settings)
    requires DbOk(db, p)
    ensures var r := Ingest(db, e, degraded, p);
      r.Ok? ==> NamesOwnLink(db, e, r.value.1)
  {
    hide HandleSuccess, HandleReversal, HandleFailure, HandleLink, DbOk;
    ClaimIsInvisible(db, e.id, db, p);
    SuccessShape(Claim(db, e.id), e, p);
    ReversalShape(Claim(db, e.id), e, p);
  }

  lemma CancelCase(c: RecoveryCase, answer: Answer<LinkStatus>, now: Time, p: Settings)
    requires CaseOk(c.key, c, p)
    ensures var c' := AfterCancel(c, answer, now);
      CaseOk(c.key, c', p) && Saved(c, c')
  {
    hide AllowedTransition;
  }

  // A cancel clears a case's flag exactly when the link turns out revoked and an earlier cancel had failed. A reversal
  // flags its case too, so a reversed case is not always flagged.
  lemma FlagCleared(c: RecoveryCase, answer: Answer<LinkStatus>, now: Time)
    requires c.reconcile
    ensures var c' := AfterCancel(c, answer, now);
      && (!c'.reconcile <==> answer == Accepted(LinkStatus.Cancelled) && c.stopReason == Some(PaymentLinkCancelFailed))
      && (!c'.reconcile ==> c'.stopReason.None? && c'.state == c.state && c'.linkStatus == Some(LinkStatus.Cancelled))
  {
  }

  lemma ReversedCanLoseItsFlag(c: RecoveryCase, e: PaymentEvent, now: Time, later: Time)
    requires !c.state.Stopped?
    ensures var reversed := AfterReversal(c, e);
      var failed := AfterCancel(reversed, Refused(true), now);
      var retried := AfterCancel(failed, Accepted(LinkStatus.Cancelled), later);
      reversed.reconcile && retried.state.RecoveryReversed? && retried.reversal.Some? && !retried.reconcile
  {
    assert AfterReversal(c, e).state.RecoveryReversed?;
    hide AfterReversal, AllowedTransition;
  }

  lemma CancelEffect(db: Db, pc: PendingCancel, answer: Answer<LinkStatus>, now: Time, p: Settings)
    requires DbOk(db, p) && pc.action.IsCancel()
    ensures var r := CancelCommit(db, pc, answer, now);
      r.Ok? && DbOk(r.value, p) && Quiet(db, r.value) && Moves(db, r.value)
  {
    if pc.key in db.cases {
      CancelCase(db.cases[pc.key], answer, now, p);
      hide AfterCancel;
      var db1 := CompleteAction(db, pc.action, if answer.Refused? then Failed else Succeeded, Some(pc.link));
      Saves(db1, AfterCancel(db.cases[pc.key], answer, now), p);
    }
  }

  lemma ReopenCase(c: RecoveryCase, fc: Option<FailureClass>, degraded: bool, now: Time, p: Settings)
    requires CaseOk(c.key, c, p) && c.state.ManualReview?
    ensures var c' := AfterReopen(c, fc, degraded, now, p);
      CaseOk(c.key, c', p) && Saved(c, c')
  {
    var c1 := c.(failure := c.failure.(cause := if fc.Some? then fc else c.failure.cause), attempts := 0,
                 stopReason := None, nextActionAt := None);
    DecisionFits(c1, degraded, now, p);
    hide Decide;
  }

  // An operator's reopen works on exactly the cases parked for a human.
  lemma ReopenEffect(db: Db, key: Key, fc: Option<FailureClass>, degraded: bool, now: Time, p: Settings)
    requires DbOk(db, p)
    ensures var r := Reopen(db, key, fc, degraded, now, p);
      && (r.Ok? <==> key in db.cases && db.cases[key].state == ManualReview)
      && (r.Ok? ==> DbOk(r.value, p) && Quiet(db, r.value) && Moves(db, r.value))
  {
    if key in db.cases && db.cases[key].state == ManualReview {
      ReopenCase(db.cases[key], fc, degraded, now, p);
      hide AfterReopen;
      var db1 := RecordAction(db, ReopenKey(key, now), Action(Succeeded, 1, None, now)).0;
      Saves(db1, AfterReopen(db.cases[key], fc, degraded, now, p), p);
    }
  }

  lemma PreviewEffect(db: Db, snapshot: RecoveryCase, now: Time, p: Settings)
    requires DbOk(db, p)
    ensures var r := SavePreview(db, snapshot, now);
      r.Ok? ==> DbOk(r.value, p) && Quiet(db, r.value) && Moves(db, r.value)
  {
  }

  // A dispatch decision fits the snapshot it was made from.
  predicate PlanFits(snapshot: RecoveryCase, d: Decision, p: Settings) {
    && Fits(snapshot, d, p)
    && (d.target.Cooldown? || d.target.RetryScheduled? ==> snapshot.state.Cooldown?)
    && (d.target.ConsentRequired? ==> snapshot.state.RetryScheduled?)
    && (snapshot.state.Cooldown? || snapshot.state.RetryScheduled? || snapshot.state.ConsentRequired?)
  }

  lemma PlanCase(c: RecoveryCase, d: Decision, now: Time, p: Settings)
    requires CaseOk(c.key, c, p) && PlanFits(c, d, p)
    ensures var c' := AfterPlan(c, d, now);
      CaseOk(c.key, c', p) && Saved(c, c') && !IsFinal(c.state)
  {
  }

  // Compare-and-swap makes it fit the row as well; an older snapshot changes nothing.
  lemma CommitStateEffect(db: Db, snapshot: RecoveryCase, d: Decision, now: Time, p: Settings)
    requires DbOk(db, p) && PlanFits(snapshot, d, p)
    requires snapshot.key in db.cases
    requires snapshot.version == db.cases[snapshot.key].version ==> snapshot == db.cases[snapshot.key]
    ensures var (db', applied) := CommitState(db, snapshot, d, now);
      && DbOk(db', p) && Quiet(db, db') && Moves(db, db')
      && (applied <==> db.cases[snapshot.key] == snapshot)
      && (!applied ==> db' == db)
  {
    var c := db.cases[snapshot.key];
    QuietReflexive(db);
    if c == snapshot {
      PlanCase(c, d, now, p);
      hide PlanFits, AllowedTransition, Quiet, Moves;
      Saves(db, AfterPlan(c, d, now), p);
    }
  }
}
