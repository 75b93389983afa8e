// What dispatch plans, provider answers and drafts leave of the rows they settle.
module Outcomes {
  import opened Base
  import opened Models
  import opened Engine
  import opened Effects
  import opened Protocol
  import opened LinkSafety
  import opened CancelSafety
  import opened ProtocolTheorems

  // Only case k changes.
  ghost predicate OnlyRow(db: Db, db': Db, k: Key) {
    && db'.cases.Keys == db.cases.Keys && db'.claimed == db.claimed
    && forall j | j in db.cases && j != k :: db'.cases[j] == db.cases[j]
  }

  // ------------------------------------------------------------- link creation

  // A link went out: the case names it, with the status the provider gave it, and counts one contact.
  predicate LinkedTo(c: RecoveryCase, c': RecoveryCase, link: NewLink, now: Time) {
    c' == c.(state := LinkSent, linkId := Some(link.id), linkStatus := Some(link.status), nextActionAt := None,
             attention := c.attention.(contacts := 1, lastContactAt := Some(now)), updatedAt := now,
             version := c.version + 1)
  }

  // No link could be had: a human decides.
  predicate LinkRefused(c: RecoveryCase, c': RecoveryCase, retryable: bool, now: Time) {
    c' == c.(state := ManualReview, updatedAt := now, version := c.version + 1,
             stopReason := Some(if retryable then PaymentLinkCreateUnavailable else PaymentLinkCreateRejected))
  }

  // How the create action of key k ends.
  predicate CreateEnds(db: Db, db': Db, k: Key, status: ActionStatus) {
    && CreateKey(k) in db.actions && CreateKey(k) in db'.actions
    && db'.actions == db.actions[CreateKey(k) := db'.actions[CreateKey(k)]]
    && db'.actions[CreateKey(k)].status == status
    && db'.actions[CreateKey(k)].attempts == db.actions[CreateKey(k)].attempts
  }

  ghost predicate CreateLeaves(db: Db, db': Db, k: Key, answer: Answer<NewLink>, now: Time) {
    var wanted := k in db.cases && db.cases[k].state.ConsentRequired?;
    && (!wanted ==> db'.cases == db.cases)
    && (wanted ==> OnlyRow(db, db', k)
                   && (answer.Accepted? ==> LinkedTo(db.cases[k], db'.cases[k], answer.value, now))
                   && (answer.Refused? ==> LinkRefused(db.cases[k], db'.cases[k], answer.retryable, now)))
    && CreateEnds(db, db', k, if answer.Refused? then Failed else if wanted then Succeeded else Superseded)
  }

  // The outcome of a link creation: a case still waiting for consent gets the link or goes to a human; any other has
  // moved on, and a link created for it is superfluous.
  lemma CreateSettles(s: Sys, d: nat)
    requires Safe(s) && d in s.tasks && s.tasks[d].Answered?
    ensures CreateLeaves(s.db, CommitsLink(s, d).db, s.tasks[d].key, s.tasks[d].answer, s.tasks[d].now)
  {
    var t := s.tasks[d];
    AnswerOwnsRow(s, d);
    NoLinkYet(s, t.key);
    hide Safe, CreateCommit, CreateLeaves, LinkSafety.Started;
    CreateCommitLeaves(s.db, t.key, t.answer, t.now);
  }

  // A started create has sent nothing yet.
  lemma NoLinkYet(s: Sys, k: Key)
    requires Safe(s) && LinkSafety.Started(s.db, k)
    ensures k in s.db.cases ==>
      var c := s.db.cases[k];
      c.key == k && c.linkId.None? && c.attention.contacts == 0
  {
    assert LinksOk(s.db);
    assert k in s.db.cases ==> CaseOk(k, s.db.cases[k], s.p);
    hide CancelInv;
  }

  lemma CreateCommitLeaves(db: Db, k: Key, answer: Answer<NewLink>, now: Time)
    requires LinkSafety.Started(db, k)
    requires k in db.cases ==>
      db.cases[k].key == k && db.cases[k].linkId.None? && db.cases[k].attention.contacts == 0
    ensures var r := CreateCommit(db, k, answer, now);
      r.Ok? && CreateLeaves(db, r.value.0, k, answer, now)
  {
    if k in db.cases && db.cases[k].state.ConsentRequired? {
      CreateFate(db.cases[k], answer, now);
    }
    hide AfterLinkCreated, AfterCreateRefused, LinkedTo, LinkRefused;
  }

  lemma CreateFate(c: RecoveryCase, answer: Answer<NewLink>, now: Time)
    requires c.state.ConsentRequired? && c.attention.contacts == 0
    ensures answer.Refused? ==>
      var r := AfterCreateRefused(c, answer.retryable, now);
      && r.Ok? && r.value.key == c.key && r.value.version == c.version
      && LinkRefused(c, r.value.(version := c.version + 1), answer.retryable, now)
    ensures answer.Accepted? ==>
      var r := AfterLinkCreated(c, answer.value, now);
      && r.Ok? && r.value.key == c.key && r.value.version == c.version
      && LinkedTo(c, r.value.(version := c.version + 1), answer.value, now)
  {
  }

  // ------------------------------------------------------------ cancel answers

  // What a cancel's answer makes of its case. A link the provider would not revoke flags the case, and so does a cancel
  // that failed, until a later one goes through.
  predicate WrittenDown(c: RecoveryCase, c': RecoveryCase, answer: Answer<LinkStatus>, at: Time) {
    var healed := c.stopReason == Some(PaymentLinkCancelFailed);
    if answer.Refused? then
      c' == c.(reconcile := true, stopReason := Some(PaymentLinkCancelFailed), updatedAt := at,
               version := c.version + 1)
    else if answer.value == LinkStatus.Cancelled then
      c' == c.(linkStatus := Some(LinkStatus.Cancelled), preview := false, updatedAt := at, version := c.version + 1,
               reconcile := c.reconcile && !healed, stopReason := if healed then None else c.stopReason)
    else
      c' == c.(linkStatus := Some(answer.value), preview := false, reconcile := true, updatedAt := at,
               stopReason := Some(LinkCancelReturnedNonCancellableStatus), version := c.version + 1)
  }

  predicate CancelEnds(db: Db, db': Db, pc: PendingCancel, status: ActionStatus) {
    && pc.action in db.actions
    && db'.actions == db.actions[pc.action := db.actions[pc.action].(status := status, link := Some(pc.link))]
  }

  ghost predicate CancelLeaves(db: Db, db': Db, pc: PendingCancel, answer: Answer<LinkStatus>, at: Time) {
    && pc.key in db.cases && OnlyRow(db, db', pc.key)
    && WrittenDown(db.cases[pc.key], db'.cases[pc.key], answer, at)
    && CancelEnds(db, db', pc, if answer.Refused? then Failed else Succeeded)
  }

  lemma CancelFate(c: RecoveryCase, answer: Answer<LinkStatus>, at: Time)
    ensures var c' := AfterCancel(c, answer, at);
      && c'.key == c.key && c'.version == c.version
      && WrittenDown(c, c'.(version := c.version + 1), answer, at)
  {
  }

  // The answer to a cancel is written on its own case and its own action.
  lemma CancelSettlesRow(s: Sys, pc: PendingCancel, answer: Answer<LinkStatus>, at: Time)
    requires Safe(s) && pc in s.cancels
    ensures var s' := CancelDone(s, pc, answer, at);
      && CancelLeaves(s.db, s'.db, pc, answer, at)
      && s' == s.(db := s'.db, cancels := s.cancels - multiset{pc})
  {
    InFlightRows(s, pc);
    hide Safe, CancelCommit, CancelLeaves;
    CancelCommitLeaves(s.db, pc, answer, at);
  }

  lemma InFlightRows(s: Sys, pc: PendingCancel)
    requires Safe(s) && pc in s.cancels
    ensures pc.action in s.db.actions && pc.key in s.db.cases && s.db.cases[pc.key].key == pc.key
  {
    assert pc.action.IsCancel() && pc.action.key == pc.key;
    hide Inv;
  }

  lemma CancelCommitLeaves(db: Db, pc: PendingCancel, answer: Answer<LinkStatus>, at: Time)
    requires pc.action in db.actions && pc.key in db.cases && db.cases[pc.key].key == pc.key
    ensures var r := CancelCommit(db, pc, answer, at);
      r.Ok? && CancelLeaves(db, r.value, pc, answer, at)
  {
    CancelFate(db.cases[pc.key], answer, at);
    hide AfterCancel, WrittenDown;
  }

  // -------------------------------------------------------------------- plans

  // A plan carried out: the case is where the plan said, until when it said, and says why if that is for good or for a
  // human.
  predicate Followed(c: RecoveryCase, c': RecoveryCase, d: Decision, now: Time) {
    c' == c.(state := d.target, nextActionAt := d.nextActionAt, updatedAt := now, version := c.version + 1,
             stopReason := if d.target.Stopped? || d.target.ManualReview? then Some(d.reason) else c.stopReason)
  }

  ghost predicate PlanLeaves(db: Db, db': Db, c: RecoveryCase, d: Decision, now: Time) {
    if c.key in db.cases && db.cases[c.key] == c then OnlyRow(db, db', c.key) && Followed(c, db'.cases[c.key], d, now)
    else db' == db
  }

  // A plan is carried out exactly when the row is still the one it was made from.
  lemma PlanSettles(s: Sys, d: nat)
    requires Safe(s) && d in s.tasks && s.tasks[d].Planned?
    ensures PlanLeaves(s.db, CommitsPlan(s, d).db, s.tasks[d].snapshot, s.tasks[d].decision, s.tasks[d].now)
  {
    var t := s.tasks[d];
    assert TaskOk(t, s.seen, s.p) && Newer(t.snapshot, s.db.cases[t.snapshot.key]);
    CommitStateEffect(s.db, t.snapshot, t.decision, t.now, s.p);
    hide Safe, CommitState;
    if s.db.cases[t.snapshot.key] == t.snapshot {
      StateLeaves(s.db, t.snapshot, t.decision, t.now);
    }
  }

  lemma StateLeaves(db: Db, c: RecoveryCase, d: Decision, now: Time)
    requires CommitState(db, c, d, now).1 && c.key in db.cases && db.cases[c.key] == c
    ensures PlanLeaves(db, CommitState(db, c, d, now).0, c, d, now)
  {
    hide AllowedTransition;
  }

  // ------------------------------------------------------------------- drafts

  predicate Drafted(c: RecoveryCase, c': RecoveryCase, at: Time) {
    c' == c.(preview := true, updatedAt := at, version := c.version + 1)
  }

  ghost predicate DraftLeaves(db: Db, db': Db, snapshot: RecoveryCase, at: Time) {
    var k := snapshot.key;
    if k in db.cases && db.cases[k].state.LinkSent? && db.cases[k].linkId == snapshot.linkId then
      OnlyRow(db, db', k) && Drafted(db.cases[k], db'.cases[k], at)
    else db' == db
  }

  // A draft is kept only for a case that still offers the link it was written for.
  lemma DraftSettles(s: Sys, snapshot: RecoveryCase, at: Time)
    requires Safe(s)
    ensures DraftLeaves(s.db, Next(s, PreviewSaved(snapshot, at)).db, snapshot, at)
  {
    RowsAreKeyed(s.db, s.p);
    hide Safe, SavePreview, DraftLeaves;
    SavedDraft(s.db, snapshot, at);
  }

  lemma SavedDraft(db: Db, snapshot: RecoveryCase, at: Time)
    requires Keyed(db)
    ensures DraftLeaves(db, if SavePreview(db, snapshot, at).Ok? then SavePreview(db, snapshot, at).value else db,
                        snapshot, at)
  {
  }
}
