// The service's transactions (app/service.py) as outcomes: what a transaction body may return against the engine's
// model, and how each operation's outcome is a run of the protocol.
module ServiceModel {
  import opened Base
  import opened Models
  import opened Engine
  import opened Stamps
  import opened Rows
  import opened Queries
  import opened Health
  import opened Delivery
  import opened Serving
  import opened Protocol
  import opened Refinement
  import R = Release

  function Lookup(db: Db, key: Key): Option<RecoveryCase> {
    if key in db.cases then Some(db.cases[key]) else None
  }

  // A transaction body against its model: it succeeds as the model does and leaves the modelled contents; it fails
  // only as the model does, or because an instant cannot be written.
  ghost predicate Matches<T(!new)>(r: Result<T, Fault>, model: Result<(Db, T), Fault>, after: Db, timely: bool) {
    if r.Ok? then model == Ok((after, r.value))
    else
      || model == Err(r.error)
      || (r.error == Fault.OutOfCalendar && (model.Ok? && timely ==> !Writable(model.value.0)))
  }

  // The transaction as a whole: a failed body leaves nothing behind.
  ghost predicate Commits<T(!new)>(r: Result<T, Fault>, model: Result<(Db, T), Fault>, before: Db, after: Db,
                                   timely: bool)
  {
    && (r.Err? ==> after == before)
    && Matches(r, model, after, timely)
  }

  function Plain(r: Result<Db, Fault>): Result<(Db, ()), Fault> {
    if r.Ok? then Ok((r.value, ())) else Err(r.error)
  }

  function With(r: Result<Db, Fault>, pending: Option<PendingCancel>): Result<(Db, Option<PendingCancel>), Fault> {
    if r.Ok? then Ok((r.value, pending)) else Err(r.error)
  }

  // A collected case, saved together with the cancel it claims.
  function Collected(db: Db, c: RecoveryCase, at: Time, p: Settings): Result<(Db, Option<PendingCancel>), Fault> {
    var (db1, pending) := ClaimCancel(db, c, LateCancelOf(c), at, p);
    With(SaveCase(db1, if pending.Some? then c.(preview := false) else c), pending)
  }

  function HealthOf(c: RecoveryCase): HealthKey {
    HealthKey(Lower(c.failure.issuer), c.failure.rail)
  }

  // The window an event's outcome is fed to.
  function OutcomeKey(e: PaymentEvent): HealthKey {
    HealthKey(Lower(e.issuer), e.rail)
  }

  lemma LowerTwice(s: string)
    ensures Lower(Lower(s)) == Lower(s)
  {
  }

  lemma SaveMatches(before: Db, c: RecoveryCase, r: Result<RecoveryCase, Fault>, after: Db)
    requires SaveOutcome(before, c, r, after)
    ensures Matches(if r.Ok? then Ok(()) else Err(r.error), Plain(Engine.SaveCase(before, c)), after, true)
  {
    VersionIsNoStamp(c);
    hide Stampable;
    if !Stampable(c) && Engine.SaveCase(before, c).Ok? {
      assert !Stampable(Engine.SaveCase(before, c).value.cases[c.key]);
    }
  }

  lemma MatchesWhenLate<T(!new)>(r: Result<T, Fault>, model: Result<(Db, T), Fault>, after: Db, timely: bool)
    requires Matches(r, model, after, true) || (!timely && r == Err(Fault.OutOfCalendar))
    ensures Matches(r, model, after, timely)
  {
  }

  lemma MatchesAsIs<T(!new)>(r: Result<T, Fault>, model: Result<(Db, T), Fault>, after: Db, timely: bool)
    requires r.Ok? && model == Ok((after, r.value))
    ensures Matches(r, model, after, timely)
  {
  }

  lemma MatchesDone(db: Db)
    ensures Matches(Ok(()), Plain(Ok(db)), db, true)
  {
  }

  lemma MatchesError<T(!new)>(r: Result<T, Fault>, model: Result<(Db, T), Fault>, after: Db, timely: bool)
    requires r.Err? && model == Err(r.error)
    ensures Matches(r, model, after, timely)
  {
  }

  function SuccessOf(db: Db, c: RecoveryCase, e: PaymentEvent, p: Settings)
    : Result<(Db, Option<PendingCancel>), Fault>
  {
    var after := Engine.AfterSuccess(c, e);
    if after.Ok? then Collected(db, after.value, e.at, p) else Err(after.error)
  }

  // The model's success handler, case by case.
  lemma SuccessUnfolds(db: Db, e: PaymentEvent, p: Settings)
    ensures var idle := e.key !in db.cases || IsFinal(db.cases[e.key].state);
      && (idle ==> Engine.HandleSuccess(db, e, p) == Ok((db, None)))
      && (!idle ==> Engine.HandleSuccess(db, e, p) == SuccessOf(db, db.cases[e.key], e, p))
  {
    hide SaveCase, ClaimCancel, Engine.AfterSuccess;
  }

  // The model's reversal handler, from the contents its claim leaves.
  function Reversed(db1: Db, c: RecoveryCase, pending: Option<PendingCancel>, e: PaymentEvent)
    : Result<(Db, Option<PendingCancel>), Fault>
  {
    var db2 := if c.customer.Some? then Engine.OptOutCustomer(db1, c.customer.value, c.key) else db1;
    With(SaveCase(db2, Engine.AfterReversal(c, e)), pending)
  }

  lemma ReversalUnfolds(db: Db, e: PaymentEvent, p: Settings)
    ensures var idle := e.key !in db.cases || db.cases[e.key].state == RecoveryReversed;
      && (idle ==> Engine.HandleReversal(db, e, p) == Ok((db, None)))
      && (!idle ==>
            var c := db.cases[e.key];
            var (db1, pending) := ClaimCancel(db, c, ReversalCancelKey(c.key), e.at, p);
            Engine.HandleReversal(db, e, p) == Reversed(db1, c, pending, e))
  {
    hide SaveCase, ClaimCancel, Engine.AfterReversal, Engine.OptOutCustomer;
  }

  // A failure says nothing about what the body left.
  lemma MatchesAnyContents<T(!new)>(r: Result<T, Fault>, model: Result<(Db, T), Fault>, after: Db, other: Db,
                                    timely: bool)
    requires Matches(r, model, after, timely) && r.Err?
    ensures Matches(r, model, other, timely)
  {
  }

  function Quietly(done: Result<(), Fault>): Result<Option<PendingCancel>, Fault> {
    if done.Ok? then Ok(None) else Err(done.error)
  }

  lemma NothingToCancel(done: Result<(), Fault>, model: Result<Db, Fault>, after: Db, timely: bool)
    requires Matches(done, Plain(model), after, timely)
    ensures Matches(Quietly(done), With(model, None), after, timely)
  {
  }

  lemma HandleUnfolds(db: Db, e: PaymentEvent, degraded: bool, p: Settings)
    ensures Engine.Handle(db, e, degraded, p) ==
      if IsFailureEvent(e.kind) then With(Engine.HandleFailure(db, e, degraded, p), None)
      else if IsSuccessEvent(e.kind) then Engine.HandleSuccess(db, e, p)
      else if IsLinkEvent(e.kind) then With(Engine.HandleLink(db, e), None)
      else Engine.HandleReversal(db, e, p)
  {
    hide Engine.HandleFailure, Engine.HandleSuccess, Engine.HandleLink, Engine.HandleReversal;
  }

  // What a cancel's answer makes of the case, once its action row is completed.
  function Settlement(db: Db, key: Key, answer: Answer<LinkStatus>, now: Time): Result<Db, Fault> {
    if key in db.cases then SaveCase(db, Engine.AfterCancel(db.cases[key], answer, now)) else Ok(db)
  }

  lemma CancelUnfolds(db: Db, pc: PendingCancel, answer: Answer<LinkStatus>, now: Time)
    ensures Engine.CancelCommit(db, pc, answer, now) ==
      Settlement(Engine.CompleteAction(db, pc.action, if answer.Refused? then Failed else Succeeded, Some(pc.link)),
                 pc.key, answer, now)
  {
    hide Engine.CompleteAction, SaveCase, Engine.AfterCancel;
  }

  lemma CommitUnfolds(db: Db, snapshot: RecoveryCase, d: Decision, now: Time)
    ensures Engine.CommitState(db, snapshot, d, now) ==
      if snapshot.key !in db.cases || db.cases[snapshot.key].version != snapshot.version
         || IsFinal(db.cases[snapshot.key].state) || !CanTransition(db.cases[snapshot.key].state, d.target)
      then (db, false)
      else Swapped(db, AfterPlan(db.cases[snapshot.key], d, now))
  {
    hide AllowedTransition, SaveCase;
  }

  function Swapped(db: Db, c: RecoveryCase): (Db, bool) {
    var saved := SaveCase(db, c);
    if saved.Ok? then (saved.value, true) else (db, false)
  }

  lemma CurrentSaves(db: Db, c: RecoveryCase, d: Decision, now: Time)
    requires c.key in db.cases && db.cases[c.key] == c
    ensures SaveCase(db, AfterPlan(c, d, now)).Ok?
  {
  }

  lemma KeyedRow(rows: map<Key, Row>, cases: map<Key, RecoveryCase>, k: Key)
    requires Indexed(rows, cases) && k in cases
    ensures cases[k].key == k
  {
  }

  // Losing a race is not an error, only a decision not applied.
  function Raced(saved: Result<RecoveryCase, Fault>): Result<bool, Fault> {
    if saved.Ok? then Ok(true) else if saved.error.VersionConflict? then Ok(false) else Err(saved.error)
  }

  lemma PlanMatches(before: Db, c: RecoveryCase, saved: Result<RecoveryCase, Fault>, after: Db)
    requires SaveOutcome(before, c, saved, after) && SaveCase(before, c).Ok?
    ensures Commits(Raced(saved), Ok(Swapped(before, c)), before, after, true)
  {
    VersionIsNoStamp(c);
    hide Stampable;
    if !Stampable(c) {
      assert !Stampable(Swapped(before, c).0.cases[c.key]);
    }
  }

  // The three ends of a link creation.
  function ParkedRefusal(db: Db, c: RecoveryCase, retryable: bool, now: Time): Result<(Db, bool), Fault> {
    var parked := AfterCreateRefused(c, retryable, now);
    if parked.Err? then Err(parked.error) else Flagged(SaveCase(db, parked.value), false)
  }

  function Flagged(r: Result<Db, Fault>, flag: bool): Result<(Db, bool), Fault> {
    if r.Ok? then Ok((r.value, flag)) else Err(r.error)
  }

  function RefusedLink(db: Db, key: Key, retryable: bool, now: Time): Result<(Db, bool), Fault> {
    var db1 := Engine.CompleteAction(db, CreateKey(key), Failed, None);
    if key !in db.cases || db.cases[key].state != ConsentRequired then Ok((db1, false))
    else ParkedRefusal(db1, db.cases[key], retryable, now)
  }

  function SentLink(db: Db, c: RecoveryCase, link: NewLink, now: Time): Result<(Db, bool), Fault> {
    var sent := AfterLinkCreated(c, link, now);
    if sent.Err? then Err(sent.error)
    else
      var saved := SaveCase(db, sent.value);
      if saved.Err? then Err(saved.error)
      else Ok((Engine.CompleteAction(saved.value, CreateKey(c.key), Succeeded, Some(link.id)), false))
  }

  lemma LinkUnfolds(db: Db, key: Key, answer: Answer<NewLink>, now: Time)
    requires key in db.cases ==> db.cases[key].key == key
    ensures Engine.CreateCommit(db, key, answer, now) ==
      if answer.Refused? then RefusedLink(db, key, answer.retryable, now)
      else if key !in db.cases || db.cases[key].state != ConsentRequired then
        Ok((Engine.CompleteAction(db, CreateKey(key), Superseded, Some(answer.value.id)), true))
      else SentLink(db, db.cases[key], answer.value, now)
  {
    CompletionKeepsCases(db, CreateKey(key), Failed, None);
    hide Engine.CompleteAction, SaveCase, AfterCreateRefused, AfterLinkCreated;
  }

  lemma CompletionKeepsCases(db: Db, ak: ActionKey, status: ActionStatus, link: Option<LinkId>)
    ensures Engine.CompleteAction(db, ak, status, link).cases == db.cases
  {
  }

  lemma FlagMatches(saved: Result<(), Fault>, model: Result<Db, Fault>, after: Db)
    requires Matches(saved, Plain(model), after, true)
    ensures Matches(if saved.Ok? then Ok(false) else Err(saved.error), Flagged(model, false), after, true)
  {
  }

  lemma SavedContents(saved: Result<(), Fault>, before: Db, c: RecoveryCase, after: Db)
    requires saved.Ok? && Matches(saved, Plain(SaveCase(before, c)), after, true)
    ensures SaveCase(before, c) == Ok(after)
  {
  }

  // Completing the action cannot make an unwritable case writable.
  lemma SentFails(saved: Result<(), Fault>, before: Db, c: RecoveryCase, after: Db, key: Key, link: NewLink,
                  timely: bool)
    requires saved.Err? && Matches(saved, Plain(SaveCase(before, c)), after, true)
    ensures var model := SaveCase(before, c);
      Matches<bool>(Err(saved.error),
        if model.Err? then Err(model.error)
        else Ok((Engine.CompleteAction(model.value, CreateKey(key), Succeeded, Some(link.id)), false)), after, timely)
  {
    hide Stampable;
    if SaveCase(before, c).Ok? {
      CompletionKeepsCases(SaveCase(before, c).value, CreateKey(key), Succeeded, Some(link.id));
    }
  }

  lemma RecordedTwice(db: Db, key: Key, now: Time)
    ensures !CreateIntent(db, key, now).1 ==> CreateIntent(db, key, now).0 == db
  {
  }

  function RefusalPlan(reason: Reason): Decision {
    Decision(RefusalTarget(reason), reason, None)
  }

  // Both ends of a timely transaction.
  lemma CommitEnds<T(!new)>(r: Result<T, Fault>, model: Result<(Db, T), Fault>, before: Db, after: Db)
    requires Commits(r, model, before, after, true)
    ensures r.Err? ==> after == before
    ensures r.Ok? ==> model.Ok? && after == model.value.0
    ensures r.Err? && model.Ok? ==> !Writable(model.value.0)
  {
  }

  lemma DropFlag(r: Result<bool, Fault>, model: (Db, bool), before: Db, after: Db)
    requires Commits(r, Ok(model), before, after, true)
    ensures Commits(if r.Ok? then Ok(()) else Err(r.error), Ok((model.0, ())), before, after, true)
  {
  }

  // What one attempt at a link does, by the check, the intent and the provider's answer.
  ghost predicate LinkAttempt(r: Result<(), Fault>, before: Db, after: Db, p: Settings, c: RecoveryCase, now: Time,
                              answer: Answer<NewLink>, called: bool)
  {
    var refusal := Engine.MayContact(before, p, c, now);
    if refusal.Some? then
      && !called
      && Commits(r, Ok((Engine.CommitState(before, c, RefusalPlan(refusal.value), now).0, ())), before, after, true)
    else if !InRange(now) then !called && r == Err(Fault.OutOfCalendar) && after == before
    else
      var (db1, recorded) := CreateIntent(before, c.key, now);
      if !recorded then !called && r == Ok(()) && after == before
      else
        && called
        && (r.Err? ==> after == db1)
        && var model := Engine.CreateCommit(db1, c.key, answer, now);
          && (r.Ok? ==> model.Ok? && after == model.value.0)
          && (r.Err? && model.Ok? ==> !Writable(model.value.0))
  }

  // A reopen that finds its case parked.
  function ReopenCommit(db: Db, key: Key, c: RecoveryCase, failureClass: Option<FailureClass>, degraded: bool,
                        now: Time,
                        p: Settings): Result<Db, Fault>
  {
    SaveCase(Engine.RecordAction(db, ReopenKey(key, now), Action(ActionStatus.Succeeded, 1, None, now)).0,
             Engine.AfterReopen(c, failureClass, degraded, now, p))
  }

  lemma ReopenUnfolds(db: Db, key: Key, failureClass: Option<FailureClass>, degraded: bool, now: Time, p: Settings)
    ensures Engine.Reopen(db, key, failureClass, degraded, now, p) ==
      if key !in db.cases then Err(NoSuchCase(key))
      else if db.cases[key].state != ManualReview then Err(NotInManualReview(db.cases[key].state))
      else ReopenCommit(db, key, db.cases[key], failureClass, degraded, now, p)
  {
    hide SaveCase, Engine.RecordAction, Engine.AfterReopen;
  }

  // The protocol state a dispatcher is in between two of its actions.
  ghost predicate Tracks(s: Sys, db: Db, p: Settings, d: nat) {
    s.db == db && s.p == p && Free(s, d)
  }

  lemma TrackedDb(s: Sys, db: Db, p: Settings, d: nat)
    requires Tracks(s, db, p, d)
    ensures s.db == db && s.p == p
  {
  }

  // Every case of the batch has been read, in one of these states.
  ghost predicate AllRead(s: Sys, states: set<CaseState>, batch: seq<RecoveryCase>) {
    forall c | c in batch :: c in s.seen && c.state in states
  }

  lemma ReadAll(s: Sys, db: Db, p: Settings, d: nat, states: set<CaseState>, now: Time, limit: Option<int>,
                batch: seq<RecoveryCase>) returns (s': Sys)
    requires Tracks(s, db, p, d) && IsDueBatch(db.cases, states, now, limit, batch)
    ensures Leads(s, s') && Tracks(s', db, p, d) && AllRead(s', states, batch)
    ensures s'.creates == s.creates && s'.issued == s.issued
  {
    hide Leads;
    BatchRows(db, states, now, limit, batch);
    s' := s.(seen := s.seen + set c | c in batch);
    ReadingLeads(s, batch);
  }

  lemma HasRead(s: Sys, states: set<CaseState>, batch: seq<RecoveryCase>, i: nat)
    requires AllRead(s, states, batch) && i < |batch|
    ensures batch[i] in s.seen && batch[i].state in states
  {
  }

  lemma StillRead(s: Sys, s': Sys, states: set<CaseState>, batch: seq<RecoveryCase>)
    requires AllRead(s, states, batch) && s.seen <= s'.seen
    ensures AllRead(s', states, batch)
  {
  }

  lemma ListingTracks(s: Sys, s': Sys, db: Db, p: Settings, d: nat)
    requires Tracks(s, db, p, d) && s' == s.(swept := s'.swept)
    ensures Tracks(s', db, p, d)
  {
  }

  // --------------------------------------------------------- provider calls

  // What the provider has been asked: links to create, links to cancel, and the recorded actions some of the cancels
  // were made for.
  datatype Calls = Calls(creates: seq<Key>, cancels: seq<LinkId>, keyed: seq<PendingCancel>)

  function ActionsOf(keyed: seq<PendingCancel>): seq<ActionKey> {
    seq(|keyed|, i requires 0 <= i < |keyed| => keyed[i].action)
  }

  function LinksOf(keyed: seq<PendingCancel>): seq<LinkId> {
    seq(|keyed|, i requires 0 <= i < |keyed| => keyed[i].link)
  }

  // The calls made meanwhile are those the protocol logs: creates by case, keyed cancels by action.
  ghost predicate Mirrored(s: Sys, s': Sys, log: Calls, log': Calls) {
    && log.creates <= log'.creates && s'.creates == s.creates + multiset(log'.creates[|log.creates|..])
    && log.keyed <= log'.keyed && s'.issued == s.issued + multiset(ActionsOf(log'.keyed[|log.keyed|..]))
  }

  lemma MirrorStarts(s: Sys, s': Sys, log: Calls)
    requires s'.creates == s.creates && s'.issued == s.issued
    ensures Mirrored(s, s', log, log)
  {
  }

  lemma MirrorGrows(s: Sys, s1: Sys, s2: Sys, log: Calls, log1: Calls, log2: Calls)
    requires Mirrored(s, s1, log, log1) && Mirrored(s1, s2, log1, log2)
    ensures Mirrored(s, s2, log, log2)
  {
    assert log2.creates[|log.creates|..] == log1.creates[|log.creates|..] + log2.creates[|log1.creates|..];
    var a, b := log1.keyed[|log.keyed|..], log2.keyed[|log1.keyed|..];
    assert log2.keyed[|log.keyed|..] == a + b;
    assert ActionsOf(a + b) == ActionsOf(a) + ActionsOf(b);
  }

  lemma MirrorsMore(s: Sys, s': Sys, log: Calls, log': Calls, asked: seq<Key>, keyed: seq<PendingCancel>)
    requires s'.creates == s.creates + multiset(asked) && s'.issued == s.issued + multiset(ActionsOf(keyed))
    requires log'.creates == log.creates + asked && log'.keyed == log.keyed + keyed
    ensures Mirrored(s, s', log, log')
  {
    assert log'.creates[|log.creates|..] == asked && log'.keyed[|log.keyed|..] == keyed;
  }

  // ------------------------------------------------------------ the passes

  // The timer pass: the due batch in order, each turn from what the one before it left; or as far as the first
  // decision whose case cannot be written.
  ghost predicate TimersDid(p: Settings, before: Db, turns: seq<R.Turn>, now: Time, after: Db, ok: bool) {
    && R.Chained(p, before, turns, now, after)
    && if !InRange(now) then turns == [] && !ok
       else
         exists batch :: IsDueBatch(before.cases, {Cooldown, RetryScheduled}, now, Some(p.dispatchBatchSize), batch)
                         && TimersTook(p, turns, now, after, ok, batch)
  }

  ghost predicate TimersTook(p: Settings, turns: seq<R.Turn>, now: Time, after: Db, ok: bool,
                             batch: seq<RecoveryCase>)
  {
    if ok then R.Taken(turns) == batch
    else R.Taken(turns) < batch && Stuck(p, turns, batch[|turns|], now, after)
  }

  ghost predicate Stuck(p: Settings, turns: seq<R.Turn>, c: RecoveryCase, now: Time, db: Db) {
    exists degraded ::
      var plan := R.Plan(db, R.BudgetOver(p, turns, now), p, c, degraded, now);
      plan.Some? && !Writable(Engine.CommitState(db, c, plan.value, now).0)
  }

  // One case of the link pass: what it found, what the provider answered if it was called, and how it ended.
  datatype LinkTurn = LinkTurn(c: RecoveryCase, db: Db, r: Result<(), Fault>, answer: Answer<NewLink>, called: bool)

  ghost predicate LinkChain(p: Settings, before: Db, turns: seq<LinkTurn>, now: Time, after: Db) {
    if turns == [] then after == before
    else
      var rest, t := turns[..|turns| - 1], turns[|turns| - 1];
      && LinkChain(p, before, rest, now, t.db)
      && (rest != [] ==> rest[|rest| - 1].r.Ok?)
      && LinkAttempt(t.r, t.db, after, p, t.c, now, t.answer, t.called)
  }

  function LinkCases(turns: seq<LinkTurn>): seq<RecoveryCase> {
    seq(|turns|, i requires 0 <= i < |turns| => turns[i].c)
  }

  // A link created for a case that no longer wants one, to be cancelled on the spot.
  function Unwanted(db: Db, key: Key, answer: Answer<NewLink>): seq<LinkId> {
    if answer.Accepted? && !(key in db.cases && db.cases[key].state.ConsentRequired?) then [answer.value.id] else []
  }

  // The cases the provider was asked to create a link for.
  function AskedFor(turns: seq<LinkTurn>): seq<Key> {
    if turns == [] then []
    else AskedFor(turns[..|turns| - 1]) + if turns[|turns| - 1].called then [turns[|turns| - 1].c.key] else []
  }

  // The links cancelled on the spot.
  function Superfluous(turns: seq<LinkTurn>): seq<LinkId> {
    if turns == [] then []
    else
      var t := turns[|turns| - 1];
      Superfluous(turns[..|turns| - 1]) + if t.called then Unwanted(t.db, t.c.key, t.answer) else []
  }

  // What one attempt asks of the provider.
  function AfterLink(log: Calls, t: LinkTurn): Calls {
    if !t.called then log
    else log.(creates := log.creates + [t.c.key], cancels := log.cancels + Unwanted(t.db, t.c.key, t.answer))
  }

  function AfterLinks(log: Calls, turns: seq<LinkTurn>): Calls {
    if turns == [] then log else AfterLink(AfterLinks(log, turns[..|turns| - 1]), turns[|turns| - 1])
  }

  // The answers are the provider's, call by call.
  ghost predicate LinksAnswered(turns: seq<LinkTurn>, script: nat -> Answer<NewLink>, log: Calls) {
    turns == [] ||
    var rest, t := turns[..|turns| - 1], turns[|turns| - 1];
    LinksAnswered(rest, script, log) && (t.called ==> t.answer == script(|AfterLinks(log, rest).creates|))
  }

  lemma {:induction false} LinkAnswersGrow(turns: seq<LinkTurn>, script: nat -> Answer<NewLink>, log: Calls,
                                           t: LinkTurn)
    requires LinksAnswered(turns, script, log)
    requires t.called ==> t.answer == script(|AfterLinks(log, turns).creates|)
    ensures LinksAnswered(turns + [t], script, log)
    ensures AfterLinks(log, turns + [t]) == AfterLink(AfterLinks(log, turns), t)
  {
    hide AfterLink;
    assert (turns + [t])[..|turns + [t]| - 1] == turns;
  }

  lemma {:induction false} LinkCalls(log: Calls, turns: seq<LinkTurn>)
    ensures AfterLinks(log, turns) ==
      Calls(log.creates + AskedFor(turns), log.cancels + Superfluous(turns), log.keyed)
  {
    hide Unwanted;
    if turns != [] {
      LinkCalls(log, turns[..|turns| - 1]);
    }
  }

  // The link pass: the due batch in order, or as far as the first attempt that failed.
  ghost predicate LinksDid(p: Settings, before: Db, turns: seq<LinkTurn>, now: Time, after: Db, ok: bool) {
    && LinkChain(p, before, turns, now, after)
    && if !InRange(now) then turns == [] && !ok
       else
         exists batch :: IsDueBatch(before.cases, {ConsentRequired}, now, Some(p.dispatchBatchSize), batch)
                         && Took(LinkCases(turns), batch, ok, turns != [] && turns[|turns| - 1].r.Err?)
  }

  // A pass took its whole batch, or stopped at the first failure.
  predicate Took<T(==)>(taken: seq<T>, batch: seq<T>, ok: bool, failed: bool) {
    taken <= batch && failed == !ok && (ok ==> taken == batch)
  }

  // One row of the cancel sweep.
  datatype SweepTurn = SweepTurn(ak: ActionKey, row: Action, db: Db, r: Result<(), Fault>, answer: Answer<LinkStatus>,
                                 called: bool)

  ghost predicate SweepChain(p: Settings, before: Db, turns: seq<SweepTurn>, now: Time, after: Db) {
    if turns == [] then after == before
    else
      var rest, t := turns[..|turns| - 1], turns[|turns| - 1];
      && SweepChain(p, before, rest, now, t.db)
      && (rest != [] ==> rest[|rest| - 1].r.Ok?)
      && SweepOutcome(t.r, t.db, after, p, t.ak, t.row, now, t.answer, t.called)
  }

  function SweptRows(turns: seq<SweepTurn>): seq<ActionKey> {
    seq(|turns|, i requires 0 <= i < |turns| => turns[i].ak)
  }

  // The cancel a swept row stands for: the link it recorded, else its case's.
  function CancelFor(t: SweepTurn): PendingCancel {
    var link := RowLink(t.row, Lookup(t.db, t.ak.key));
    PendingCancel(t.ak.key, t.ak, if link.Some? then link.value else "")
  }

  // The cancels the provider was asked for again.
  function Retried(turns: seq<SweepTurn>): seq<PendingCancel> {
    if turns == [] then []
    else
      var t := turns[|turns| - 1];
      Retried(turns[..|turns| - 1]) + if t.called then [CancelFor(t)] else []
  }

  function AfterSweep(log: Calls, t: SweepTurn): Calls {
    if !t.called then log
    else log.(cancels := log.cancels + [CancelFor(t).link], keyed := log.keyed + [CancelFor(t)])
  }

  function AfterSweeps(log: Calls, turns: seq<SweepTurn>): Calls {
    if turns == [] then log else AfterSweep(AfterSweeps(log, turns[..|turns| - 1]), turns[|turns| - 1])
  }

  ghost predicate SweepsAnswered(turns: seq<SweepTurn>, script: nat -> Answer<LinkStatus>, log: Calls) {
    turns == [] ||
    var rest, t := turns[..|turns| - 1], turns[|turns| - 1];
    SweepsAnswered(rest, script, log) && (t.called ==> t.answer == script(|AfterSweeps(log, rest).cancels|))
  }

  lemma {:induction false} SweepAnswersGrow(turns: seq<SweepTurn>, script: nat -> Answer<LinkStatus>, log: Calls,
                                            t: SweepTurn)
    requires SweepsAnswered(turns, script, log)
    requires t.called ==> t.answer == script(|AfterSweeps(log, turns).cancels|)
    ensures SweepsAnswered(turns + [t], script, log)
    ensures AfterSweeps(log, turns + [t]) == AfterSweep(AfterSweeps(log, turns), t)
  {
    hide AfterSweep;
    assert (turns + [t])[..|turns + [t]| - 1] == turns;
  }

  lemma {:induction false} SweepCalls(log: Calls, turns: seq<SweepTurn>)
    ensures AfterSweeps(log, turns) ==
      Calls(log.creates, log.cancels + LinksOf(Retried(turns)), log.keyed + Retried(turns))
    ensures |Retried(turns)| <= |turns|
  {
    hide CancelFor;
    if turns != [] {
      SweepCalls(log, turns[..|turns| - 1]);
      var t := turns[|turns| - 1];
      assert LinksOf(Retried(turns[..|turns| - 1]) + [CancelFor(t)]) ==
        LinksOf(Retried(turns[..|turns| - 1])) + [CancelFor(t).link];
    }
  }

  lemma OneAction(t: SweepTurn)
    ensures ActionsOf(if t.called then [CancelFor(t)] else []) == if t.called then [t.ak] else []
  {
  }

  lemma NoCalls(log: Calls, script: nat -> Answer<NewLink>, script': nat -> Answer<LinkStatus>)
    ensures log.creates + AskedFor([]) == log.creates && log.keyed + Retried([]) == log.keyed
    ensures log.cancels + Superfluous([]) == log.cancels && log.cancels + LinksOf(Retried([])) == log.cancels
    ensures LinksAnswered([], script, log) && SweepsAnswered([], script', log)
    ensures AfterLinks(log, []) == log
  {
  }

  // The sweep: the oldest failed cancels as they read at its start, or as far as the first that failed again.
  ghost predicate SweepsDid(p: Settings, before: Db, turns: seq<SweepTurn>, now: Time, after: Db, ok: bool) {
    && SweepChain(p, before, turns, now, after)
    && (forall t | t in turns :: t.ak in before.actions && t.row == before.actions[t.ak])
    && exists stale :: IsSweepBatch(before.actions, p.maxLinkCancelAttempts, p.linkCancelRetryBatch, stale)
                       && Took(SweptRows(turns), stale, ok, turns != [] && turns[|turns| - 1].r.Err?)
  }

  // A whole tick: three passes, each from what the one before it left, until one stops.
  datatype TickTrace = TickTrace(turns: seq<R.Turn>, timed: Db, timersOk: bool, links: seq<LinkTurn>, linked: Db,
                                 linksOk: bool, sweeps: seq<SweepTurn>)

  ghost predicate TickDid(p: Settings, before: Db, t: TickTrace, now: Time, after: Db, ok: bool) {
    && TimersDid(p, before, t.turns, now, t.timed, t.timersOk)
    && (if t.timersOk then LinksDid(p, t.timed, t.links, now, t.linked, t.linksOk)
        else t.links == [] && t.linked == t.timed && !t.linksOk)
    && (if t.linksOk then SweepsDid(p, t.linked, t.sweeps, now, after, ok)
        else t.sweeps == [] && after == t.linked && !ok)
  }

  // The link pass so far: the first `i` cases of its batch.
  ghost predicate Linking(p: Settings, before: Db, batch: seq<RecoveryCase>, i: nat, turns: seq<LinkTurn>, now: Time,
                          db: Db)
  {
    i <= |batch| && LinkCases(turns) == batch[..i] && LinkChain(p, before, turns, now, db)
  }

  lemma LinksStart(p: Settings, db: Db, batch: seq<RecoveryCase>, now: Time)
    ensures Linking(p, db, batch, 0, [], now, db)
    ensures !InRange(now) ==> LinksDid(p, db, [], now, db, false)
  {
    hide InRange;
  }

  lemma {:induction false} LinksGrow(p: Settings, before: Db, batch: seq<RecoveryCase>, i: nat, turns: seq<LinkTurn>,
                                     now: Time, t: LinkTurn, after: Db)
    requires Linking(p, before, batch, i, turns, now, t.db) && (turns != [] ==> turns[|turns| - 1].r.Ok?)
    requires i < |batch| && t.c == batch[i]
    requires LinkAttempt(t.r, t.db, after, p, t.c, now, t.answer, t.called)
    requires InRange(now) && IsDueBatch(before.cases, {ConsentRequired}, now, Some(p.dispatchBatchSize), batch)
    ensures Linking(p, before, batch, i + 1, turns + [t], now, after)
    ensures t.r.Err? ==> LinksDid(p, before, turns + [t], now, after, false)
  {
    hide LinkAttempt, InRange, IsDueBatch;
    var all := turns + [t];
    assert all[..|all| - 1] == turns;
    assert LinkCases(all) == LinkCases(turns) + [t.c];
    assert t.r.Err? ==> Took(LinkCases(all), batch, false, all != [] && all[|all| - 1].r.Err?);
  }

  lemma LinksEnd(p: Settings, before: Db, batch: seq<RecoveryCase>, turns: seq<LinkTurn>, now: Time, after: Db)
    requires Linking(p, before, batch, |batch|, turns, now, after) && (turns != [] ==> turns[|turns| - 1].r.Ok?)
    requires InRange(now) && IsDueBatch(before.cases, {ConsentRequired}, now, Some(p.dispatchBatchSize), batch)
    ensures LinksDid(p, before, turns, now, after, true)
  {
    hide InRange, IsDueBatch, LinkChain;
    assert Took(LinkCases(turns), batch, true, turns != [] && turns[|turns| - 1].r.Err?);
  }

  // The sweep so far: the first `i` rows of what was listed.
  ghost predicate Sweeping(p: Settings, before: Db, stale: seq<ActionKey>, i: nat, turns: seq<SweepTurn>, now: Time,
                           db: Db)
  {
    && i <= |stale| && SweptRows(turns) == stale[..i]
    && (forall t | t in turns :: t.ak in before.actions && t.row == before.actions[t.ak])
    && SweepChain(p, before, turns, now, db)
  }

  lemma SweepsStart(p: Settings, db: Db, stale: seq<ActionKey>, now: Time)
    ensures Sweeping(p, db, stale, 0, [], now, db)
  {
  }

  lemma {:induction false} SweepsGrow(p: Settings, before: Db, stale: seq<ActionKey>, i: nat, turns: seq<SweepTurn>,
                                      now: Time, t: SweepTurn, after: Db)
    requires Sweeping(p, before, stale, i, turns, now, t.db) && (turns != [] ==> turns[|turns| - 1].r.Ok?)
    requires i < |stale| && t.ak == stale[i] && t.ak in before.actions && t.row == before.actions[t.ak]
    requires SweepOutcome(t.r, t.db, after, p, t.ak, t.row, now, t.answer, t.called)
    ensures Sweeping(p, before, stale, i + 1, turns + [t], now, after)
    ensures IsSweepBatch(before.actions, p.maxLinkCancelAttempts, p.linkCancelRetryBatch, stale) && t.r.Err? ==>
      SweepsDid(p, before, turns + [t], now, after, false)
  {
    hide SweepOutcome, IsSweepBatch;
    var all := turns + [t];
    assert all[..|all| - 1] == turns;
    assert SweptRows(all) == SweptRows(turns) + [t.ak];
    assert t.r.Err? ==> Took(SweptRows(all), stale, false, all != [] && all[|all| - 1].r.Err?);
  }

  lemma SweepsEnd(p: Settings, before: Db, stale: seq<ActionKey>, turns: seq<SweepTurn>, now: Time, after: Db)
    requires Sweeping(p, before, stale, |stale|, turns, now, after) && (turns != [] ==> turns[|turns| - 1].r.Ok?)
    requires IsSweepBatch(before.actions, p.maxLinkCancelAttempts, p.linkCancelRetryBatch, stale)
    ensures SweepsDid(p, before, turns, now, after, true) && |turns| == |stale|
  {
    hide IsSweepBatch, SweepChain;
    assert Took(SweptRows(turns), stale, true, turns != [] && turns[|turns| - 1].r.Err?);
  }

  lemma PromotionSticks(r: Result<bool, Fault>, before: Db, after: Db, p: Settings, turns: seq<R.Turn>,
                        c: RecoveryCase, degraded: bool, now: Time)
    requires r.Err?
    requires var plan := R.Plan(before, R.BudgetOver(p, turns, now), p, c, degraded, now);
      if plan.None? then r == Ok(false) && after == before
      else Commits(r, Ok(Engine.CommitState(before, c, plan.value, now)), before, after, true)
    ensures after == before && Stuck(p, turns, c, now, before)
  {
    hide R.Plan, Engine.CommitState, R.BudgetOver, Writable;
    var plan := R.Plan(before, R.BudgetOver(p, turns, now), p, c, degraded, now);
    assert !Writable(Engine.CommitState(before, c, plan.value, now).0);
  }

  lemma BatchRows(db: Db, states: set<CaseState>, now: Time, limit: Option<int>, batch: seq<RecoveryCase>)
    requires IsDueBatch(db.cases, states, now, limit, batch)
    ensures forall c | c in batch :: c.key in db.cases && db.cases[c.key] == c && c.state in states
  {
  }

  lemma PromotionEnds(r: Result<bool, Fault>, before: Db, after: Db, p: Settings, budget: R.Budget, c: RecoveryCase,
                      degraded: bool, now: Time)
    requires r.Ok?
    requires var plan := R.Plan(before, budget, p, c, degraded, now);
      if plan.None? then after == before
      else Commits(r, Ok(Engine.CommitState(before, c, plan.value, now)), before, after, true)
    ensures after == R.Promoted(R.Turn(c, degraded, before), R.Plan(before, budget, p, c, degraded, now), now)
  {
    hide R.Plan, Engine.CommitState;
  }

  lemma PromotionLeads(s: Sys, d: nat, c: RecoveryCase, budget: R.Budget, degraded: bool, now: Time)
    requires Free(s, d) && c in s.seen && c.state in {Cooldown, RetryScheduled}
    ensures Leads(s, s.(db := R.Promoted(R.Turn(c, degraded, s.db), R.Plan(s.db, budget, s.p, c, degraded, now), now)))
  {
    hide Leads, PlanTimed, Engine.CommitState;
    if R.Due(c, now) {
      TimerLeads(s, d, c, degraded, R.SlotBudget(budget, s.p, c, degraded).1, R.ReleaseOffset(s.p, c.key), now);
    } else {
      LeadsNowhere(s);
    }
  }

  lemma LinkLeads(s: Sys, d: nat, c: RecoveryCase, answer: Answer<NewLink>, now: Time, r: Result<(), Fault>, after: Db,
                  called: bool) returns (s': Sys)
    requires Free(s, d) && c in s.seen && c.state.ConsentRequired?
    requires LinkAttempt(r, s.db, after, s.p, c, now, answer, called)
    ensures Leads(s, s') && Tracks(s', after, s.p, d) && s'.seen == s.seen && s'.issued == s.issued
    ensures s'.creates == s.creates + multiset(if called then [c.key] else [])
  {
    hide Leads, Engine.MayContact, Engine.CommitState, Engine.CreateCommit, CreateIntent, InRange;
    s' := s.(db := after);
    LeadsNowhere(s);
    if Engine.MayContact(s.db, s.p, c, now).Some? {
      RefusalLeads(s, d, c, now);
    } else if called && r.Ok? {
      CreationLeads(s, d, c, answer, now);
      var log :| Leads(s, Asked(s, c.key, now).(db := after, contacts := log));
      s' := Asked(s, c.key, now).(db := after, contacts := log);
    } else if called {
      LostCreationLeads(s, d, c, answer, now);
      s' := Asked(s, c.key, now);
    }
  }

  // The link a swept row would cancel.
  function RowLink(row: Action, c: Option<RecoveryCase>): Option<LinkId> {
    if row.link.Some? || c.None? then row.link else c.value.linkId
  }

  // What the sweep does with one failed cancel.
  ghost predicate SweepOutcome(r: Result<(), Fault>, before: Db, after: Db, p: Settings, ak: ActionKey, row: Action,
                               now: Time, answer: Answer<LinkStatus>, called: bool)
  {
    var c := Lookup(before, ak.key);
    var link := RowLink(row, c);
    if c.None? || link.None? then !called && r == Ok(()) && after == before
    else if c.value.linkStatus == Some(LinkStatus.Cancelled) then
      if ak in before.actions && !InRange(now) then !called && r == Err(Fault.OutOfCalendar) && after == before
      else !called && r == Ok(()) && after == Engine.CompleteAction(before, ak, Succeeded, None)
    else if !InRange(row.createdAt) then !called && r == Err(Fault.OutOfCalendar) && after == before
    else
      var (db1, won) := Engine.ClaimAction(before, ak, Action(ActionStatus.Started, 1, link, row.createdAt),
                                           p.maxLinkCancelAttempts);
      if !won then !called && r == Ok(()) && after == before
      else
        && called
        && Commits(r, Plain(Engine.CancelCommit(db1, PendingCancel(ak.key, ak, link.value), answer, now)), db1, after,
                   InRange(now))
  }

  lemma LostClaim(db: Db, ak: ActionKey, a: Action, max: int)
    ensures !Engine.ClaimAction(db, ak, a, max).1 ==> Engine.ClaimAction(db, ak, a, max).0 == db
  {
  }

  // Since the sweep read its batch: action rows stay, and cases keep their links.
  ghost predicate Standing(db0: Db, db: Db) {
    && (forall ak | ak in db0.actions :: ak in db.actions)
    && db.cases.Keys == db0.cases.Keys
    && (forall k | k in db0.cases :: db.cases[k].key == k && db.cases[k].linkId == db0.cases[k].linkId)
  }

  lemma StandingStill(rows: map<Key, Row>, db: Db)
    requires Indexed(rows, db.cases)
    ensures Standing(db, db)
  {
  }

  // The protocol has listed every failed cancel of the batch that names a link.
  ghost predicate AllListed(s: Sys, db0: Db, stale: seq<ActionKey>) {
    forall ak | ak in stale && SweptLink(db0, ak).Some? ::
      PendingCancel(ak.key, ak, SweptLink(db0, ak).value) in s.swept
  }

  lemma {:induction false} ListAll(s: Sys, stale: seq<ActionKey>, max: int) returns (s': Sys)
    requires forall ak | ak in stale :: ak in s.db.actions && Retryable(s.db.actions, ak, max)
    ensures Leads(s, s') && s' == s.(swept := s'.swept) && AllListed(s', s.db, stale)
  {
    hide Leads, SweptLink;
    if stale == [] {
      s' := s;
      LeadsNowhere(s);
    } else {
      var rest, ak := stale[..|stale| - 1], stale[|stale| - 1];
      assert forall x :: x in stale <==> x in rest || x == ak;
      var mid := ListAll(s, rest, max);
      s' := mid;
      if SweptLink(s.db, ak).Some? {
        s' := mid.(swept := mid.swept + {Listed(mid, ak)});
        ListingLeads(mid, ak);
        LeadsOn(s, mid, s');
      }
    }
  }

  lemma SweepRows(actions: map<ActionKey, Action>, stale: seq<ActionKey>, max: int, limit: int)
    requires IsSweepBatch(actions, max, limit, stale)
    ensures forall ak | ak in stale :: ak in actions && Retryable(actions, ak, max)
    ensures limit >= 0 ==> |stale| <= limit
  {
  }

  // One swept row moves the protocol on.
  lemma SweepLeads(s: Sys, db0: Db, stale: seq<ActionKey>, i: nat, now: Time, r: Result<(), Fault>, after: Db,
                   answer: Answer<LinkStatus>, called: bool) returns (s': Sys)
    requires i < |stale| && stale[i] in db0.actions && AllListed(s, db0, stale) && Standing(db0, s.db)
    requires SweepOutcome(r, s.db, after, s.p, stale[i], db0.actions[stale[i]], now, answer, called)
    ensures Leads(s, s') && s'.db == after && s'.p == s.p && s'.tasks == s.tasks && s'.dispatchers == s.dispatchers
    ensures s'.creates == s.creates && s'.issued == s.issued + multiset(if called then [stale[i]] else [])
    ensures AllListed(s', db0, stale) && Standing(db0, after)
  {
    hide Leads, CancelCommit, Engine.ClaimAction, Engine.CompleteAction, InRange, Matches;
    var ak := stale[i];
    var row, c := db0.actions[ak], Lookup(s.db, ak.key);
    var link := RowLink(row, c);
    s' := s.(db := after);
    LeadsNowhere(s);
    if c.Some? && link.Some? {
      assert link == SweptLink(db0, ak) && ak in stale;
      var pc := PendingCancel(ak.key, ak, link.value);
      assert pc in s.swept;
      if c.value.linkStatus == Some(LinkStatus.Cancelled) {
        s' := ClosedLeads(s, db0, pc, r.Ok?, after);
      } else if called {
        s' := RetriedLeads(s, db0, pc, row, answer, now, r, after);
      }
    }
  }

  lemma ClosedLeads(s: Sys, db0: Db, pc: PendingCancel, closed: bool, after: Db) returns (s': Sys)
    requires pc in s.swept && pc.key in s.db.cases && s.db.cases[pc.key].linkStatus == Some(LinkStatus.Cancelled)
    requires Standing(db0, s.db)
    requires after == if closed then Engine.CompleteAction(s.db, pc.action, Succeeded, None) else s.db
    ensures Leads(s, s') && s' == s.(db := after, closing := s'.closing) && Standing(db0, after)
  {
    LeadsNowhere(s);
    hide Leads;
    s' := s;
    if closed {
      ClosingLeads(s, pc);
      s' := s.(db := after, closing := s.closing + {pc.action});
    }
  }

  lemma RetriedLeads(s: Sys, db0: Db, pc: PendingCancel, row: Action, answer: Answer<LinkStatus>, now: Time,
                     r: Result<(), Fault>, after: Db) returns (s': Sys)
    requires pc in s.swept && pc.action in db0.actions && Standing(db0, s.db)
    requires var claim := Action(ActionStatus.Started, 1, Some(pc.link), row.createdAt);
      var (db1, won) := Engine.ClaimAction(s.db, pc.action, claim, s.p.maxLinkCancelAttempts);
      won && Commits(r, Plain(CancelCommit(db1, pc, answer, now)), db1, after, InRange(now))
    ensures Leads(s, s') && s' == s.(db := after, issued := s.issued + multiset{pc.action}) && Standing(db0, after)
  {
    hide Leads, CancelCommit, InRange;
    var a := Action(ActionStatus.Started, 1, Some(pc.link), 0);
    var db1 := Engine.ClaimAction(s.db, pc.action, a, s.p.maxLinkCancelAttempts).0;
    assert Claimable(s.db, pc.action, s.p.maxLinkCancelAttempts);
    RetryLeads(s, pc, answer, now, r.Ok?);
    s' := s.(db := after, issued := s.issued + multiset{pc.action});
    assert Standing(db0, db1);
    hide Standing;
    if r.Ok? {
      CancelStands(db0, db1, pc, answer, now);
    }
  }

  lemma CompletionKeepsRows(db: Db, ak: ActionKey, status: ActionStatus, link: Option<LinkId>)
    ensures Engine.CompleteAction(db, ak, status, link).actions.Keys == db.actions.Keys
  {
  }

  lemma CancelStands(db0: Db, db1: Db, pc: PendingCancel, answer: Answer<LinkStatus>, now: Time)
    requires Standing(db0, db1)
    ensures CancelCommit(db1, pc, answer, now).Ok? ==> Standing(db0, CancelCommit(db1, pc, answer, now).value)
  {
    if pc.key in db1.cases {
      var c := Engine.AfterCancel(db1.cases[pc.key], answer, now);
      assert c.key == db1.cases[pc.key].key && c.linkId == db1.cases[pc.key].linkId;
    }
    CompletionKeepsCases(db1, pc.action, if answer.Refused? then Failed else Succeeded, Some(pc.link));
    CompletionKeepsRows(db1, pc.action, if answer.Refused? then Failed else Succeeded, Some(pc.link));
    hide Engine.AfterCancel, Engine.CompleteAction;
  }

  // How a delivery ends once its transaction has: with the transaction's error; with nothing more to do; or with one
  // cancel asked of the provider under its recorded action, failing exactly as the commit of the answer does.
  ghost predicate DeliveryEnded(t: Result<Option<PendingCancel>, Fault>, r: Result<bool, Fault>, newly: bool,
                                committed: Db, after: Db, e: PaymentEvent, log: Calls, log': Calls,
                                script: nat -> Answer<LinkStatus>)
  {
    match t
    case Err(fault) => r == Err(fault) && after == committed && log' == log
    case Ok(None) => r == Ok(newly) && after == committed && log' == log
    case Ok(Some(pc)) =>
      && log' == log.(cancels := log.cancels + [pc.link], keyed := log.keyed + [pc])
      && (r.Ok? ==> r.value == newly)
      && Commits(Bare(r), Plain(Engine.CancelCommit(committed, pc, script(|log.cancels|), e.at)), committed, after,
                 InRange(e.at))
  }

  function Bare(r: Result<bool, Fault>): Result<(), Fault> {
    if r.Ok? then Ok(()) else Err(r.error)
  }

  lemma BareIs(c: Result<(), Fault>, newly: bool)
    ensures Bare(if c.Ok? then Ok(newly) else Err(c.error)) == c
  {
    if c.Ok? {
      assert c.value == ();
    }
  }

  // What the caller of a delivery learns: whether the event was new, or that it failed.
  function Told(r: Result<bool, Fault>): Option<bool> {
    if r.Ok? then Some(r.value) else None
  }

  // The transaction against its model: an event claimed before is passed over; otherwise it commits exactly when the
  // model does and everything it would leave can be written.
  lemma CommittedWell(t: Result<Option<PendingCancel>, Fault>, before: Db, committed: Db, e: PaymentEvent,
                      degraded: bool, p: Settings, timely: bool)
    requires Commits(t, Engine.Ingest(before, e, degraded, p), before, committed, timely)
    ensures e.id in before.claimed && t.Ok? ==> t == Ok(None) && committed == before
    ensures e.id in before.claimed && t.Err? ==> committed == before
  {
    hide Engine.Handle;
  }

  lemma DeliveryServes<H>(env: Env<H>, w: Plant<H>, e: PaymentEvent, t: Result<Option<PendingCancel>, Fault>,
                          r: Result<bool, Fault>, committed: Db, after: Db, health: H, log: Calls, log': Calls,
                          script: nat -> Answer<LinkStatus>)
    requires var degraded := env.observe(w.health, w.db, e).1;
      Commits(t, Engine.Ingest(w.db, e, degraded, env.p), w.db, committed, InRange(e.at))
    requires DeliveryEnded(t, r, e.id !in w.db.claimed, committed, after, e, log, log', script)
    requires !InRange(e.at) ==> t.Err?
    requires health == if InRange(e.at) && e.id !in w.db.claimed then env.observe(w.health, w.db, e).0 else w.health
    requires w.asked == log.cancels && env.answer(w.asked) == script(|log.cancels|)
    requires Writable(w.db) && Writable(committed) && Writable(after)
    ensures Serve(env, w, e) == (Plant(after, health, log'.cancels), Told(r))
  {
    hide Engine.Handle, Engine.CancelCommit, InRange, Writable;
  }

  lemma DeliveryRuns(s: Sys, t: Result<Option<PendingCancel>, Fault>, r: Result<bool, Fault>, committed: Db, after: Db,
                     e: PaymentEvent, degraded: bool, log: Calls, log': Calls, script: nat -> Answer<LinkStatus>)
    returns (s': Sys)
    requires Commits(t, Engine.Ingest(s.db, e, degraded, s.p), s.db, committed, InRange(e.at))
    requires DeliveryEnded(t, r, e.id !in s.db.claimed, committed, after, e, log, log', script)
    ensures Leads(s, s') && s' == s.(db := after, issued := s'.issued) && Mirrored(s, s', log, log')
  {
    hide Engine.Ingest, Leads, Engine.CancelCommit, InRange, Writable, Mirrored;
    s' := s.(db := after);
    LeadsNowhere(s);
    if t.Ok? {
      var pending := t.value;
      DeliveryLeads(s, e, degraded, script(|log.cancels|), e.at, r.Ok?);
      if pending.Some? {
        s' := s.(db := after, issued := s.issued + multiset{pending.value.action});
        assert ActionsOf([pending.value]) == [pending.value.action];
        MirrorsMore(s, s', log, log', [], [pending.value]);
      } else {
        MirrorStarts(s, s', log);
      }
    } else {
      MirrorStarts(s, s', log);
    }
  }

  lemma FreshIsStampable(e: PaymentEvent)
    ensures var c := FromFailedEvent(e);
      (Stampable(c) <==> InRange(e.at)) && c.key == e.key && c.state == Open
  {
  }
}
