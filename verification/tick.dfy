// What the service's dispatch tick means for release control and for the provider: the tick is one of the ticks the
// draining theorems speak of, and the calls it makes are bounded by the protocol's own bounds.
module Ticks {
  import opened Base
  import opened Models
  import opened Engine
  import opened Effects
  import opened Stamps
  import opened Rows
  import opened Queries
  import opened Protocol
  import opened ProtocolTheorems
  import opened Refinement
  import opened RunSafety
  import opened ServiceModel
  import R = Release

  // ------------------------------------------------------------ the provider

  // From a reachable state whose logs are the calls the provider has had, a run of the protocol that logs every
  // further call leaves the provider with at most one create per case and max(1, limit) calls per recorded cancel.
  lemma CallsAreBounded(s: Sys, s': Sys, log: Calls, log': Calls)
    requires Reachable(s) && s.creates == multiset(log.creates) && s.issued == multiset(ActionsOf(log.keyed))
    requires Leads(s, s') && Mirrored(s, s', log, log')
    ensures Reachable(s') && s'.creates == multiset(log'.creates) && s'.issued == multiset(ActionsOf(log'.keyed))
    ensures forall i, j | 0 <= i < j < |log'.creates| :: log'.creates[i] != log'.creates[j]
    ensures forall ak: ActionKey | ak.IsCancel() ::
      multiset(ActionsOf(log'.keyed))[ak] <= Max(1, s'.p.maxLinkCancelAttempts)
  {
    hide Leads, Reachable, Safe;
    ReachableOn(s, s');
    var more := log'.keyed[|log.keyed|..];
    assert log'.creates == log.creates + log'.creates[|log.creates|..] && log'.keyed == log.keyed + more;
    assert ActionsOf(log.keyed + more) == ActionsOf(log.keyed) + ActionsOf(more);
    LoggedCalls(s', log'.creates, ActionsOf(log'.keyed));
  }

  lemma LoggedCalls(s: Sys, creates: seq<Key>, keyed: seq<ActionKey>)
    requires Reachable(s) && s.creates == multiset(creates) && s.issued == multiset(keyed)
    ensures forall i, j | 0 <= i < j < |creates| :: creates[i] != creates[j]
    ensures forall ak: ActionKey | ak.IsCancel() :: multiset(keyed)[ak] <= Max(1, s.p.maxLinkCancelAttempts)
  {
    hide Reachable;
    forall i, j | 0 <= i < j < |creates| ensures creates[i] != creates[j] {
      OneLinkPerCase(s, creates[i]);
      if creates[i] == creates[j] {
        TwiceCounts(creates, i, j);
      }
    }
    forall ak: ActionKey | ak.IsCancel() ensures multiset(keyed)[ak] <= Max(1, s.p.maxLinkCancelAttempts) {
      CancelsAreBounded(s, ak);
    }
  }

  lemma TwiceCounts<T>(s: seq<T>, i: nat, j: nat)
    requires i < j < |s| && s[i] == s[j]
    ensures multiset(s)[s[i]] >= 2
  {
    assert s == s[..j] + s[j..];
    assert s[..j][i] == s[i] && s[j..][0] == s[i];
    assert s[i] in multiset(s[..j]) && s[i] in multiset(s[j..]);
  }

  // ----------------------------------------------------------- the parking

  // The same cases cooling down, each on the same rail and for as long.
  predicate Stands(c: RecoveryCase, c': RecoveryCase) {
    && c'.key == c.key && (c'.state.Cooldown? <==> c.state.Cooldown?)
    && (c.state.Cooldown? ==> c'.failure == c.failure && c'.nextActionAt == c.nextActionAt)
  }

  ghost predicate ParkingStands(db: Db, db': Db) {
    db'.cases.Keys == db.cases.Keys && forall k | k in db.cases :: Stands(db.cases[k], db'.cases[k])
  }

  lemma StandsOn(a: Db, b: Db, c: Db)
    requires ParkingStands(a, b) && ParkingStands(b, c)
    ensures ParkingStands(a, c)
  {
  }

  lemma SameCasesStand(db: Db, db': Db)
    requires db'.cases == db.cases
    ensures ParkingStands(db, db')
  {
  }

  lemma StandingIsParking(db: Db, db': Db, slot: R.Slot)
    requires ParkingStands(db, db')
    ensures R.SameParking(db, db', slot)
    ensures Keyed(db) ==> Keyed(db')
  {
  }

  // Only one row is rewritten.
  ghost predicate Rewrites(db: Db, db': Db, k: Key) {
    db'.cases.Keys == db.cases.Keys && forall j | j in db.cases && j != k :: db'.cases[j] == db.cases[j]
  }

  lemma RewriteStands(db: Db, db': Db, k: Key)
    requires Rewrites(db, db', k) && (k in db.cases ==> Stands(db.cases[k], db'.cases[k]))
    ensures ParkingStands(db, db')
  {
  }

  lemma RefusalStands(db: Db, p: Settings, c: RecoveryCase, now: Time)
    requires c.key in db.cases && db.cases[c.key] == c && c.state.ConsentRequired?
    requires Engine.MayContact(db, p, c, now).Some?
    ensures var db' := Engine.CommitState(db, c, RefusalPlan(Engine.MayContact(db, p, c, now).value), now).0;
      Rewrites(db, db', c.key) && Stands(db.cases[c.key], db'.cases[c.key])
  {
    hide Engine.MayContact;
  }

  lemma CreationStands(db: Db, c: RecoveryCase, answer: Answer<NewLink>, now: Time)
    requires c.key in db.cases && db.cases[c.key] == c && c.state.ConsentRequired?
    ensures var r := Engine.CreateCommit(db, c.key, answer, now);
      r.Ok? ==> Rewrites(db, r.value.0, c.key) && Stands(db.cases[c.key], r.value.0.cases[c.key])
  {
    hide AllowedTransition;
  }

  // One attempt at a link leaves the parking alone.
  lemma AttemptStands(p: Settings, t: LinkTurn, after: Db, now: Time)
    requires LinkAttempt(t.r, t.db, after, p, t.c, now, t.answer, t.called)
    requires t.c.key in t.db.cases && t.db.cases[t.c.key] == t.c && t.c.state.ConsentRequired?
    ensures ParkingStands(t.db, after) && Rewrites(t.db, after, t.c.key)
  {
    hide Engine.MayContact, Engine.CommitState, Engine.CreateCommit, ParkingStands, Rewrites, InRange, Writable;
    SameCasesStand(t.db, t.db);
    SameRewrites(t.db, t.db, t.c.key);
    if Engine.MayContact(t.db, p, t.c, now).Some? {
      RefusalStands(t.db, p, t.c, now);
      RewriteStands(t.db, Engine.CommitState(t.db, t.c, RefusalPlan(Engine.MayContact(t.db, p, t.c, now).value),
                                             now).0, t.c.key);
    } else if t.called {
      var db1 := CreateIntent(t.db, t.c.key, now).0;
      SameCasesStand(t.db, db1);
      SameRewrites(t.db, db1, t.c.key);
      if t.r.Ok? {
        CreationStands(db1, t.c, t.answer, now);
        RewriteStands(db1, after, t.c.key);
        StandsOn(t.db, db1, after);
        RewritesOn(t.db, db1, after, t.c.key);
      }
    }
  }

  lemma SameRewrites(db: Db, db': Db, k: Key)
    requires db'.cases == db.cases
    ensures Rewrites(db, db', k)
  {
  }

  lemma RewritesOn(db: Db, db1: Db, db': Db, k: Key)
    requires db1.cases == db.cases && Rewrites(db1, db', k)
    ensures Rewrites(db, db', k)
  {
  }

  // Distinct rows waiting for consent, as they are.
  ghost predicate Waiting(db: Db, batch: seq<RecoveryCase>) {
    && (forall c | c in batch :: c.key in db.cases && db.cases[c.key] == c && c.state.ConsentRequired?)
    && (forall i, j | 0 <= i < j < |batch| :: batch[i].key != batch[j].key)
  }

  lemma WaitingPrefix(db: Db, batch: seq<RecoveryCase>, rest: seq<RecoveryCase>, c: RecoveryCase)
    requires Waiting(db, batch) && batch == rest + [c]
    ensures Waiting(db, rest) && c.key in db.cases && db.cases[c.key] == c && c.state.ConsentRequired?
    ensures forall x | x in rest :: x.key != c.key
  {
    assert c in batch && forall x | x in rest :: x in batch;
    assert forall i | 0 <= i < |rest| :: batch[i] == rest[i];
    assert batch[|rest|] == c;
  }

  // The pass leaves the parking alone, and every row outside its batch as it was.
  lemma {:induction false} LinksStand(p: Settings, before: Db, turns: seq<LinkTurn>, now: Time, after: Db)
    requires LinkChain(p, before, turns, now, after) && Waiting(before, LinkCases(turns))
    ensures ParkingStands(before, after)
    ensures forall k | k in before.cases && (forall c | c in LinkCases(turns) :: c.key != k) ::
      after.cases[k] == before.cases[k]
  {
    hide LinkAttempt, Waiting, ParkingStands;
    if turns == [] {
      SameCasesStand(before, before);
    } else {
      var rest, t := turns[..|turns| - 1], turns[|turns| - 1];
      assert LinkCases(turns) == LinkCases(rest) + [t.c];
      WaitingPrefix(before, LinkCases(turns), LinkCases(rest), t.c);
      LinksStand(p, before, rest, now, t.db);
      KeysStand(before, t.db);
      AttemptStands(p, t, after, now);
      StandsOn(before, t.db, after);
      hide LinkCases;
      forall k | k in before.cases && (forall c | c in LinkCases(turns) :: c.key != k)
        ensures after.cases[k] == before.cases[k]
      {
        assert t.c in LinkCases(turns);
        assert forall c | c in LinkCases(rest) :: c in LinkCases(turns);
      }
    }
  }

  lemma KeysStand(db: Db, db': Db)
    requires ParkingStands(db, db')
    ensures db'.cases.Keys == db.cases.Keys
  {
  }

  lemma BatchWaits(db: Db, now: Time, limit: Option<int>, batch: seq<RecoveryCase>, taken: seq<RecoveryCase>)
    requires IsDueBatch(db.cases, {ConsentRequired}, now, limit, batch) && taken <= batch
    ensures Waiting(db, taken)
  {
    assert forall c | c in taken :: c in batch;
    RowsDiffer(db.cases, batch);
    assert forall i | 0 <= i < |taken| :: taken[i] == batch[i];
  }

  // Rows in strict order are different rows.
  lemma RowsDiffer(cases: map<Key, RecoveryCase>, batch: seq<RecoveryCase>)
    requires Ordered(batch) && forall c | c in batch :: c.key in cases && cases[c.key] == c
    ensures forall i, j | 0 <= i < j < |batch| :: batch[i].key != batch[j].key
  {
    hide TextLess;
    forall i, j | 0 <= i < j < |batch| ensures batch[i].key != batch[j].key {
      assert batch[i] in batch && batch[j] in batch && CaseBefore(batch[i], batch[j]);
      NotBelowItself(batch[i].key);
    }
  }

  lemma ClaimStands(db: Db, ak: ActionKey, a: Action, max: int)
    ensures Engine.ClaimAction(db, ak, a, max).0.cases == db.cases
  {
  }

  lemma OutcomeStands(db: Db, pc: PendingCancel, answer: Answer<LinkStatus>, now: Time)
    requires Keyed(db)
    ensures var r := Engine.CancelCommit(db, pc, answer, now);
      r.Ok? ==> ParkingStands(db, r.value)
  {
    CompletionKeepsCases(db, pc.action, if answer.Refused? then Failed else Succeeded, Some(pc.link));
    hide Engine.CompleteAction;
  }

  // One row of the sweep leaves the parking alone.
  lemma SweepStands(p: Settings, t: SweepTurn, after: Db, now: Time)
    requires Keyed(t.db) && SweepOutcome(t.r, t.db, after, p, t.ak, t.row, now, t.answer, t.called)
    ensures ParkingStands(t.db, after)
  {
    hide Engine.ClaimAction, Engine.CompleteAction, Engine.CancelCommit, ParkingStands, InRange, Keyed, Writable;
    var c := Lookup(t.db, t.ak.key);
    var link := RowLink(t.row, c);
    SameCasesStand(t.db, t.db);
    CompletionKeepsCases(t.db, t.ak, Succeeded, None);
    SameCasesStand(t.db, Engine.CompleteAction(t.db, t.ak, Succeeded, None));
    if t.called {
      var a := Action(ActionStatus.Started, 1, link, t.row.createdAt);
      var db1 := Engine.ClaimAction(t.db, t.ak, a, p.maxLinkCancelAttempts).0;
      ClaimStands(t.db, t.ak, a, p.maxLinkCancelAttempts);
      SameCasesStand(t.db, db1);
      SameKeyed(t.db, db1);
      if t.r.Ok? {
        OutcomeStands(db1, PendingCancel(t.ak.key, t.ak, link.value), t.answer, now);
        StandsOn(t.db, db1, after);
      }
    }
  }

  lemma SameKeyed(db: Db, db': Db)
    requires Keyed(db) && db'.cases == db.cases
    ensures Keyed(db')
  {
  }

  lemma {:induction false} SweepsStand(p: Settings, before: Db, turns: seq<SweepTurn>, now: Time, after: Db)
    requires SweepChain(p, before, turns, now, after) && Keyed(before)
    ensures ParkingStands(before, after)
  {
    hide SweepOutcome, ParkingStands, Keyed;
    if turns == [] {
      SameCasesStand(before, before);
    } else {
      var rest, t := turns[..|turns| - 1], turns[|turns| - 1];
      SweepsStand(p, before, rest, now, t.db);
      StandingIsParking(before, t.db, ("", Card));
      SweepStands(p, t, after, now);
      StandsOn(before, t.db, after);
    }
  }

  // Nothing changes a case between its check and its link in one pass, so no link is created only to be cancelled.
  lemma {:induction false} PassWastesNoLink(p: Settings, before: Db, turns: seq<LinkTurn>, now: Time, after: Db)
    requires LinkChain(p, before, turns, now, after) && Waiting(before, LinkCases(turns))
    ensures Superfluous(turns) == []
  {
    hide LinkAttempt, Waiting, ParkingStands;
    if turns != [] {
      var rest, t := turns[..|turns| - 1], turns[|turns| - 1];
      assert LinkCases(turns) == LinkCases(rest) + [t.c];
      WaitingPrefix(before, LinkCases(turns), LinkCases(rest), t.c);
      PassWastesNoLink(p, before, rest, now, t.db);
      LinksStand(p, before, rest, now, t.db);
      KeysStand(before, t.db);
    }
  }

  // So the only links a tick asks the provider to cancel are those of the failed cancels it sweeps.
  lemma TickWastesNoLink(p: Settings, before: Db, t: TickTrace, now: Time, after: Db, ok: bool)
    requires TickDid(p, before, t, now, after, ok)
    ensures Superfluous(t.links) == []
  {
    hide LinkChain, R.Chained, SweepChain, InRange, IsDueBatch, IsSweepBatch, Waiting;
    if t.links != [] {
      var batch :| IsDueBatch(t.timed.cases, {ConsentRequired}, now, Some(p.dispatchBatchSize), batch)
                   && Took(LinkCases(t.links), batch, t.linksOk, t.links != [] && t.links[|t.links| - 1].r.Err?);
      BatchWaits(t.timed, now, Some(p.dispatchBatchSize), batch, LinkCases(t.links));
      PassWastesNoLink(p, t.timed, t.links, now, t.linked);
    }
  }

  // ------------------------------------------------------------- the tick

  lemma PromotionKeyed(t: R.Turn, d: Option<Decision>, now: Time)
    requires Keyed(t.db)
    ensures Keyed(R.Promoted(t, d, now))
  {
    hide AllowedTransition;
  }

  lemma {:induction false} TimersKeyed(p: Settings, before: Db, turns: seq<R.Turn>, now: Time, after: Db)
    requires R.Chained(p, before, turns, now, after) && Keyed(before)
    ensures Keyed(after)
    decreases |turns|
  {
    hide Keyed, R.Promoted, R.DecisionAt;
    if turns != [] {
      var i := |turns| - 1;
      TimersKeyed(p, before, turns[..i], now, turns[i].db);
      PromotionKeyed(turns[i], R.DecisionAt(p, turns, i, now), now);
    }
  }

  // Whatever the rest of a tick does, it parks nothing, unparks nothing and moves no parked case's hour.
  lemma RestOfTickStands(p: Settings, before: Db, t: TickTrace, now: Time, after: Db, ok: bool)
    requires TickDid(p, before, t, now, after, ok) && Keyed(before)
    ensures ParkingStands(t.timed, after)
  {
    hide Keyed, ParkingStands, R.Chained, LinkChain, SweepChain, InRange, IsDueBatch, IsSweepBatch, Waiting;
    TimersKeyed(p, before, t.turns, now, t.timed);
    SameCasesStand(t.timed, t.timed);
    if t.timersOk {
      LinkPassStands(p, t.timed, t.links, now, t.linked, t.linksOk);
      StandingIsParking(t.timed, t.linked, ("", Card));
      if t.linksOk {
        SweepsStand(p, t.linked, t.sweeps, now, after);
        StandsOn(t.timed, t.linked, after);
      }
    }
  }

  lemma LinkPassStands(p: Settings, before: Db, turns: seq<LinkTurn>, now: Time, after: Db, ok: bool)
    requires LinksDid(p, before, turns, now, after, ok)
    ensures ParkingStands(before, after)
  {
    hide ParkingStands, LinkChain, IsDueBatch, Waiting;
    if turns == [] {
      NothingWaits(before, LinkCases(turns));
    } else {
      var batch :| IsDueBatch(before.cases, {ConsentRequired}, now, Some(p.dispatchBatchSize), batch)
                   && Took(LinkCases(turns), batch, ok, turns != [] && turns[|turns| - 1].r.Err?);
      BatchWaits(before, now, Some(p.dispatchBatchSize), batch, LinkCases(turns));
    }
    LinksStand(p, before, turns, now, after);
  }

  lemma NothingWaits(db: Db, batch: seq<RecoveryCase>)
    requires batch == []
    ensures Waiting(db, batch)
  {
  }

  // The rail is healthy at the tick's instant, as the turns of the timer pass found it, and all its due cases were
  // taken, as they are whenever the batch is not full.
  ghost predicate HealthyTick(p: Settings, db: Db, t: TickTrace, slot: R.Slot, now: Time) {
    && t.timersOk
    && (|t.turns| != p.dispatchBatchSize || TakesAll(db, t.turns, slot, now))
    && forall turn | turn in t.turns && R.SlotOf(turn.c) == slot :: !turn.degraded
  }

  ghost predicate TakesAll(db: Db, turns: seq<R.Turn>, slot: R.Slot, now: Time) {
    forall k | k in R.Parked(db, slot) && R.Due(db.cases[k], now) :: k in R.Seen(R.Taken(turns), slot)
  }

  lemma BatchCovers(db: Db, now: Time, limit: int, batch: seq<RecoveryCase>, slot: R.Slot, turns: seq<R.Turn>)
    requires IsDueBatch(db.cases, {Cooldown, RetryScheduled}, now, Some(limit), batch)
    requires |batch| != limit || TakesAll(db, turns, slot, now)
    requires Keyed(db) && R.Taken(turns) == batch
    requires forall k | k in db.cases && (db.cases[k].state.Cooldown? || db.cases[k].state.RetryScheduled?) ::
      db.cases[k].nextActionAt.Some?
    requires forall turn | turn in turns && R.SlotOf(turn.c) == slot :: !turn.degraded
    ensures R.Covering(db, slot, now, turns)
  {
    RowsDiffer(db.cases, batch);
    hide Ordered, CaseBefore;
    assert forall i | 0 <= i < |batch| :: batch[i] in batch;
    forall k | k in R.Parked(db, slot) && R.Due(db.cases[k], now) ensures k in R.Seen(batch, slot) {
      if |batch| != limit {
        assert db.cases[k] in batch;
      }
    }
  }

  // A tick of the service whose timer pass found the rail healthy and took its due cases is a tick of the draining
  // theorems, whatever its link pass and its sweep did.
  lemma ServiceTicks(s: Sys, t: TickTrace, now: Time, after: Db, ok: bool, slot: R.Slot)
    requires Reachable(s) && TickDid(s.p, s.db, t, now, after, ok) && HealthyTick(s.p, s.db, t, slot, now)
    ensures R.Tick(s.db, after, s.p, slot, now)
  {
    ReachableRows(s);
    hide Reachable, Keyed, LinksDid, SweepsDid, InRange, IsDueBatch, R.Covering, R.Chained;
    RestOfTickStands(s.p, s.db, t, now, after, ok);
    StandingIsParking(t.timed, after, slot);
    hide ParkingStands, R.SameParking;
    var batch :| IsDueBatch(s.db.cases, {Cooldown, RetryScheduled}, now, Some(s.p.dispatchBatchSize), batch)
                 && TimersTook(s.p, t.turns, now, t.timed, true, batch);
    BatchCovers(s.db, now, s.p.dispatchBatchSize, batch, slot, t.turns);
    assert R.TickOver(s.db, after, s.p, slot, now, t.turns, t.timed);
  }

  lemma ReachableRows(s: Sys)
    requires Reachable(s)
    ensures Keyed(s.db)
    ensures forall k | k in s.db.cases && (s.db.cases[k].state.Cooldown? || s.db.cases[k].state.RetryScheduled?) ::
      s.db.cases[k].nextActionAt.Some?
  {
    forall k | k in s.db.cases
      ensures s.db.cases[k].key == k
      ensures s.db.cases[k].state.Cooldown? || s.db.cases[k].state.RetryScheduled? ==>
                s.db.cases[k].nextActionAt.Some?
    {
      CommittedRows(s, k);
    }
    hide Reachable;
  }

  // A run of service ticks from reachable states, at least one jitter apart, the rail healthy and nothing parked or
  // unparked in between.
  ghost predicate HealthyTicks(states: seq<Sys>, traces: seq<TickTrace>, afters: seq<Db>, times: seq<Time>,
                               slot: R.Slot)
  {
    && |states| == |times| + 1 && |traces| == |afters| == |times|
    && (forall i | 0 <= i < |states| :: Reachable(states[i]) && states[i].p == states[0].p)
    && (forall i | 0 <= i < |times| :: HealthyTickAt(states, traces, afters, times, slot, i))
    && (forall i | 0 < i < |times| :: times[i] - times[i - 1] >= states[0].p.releaseJitter)
  }

  ghost predicate HealthyTickAt(states: seq<Sys>, traces: seq<TickTrace>, afters: seq<Db>, times: seq<Time>,
                                slot: R.Slot, i: nat)
    requires i < |times| && i + 1 < |states| && i < |traces| && i < |afters|
  {
    && HealthyTick(states[i].p, states[i].db, traces[i], slot, times[i])
    && (exists ok :: TickDid(states[i].p, states[i].db, traces[i], times[i], afters[i], ok))
    && R.SameParking(afters[i], states[i + 1].db, slot)
  }

  // A recovered outage drains: from N parked cases, all due, each tick of the service releases a full quota until
  // none is left, so they are gone after ceil(N / quota) ticks and not before.
  lemma OutageDrains(states: seq<Sys>, traces: seq<TickTrace>, afters: seq<Db>, times: seq<Time>, slot: R.Slot)
    requires HealthyTicks(states, traces, afters, times, slot) && states[0].p.maxReleasesPerTick > 0
    requires times != [] ==> R.AllDueBy(states[0].db, slot, times[0])
    ensures var quota, n := states[0].p.maxReleasesPerTick, |R.Parked(states[0].db, slot)|;
      var left := |R.Parked(states[|times|].db, slot)|;
      left == Max(0, n - |times| * quota) && (left == 0 <==> |times| * quota >= n)
  {
    var p := states[0].p;
    var dbs := seq(|states|, i requires 0 <= i < |states| => states[i].db);
    forall i | 0 <= i < |times| ensures R.Tick(dbs[i], dbs[i + 1], p, slot, times[i]) {
      assert HealthyTickAt(states, traces, afters, times, slot, i);
      var ok :| TickDid(states[i].p, states[i].db, traces[i], times[i], afters[i], ok);
      assert states[i].p == p;
      ServiceTicks(states[i], traces[i], times[i], afters[i], ok, slot);
      TickGoesOn(dbs[i], afters[i], dbs[i + 1], p, slot, times[i]);
    }
    R.BacklogDrains(dbs, times, p, slot);
  }

  lemma TickGoesOn(db: Db, after: Db, later: Db, p: Settings, slot: R.Slot, now: Time)
    requires R.Tick(db, after, p, slot, now) && R.SameParking(after, later, slot)
    ensures R.Tick(db, later, p, slot, now)
  {
    hide R.Covering, R.Chained;
    var turns, timed :| R.TickOver(db, after, p, slot, now, turns, timed);
    assert R.TickOver(db, later, p, slot, now, turns, timed);
  }
}
