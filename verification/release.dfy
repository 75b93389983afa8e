// Release control (app/service.py:135-310): how a recovered outage drains, one bounded tick at a time.
module Release {
  import opened Base
  import opened Models
  import opened Engine

  type Slot = (string, Rail)

  // Slots used so far in a tick.
  type Budget = map<Slot, int>

  function SlotOf(c: RecoveryCase): Slot {
    (c.failure.issuer, c.failure.rail)
  }

  function Used(b: Budget, slot: Slot): int {
    if slot in b then b[slot] else 0
  }

  // A case's hash, in seconds, once all whole windows are taken off it.
  predicate Spreads(offset: int, hash: nat, window: int)
    requires window > 0
  {
    offset % SECOND == 0 && hash == window * (hash / window) + offset / SECOND
  }

  lemma RemainderSpreads(hash: nat, window: int)
    requires window > 0
    ensures Spreads(SECOND * (hash % window), hash, window)
  {
    assert SECOND * (hash % window) / SECOND == hash % window;
  }

  // A stable per-invoice offset: whole seconds inside the jitter window.
  function ReleaseOffset(p: Settings, key: Key): (r: int)
    ensures 0 <= r
    ensures p.releaseJitter >= SECOND ==> r < p.releaseJitter
    ensures p.releaseJitter < SECOND ==> r == 0
    ensures p.releaseJitter >= SECOND ==> Spreads(r, p.digest(key), p.releaseJitter / SECOND)
  {
    var window := p.releaseJitter / SECOND;
    if window <= 0 then 0
    else
      RemainderSpreads(p.digest(key), window);
      SECOND * (p.digest(key) % window)
  }

  // One of this issuer's release slots, if the tick has any left.
  function ClaimSlot(b: Budget, slot: Slot, quota: int): (Budget, bool) {
    if Used(b, slot) >= quota then (b, false) else (b[slot := Used(b, slot) + 1], true)
  }

  predicate Due(c: RecoveryCase, now: Time) {
    c.nextActionAt.Some? && c.nextActionAt.value <= now
  }

  // Only a healthy cooled case asks for a slot.
  predicate AsksForSlot(c: RecoveryCase, degraded: bool) {
    c.state.Cooldown? && !degraded
  }

  function SlotBudget(b: Budget, p: Settings, c: RecoveryCase, degraded: bool): (Budget, bool) {
    if AsksForSlot(c, degraded) then ClaimSlot(b, SlotOf(c), p.maxReleasesPerTick) else (b, false)
  }

  // Where a due timed case goes, given the slots used so far; None when it is not due.
  ghost function Plan(db: Db, b: Budget, p: Settings, c: RecoveryCase, degraded: bool, now: Time): Option<Decision> {
    if !Due(c, now) then None
    else Some(PlanTimed(db, p, c, degraded, SlotBudget(b, p, c, degraded).1, ReleaseOffset(p, c.key), now))
  }

  function BudgetAfter(b: Budget, p: Settings, c: RecoveryCase, degraded: bool, now: Time): Budget {
    if !Due(c, now) then b else SlotBudget(b, p, c, degraded).0
  }

  // ------------------------------------------------------------- one tick

  // A case the tick looks at: its snapshot, its rail's verdict, and the database as it is by then. Webhooks may
  // have rewritten it since the batch was read.
  datatype Turn = Turn(c: RecoveryCase, degraded: bool, db: Db)

  function BudgetOver(p: Settings, turns: seq<Turn>, now: Time): Budget {
    if turns == [] then map[]
    else
      var last := turns[|turns| - 1];
      BudgetAfter(BudgetOver(p, turns[..|turns| - 1], now), p, last.c, last.degraded, now)
  }

  // The decision taken at turn i.
  ghost function DecisionAt(p: Settings, turns: seq<Turn>, i: nat, now: Time): Option<Decision>
    requires i < |turns|
  {
    Plan(turns[i].db, BudgetOver(p, turns[..i], now), p, turns[i].c, turns[i].degraded, now)
  }

  ghost predicate ReleasedAt(p: Settings, turns: seq<Turn>, i: nat, now: Time)
    requires i < |turns|
  {
    && turns[i].c.state.Cooldown?
    && DecisionAt(p, turns, i, now).Some?
    && DecisionAt(p, turns, i, now).value.target.RetryScheduled?
  }

  ghost function Releases(p: Settings, turns: seq<Turn>, now: Time, slot: Slot): nat {
    if turns == [] then 0
    else
      var i := |turns| - 1;
      Releases(p, turns[..i], now, slot)
      + if SlotOf(turns[i].c) == slot && ReleasedAt(p, turns, i, now) then 1 else 0
  }

  lemma {:induction false} ReleasesAreBudgeted(p: Settings, turns: seq<Turn>, now: Time, slot: Slot)
    ensures Releases(p, turns, now, slot) == Used(BudgetOver(p, turns, now), slot)
    ensures Releases(p, turns, now, slot) <= Max(0, p.maxReleasesPerTick)
  {
    hide MayContact;
    if turns != [] {
      ReleasesAreBudgeted(p, turns[..|turns| - 1], now, slot);
    }
  }

  // Per tick, each issuer and rail releases at most its quota, however the database changes meanwhile; nothing is
  // released while degraded; and a released case retries inside the jitter window after the escalation time.
  lemma ReleaseControl(p: Settings, turns: seq<Turn>, now: Time, slot: Slot)
    ensures Releases(p, turns, now, slot) <= Max(0, p.maxReleasesPerTick)
    ensures forall i | 0 <= i < |turns| && ReleasedAt(p, turns, i, now) ::
      && !turns[i].degraded
      && DecisionAt(p, turns, i, now).value.nextActionAt.Some?
      && now + p.retryEscalationAfter <= DecisionAt(p, turns, i, now).value.nextActionAt.value
           < now + p.retryEscalationAfter + Max(1, p.releaseJitter)
  {
    ReleasesAreBudgeted(p, turns, now, slot);
    hide MayContact;
  }

  // What a committed plan does to the database: only the case itself moves, and out of Cooldown only as planned.
  lemma OnlyPlannedReleases(db: Db, c: RecoveryCase, d: Decision, now: Time, k: Key)
    requires k in db.cases && db.cases[k].key == k && (c.key in db.cases ==> db.cases[c.key].key == c.key)
    ensures var db' := CommitState(db, c, d, now).0;
      && k in db'.cases
      && (db'.cases[k] == db.cases[k] || (k == c.key && db'.cases[k].state == d.target
            && db'.cases[k].nextActionAt == d.nextActionAt))
  {
  }

  // ------------------------------------------------------------- draining

  // The timer pass with nothing in between: each decision is committed before the next case's turn.
  ghost predicate Chained(p: Settings, before: Db, turns: seq<Turn>, now: Time, after: Db) {
    if turns == [] then after == before
    else
      var i := |turns| - 1;
      && Chained(p, before, turns[..i], now, turns[i].db)
      && after == Promoted(turns[i], DecisionAt(p, turns, i, now), now)
  }

  ghost function Promoted(t: Turn, d: Option<Decision>, now: Time): Db {
    if d.None? then t.db else CommitState(t.db, t.c, d.value, now).0
  }

  lemma ChainStarts(p: Settings, db: Db, now: Time)
    ensures Chained(p, db, [], now, db) && BudgetOver(p, [], now) == map[]
  {
  }

  lemma ChainGrows(p: Settings, before: Db, turns: seq<Turn>, now: Time, t: Turn, after: Db)
    requires Chained(p, before, turns, now, t.db)
    requires after == Promoted(t, Plan(t.db, BudgetOver(p, turns, now), p, t.c, t.degraded, now), now)
    ensures Chained(p, before, turns + [t], now, after)
    ensures BudgetOver(p, turns + [t], now) == BudgetAfter(BudgetOver(p, turns, now), p, t.c, t.degraded, now)
  {
    hide Promoted, Plan, BudgetAfter;
    var all := turns + [t];
    assert all[..|all| - 1] == turns;
  }

  // The cases a pass looked at.
  function Taken(turns: seq<Turn>): seq<RecoveryCase> {
    seq(|turns|, i requires 0 <= i < |turns| => turns[i].c)
  }

  predicate InSlot(c: RecoveryCase, slot: Slot) {
    c.state.Cooldown? && SlotOf(c) == slot
  }

  // Cases of one issuer and rail still parked.
  ghost function Parked(db: Db, slot: Slot): set<Key> {
    set k | k in db.cases && InSlot(db.cases[k], slot)
  }

  ghost predicate AllDueBy(db: Db, slot: Slot, now: Time) {
    forall k | k in Parked(db, slot) :: Due(db.cases[k], now)
  }

  // Distinct due rows of the database, each once.
  ghost predicate Batch(db: Db, batch: seq<RecoveryCase>, now: Time) {
    && (forall i | 0 <= i < |batch| ::
          && batch[i].key in db.cases && db.cases[batch[i].key] == batch[i] && Due(batch[i], now)
          && (batch[i].state.Cooldown? || batch[i].state.RetryScheduled?))
    && (forall i, j | 0 <= i < j < |batch| :: batch[i].key != batch[j].key)
  }

  ghost function Seen(batch: seq<RecoveryCase>, slot: Slot): set<Key> {
    set c | c in batch && InSlot(c, slot) :: c.key
  }

  function Min(a: int, b: int): int {
    if a < b then a else b
  }

  // Rows the pass has not reached are as they were.
  ghost predicate Unreached(db: Db, db': Db, batch: seq<RecoveryCase>) {
    && db'.cases.Keys == db.cases.Keys
    && (forall k | k in db.cases && (forall c | c in batch :: c.key != k) :: db'.cases[k] == db.cases[k])
  }

  // Those seen wait one jitter if they are still parked.
  ghost predicate Held(db': Db, batch: seq<RecoveryCase>, slot: Slot, until: Time) {
    forall k | k in Parked(db', slot) && k in Seen(batch, slot) :: db'.cases[k].nextActionAt == Some(until)
  }

  // How far the pass has got: the slot has used min(quota, parked cases seen), and that many left the parking.
  ghost predicate Draining(db: Db, db': Db, b: Budget, p: Settings, batch: seq<RecoveryCase>, slot: Slot, now: Time) {
    && Unreached(db, db', batch)
    && Parked(db', slot) <= Parked(db, slot)
    && Used(b, slot) == Min(p.maxReleasesPerTick, |Seen(batch, slot)|)
    && |Parked(db', slot)| == |Parked(db, slot)| - Used(b, slot)
    && Held(db', batch, slot, now + p.releaseJitter)
  }

  lemma UnreachedStep(db: Db, db1: Db, rest: seq<RecoveryCase>, c: RecoveryCase, c': RecoveryCase)
    requires Unreached(db, db1, rest) && c.key in db.cases
    ensures Unreached(db, db1.(cases := db1.cases[c.key := c']), rest + [c])
  {
    forall k | k in db.cases && (forall x | x in rest + [c] :: x.key != k)
      ensures k != c.key && forall x | x in rest :: x.key != k
    {
      assert c in rest + [c];
      forall x | x in rest ensures x.key != k {
        assert x in rest + [c];
      }
    }
  }

  lemma HeldStep(db1: Db, rest: seq<RecoveryCase>, c: RecoveryCase, c': RecoveryCase, slot: Slot, until: Time)
    requires Held(db1, rest, slot, until) && c.key in db1.cases && forall x | x in rest :: x.key != c.key
    requires InSlot(c', slot) ==> c'.nextActionAt == Some(until)
    ensures Held(db1.(cases := db1.cases[c.key := c']), rest + [c], slot, until)
  {
    SeenStep(rest, c, slot);
    hide Seen;
  }

  function Only(k: Key, wanted: bool): set<Key> {
    if wanted then {k} else {}
  }

  lemma SeenStep(batch: seq<RecoveryCase>, c: RecoveryCase, slot: Slot)
    requires forall x | x in batch :: x.key != c.key
    ensures Seen(batch + [c], slot) == Seen(batch, slot) + Only(c.key, InSlot(c, slot))
    ensures c.key !in Seen(batch, slot)
    ensures |Seen(batch + [c], slot)| == |Seen(batch, slot)| + if InSlot(c, slot) then 1 else 0
  {
    assert forall x :: x in batch + [c] <==> x in batch || x == c;
  }

  // A case of the slot being drained takes a slot and leaves, or waits one jitter.
  lemma ParkedTurn(db: Db, b: Budget, p: Settings, c: RecoveryCase, slot: Slot, now: Time)
    requires c.key in db.cases && db.cases[c.key] == c && Due(c, now) && InSlot(c, slot)
    ensures var d := Plan(db, b, p, c, false, now);
      && d.Some?
      && var c' := AfterPlan(c, d.value, now).(version := c.version + 1);
        && CommitState(db, c, d.value, now).0 == db.(cases := db.cases[c.key := c'])
        && SlotOf(c') == slot
        && (if Used(b, slot) < p.maxReleasesPerTick
            then c'.state.RetryScheduled? && BudgetAfter(b, p, c, false, now) == b[slot := Used(b, slot) + 1]
            else c'.state.Cooldown? && BudgetAfter(b, p, c, false, now) == b
                 && c'.nextActionAt == Some(now + p.releaseJitter))
  {
    hide MayContact;
  }

  // Any other due case leaves the slot's parking and its budget alone.
  lemma OtherTurn(db: Db, b: Budget, p: Settings, c: RecoveryCase, degraded: bool, slot: Slot, now: Time)
    requires c.key in db.cases && db.cases[c.key] == c && Due(c, now)
    requires c.state.Cooldown? || c.state.RetryScheduled?
    requires !InSlot(c, slot)
    ensures var d := Plan(db, b, p, c, degraded, now);
      && d.Some?
      && Used(BudgetAfter(b, p, c, degraded, now), slot) == Used(b, slot)
      && var c' := AfterPlan(c, d.value, now).(version := c.version + 1);
        && CommitState(db, c, d.value, now).0 == db.(cases := db.cases[c.key := c'])
        && !InSlot(c', slot)
  {
    hide MayContact;
  }

  lemma SwapCount(a: set<Key>, k: Key, stays: bool)
    ensures |a - {k} + Only(k, stays)| == |a| - (if k in a then 1 else 0) + if stays then 1 else 0
  {
    assert a == a - {k} + Only(k, k in a);
  }

  lemma SwapShrinks(a: set<Key>, all: set<Key>, k: Key, stays: bool)
    requires a <= all && (stays ==> k in a)
    ensures a - {k} + Only(k, stays) <= all
  {
  }

  // One rewritten row changes the parking by that row alone.
  lemma ParkedStep(db: Db, k: Key, c': RecoveryCase, slot: Slot)
    requires k in db.cases
    ensures k in Parked(db, slot) <==> InSlot(db.cases[k], slot)
    ensures Parked(db.(cases := db.cases[k := c']), slot) == Parked(db, slot) - {k} + Only(k, InSlot(c', slot))
  {
  }

  // One turn of the pass: a case of the slot takes a slot and leaves, or is held; any other case changes neither
  // parking nor budget.
  ghost predicate TurnOver(db1: Db, b: Budget, b': Budget, p: Settings, c: RecoveryCase, c': RecoveryCase, slot: Slot,
                           until: Time)
  {
    && c.key in db1.cases && db1.cases[c.key] == c
    && var stays := InSlot(c', slot);
      if InSlot(c, slot) then
        if Used(b, slot) < p.maxReleasesPerTick then !stays && Used(b', slot) == Used(b, slot) + 1
        else stays && c'.nextActionAt == Some(until) && Used(b', slot) == Used(b, slot)
      else !stays && Used(b', slot) == Used(b, slot)
  }

  lemma TurnKeeps(db: Db, db1: Db, b: Budget, b': Budget, p: Settings, rest: seq<RecoveryCase>, c: RecoveryCase,
                  c': RecoveryCase, slot: Slot, now: Time)
    requires Draining(db, db1, b, p, rest, slot, now) && c.key in db.cases && p.maxReleasesPerTick > 0
    requires forall x | x in rest :: x.key != c.key
    requires TurnOver(db1, b, b', p, c, c', slot, now + p.releaseJitter)
    ensures Draining(db, db1.(cases := db1.cases[c.key := c']), b', p, rest + [c], slot, now)
  {
    hide Unreached, Held, Seen, Parked, InSlot, Used, Only;
    SameKeys(db, db1, rest);
    UnreachedStep(db, db1, rest, c, c');
    HeldStep(db1, rest, c, c', slot, now + p.releaseJitter);
    SeenStep(rest, c, slot);
    ParkedStep(db1, c.key, c', slot);
    SwapCount(Parked(db1, slot), c.key, InSlot(c', slot));
    SwapShrinks(Parked(db1, slot), Parked(db, slot), c.key, InSlot(c', slot));
  }

  lemma SameKeys(db: Db, db': Db, batch: seq<RecoveryCase>)
    requires Unreached(db, db', batch)
    ensures db'.cases.Keys == db.cases.Keys
  {
  }

  lemma TurnIsOver(db1: Db, b: Budget, p: Settings, c: RecoveryCase, degraded: bool, slot: Slot, now: Time)
    requires c.key in db1.cases && db1.cases[c.key] == c && Due(c, now)
    requires c.state.Cooldown? || c.state.RetryScheduled?
    requires SlotOf(c) == slot ==> !degraded
    ensures var d := Plan(db1, b, p, c, degraded, now);
      && d.Some?
      && var c' := AfterPlan(c, d.value, now).(version := c.version + 1);
        && CommitState(db1, c, d.value, now).0 == db1.(cases := db1.cases[c.key := c'])
        && TurnOver(db1, b, BudgetAfter(b, p, c, degraded, now), p, c, c', slot, now + p.releaseJitter)
  {
    hide Plan, AfterPlan, CommitState, BudgetAfter, Due;
    if InSlot(c, slot) {
      ParkedTurn(db1, b, p, c, slot, now);
    } else {
      OtherTurn(db1, b, p, c, degraded, slot, now);
    }
  }

  lemma LastTurn(p: Settings, db: Db, turns: seq<Turn>, now: Time, db': Db)
    requires Chained(p, db, turns, now, db') && turns != []
    ensures var rest, t := turns[..|turns| - 1], turns[|turns| - 1];
      var b := BudgetOver(p, rest, now);
      && t in turns && (forall x | x in rest :: x in turns)
      && Chained(p, db, rest, now, t.db) && Taken(turns) == Taken(rest) + [t.c]
      && Taken(turns)[..|Taken(turns)| - 1] == Taken(rest)
      && BudgetOver(p, turns, now) == BudgetAfter(b, p, t.c, t.degraded, now)
      && db' == Promoted(t, Plan(t.db, b, p, t.c, t.degraded, now), now)
  {
    hide Promoted, Plan, BudgetAfter;
  }

  lemma {:induction false} PassDrains(db: Db, db': Db, p: Settings, turns: seq<Turn>, now: Time, slot: Slot)
    requires Chained(p, db, turns, now, db') && Batch(db, Taken(turns), now) && p.maxReleasesPerTick > 0
    requires forall t | t in turns && SlotOf(t.c) == slot :: !t.degraded
    ensures Draining(db, db', BudgetOver(p, turns, now), p, Taken(turns), slot, now)
    decreases |turns|
  {
    if turns == [] {
      assert Seen(Taken(turns), slot) == {};
    } else {
      var rest, t := turns[..|turns| - 1], turns[|turns| - 1];
      var c, b := t.c, BudgetOver(p, rest, now);
      LastTurn(p, db, turns, now, db');
      hide Chained, BudgetOver, Plan, CommitState, BudgetAfter, AfterPlan, TurnOver, Due, Batch, Taken, Seen;
      BatchPrefix(db, Taken(turns), now);
      PassDrains(db, t.db, p, rest, now, slot);
      assert t.db.cases[c.key] == c by {
        assert Unreached(db, t.db, Taken(rest));
      }
      hide Draining;
      TurnIsOver(t.db, b, p, c, t.degraded, slot, now);
      TurnKeeps(db, t.db, b, BudgetAfter(b, p, c, t.degraded, now), p, Taken(rest), c,
                AfterPlan(c, Plan(t.db, b, p, c, t.degraded, now).value, now).(version := c.version + 1), slot, now);
    }
  }

  lemma BatchPrefix(db: Db, batch: seq<RecoveryCase>, now: Time)
    requires Batch(db, batch, now) && batch != []
    ensures var rest, c := batch[..|batch| - 1], batch[|batch| - 1];
      && Batch(db, rest, now) && c in batch
      && (forall x | x in rest :: x.key != c.key && x in batch)
      && c.key in db.cases && db.cases[c.key] == c && Due(c, now) && (c.state.Cooldown? || c.state.RetryScheduled?)
  {
  }

  // A timer pass while the rail is healthy, over a batch that covers every due parked case of the rail.
  ghost predicate Covering(db: Db, slot: Slot, now: Time, turns: seq<Turn>) {
    && Batch(db, Taken(turns), now)
    && (forall k | k in Parked(db, slot) && Due(db.cases[k], now) :: k in Seen(Taken(turns), slot))
    && (forall t | t in turns && SlotOf(t.c) == slot :: !t.degraded)
  }

  // Such a pass; whatever happens after it parks nothing, releases nothing and moves no parked case's hour.
  ghost predicate TickOver(db: Db, db': Db, p: Settings, slot: Slot, now: Time, turns: seq<Turn>, timed: Db) {
    Covering(db, slot, now, turns) && Chained(p, db, turns, now, timed) && SameParking(timed, db', slot)
  }

  ghost predicate Tick(db: Db, db': Db, p: Settings, slot: Slot, now: Time) {
    exists turns, timed :: TickOver(db, db', p, slot, now, turns, timed)
  }

  // The same cases parked, each for as long; everything else about them may have changed.
  ghost predicate SameParking(db: Db, db': Db, slot: Slot) {
    && Parked(db', slot) == Parked(db, slot)
    && forall k | k in Parked(db, slot) :: db'.cases[k].nextActionAt == db.cases[k].nextActionAt
  }

  // With everything parked due, a tick releases a full quota or all there is, and what it holds back is due one
  // jitter later.
  lemma TickDrains(db: Db, db': Db, p: Settings, slot: Slot, now: Time)
    requires Tick(db, db', p, slot, now) && AllDueBy(db, slot, now) && p.maxReleasesPerTick > 0
    ensures |Parked(db', slot)| == Max(0, |Parked(db, slot)| - p.maxReleasesPerTick)
    ensures AllDueBy(db', slot, now + p.releaseJitter)
  {
    var turns, timed :| TickOver(db, db', p, slot, now, turns, timed);
    PassDrains(db, timed, p, turns, now, slot);
    CoversParking(db, slot, now, turns);
    hide Chained, Batch, BudgetOver, Taken, Covering, AllDueBy;
    HeldAreDue(db, timed, p, turns, slot, now);
    DueStays(timed, db', slot, now + p.releaseJitter);
  }

  lemma CoversParking(db: Db, slot: Slot, now: Time, turns: seq<Turn>)
    requires Covering(db, slot, now, turns) && AllDueBy(db, slot, now)
    ensures Seen(Taken(turns), slot) == Parked(db, slot)
  {
    hide Due;
    var batch := Taken(turns);
    forall k | k in Seen(batch, slot) ensures k in Parked(db, slot) {
      var c :| c in batch && InSlot(c, slot) && c.key == k;
    }
  }

  lemma HeldAreDue(db: Db, timed: Db, p: Settings, turns: seq<Turn>, slot: Slot, now: Time)
    requires Draining(db, timed, BudgetOver(p, turns, now), p, Taken(turns), slot, now)
    requires Seen(Taken(turns), slot) == Parked(db, slot)
    ensures AllDueBy(timed, slot, now + p.releaseJitter)
  {
    hide Parked, Seen, BudgetOver, Taken, Unreached;
  }

  lemma DueStays(db: Db, db': Db, slot: Slot, now: Time)
    requires SameParking(db, db', slot) && AllDueBy(db, slot, now)
    ensures AllDueBy(db', slot, now)
  {
  }

  // A run of ticks at least one jitter apart, with nothing parked or unparked in between.
  ghost predicate Ticks(dbs: seq<Db>, times: seq<Time>, p: Settings, slot: Slot) {
    && |dbs| == |times| + 1
    && (forall i | 0 <= i < |times| :: Tick(dbs[i], dbs[i + 1], p, slot, times[i]))
    && (forall i | 0 < i < |times| :: times[i] - times[i - 1] >= p.releaseJitter)
  }

  // Each tick releases a full quota until nothing is left, so N parked cases are gone after ceil(N / quota) ticks and
  // not before.
  lemma {:induction false} BacklogDrains(dbs: seq<Db>, times: seq<Time>, p: Settings, slot: Slot)
    requires Ticks(dbs, times, p, slot) && p.maxReleasesPerTick > 0
    requires times != [] ==> AllDueBy(dbs[0], slot, times[0])
    ensures |Parked(dbs[|times|], slot)| == Max(0, |Parked(dbs[0], slot)| - |times| * p.maxReleasesPerTick)
    ensures |Parked(dbs[|times|], slot)| == 0 <==> |times| * p.maxReleasesPerTick >= |Parked(dbs[0], slot)|
    ensures times != [] ==> AllDueBy(dbs[|times|], slot, times[|times| - 1] + p.releaseJitter)
  {
    hide Tick, Parked, Due;
    if times != [] {
      var n := |times| - 1;
      assert Ticks(dbs[..|dbs| - 1], times[..n], p, slot);
      BacklogDrains(dbs[..|dbs| - 1], times[..n], p, slot);
      if n > 0 {
        StillDue(dbs[n], slot, times[n - 1] + p.releaseJitter, times[n]);
      }
      TickDrains(dbs[n], dbs[n + 1], p, slot, times[n]);
      assert (n + 1) * p.maxReleasesPerTick == n * p.maxReleasesPerTick + p.maxReleasesPerTick;
    }
  }

  lemma StillDue(db: Db, slot: Slot, now: Time, later: Time)
    requires AllDueBy(db, slot, now) && now <= later
    ensures AllDueBy(db, slot, later)
  {
    hide Parked;
  }
}
