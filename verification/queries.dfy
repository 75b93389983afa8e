// What the store's queries compute (app/store.py), stated over the decoded cases.
module Queries {
  import opened Base
  import opened Models
  import opened Engine
  import opened Stamps
  import opened Rows

  // What saving a case returns and leaves: a swap on the version read, unless an instant cannot be written.
  ghost predicate SaveOutcome(before: Db, c: RecoveryCase, r: Result<RecoveryCase, Fault>, after: Db) {
    var saved := SaveCase(before, c);
    if !Stampable(c) then r == Err(OutOfCalendar) && after == before
    else if saved.Err? then r == Err(saved.error) && after == before
    else r == Ok(c.(version := c.version + 1)) && after == saved.value
  }

  // ------------------------------------------------- customer-wide queries

  lemma {:induction false} ContactSumAdd(db: Db, keys: set<Key>, k: Key)
    requires keys <= db.cases.Keys && k in db.cases && k !in keys
    ensures ContactSum(db, keys + {k}) == ContactSum(db, keys) + db.cases[k].attention.contacts
  {
    var all := keys + {k};
    var j :| j in all && ContactSum(db, all) == db.cases[j].attention.contacts + ContactSum(db, all - {j});
    if j == k {
      assert all - {k} == keys;
    } else {
      ContactSumAdd(db, keys - {j}, k);
      assert all - {j} == keys - {j} + {k};
      ContactSumAdd(db, keys - {j}, j);
      assert keys == keys - {j} + {j};
    }
  }

  // The most recent contact of these cases.
  ghost predicate IsLatest(db: Db, keys: set<Key>, latest: Option<Time>)
    requires keys <= db.cases.Keys
  {
    && (forall k | k in keys && db.cases[k].attention.lastContactAt.Some? ::
          latest.Some? && db.cases[k].attention.lastContactAt.value <= latest.value)
    && (latest.Some? ==> exists k | k in keys :: db.cases[k].attention.lastContactAt == latest)
  }

  // Testing the latest contact against the cooldown tests them all.
  lemma LatestDecidesCooldown(db: Db, keys: set<Key>, latest: Option<Time>, now: Time, cooldown: int)
    requires keys <= db.cases.Keys && IsLatest(db, keys, latest)
    ensures AllCooled(db, keys, now, cooldown) <==> !(latest.Some? && now - latest.value < cooldown)
  {
  }

  lemma LatestAdd(db: Db, keys: set<Key>, latest: Option<Time>, k: Key, latest': Option<Time>)
    requires keys <= db.cases.Keys && k in db.cases && IsLatest(db, keys, latest)
    requires var last := db.cases[k].attention.lastContactAt;
      latest' == if last.Some? && (latest.None? || last.value > latest.value) then last else latest
    ensures IsLatest(db, keys + {k}, latest')
  {
    if latest' == latest {
      if latest.Some? {
        var j :| j in keys && db.cases[j].attention.lastContactAt == latest;
        assert j in keys + {k};
      }
    } else {
      assert k in keys + {k};
    }
  }

  // What has been gathered over a set of cases.
  ghost predicate Gathered(db: Db, keys: set<Key>, contacts: int, latest: Option<Time>, optedOut: bool)
    requires keys <= db.cases.Keys
  {
    && contacts == ContactSum(db, keys)
    && (optedOut <==> AnyOptedOut(db, keys))
    && IsLatest(db, keys, latest)
  }

  lemma GatherNone(db: Db, none: set<Key>)
    requires none == {}
    ensures Gathered(db, none, 0, None, false)
  {
  }

  lemma GatherStep(db: Db, keys: set<Key>, contacts: int, latest: Option<Time>, optedOut: bool, k: Key)
    requires keys <= db.cases.Keys && k in db.cases && k !in keys && Gathered(db, keys, contacts, latest, optedOut)
    ensures var a := db.cases[k].attention;
      Gathered(db, keys + {k}, contacts + a.contacts, Later(latest, a.lastContactAt), optedOut || a.optedOut)
  {
    hide ContactSum, IsLatest;
    ContactSumAdd(db, keys, k);
    LatestAdd(db, keys, latest, k, Later(latest, db.cases[k].attention.lastContactAt));
    assert forall j :: j in keys + {k} <==> j in keys || j == k;
  }

  function Later(latest: Option<Time>, last: Option<Time>): Option<Time> {
    if last.Some? && (latest.None? || last.value > latest.value) then last else latest
  }

  // The customer_id column finds exactly the person's other cases.
  lemma SelectedAreOthers(rows: map<Key, Row>, db: Db, customer: CustomerId, exclude: Key)
    requires Indexed(rows, db.cases)
    ensures (set k | k in rows && rows[k].customer == Some(customer) && k != exclude) == OthersOf(db, customer, exclude)
  {
    hide Stampable;
    IndexedKeys(rows, db.cases);
  }

  function Silenced(c: RecoveryCase): RecoveryCase {
    if c.attention.optedOut then c
    else c.(attention := c.attention.(optedOut := true), version := c.version + 1)
  }

  function SilencedIn(db: Db, keys: set<Key>): Db {
    db.(cases := map k | k in db.cases :: if k in keys then Silenced(db.cases[k]) else db.cases[k])
  }

  lemma SilencingOthersIsOptOut(db: Db, customer: CustomerId, exclude: Key)
    ensures SilencedIn(db, OthersOf(db, customer, exclude)) == OptOutCustomer(db, customer, exclude)
  {
  }

  // One more row saved silences one more case.
  lemma SilencedStep(db: Db, done: set<Key>, k: Key, db': Db)
    requires k in db.cases && k !in done && db.cases[k].key == k
    requires if db.cases[k].attention.optedOut then db' == SilencedIn(db, done)
             else Engine.SaveCase(SilencedIn(db, done),
                    db.cases[k].(attention := db.cases[k].attention.(optedOut := true))) == Ok(db')
    ensures db' == SilencedIn(db, done + {k})
  {
  }

  // -------------------------------------------------------- due for dispatch

  ghost predicate Ordered(batch: seq<RecoveryCase>) {
    forall i, j | 0 <= i < j < |batch| :: CaseBefore(batch[i], batch[j])
  }

  lemma BeforeIsTotal(a: RecoveryCase, b: RecoveryCase)
    requires a.key != b.key
    ensures CaseBefore(a, b) <==> !CaseBefore(b, a)
  {
    TextIsTotal(a.key, b.key);
    hide TextLess;
  }

  lemma BeforeIsTransitive(a: RecoveryCase, b: RecoveryCase, c: RecoveryCase)
    requires CaseBefore(a, b) && CaseBefore(b, c)
    ensures CaseBefore(a, c)
  {
    hide TextLess;
    if TextLess(a.key, b.key) && TextLess(b.key, c.key) {
      TextIsTransitive(a.key, b.key, c.key);
    }
  }

  ghost function InsertDue(batch: seq<RecoveryCase>, c: RecoveryCase): seq<RecoveryCase> {
    if batch == [] then [c]
    else if CaseBefore(c, batch[0]) then [c] + batch
    else [batch[0]] + InsertDue(batch[1..], c)
  }

  // Insertion into a sorted result, comparing columns.
  function InsertDueRow(batch: seq<Row>, r: Row): seq<Row> {
    if batch == [] then [r]
    else if RowBefore(r, batch[0]) then [r] + batch
    else [batch[0]] + InsertDueRow(batch[1..], r)
  }

  lemma {:induction false} InsertMembers(batch: seq<RecoveryCase>, c: RecoveryCase)
    ensures forall x :: x in InsertDue(batch, c) <==> x in batch || x == c
    ensures |InsertDue(batch, c)| == |batch| + 1
  {
    hide CaseBefore;
    if batch != [] {
      assert batch == [batch[0]] + batch[1..];
      if !CaseBefore(c, batch[0]) {
        InsertMembers(batch[1..], c);
      }
    }
  }

  lemma {:induction false} InsertKeepsOrder(batch: seq<RecoveryCase>, c: RecoveryCase)
    requires Ordered(batch) && forall b | b in batch :: b.key != c.key
    ensures Ordered(InsertDue(batch, c))
  {
    hide CaseBefore;
    if batch != [] {
      var first, rest := batch[0], batch[1..];
      if CaseBefore(c, first) {
        forall j | 0 <= j < |batch| ensures CaseBefore(c, batch[j]) {
          if j > 0 {
            BeforeIsTransitive(c, first, batch[j]);
          }
        }
      } else {
        InsertKeepsOrder(rest, c);
        InsertMembers(rest, c);
        BeforeIsTotal(c, first);
        var tail := InsertDue(rest, c);
        forall j | 0 <= j < |tail| ensures CaseBefore(first, tail[j]) {
          assert tail[j] in tail;
          if tail[j] != c {
            var i :| 0 <= i < |rest| && rest[i] == tail[j];
            assert batch[i + 1] == tail[j];
          }
        }
      }
    }
  }

  ghost predicate AllStampable(batch: seq<RecoveryCase>) {
    forall i | 0 <= i < |batch| :: Stampable(batch[i])
  }

  ghost function RowsOf(batch: seq<RecoveryCase>): seq<Row>
    requires AllStampable(batch)
  {
    seq(|batch|, i requires 0 <= i < |batch| => RowOf(batch[i]))
  }

  // Sorting rows by their columns sorts the cases by their instants.
  lemma {:induction false} InsertByColumns(batch: seq<RecoveryCase>, c: RecoveryCase)
    requires AllStampable(batch) && Stampable(c)
    ensures AllStampable(InsertDue(batch, c))
    ensures RowsOf(InsertDue(batch, c)) == InsertDueRow(RowsOf(batch), RowOf(c))
  {
    hide CaseBefore, RowBefore, RowOf, Stampable;
    if batch != [] {
      ColumnsOrderByInstant(c, batch[0]);
      assert RowsOf(batch)[1..] == RowsOf(batch[1..]);
      if !CaseBefore(c, batch[0]) {
        InsertByColumns(batch[1..], c);
      }
    }
  }

  // The sorted filter over the cases of `keys`.
  ghost predicate AllDue(cases: map<Key, RecoveryCase>, keys: set<Key>, states: set<CaseState>, now: Time,
                         batch: seq<RecoveryCase>)
    requires keys <= cases.Keys
  {
    && Ordered(batch)
    && (forall c | c in batch :: c.key in keys && cases[c.key] == c && DueCase(c, states, now))
    && (forall k | k in keys && DueCase(cases[k], states, now) :: cases[k] in batch)
  }

  lemma DueStep(cases: map<Key, RecoveryCase>, keys: set<Key>, states: set<CaseState>, now: Time,
                batch: seq<RecoveryCase>, k: Key)
    requires keys <= cases.Keys && k in cases && k !in keys && cases[k].key == k
    requires AllDue(cases, keys, states, now, batch)
    ensures AllDue(cases, keys + {k}, states, now,
                   if DueCase(cases[k], states, now) then InsertDue(batch, cases[k]) else batch)
  {
    hide DueCase, Ordered, InsertDue;
    if DueCase(cases[k], states, now) {
      InsertMembers(batch, cases[k]);
      InsertKeepsOrder(batch, cases[k]);
    }
  }

  // The first `limit` due cases in order; whatever is left out comes after every case taken.
  ghost predicate IsDueBatch(cases: map<Key, RecoveryCase>, states: set<CaseState>, now: Time, limit: Option<int>,
                             batch: seq<RecoveryCase>)
  {
    && Ordered(batch)
    && (forall c | c in batch :: c.key in cases && cases[c.key] == c && DueCase(c, states, now))
    && (limit.Some? && limit.value >= 0 ==> |batch| <= limit.value)
    && (forall k | k in cases && DueCase(cases[k], states, now) && cases[k] !in batch ::
          limit == Some(|batch|) && forall c | c in batch :: CaseBefore(c, cases[k]))
  }

  // Due no later: a case without a deadline comes first of all.
  predicate NoLater(a: RecoveryCase, b: RecoveryCase) {
    a.nextActionAt.None? || (b.nextActionAt.Some? && a.nextActionAt.value <= b.nextActionAt.value)
  }

  // A batch takes due cases by their deadlines: in order, and none while an earlier one is left out.
  lemma EarliestFirst(cases: map<Key, RecoveryCase>, states: set<CaseState>, now: Time, limit: Option<int>,
                      batch: seq<RecoveryCase>)
    requires IsDueBatch(cases, states, now, limit, batch)
    ensures forall i, j | 0 <= i < j < |batch| :: NoLater(batch[i], batch[j])
    ensures forall k, c | k in cases && c in batch && cases[k] !in batch && cases[k].state in states
                          && (cases[k].nextActionAt.None? || cases[k].nextActionAt.value <= now) ::
      NoLater(c, cases[k])
  {
    hide TextLess;
    forall i, j | 0 <= i < j < |batch| ensures NoLater(batch[i], batch[j]) {
      assert CaseBefore(batch[i], batch[j]);
    }
    forall k, c | k in cases && c in batch && cases[k] !in batch && DueCase(cases[k], states, now)
      ensures NoLater(c, cases[k])
    {
      assert CaseBefore(c, cases[k]);
    }
  }

  function Capped(limit: Option<int>, n: nat): (r: nat)
    ensures r <= n
  {
    if limit.Some? && 0 <= limit.value < n then limit.value else n
  }

  lemma TruncationIsBatch(cases: map<Key, RecoveryCase>, states: set<CaseState>, now: Time, limit: Option<int>,
                          all: seq<RecoveryCase>)
    requires AllDue(cases, cases.Keys, states, now, all)
    ensures IsDueBatch(cases, states, now, limit, all[..Capped(limit, |all|)])
  {
    hide CaseBefore, DueCase;
    var n := Capped(limit, |all|);
    forall k | k in cases && DueCase(cases[k], states, now) && cases[k] !in all[..n]
      ensures limit == Some(n) && forall c | c in all[..n] :: CaseBefore(c, cases[k])
    {
      var j :| 0 <= j < |all| && all[j] == cases[k];
      assert j >= n;
    }
  }

  // ---------------------------------------------------------- failed cancels

  predicate Retryable(actions: map<ActionKey, Action>, ak: ActionKey, maxAttempts: int)
    requires ak in actions
  {
    ak.IsCancel() && actions[ak].status == Failed && actions[ak].attempts < maxAttempts
  }

  ghost predicate OldestFirst(actions: map<ActionKey, Action>, batch: seq<ActionKey>) {
    && (forall ak | ak in batch :: ak in actions)
    && (forall i, j | 0 <= i < j < |batch| ::
          batch[i] != batch[j] && actions[batch[i]].createdAt <= actions[batch[j]].createdAt)
  }

  function InsertOldest(actions: map<ActionKey, Action>, batch: seq<ActionKey>, ak: ActionKey): seq<ActionKey>
    requires ak in actions && forall b | b in batch :: b in actions
  {
    if batch == [] then [ak]
    else if actions[ak].createdAt < actions[batch[0]].createdAt then [ak] + batch
    else [batch[0]] + InsertOldest(actions, batch[1..], ak)
  }

  lemma {:induction false} InsertOldestKeeps(actions: map<ActionKey, Action>, batch: seq<ActionKey>, ak: ActionKey)
    requires ak in actions && ak !in batch && OldestFirst(actions, batch)
    ensures OldestFirst(actions, InsertOldest(actions, batch, ak))
    ensures forall b :: b in InsertOldest(actions, batch, ak) <==> b in batch || b == ak
  {
    if batch != [] {
      assert batch == [batch[0]] + batch[1..];
      if actions[ak].createdAt >= actions[batch[0]].createdAt {
        var rest := batch[1..];
        InsertOldestKeeps(actions, rest, ak);
        forall j | 0 <= j < |InsertOldest(actions, rest, ak)|
          ensures batch[0] != InsertOldest(actions, rest, ak)[j]
          ensures actions[batch[0]].createdAt <= actions[InsertOldest(actions, rest, ak)[j]].createdAt
        {
          assert InsertOldest(actions, rest, ak)[j] in InsertOldest(actions, rest, ak);
        }
      }
    }
  }

  // The failed cancels of `keys` with attempts left, oldest first.
  ghost predicate AllRetryable(actions: map<ActionKey, Action>, keys: set<ActionKey>, maxAttempts: int,
                               batch: seq<ActionKey>)
    requires keys <= actions.Keys
  {
    && OldestFirst(actions, batch)
    && (forall ak :: ak in batch <==> ak in keys && Retryable(actions, ak, maxAttempts))
  }

  // The oldest `limit` of them; whatever is left out is no older than anything taken.
  ghost predicate IsSweepBatch(actions: map<ActionKey, Action>, maxAttempts: int, limit: int, batch: seq<ActionKey>) {
    && OldestFirst(actions, batch)
    && (forall ak | ak in batch :: Retryable(actions, ak, maxAttempts))
    && (limit >= 0 ==> |batch| <= limit)
    && (forall ak | ak in actions && Retryable(actions, ak, maxAttempts) && ak !in batch ::
          |batch| == limit && forall b | b in batch :: actions[b].createdAt <= actions[ak].createdAt)
  }

  lemma TruncationIsSweepBatch(actions: map<ActionKey, Action>, maxAttempts: int, limit: int, all: seq<ActionKey>)
    requires AllRetryable(actions, actions.Keys, maxAttempts, all)
    ensures IsSweepBatch(actions, maxAttempts, limit, all[..Capped(Some(limit), |all|)])
  {
    hide Retryable;
    var n := Capped(Some(limit), |all|);
    forall ak | ak in actions && Retryable(actions, ak, maxAttempts) && ak !in all[..n]
      ensures n == limit && forall b | b in all[..n] :: actions[b].createdAt <= actions[ak].createdAt
    {
      var j :| 0 <= j < |all| && all[j] == ak;
      assert j >= n;
    }
  }

  // ----------------------------------------------------------------- metrics

  ghost function InState(cases: map<Key, RecoveryCase>, keys: set<Key>, st: CaseState): set<Key>
    requires keys <= cases.Keys
  {
    set k | k in keys && cases[k].state == st
  }

  ghost function Amount(cases: map<Key, RecoveryCase>, keys: set<Key>): int
    requires keys <= cases.Keys
  {
    if keys == {} then 0
    else
      var k :| k in keys;
      cases[k].amount + Amount(cases, keys - {k})
  }

  lemma {:induction false} AmountAdd(cases: map<Key, RecoveryCase>, keys: set<Key>, k: Key)
    requires keys <= cases.Keys && k in cases && k !in keys
    ensures Amount(cases, keys + {k}) == Amount(cases, keys) + cases[k].amount
  {
    var all := keys + {k};
    var j :| j in all && Amount(cases, all) == cases[j].amount + Amount(cases, all - {j});
    if j == k {
      assert all - {k} == keys;
    } else {
      AmountAdd(cases, keys - {j}, k);
      assert all - {j} == keys - {j} + {k};
      AmountAdd(cases, keys - {j}, j);
      assert keys == keys - {j} + {j};
    }
  }

  // Count and amount of each state, as GROUP BY gives them.
  type Tally = map<CaseState, (int, int)>

  function Entry(m: Tally, st: CaseState): (int, int) {
    if st in m then m[st] else (0, 0)
  }

  ghost predicate Tallied(m: Tally, cases: map<Key, RecoveryCase>, keys: set<Key>)
    requires keys <= cases.Keys
  {
    && (forall st :: Entry(m, st) == (|InState(cases, keys, st)|, Amount(cases, InState(cases, keys, st))))
    && (forall k | k in keys :: cases[k].state in m)
  }

  lemma TallyStep(m: Tally, cases: map<Key, RecoveryCase>, keys: set<Key>, k: Key)
    requires keys <= cases.Keys && k in cases && k !in keys && Tallied(m, cases, keys)
    ensures var (st, e) := (cases[k].state, Entry(m, cases[k].state));
      Tallied(m[st := (e.0 + 1, e.1 + cases[k].amount)], cases, keys + {k})
  {
    hide Amount, InState;
    forall other
      ensures InState(cases, keys + {k}, other) ==
        if other == cases[k].state then InState(cases, keys, other) + {k} else InState(cases, keys, other)
    {
      InStateStep(cases, keys, k, other);
    }
    InStateStep(cases, keys, k, cases[k].state);
    AmountAdd(cases, InState(cases, keys, cases[k].state), k);
  }

  lemma InStateStep(cases: map<Key, RecoveryCase>, keys: set<Key>, k: Key, st: CaseState)
    requires keys <= cases.Keys && k in cases && k !in keys
    ensures InState(cases, keys, st) <= cases.Keys && k !in InState(cases, keys, st)
    ensures InState(cases, keys + {k}, st) ==
      if st == cases[k].state then InState(cases, keys, st) + {k} else InState(cases, keys, st)
  {
  }

  // The counts of some states together.
  ghost function InStates(cases: map<Key, RecoveryCase>, states: set<CaseState>): set<Key> {
    set k | k in cases && cases[k].state in states
  }

  lemma CountsAdd(cases: map<Key, RecoveryCase>, states: set<CaseState>, st: CaseState)
    requires st !in states
    ensures |InStates(cases, states + {st})| == |InStates(cases, states)| + |InState(cases, cases.Keys, st)|
  {
    assert InStates(cases, states + {st}) == InStates(cases, states) + InState(cases, cases.Keys, st);
    assert InStates(cases, states) !! InState(cases, cases.Keys, st);
  }

  lemma NoStates(cases: map<Key, RecoveryCase>)
    ensures |InStates(cases, {})| == 0
  {
    assert InStates(cases, {}) == {};
  }

  lemma EveryState(cases: map<Key, RecoveryCase>, states: set<CaseState>)
    requires forall k | k in cases :: cases[k].state in states
    ensures |InStates(cases, states)| == |cases|
  {
    assert InStates(cases, states) == cases.Keys;
  }

  datatype Metrics = Metrics(
    totalCases: int,
    recoveredCases: int,
    recoveredAmount: int,
    pendingConsent: int,
    linksSent: int,
    manualReview: int,
    cooldown: int,
    retryScheduled: int,
    stopped: int,
    awaitingCapture: int,
    reversedCases: int,
    reversedAmount: int)

  ghost function CountIn(cases: map<Key, RecoveryCase>, st: CaseState): nat {
    |InState(cases, cases.Keys, st)|
  }

  ghost function AmountIn(cases: map<Key, RecoveryCase>, st: CaseState): int {
    Amount(cases, InState(cases, cases.Keys, st))
  }

  // The metrics a full scan of the decoded cases gives.
  ghost function FullScan(cases: map<Key, RecoveryCase>): Metrics {
    Metrics(|cases|,
            CountIn(cases, RecoveredNatural) + CountIn(cases, RecoveredByLink),
            AmountIn(cases, RecoveredNatural) + AmountIn(cases, RecoveredByLink),
            CountIn(cases, ConsentRequired), CountIn(cases, LinkSent), CountIn(cases, ManualReview),
            CountIn(cases, Cooldown), CountIn(cases, RetryScheduled), CountIn(cases, Stopped),
            CountIn(cases, AuthorizedPendingCapture),
            CountIn(cases, RecoveryReversed), AmountIn(cases, RecoveryReversed))
  }

  lemma OutreachCounts(cases: map<Key, RecoveryCase>)
    ensures |InStates(cases, {RecoveredNatural, RecoveredByLink, ConsentRequired, LinkSent, ManualReview})| ==
      CountIn(cases, RecoveredNatural) + CountIn(cases, RecoveredByLink) + CountIn(cases, ConsentRequired)
      + CountIn(cases, LinkSent) + CountIn(cases, ManualReview)
  {
    hide InStates, InState;
    NoStates(cases);
    CountsAdd(cases, {}, RecoveredNatural);
    assert {} + {RecoveredNatural} == {RecoveredNatural};
    CountsAdd(cases, {RecoveredNatural}, RecoveredByLink);
    var s2 := {RecoveredNatural, RecoveredByLink};
    assert {RecoveredNatural} + {RecoveredByLink} == s2;
    CountsAdd(cases, s2, ConsentRequired);
    CountsAdd(cases, s2 + {ConsentRequired}, LinkSent);
    CountsAdd(cases, s2 + {ConsentRequired} + {LinkSent}, ManualReview);
    assert s2 + {ConsentRequired} + {LinkSent} + {ManualReview}
      == {RecoveredNatural, RecoveredByLink, ConsentRequired, LinkSent, ManualReview};
  }

  // With no case Open or Classified, the reported counts add up to the total.
  lemma CountsAddUp(cases: map<Key, RecoveryCase>)
    requires forall k | k in cases :: !cases[k].state.Open? && !cases[k].state.Classified?
    ensures var m := FullScan(cases);
      m.totalCases == m.recoveredCases + m.pendingConsent + m.linksSent + m.manualReview + m.cooldown
        + m.retryScheduled + m.stopped + m.awaitingCapture + m.reversedCases
  {
    hide InStates, InState, Amount, AmountIn;
    OutreachCounts(cases);
    var s5 := {RecoveredNatural, RecoveredByLink, ConsentRequired, LinkSent, ManualReview};
    CountsAdd(cases, s5, Cooldown);
    CountsAdd(cases, s5 + {Cooldown}, RetryScheduled);
    CountsAdd(cases, s5 + {Cooldown} + {RetryScheduled}, Stopped);
    CountsAdd(cases, s5 + {Cooldown} + {RetryScheduled} + {Stopped}, AuthorizedPendingCapture);
    var s9 := s5 + {Cooldown} + {RetryScheduled} + {Stopped} + {AuthorizedPendingCapture};
    CountsAdd(cases, s9, RecoveryReversed);
    EveryState(cases, s9 + {RecoveryReversed});
  }
}
