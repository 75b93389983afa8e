// The recovery store (app/store.py) as an object: every operation keeps the columns an exact index over the payloads
// and does to the decoded contents what the engine's model says.
module Store {
  import opened Base
  import opened Models
  import opened Engine
  import opened Stamps
  import opened Rows
  import opened Queries

  class RecoveryStore {
    var rows: map<Key, Row>
    var actions: map<ActionKey, Action>
    var processed: set<EventId>
    ghost var cases: map<Key, RecoveryCase>     // the decoded cases

    ghost predicate Valid()
      reads this
    {
      Indexed(rows, cases)
    }

    ghost function Contents(): Db
      reads this
    {
      Db(cases, actions, processed)
    }

    constructor ()
      ensures Valid() && Contents() == Db(map[], map[], {})
    {
      rows, actions, processed, cases := map[], map[], {}, map[];
    }

    // ROLLBACK: back to what the transaction began with.
    method Rollback(rows: map<Key, Row>, actions: map<ActionKey, Action>, processed: set<EventId>,
                    ghost cases: map<Key, RecoveryCase>)
      requires Indexed(rows, cases)
      modifies this
      ensures Valid() && Contents() == Db(cases, actions, processed)
    {
      this.rows, this.actions, this.processed, this.cases := rows, actions, processed, cases;
    }

    // claim_event: whether this delivery is the first.
    method ClaimEvent(id: EventId, at: Time) returns (r: Result<bool, Fault>)
      requires Valid()
      modifies this`processed
      ensures Valid()
      ensures if InRange(at) then r == Ok(id !in old(processed)) && Contents() == Claim(old(Contents()), id)
              else r == Err(OutOfCalendar) && Contents() == old(Contents())
    {
      if !InRange(at) {
        return Err(OutOfCalendar);
      }
      r := Ok(id !in processed);
      processed := processed + {id};
    }

    method GetCase(key: Key) returns (r: Option<RecoveryCase>)
      requires Valid()
      ensures r == if key in cases then Some(cases[key]) else None
    {
      hide Decode, Stampable, RowOf;
      if key !in rows {
        return None;
      }
      IndexedRow(rows, cases, key);
      r := Some(Decode(rows[key].payload).value);
    }

    method InsertCase(c: RecoveryCase) returns (r: Result<(), Fault>)
      requires Valid()
      modifies this`rows, this`cases
      ensures Valid()
      ensures if !Stampable(c) then r == Err(OutOfCalendar) && Contents() == old(Contents())
              else if c.key in old(cases) then r == Err(DuplicateCase(c.key)) && Contents() == old(Contents())
              else r == Ok(()) && Contents() == old(Contents()).(cases := old(cases)[c.key := c])
    {
      hide Stampable, RowOf;
      if !Stampable(c) {
        return Err(OutOfCalendar);
      }
      if c.key in rows {
        return Err(DuplicateCase(c.key));
      }
      SavedIsIndexed(rows, cases, c);
      rows, cases := rows[c.key := RowOf(c)], cases[c.key := c];
      r := Ok(());
    }

    // save_case: the version column decides; a lost race writes nothing.
    method SaveCase(c: RecoveryCase) returns (r: Result<RecoveryCase, Fault>)
      requires Valid()
      modifies this`rows, this`cases
      ensures Valid()
      ensures SaveOutcome(old(Contents()), c, r, Contents())
    {
      hide Stampable, RowOf, Decode, Indexed;
      var c' := c.(version := c.version + 1);
      VersionIsNoStamp(c);
      IndexedKeys(rows, cases);
      if !Stampable(c') {
        return Err(OutOfCalendar);
      }
      if c.key in rows {
        IndexedRow(rows, cases, c.key);
      }
      if c.key !in rows || rows[c.key].version != c.version {
        return Err(VersionConflict(c.key));
      }
      SavedIsIndexed(rows, cases, c');
      rows, cases := rows[c.key := RowOf(c')], cases[c.key := c'];
      r := Ok(c');
    }

    // record_action: ON CONFLICT DO NOTHING.
    method RecordAction(ak: ActionKey, a: Action) returns (r: Result<bool, Fault>)
      requires Valid()
      modifies this`actions
      ensures Valid()
      ensures var (db', isNew) := Engine.RecordAction(old(Contents()), ak, a);
        if InRange(a.createdAt) then r == Ok(isNew) && Contents() == db'
        else r == Err(OutOfCalendar) && Contents() == old(Contents())
    {
      if !InRange(a.createdAt) {
        return Err(OutOfCalendar);
      }
      r := Ok(ak !in actions);
      if ak !in actions {
        actions := actions[ak := a.(attempts := 1)];
      }
    }

    // claim_action: ON CONFLICT DO UPDATE, for failed rows with attempts left.
    method ClaimAction(ak: ActionKey, a: Action, maxAttempts: int) returns (r: Result<bool, Fault>)
      requires Valid()
      modifies this`actions
      ensures Valid()
      ensures var (db', won) := Engine.ClaimAction(old(Contents()), ak, a, maxAttempts);
        if InRange(a.createdAt) then r == Ok(won) && Contents() == db'
        else r == Err(OutOfCalendar) && Contents() == old(Contents())
    {
      if !InRange(a.createdAt) {
        return Err(OutOfCalendar);
      }
      if ak !in actions {
        actions := actions[ak := a.(attempts := 1)];
        return Ok(true);
      }
      var row := actions[ak];
      if row.status == Failed && row.attempts < maxAttempts {
        actions := actions[ak := row.(status := a.status, attempts := row.attempts + 1)];
        return Ok(true);
      }
      r := Ok(false);
    }

    method CompleteAction(ak: ActionKey, status: ActionStatus, link: Option<LinkId>, at: Time)
      returns (r: Result<bool, Fault>)
      requires Valid()
      modifies this`actions
      ensures Valid()
      ensures if ak in old(actions) && !InRange(at) then r == Err(OutOfCalendar) && Contents() == old(Contents())
              else r == Ok(ak in old(actions)) &&
                   Contents() == Engine.CompleteAction(old(Contents()), ak, status, link)
    {
      if ak !in actions {
        return Ok(false);
      }
      if !InRange(at) {
        return Err(OutOfCalendar);
      }
      var row := actions[ak];
      actions := actions[ak := row.(status := status, link := if link.Some? then link else row.link)];
      r := Ok(true);
    }

    // customer_contact_state: contacts, latest contact and opt-out over a person's other cases.
    method CustomerContactState(customer: CustomerId, exclude: Key)
      returns (contacts: int, latest: Option<Time>, optedOut: bool)
      requires Valid()
      ensures Gathered(Contents(), OthersOf(Contents(), customer, exclude), contacts, latest, optedOut)
    {
      hide Indexed, Gathered, OthersOf;
      ghost var db, others := Contents(), OthersOf(Contents(), customer, exclude);
      SelectedAreOthers(rows, db, customer, exclude);
      IndexedKeys(rows, cases);
      var todo := set k | k in rows && rows[k].customer == Some(customer) && k != exclude;
      contacts, latest, optedOut := 0, None, false;
      GatherNone(db, others - todo);
      while todo != {}
        invariant todo <= others <= db.cases.Keys
        invariant Gathered(db, others - todo, contacts, latest, optedOut)
        decreases todo
      {
        var k :| k in todo;
        GatherStep(db, others - todo, contacts, latest, optedOut, k);
        var attention := AttentionOf(k);
        optedOut, contacts := optedOut || attention.optedOut, contacts + attention.contacts;
        if attention.lastContactAt.Some? && (latest.None? || attention.lastContactAt.value > latest.value) {
          latest := attention.lastContactAt;
        }
        assert others - (todo - {k}) == others - todo + {k};
        todo := todo - {k};
      }
      assert others - todo == others;
    }

    method AttentionOf(k: Key) returns (attention: Attention)
      requires Valid() && k in rows
      ensures k in cases && attention == cases[k].attention
    {
      hide Indexed, Decode;
      IndexedKeys(rows, cases);
      IndexedRow(rows, cases, k);
      attention := Decode(rows[k].payload).value.attention;
    }

    // opt_out_customer: silence every other case of one person; each row written moves its version on.
    method OptOutCustomer(customer: CustomerId, exclude: Key)
      requires Valid()
      modifies this`rows, this`cases
      ensures Valid()
      ensures Contents() == Engine.OptOutCustomer(old(Contents()), customer, exclude)
    {
      hide Indexed, Decode, SilencedIn, OthersOf, Stampable, Engine.SaveCase;
      ghost var db, others := Contents(), OthersOf(Contents(), customer, exclude);
      SelectedAreOthers(rows, db, customer, exclude);
      SilencingOthersIsOptOut(db, customer, exclude);
      IndexedKeys(rows, cases);
      var todo := set k | k in rows && rows[k].customer == Some(customer) && k != exclude;
      SilencedNone(db, others - todo);
      while todo != {}
        invariant Valid()
        invariant todo <= others && others <= db.cases.Keys
        invariant Contents() == SilencedIn(db, others - todo)
        decreases todo
      {
        var k :| k in todo;
        SilenceRow(k, db, others - todo);
        assert others - (todo - {k}) == others - todo + {k};
        todo := todo - {k};
      }
      assert others - todo == others;
    }

    lemma SilencedNone(db: Db, none: set<Key>)
      requires none == {}
      ensures SilencedIn(db, none) == db
    {
    }

    method SilenceRow(k: Key, ghost db: Db, ghost done: set<Key>)
      requires Valid() && k in db.cases && k !in done && Contents() == SilencedIn(db, done)
      modifies this`rows, this`cases
      ensures Valid() && Contents() == SilencedIn(db, done + {k})
    {
      hide Indexed, Decode;
      IndexedKeys(rows, cases);
      IndexedRow(rows, cases, k);
      assert cases[k] == db.cases[k];
      var c := Decode(rows[k].payload).value;
      if !c.attention.optedOut {
        var c' := c.(attention := c.attention.(optedOut := true));
        assert Stampable(c');
        hide Stampable;
        var saved := SaveCase(c');
      }
      SilencedStep(db, done, k, Contents());
    }

    // due_cases: an indexed query over text columns.
    method DueCases(states: set<CaseState>, now: Time, limit: Option<int>)
      returns (r: Result<seq<RecoveryCase>, Fault>)
      requires Valid()
      ensures states == {} ==> r == Ok([])
      ensures states != {} && !InRange(now) ==> r == Err(OutOfCalendar)
      ensures states != {} && InRange(now) ==> r.Ok? && IsDueBatch(cases, states, now, limit, r.value)
    {
      if states == {} {
        return Ok([]);
      }
      if !InRange(now) {
        return Err(OutOfCalendar);
      }
      hide IsDueBatch, AllDue, RowsOf, RowOf, AllStampable, Indexed, StampOf, InRange;
      var picked, chosen := SelectDue(states, now);
      TruncationIsBatch(cases, states, now, limit, chosen);
      var batch := DecodeRows(picked, chosen, Capped(limit, |picked|)) by {
        RowsOfLength(chosen);
      }
      r := Ok(batch);
    }

    lemma RowsOfLength(chosen: seq<RecoveryCase>)
      requires AllStampable(chosen)
      ensures |RowsOf(chosen)| == |chosen|
    {
    }

    method SelectDue(states: set<CaseState>, now: Time) returns (picked: seq<Row>, ghost chosen: seq<RecoveryCase>)
      requires Valid() && InRange(now)
      ensures AllStampable(chosen) && picked == RowsOf(chosen)
      ensures AllDue(cases, cases.Keys, states, now, chosen)
    {
      hide AllDue, Indexed, StampOf, InRange, DueRow, DueCase, InsertDue, InsertDueRow, AllStampable, RowsOf;
      IndexedKeys(rows, cases);
      var todo := rows.Keys;
      picked, chosen := [], [];
      NothingDue(cases, cases.Keys - todo, states, now);
      while todo != {}
        invariant todo <= rows.Keys
        invariant AllStampable(chosen) && picked == RowsOf(chosen)
        invariant AllDue(cases, cases.Keys - todo, states, now, chosen)
        decreases todo
      {
        var k :| k in todo;
        picked, chosen := Consider(k, states, now, picked, chosen, cases.Keys - todo);
        assert cases.Keys - (todo - {k}) == cases.Keys - todo + {k};
        todo := todo - {k};
      }
      assert cases.Keys - todo == cases.Keys;
    }

    lemma NothingDue(cases: map<Key, RecoveryCase>, none: set<Key>, states: set<CaseState>, now: Time)
      requires none == {}
      ensures AllDue(cases, none, states, now, []) && AllStampable([]) && RowsOf([]) == []
    {
    }

    // One row of the scan.
    method Consider(k: Key, states: set<CaseState>, now: Time, picked: seq<Row>, ghost chosen: seq<RecoveryCase>,
                    ghost done: set<Key>)
      returns (picked': seq<Row>, ghost chosen': seq<RecoveryCase>)
      requires Valid() && k in rows && InRange(now) && done <= cases.Keys && k !in done
      requires AllStampable(chosen) && picked == RowsOf(chosen) && AllDue(cases, done, states, now, chosen)
      ensures AllStampable(chosen') && picked' == RowsOf(chosen')
      ensures AllDue(cases, done + {k}, states, now, chosen')
    {
      hide AllDue, Indexed, StampOf, InRange, DueRow, DueCase, InsertDue, InsertDueRow, AllStampable, RowsOf, RowOf,
        Decode;
      IndexedKeys(rows, cases);
      IndexedRow(rows, cases, k);
      ColumnsSelectByInstant(cases[k], states, now);
      DueStep(cases, done, states, now, chosen, k);
      InsertByColumns(chosen, cases[k]);
      if DueRow(rows[k], states, StampOf(now)) {
        picked', chosen' := InsertDueRow(picked, rows[k]), InsertDue(chosen, cases[k]);
      } else {
        picked', chosen' := picked, chosen;
      }
    }

    method DecodeRows(picked: seq<Row>, ghost chosen: seq<RecoveryCase>, n: nat) returns (batch: seq<RecoveryCase>)
      requires AllStampable(chosen) && picked == RowsOf(chosen) && n <= |picked| == |chosen|
      ensures batch == chosen[..n]
    {
      hide Decode, RowsOf, AllStampable;
      batch := [];
      for i := 0 to n
        invariant batch == chosen[..i]
      {
        RowDecodes(chosen, i);
        batch := batch + [Decode(picked[i].payload).value];
      }
    }

    lemma RowDecodes(chosen: seq<RecoveryCase>, i: nat)
      requires AllStampable(chosen) && i < |chosen|
      ensures |RowsOf(chosen)| == |chosen| && Decode(RowsOf(chosen)[i].payload) == Ok(chosen[i])
    {
      PayloadRoundTrip(chosen[i]);
      hide Decode, Encode;
    }

    // failed_actions: failed cancels with attempts left, oldest first.
    method FailedCancels(maxAttempts: int, limit: int) returns (batch: seq<ActionKey>)
      requires Valid()
      ensures IsSweepBatch(actions, maxAttempts, limit, batch)
    {
      hide Retryable, InsertOldest, IsSweepBatch, OldestFirst;
      var todo := actions.Keys;
      var all: seq<ActionKey> := [];
      NoneRetryable(actions, maxAttempts);
      assert actions.Keys - todo == {};
      while todo != {}
        invariant todo <= actions.Keys
        invariant AllRetryable(actions, actions.Keys - todo, maxAttempts, all)
        decreases todo
      {
        var ak :| ak in todo;
        if Retryable(actions, ak, maxAttempts) {
          InsertOldestKeeps(actions, all, ak);
          all := InsertOldest(actions, all, ak);
        }
        todo := todo - {ak};
      }
      assert actions.Keys - todo == actions.Keys;
      TruncationIsSweepBatch(actions, maxAttempts, limit, all);
      batch := all[..Capped(Some(limit), |all|)];
    }

    lemma NoneRetryable(actions: map<ActionKey, Action>, maxAttempts: int)
      ensures AllRetryable(actions, {}, maxAttempts, [])
    {
    }

    // metrics: SQL aggregation over the columns gives what a scan of every decoded case would.
    method Metrics() returns (m: Metrics)
      requires Valid()
      ensures m == FullScan(cases)
    {
      hide Indexed, Tallied, Amount;
      var byState := GroupByState();
      var total := TotalOf(byState);
      assert forall st :: Entry(byState, st) == (CountIn(cases, st), AmountIn(cases, st)) by {
        EntriesAreScans(byState);
      }
      hide CountIn, AmountIn;
      m := Queries.Metrics(total,
        Entry(byState, RecoveredNatural).0 + Entry(byState, RecoveredByLink).0,
        Entry(byState, RecoveredNatural).1 + Entry(byState, RecoveredByLink).1,
        Entry(byState, ConsentRequired).0, Entry(byState, LinkSent).0, Entry(byState, ManualReview).0,
        Entry(byState, Cooldown).0, Entry(byState, RetryScheduled).0, Entry(byState, Stopped).0,
        Entry(byState, AuthorizedPendingCapture).0,
        Entry(byState, RecoveryReversed).0, Entry(byState, RecoveryReversed).1);
    }

    lemma EntriesAreScans(m: Tally)
      requires Tallied(m, cases, cases.Keys)
      ensures forall st :: Entry(m, st) == (CountIn(cases, st), AmountIn(cases, st))
    {
    }

    method GroupByState() returns (m: Tally)
      requires Valid()
      ensures Tallied(m, cases, cases.Keys)
    {
      hide Indexed, Tallied, RowOf, Stampable, Decode, Entry;
      IndexedKeys(rows, cases);
      var todo := rows.Keys;
      m := map[];
      NothingTallied(cases, cases.Keys - todo);
      while todo != {}
        invariant todo <= rows.Keys
        invariant Tallied(m, cases, cases.Keys - todo)
        decreases todo
      {
        var k :| k in todo;
        IndexedRow(rows, cases, k);
        TallyStep(m, cases, cases.Keys - todo, k);
        var st, e := rows[k].state, Entry(m, rows[k].state);
        m := m[st := (e.0 + 1, e.1 + rows[k].amount)];
        assert cases.Keys - (todo - {k}) == cases.Keys - todo + {k};
        todo := todo - {k};
      }
      assert cases.Keys - todo == cases.Keys;
    }

    lemma NothingTallied(cases: map<Key, RecoveryCase>, none: set<Key>)
      requires none == {}
      ensures Tallied(map[], cases, none)
    {
      assert forall st :: InState(cases, none, st) == {};
    }

    method TotalOf(m: Tally) returns (total: int)
      requires Valid() && Tallied(m, cases, cases.Keys)
      ensures total == |cases|
    {
      hide Amount, Indexed;
      var todo := m.Keys;
      total := 0;
      assert InStates(cases, m.Keys - todo) == {};
      while todo != {}
        invariant todo <= m.Keys && total == |InStates(cases, m.Keys - todo)|
        decreases todo
      {
        var st :| st in todo;
        CountsAdd(cases, m.Keys - todo, st);
        assert m[st] == Entry(m, st);
        total := total + m[st].0;
        assert m.Keys - (todo - {st}) == m.Keys - todo + {st};
        todo := todo - {st};
      }
      assert InStates(cases, m.Keys - todo) == cases.Keys;
    }
  }
}
