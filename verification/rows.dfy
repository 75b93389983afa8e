// Stored rows (app/store.py): the payload is the truth, the columns beside it are an index over it, and instants are
// text.
module Rows {
  import opened Base
  import opened Models
  import opened Engine
  import opened Stamps

  // ------------------------------------------------------------------ codec

  predicate InCalendar(t: Option<Time>) {
    t.Some? ==> InRange(t.value)
  }

  function StampOption(t: Option<Time>): Option<string>
    requires InCalendar(t)
  {
    if t.None? then None else Some(StampOf(t.value))
  }

  function ReadInstant(s: string): Result<Time, ParseError> {
    var c :- ReadIso(s);
    if IsCivil(c) then Ok(Micros(c)) else Err(NotATimestamp)
  }

  function ReadOption(s: Option<string>): Result<Option<Time>, ParseError> {
    if s.None? then Ok(None)
    else
      var t :- ReadInstant(s.value);
      Ok(Some(t))
  }

  // The stored form of a case: every instant is text.
  datatype Payload = Payload(
    key: Key,
    amount: int,
    state: CaseState,
    failure: Failure,
    customer: Option<CustomerId>,
    linkId: Option<LinkId>,
    linkStatus: Option<LinkStatus>,
    preview: bool,
    nextActionAt: Option<string>,
    stopReason: Option<Reason>,
    reconcile: bool,
    reversalReason: Option<EventType>,
    reversedAt: Option<string>,
    attempts: int,
    version: int,
    contacts: int,
    maxContacts: int,
    optedOut: bool,
    lastContactAt: Option<string>,
    updatedAt: string)

  // Every instant of the case can be written as a stamp.
  predicate Stampable(c: RecoveryCase) {
    && InCalendar(c.nextActionAt)
    && InCalendar(c.attention.lastContactAt)
    && InRange(c.updatedAt)
    && (c.reversal.Some? ==> InRange(c.reversal.value.at))
  }

  // Every instant a transaction leaves behind can be written.
  ghost predicate Writable(db: Db) {
    forall k | k in db.cases :: Stampable(db.cases[k])
  }

  function Encode(c: RecoveryCase): Payload
    requires Stampable(c)
  {
    Payload(c.key, c.amount, c.state, c.failure, c.customer, c.linkId, c.linkStatus, c.preview,
            StampOption(c.nextActionAt), c.stopReason, c.reconcile,
            if c.reversal.Some? then Some(c.reversal.value.reason) else None,
            if c.reversal.Some? then Some(StampOf(c.reversal.value.at)) else None,
            c.attempts, c.version, c.attention.contacts, c.attention.maxContacts, c.attention.optedOut,
            StampOption(c.attention.lastContactAt), StampOf(c.updatedAt))
  }

  function Decode(p: Payload): Result<RecoveryCase, ParseError> {
    var nextActionAt :- ReadOption(p.nextActionAt);
    var lastContactAt :- ReadOption(p.lastContactAt);
    var reversedAt :- ReadOption(p.reversedAt);
    var updatedAt :- ReadInstant(p.updatedAt);
    Ok(RecoveryCase(p.key, p.amount, p.state, p.failure, p.customer, p.linkId, p.linkStatus, p.preview,
                    nextActionAt, p.stopReason, p.reconcile,
                    if p.reversalReason.Some? && reversedAt.Some?
                    then Some(Reversal(p.reversalReason.value, reversedAt.value)) else None,
                    p.attempts, p.version,
                    Attention(p.contacts, p.maxContacts, p.optedOut, lastContactAt), updatedAt))
  }

  lemma OptionRoundTrip(t: Option<Time>)
    requires InCalendar(t)
    ensures ReadOption(StampOption(t)) == Ok(t)
  {
    hide ReadInstant, StampOf, InRange;
    if t.Some? {
      InstantRoundTrip(t.value);
    }
  }

  lemma InstantRoundTrip(t: Time)
    requires InRange(t)
    ensures ReadInstant(StampOf(t)) == Ok(t)
  {
    hide ReadIso, StampOf, CivilOf, Micros, InRange;
    StampRoundTrip(t);
  }

  lemma SomeRoundTrip(t: Time)
    requires InRange(t)
    ensures ReadOption(Some(StampOf(t))) == Ok(Some(t))
  {
    hide ReadInstant, StampOf, InRange;
    InstantRoundTrip(t);
  }

  lemma NoneRoundTrip()
    ensures ReadOption(None) == Ok(None)
  {
  }

  // What is stored decodes to what was saved.
  lemma PayloadRoundTrip(c: RecoveryCase)
    requires Stampable(c)
    ensures Decode(Encode(c)) == Ok(c)
  {
    hide ReadInstant, ReadOption, StampOption, InRange;
    OptionRoundTrip(c.nextActionAt);
    OptionRoundTrip(c.attention.lastContactAt);
    InstantRoundTrip(c.updatedAt);
    if c.reversal.Some? {
      SomeRoundTrip(c.reversal.value.at);
    } else {
      NoneRoundTrip();
    }
  }

  // A row of the case table: the payload and the columns queries use instead of it.
  datatype Row = Row(
    payload: Payload,
    version: int,
    state: CaseState,
    nextActionAt: Option<string>,
    amount: int,
    updatedAt: string,
    customer: Option<CustomerId>)

  function RowOf(c: RecoveryCase): Row
    requires Stampable(c)
  {
    Row(Encode(c), c.version, c.state, StampOption(c.nextActionAt), c.amount, StampOf(c.updatedAt), c.customer)
  }

  // ------------------------------------------------------------ due ordering

  // The query's row filter, on columns.
  predicate DueRow(r: Row, states: set<CaseState>, now: string) {
    r.state in states && (r.nextActionAt.None? || !TextLess(now, r.nextActionAt.value))
  }

  predicate DueCase(c: RecoveryCase, states: set<CaseState>, now: Time) {
    c.state in states && (c.nextActionAt.None? || c.nextActionAt.value <= now)
  }

  // ORDER BY next_action_at IS NULL DESC, next_action_at, updated_at, id
  predicate RowBefore(a: Row, b: Row) {
    if a.nextActionAt.None? != b.nextActionAt.None? then a.nextActionAt.None?
    else if a.nextActionAt != b.nextActionAt then TextLess(a.nextActionAt.value, b.nextActionAt.value)
    else if a.updatedAt != b.updatedAt then TextLess(a.updatedAt, b.updatedAt)
    else TextLess(a.payload.key, b.payload.key)
  }

  predicate CaseBefore(a: RecoveryCase, b: RecoveryCase) {
    if a.nextActionAt.None? != b.nextActionAt.None? then a.nextActionAt.None?
    else if a.nextActionAt != b.nextActionAt then a.nextActionAt.value < b.nextActionAt.value
    else if a.updatedAt != b.updatedAt then a.updatedAt < b.updatedAt
    else TextLess(a.key, b.key)
  }

  lemma DeadlineOrder(t: Option<Time>, u: Option<Time>)
    requires InCalendar(t) && InCalendar(u)
    ensures StampOption(t).None? <==> t.None?
    ensures StampOption(u).None? <==> u.None?
    ensures StampOption(t) == StampOption(u) <==> t == u
    ensures t.Some? && u.Some? ==>
      (TextLess(StampOption(t).value, StampOption(u).value) <==> t.value < u.value)
  {
    hide StampOf, TextLess, InRange;
    if t.Some? && u.Some? {
      StampOrder(t.value, u.value);
    }
  }

  // Comparing text columns selects and orders rows exactly as comparing the instants would.
  lemma ColumnsSelectByInstant(c: RecoveryCase, states: set<CaseState>, now: Time)
    requires Stampable(c) && InRange(now)
    ensures DueRow(RowOf(c), states, StampOf(now)) <==> DueCase(c, states, now)
  {
    hide TextLess, InRange, Encode, StampOf;
    DeadlineOrder(Some(now), c.nextActionAt);
  }

  lemma ColumnsOrderByInstant(a: RecoveryCase, b: RecoveryCase)
    requires Stampable(a) && Stampable(b)
    ensures RowBefore(RowOf(a), RowOf(b)) <==> CaseBefore(a, b)
  {
    hide StampOf, TextLess, InRange, StampOption, Encode;
    DeadlineOrder(a.nextActionAt, b.nextActionAt);
    StampOrder(a.updatedAt, b.updatedAt);
    KeyStored(a);
    KeyStored(b);
  }

  lemma KeyStored(c: RecoveryCase)
    requires Stampable(c)
    ensures Encode(c).key == c.key
  {
  }

  // ------------------------------------------------------------------- index

  ghost predicate Indexed(rows: map<Key, Row>, cases: map<Key, RecoveryCase>) {
    && rows.Keys == cases.Keys
    && forall k | k in cases :: cases[k].key == k && Stampable(cases[k]) && rows[k] == RowOf(cases[k])
  }

  lemma SavedIsIndexed(rows: map<Key, Row>, cases: map<Key, RecoveryCase>, c: RecoveryCase)
    requires Indexed(rows, cases) && Stampable(c)
    ensures Indexed(rows[c.key := RowOf(c)], cases[c.key := c])
  {
    hide RowOf, Stampable;
  }

  lemma IndexedKeys(rows: map<Key, Row>, cases: map<Key, RecoveryCase>)
    requires Indexed(rows, cases)
    ensures forall k :: k in rows <==> k in cases
  {
    assert forall k :: k in rows <==> k in rows.Keys;
  }

  lemma VersionIsNoStamp(c: RecoveryCase)
    ensures Stampable(c.(version := c.version + 1)) <==> Stampable(c)
  {
  }

  lemma IndexedRow(rows: map<Key, Row>, cases: map<Key, RecoveryCase>, k: Key)
    requires Indexed(rows, cases) && k in cases
    ensures Stampable(cases[k]) && cases[k].key == k && rows[k] == RowOf(cases[k])
    ensures Decode(rows[k].payload) == Ok(cases[k])
    ensures rows[k].version == cases[k].version && rows[k].customer == cases[k].customer
    ensures rows[k].state == cases[k].state && rows[k].amount == cases[k].amount
  {
    PayloadRoundTrip(cases[k]);
    hide Decode, Encode, Stampable;
  }
}
