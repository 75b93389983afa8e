// Whom a dispatch tick may write to, and where an elapsed timer or a consent takes a case, in terms of the rows alone.
module Escalation {
  import opened Base
  import opened Models
  import opened Engine
  import opened Effects
  import opened Protocol
  import opened LinkSafety
  import opened CancelSafety
  import opened ProtocolTheorems
  import opened Stamps
  import opened Rows
  import opened Queries
  import opened Refinement
  import opened ServiceModel
  import opened Outcomes
  import opened Ticks
  import R = Release

  // --------------------------------------------------------------- contacts

  // Another case of the person of case k.
  predicate AlsoOf(db: Db, k: Key, j: Key)
    requires k in db.cases
  {
    && j in db.cases && j != k
    && db.cases[k].customer.Some? && db.cases[j].customer == db.cases[k].customer
  }

  // Written to less than the cooldown ago.
  predicate Cooling(c: RecoveryCase, now: Time, cooldown: int) {
    c.attention.lastContactAt.Some? && now - c.attention.lastContactAt.value < cooldown
  }

  ghost predicate OthersOut(db: Db, k: Key)
    requires k in db.cases
  {
    exists j :: AlsoOf(db, k, j) && db.cases[j].attention.optedOut
  }

  ghost predicate OthersCooling(db: Db, k: Key, now: Time, cooldown: int)
    requires k in db.cases
  {
    exists j :: AlsoOf(db, k, j) && Cooling(db.cases[j], now, cooldown)
  }

  ghost function OthersLinked(db: Db, k: Key): set<Key>
    requires k in db.cases
  {
    set j | j in db.cases && AlsoOf(db, k, j) && db.cases[j].linkId.Some?
  }

  // The links sent over the person's other cases, ever, and over this one in the last seven days, reach the maximum.
  ghost predicate BudgetSpent(db: Db, k: Key, now: Time)
    requires k in db.cases
  {
    var c := db.cases[k];
    var own := if c.linkId.Some? && Cooling(c, now, 7 * DAY) then 1 else 0;
    |OthersLinked(db, k)| + own >= DEFAULT_MAX_CONTACTS_7D
  }

  // Why case k may not be written to, if so. Its own opt-out and its own cooldown come first; then the opt-outs, the
  // budget and the cooldown of the person as a whole.
  ghost predicate Verdict(db: Db, k: Key, now: Time, cooldown: int, refusal: Option<Reason>)
    requires k in db.cases
  {
    var c := db.cases[k];
    var own := Cooling(c, now, cooldown);
    var out := c.attention.optedOut || (OthersOut(db, k) && !own);
    && (refusal == Some(CustomerOptedOut) <==> out)
    && (refusal == Some(ContactBudgetExhausted) <==> !out && !own && BudgetSpent(db, k, now))
    && (refusal == Some(ContactCooldownActive) <==>
          !out && (own || (!BudgetSpent(db, k, now) && OthersCooling(db, k, now, cooldown))))
    && (refusal.Some? ==> refusal.value.CustomerOptedOut? || refusal.value.ContactBudgetExhausted?
                          || refusal.value.ContactCooldownActive?)
  }

  // What the check relies on: each row is held under its own key, and counts one contact if it carries a link.
  predicate RowFits(k: Key, c: RecoveryCase) {
    && c.key == k && c.attention.maxContacts == DEFAULT_MAX_CONTACTS_7D
    && c.attention.contacts == (if c.linkId.Some? then 1 else 0)
    && (c.linkId.Some? <==> c.attention.lastContactAt.Some?)
  }

  ghost predicate RowsFit(db: Db) {
    forall k | k in db.cases :: RowFits(k, db.cases[k])
  }

  lemma OwnCheck(c: RecoveryCase, now: Time, cooldown: int)
    requires RowFits(c.key, c)
    ensures c.attention.CanContact(now, cooldown) ==
      if c.attention.optedOut then Some(CustomerOptedOut)
      else if Cooling(c, now, cooldown) then Some(ContactCooldownActive) else None
    ensures c.attention.Effective(now) == if c.linkId.Some? && Cooling(c, now, 7 * DAY) then 1 else 0
  {
  }

  lemma OthersCheck(db: Db, c: RecoveryCase, now: Time, cooldown: int)
    requires RowsFit(db) && c.key in db.cases && db.cases[c.key] == c && c.customer.Some?
    ensures var others := OthersOf(db, c.customer.value, c.key);
      && (AnyOptedOut(db, others) <==> OthersOut(db, c.key))
      && (AllCooled(db, others, now, cooldown) <==> !OthersCooling(db, c.key, now, cooldown))
      && ContactSum(db, others) == |OthersLinked(db, c.key)|
  {
    var others := OthersOf(db, c.customer.value, c.key);
    forall j ensures j in others <==> AlsoOf(db, c.key, j) {
    }
    assert OneEach(db, others);
    ContactSumCounts(db, others);
    assert (set k | k in others && db.cases[k].linkId.Some?) == OthersLinked(db, c.key);
    assert AnyOptedOut(db, others) ==> OthersOut(db, c.key) by {
      if AnyOptedOut(db, others) {
        var j :| j in others && db.cases[j].attention.optedOut;
        assert AlsoOf(db, c.key, j);
      }
    }
    assert !AllCooled(db, others, now, cooldown) ==> OthersCooling(db, c.key, now, cooldown) by {
      if !AllCooled(db, others, now, cooldown) {
        var j :| j in others && Cooling(db.cases[j], now, cooldown);
        assert AlsoOf(db, c.key, j);
      }
    }
  }

  // The check on a row as it stands says exactly this.
  lemma CheckSays(db: Db, p: Settings, c: RecoveryCase, now: Time)
    requires RowsFit(db) && c.key in db.cases && db.cases[c.key] == c
    ensures Verdict(db, c.key, now, p.contactCooldown, MayContact(db, p, c, now))
  {
    OwnCheck(c, now, p.contactCooldown);
    if c.customer.Some? {
      OthersCheck(db, c, now, p.contactCooldown);
    } else {
      assert forall j :: !AlsoOf(db, c.key, j);
      assert OthersLinked(db, c.key) == {};
    }
    hide AnyOptedOut, AllCooled, ContactSum, OthersOut, OthersCooling, OthersLinked, RowsFit, Cooling;
  }

  // ------------------------------------------------------------ elapsed timers

  // Where an elapsed retry goes: to the person's consent if they may be written to, to a human if that may heal, and
  // to its end if they asked not to be.
  predicate Escalated(c: RecoveryCase, c': RecoveryCase, refusal: Option<Reason>, now: Time) {
    c' == c.(state := if refusal.None? then ConsentRequired
                      else if refusal.value.CustomerOptedOut? then Stopped else ManualReview,
             stopReason := if refusal.None? then c.stopReason else refusal,
             nextActionAt := None, updatedAt := now, version := c.version + 1)
  }

  // Where an elapsed cooldown goes: round again while the issuer is failing, into a retry at the case's own place in
  // the jitter window if it is released, and otherwise one jitter on.
  predicate Cooled(c: RecoveryCase, c': RecoveryCase, degraded: bool, released: bool, now: Time, p: Settings) {
    && c' == c.(state := c'.state, nextActionAt := c'.nextActionAt, updatedAt := now, version := c.version + 1)
    && c'.nextActionAt.Some?
    && var wait := c'.nextActionAt.value - now;
       if degraded then c'.state.Cooldown? && wait == p.cooldown
       else if released then
         var offset := wait - p.retryEscalationAfter;
         && c'.state.RetryScheduled? && 0 <= offset < Max(1, p.releaseJitter)
         && (p.releaseJitter >= SECOND ==> R.Spreads(offset, p.digest(c.key), p.releaseJitter / SECOND))
       else c'.state.Cooldown? && wait == p.releaseJitter
  }

  ghost predicate TimerFate(db: Db, c: RecoveryCase, c': RecoveryCase, degraded: bool, released: bool, now: Time,
                            p: Settings)
    requires c.key in db.cases
  {
    if c.state.Cooldown? then Cooled(c, c', degraded, released, now, p)
    else exists refusal :: Verdict(db, c.key, now, p.contactCooldown, refusal) && Escalated(c, c', refusal, now)
  }

  predicate TimerRow(db: Db, c: RecoveryCase, now: Time, p: Settings) {
    && c.key in db.cases && db.cases[c.key] == c && R.Due(c, now) && Timed(c)
    && c.attempts < p.maxRecoveryAttempts
  }

  // The room left in the release budget of a case's rail.
  predicate HasSlot(b: R.Budget, c: RecoveryCase, p: Settings) {
    R.Used(b, R.SlotOf(c)) < p.maxReleasesPerTick
  }

  lemma TurnFate(db: Db, b: R.Budget, p: Settings, c: RecoveryCase, degraded: bool, now: Time)
    requires RowsFit(db) && TimerRow(db, c, now, p)
    ensures var plan := R.Plan(db, b, p, c, degraded, now);
      && plan.Some?
      && var db' := Engine.CommitState(db, c, plan.value, now).0;
        && OnlyRow(db, db', c.key) && db'.actions == db.actions
        && TimerFate(db, c, db'.cases[c.key], degraded, HasSlot(b, c, p), now, p)
        && db'.cases[c.key].state == plan.value.target
  {
    CheckSays(db, p, c, now);
    hide MayContact, Verdict, RowsFit;
    var refusal := MayContact(db, p, c, now);
    var d := R.Plan(db, b, p, c, degraded, now).value;
    if c.state.Cooldown? {
      CooldownPlan(db, b, p, c, degraded, now);
    } else {
      RetryPlan(db, b, p, c, degraded, now, refusal);
    }
  }

  lemma CooldownPlan(db: Db, b: R.Budget, p: Settings, c: RecoveryCase, degraded: bool, now: Time)
    requires c.key in db.cases && db.cases[c.key] == c && R.Due(c, now) && c.state.Cooldown?
    ensures var plan := R.Plan(db, b, p, c, degraded, now);
      && plan.Some?
      && var db' := Engine.CommitState(db, c, plan.value, now).0;
        && OnlyRow(db, db', c.key) && db'.actions == db.actions
        && Cooled(c, db'.cases[c.key], degraded, HasSlot(b, c, p), now, p)
        && db'.cases[c.key].state == plan.value.target
  {
    hide MayContact;
  }

  lemma RetryPlan(db: Db, b: R.Budget, p: Settings, c: RecoveryCase, degraded: bool, now: Time,
                  refusal: Option<Reason>)
    requires TimerRow(db, c, now, p) && c.state.RetryScheduled? && refusal == MayContact(db, p, c, now)
    requires refusal.Some? ==> refusal.value.CustomerOptedOut? || refusal.value.ContactBudgetExhausted?
                               || refusal.value.ContactCooldownActive?
    ensures var plan := R.Plan(db, b, p, c, degraded, now);
      && plan.Some?
      && var db' := Engine.CommitState(db, c, plan.value, now).0;
        && OnlyRow(db, db', c.key) && db'.actions == db.actions
        && Escalated(c, db'.cases[c.key], refusal, now)
        && db'.cases[c.key].state == plan.value.target
  {
    hide MayContact;
  }

  // Timers change nothing that a later check looks at.
  ghost predicate SameContacts(db: Db, db': Db) {
    && db'.cases.Keys == db.cases.Keys && db'.actions == db.actions
    && forall k | k in db.cases ::
         && db'.cases[k].key == db.cases[k].key && db'.cases[k].attention == db.cases[k].attention
         && db'.cases[k].customer == db.cases[k].customer && db'.cases[k].linkId == db.cases[k].linkId
  }

  lemma SameVerdict(db: Db, db': Db, k: Key, now: Time, cooldown: int, refusal: Option<Reason>)
    requires SameContacts(db, db') && k in db.cases && Verdict(db', k, now, cooldown, refusal)
    ensures Verdict(db, k, now, cooldown, refusal)
  {
    assert forall j :: AlsoOf(db', k, j) == AlsoOf(db, k, j);
    assert OthersLinked(db', k) == OthersLinked(db, k);
  }

  lemma ContactsFit(db: Db, db': Db)
    requires RowsFit(db) && SameContacts(db, db')
    ensures RowsFit(db')
  {
  }

  lemma TurnKeepsContacts(db: Db, db1: Db, db': Db, c: RecoveryCase, degraded: bool, released: bool, now: Time,
                          p: Settings)
    requires SameContacts(db, db1) && c.key in db1.cases && db1.cases[c.key] == c
    requires OnlyRow(db1, db', c.key) && db'.actions == db1.actions
    requires TimerFate(db1, c, db'.cases[c.key], degraded, released, now, p)
    ensures SameContacts(db, db') && TimerFate(db, c, db'.cases[c.key], degraded, released, now, p)
  {
    hide Verdict;
    if !c.state.Cooldown? {
      var refusal :| Verdict(db1, c.key, now, p.contactCooldown, refusal)
                     && Escalated(c, db'.cases[c.key], refusal, now);
      SameVerdict(db, db1, c.key, now, p.contactCooldown, refusal);
    }
  }

  // How each case of a pass ends, by the decisions taken before its turn.
  ghost predicate TurnLeft(p: Settings, before: Db, turns: seq<R.Turn>, i: nat, now: Time, after: Db)
    requires i < |turns|
  {
    var t := turns[i];
    && t.c.key in before.cases && t.c.key in after.cases
    && TimerFate(before, t.c, after.cases[t.c.key], t.degraded,
                 R.Releases(p, turns[..i], now, R.SlotOf(t.c)) < p.maxReleasesPerTick, now, p)
    && (t.c.state.Cooldown? ==>
          (after.cases[t.c.key].state.RetryScheduled? <==> R.ReleasedAt(p, turns, i, now)))
  }

  // The cases of one issuer and rail that had cooled down and were released before turn i.
  ghost function ReleasedBefore(turns: seq<R.Turn>, i: nat, issuer: string, rail: Rail, after: Db): set<nat>
    requires i <= |turns|
  {
    set j: nat | j < i && WasReleased(turns[j].c, issuer, rail, after)
  }

  predicate WasReleased(c: RecoveryCase, issuer: string, rail: Rail, after: Db) {
    && c.state.Cooldown? && c.failure.issuer == issuer && c.failure.rail == rail
    && c.key in after.cases && after.cases[c.key].state.RetryScheduled?
  }

  // How each case of a pass ends: by the verdict its rail had at its turn, and by whether fewer cases of its own issuer
  // and rail than the quota had been released before it.
  ghost predicate TurnEnds(p: Settings, before: Db, turns: seq<R.Turn>, i: nat, now: Time, after: Db)
    requires i < |turns|
  {
    var t := turns[i];
    && t.c.key in before.cases && t.c.key in after.cases
    && TimerFate(before, t.c, after.cases[t.c.key], t.degraded,
                 |ReleasedBefore(turns, i, t.c.failure.issuer, t.c.failure.rail, after)| < p.maxReleasesPerTick, now, p)
  }

  lemma {:induction false} ReleasesAreCounted(p: Settings, before: Db, turns: seq<R.Turn>, i: nat, now: Time, after: Db,
                                              issuer: string, rail: Rail)
    requires i <= |turns| && forall j | 0 <= j < i :: TurnLeft(p, before, turns, j, now, after)
    ensures R.Releases(p, turns[..i], now, (issuer, rail)) == |ReleasedBefore(turns, i, issuer, rail, after)|
  {
    hide TimerFate, R.DecisionAt, R.ReleasedAt, R.Releases, ReleasedBefore, WasReleased;
    if i == 0 {
      NoneReleased(p, turns, now, after, issuer, rail);
    } else {
      ReleasesAreCounted(p, before, turns, i - 1, now, after, issuer, rail);
      assert TurnLeft(p, before, turns, i - 1, now, after);
      ReleasesStep(p, turns, i, now, (issuer, rail));
      ReleasedStep(turns, i, issuer, rail, after);
      LastReleased(p, before, turns, i - 1, now, after, issuer, rail);
    }
  }

  lemma NoneReleased(p: Settings, turns: seq<R.Turn>, now: Time, after: Db, issuer: string, rail: Rail)
    ensures R.Releases(p, turns[..0], now, (issuer, rail)) == |ReleasedBefore(turns, 0, issuer, rail, after)|
  {
    assert ReleasedBefore(turns, 0, issuer, rail, after) == {};
  }

  lemma LastReleased(p: Settings, before: Db, turns: seq<R.Turn>, n: nat, now: Time, after: Db, issuer: string,
                     rail: Rail)
    requires n < |turns| && TurnLeft(p, before, turns, n, now, after)
    ensures WasReleased(turns[n].c, issuer, rail, after) <==>
      R.SlotOf(turns[n].c) == (issuer, rail) && R.ReleasedAt(p, turns, n, now)
  {
    hide TimerFate, R.DecisionAt, R.Releases;
  }

  lemma ReleasedStep(turns: seq<R.Turn>, i: nat, issuer: string, rail: Rail, after: Db)
    requires 0 < i <= |turns|
    ensures |ReleasedBefore(turns, i, issuer, rail, after)| ==
      |ReleasedBefore(turns, i - 1, issuer, rail, after)|
      + if WasReleased(turns[i - 1].c, issuer, rail, after) then 1 else 0
  {
    hide WasReleased;
    var rest := ReleasedBefore(turns, i - 1, issuer, rail, after);
    assert ReleasedBefore(turns, i, issuer, rail, after) ==
           if WasReleased(turns[i - 1].c, issuer, rail, after) then rest + {i - 1} else rest;
  }

  lemma ReleasesStep(p: Settings, turns: seq<R.Turn>, i: nat, now: Time, slot: R.Slot)
    requires 0 < i <= |turns|
    ensures R.Releases(p, turns[..i], now, slot) ==
      R.Releases(p, turns[..i - 1], now, slot)
      + if R.SlotOf(turns[i - 1].c) == slot && R.ReleasedAt(p, turns, i - 1, now) then 1 else 0
  {
    hide R.ReleasedAt;
    assert turns[..i][..i - 1] == turns[..i - 1];
    SameDecision(p, turns, i, now);
  }

  lemma SameDecision(p: Settings, turns: seq<R.Turn>, i: nat, now: Time)
    requires 0 < i <= |turns|
    ensures R.ReleasedAt(p, turns[..i], i - 1, now) == R.ReleasedAt(p, turns, i - 1, now)
  {
    assert turns[..i][..i - 1] == turns[..i - 1];
    hide R.Plan;
  }

  ghost predicate TimerRows(db: Db, p: Settings, turns: seq<R.Turn>, now: Time) {
    && (forall t | t in turns :: TimerRow(db, t.c, now, p))
    && (forall i, j | 0 <= i < j < |turns| :: turns[i].c.key != turns[j].c.key)
  }

  ghost predicate OthersStood(before: Db, after: Db, turns: seq<R.Turn>) {
    forall k | k in before.cases && (forall t | t in turns :: t.c.key != k) ::
      k in after.cases && after.cases[k] == before.cases[k]
  }

  lemma RowsPrefix(db: Db, p: Settings, turns: seq<R.Turn>, now: Time)
    requires TimerRows(db, p, turns, now) && turns != []
    ensures var rest, t := turns[..|turns| - 1], turns[|turns| - 1];
      && TimerRows(db, p, rest, now) && TimerRow(db, t.c, now, p)
      && forall x | x in rest :: x.c.key != t.c.key
  {
    assert turns[|turns| - 1] in turns;
    hide TimerRow;
  }

  // A timer pass leaves each case it took as the table says, by the contacts the pass began with, and every other case
  // as it was.
  lemma {:induction false} TimersLeave(p: Settings, before: Db, turns: seq<R.Turn>, now: Time, after: Db)
    requires RowsFit(before) && TimerRows(before, p, turns, now) && R.Chained(p, before, turns, now, after)
    ensures SameContacts(before, after) && OthersStood(before, after, turns)
    ensures forall i | 0 <= i < |turns| :: TurnLeft(p, before, turns, i, now, after)
    decreases |turns|
  {
    hide R.Chained, R.Plan, R.BudgetAfter, R.BudgetOver, RowsFit, TurnLeft, TimerRow, TimerRows, R.Taken, R.Promoted,
      SameContacts, OthersStood;
    if turns == [] {
      NoTurns(p, before, turns, now, after);
    } else {
      var rest, t := turns[..|turns| - 1], turns[|turns| - 1];
      R.LastTurn(p, before, turns, now, after);
      RowsPrefix(before, p, turns, now);
      TimersLeave(p, before, rest, now, t.db);
      LastFate(p, before, turns, now, after);
      OthersStillStand(before, t.db, after, turns);
      forall i | 0 <= i < |turns| ensures TurnLeft(p, before, turns, i, now, after) {
        if i < |rest| {
          assert TurnLeft(p, before, rest, i, now, t.db);
          EarlierTurn(p, before, turns, i, now, t.db, after);
        }
      }
    }
  }

  lemma NoTurns(p: Settings, before: Db, turns: seq<R.Turn>, now: Time, after: Db)
    requires turns == [] && R.Chained(p, before, turns, now, after)
    ensures SameContacts(before, after) && OthersStood(before, after, turns)
  {
  }

  lemma OthersStillStand(before: Db, mid: Db, after: Db, turns: seq<R.Turn>)
    requires turns != [] && OthersStood(before, mid, turns[..|turns| - 1])
    requires OnlyRow(mid, after, turns[|turns| - 1].c.key)
    ensures OthersStood(before, after, turns)
  {
    var rest, t := turns[..|turns| - 1], turns[|turns| - 1];
    forall k | k in before.cases && (forall x | x in turns :: x.c.key != k)
      ensures k in after.cases && after.cases[k] == before.cases[k]
    {
      assert t in turns && forall x | x in rest :: x in turns;
    }
  }

  lemma EarlierTurn(p: Settings, before: Db, turns: seq<R.Turn>, i: nat, now: Time, mid: Db, after: Db)
    requires i + 1 < |turns| && TurnLeft(p, before, turns[..|turns| - 1], i, now, mid)
    requires OnlyRow(mid, after, turns[|turns| - 1].c.key)
    requires forall x | x in turns[..|turns| - 1] :: x.c.key != turns[|turns| - 1].c.key
    ensures TurnLeft(p, before, turns, i, now, after)
  {
    hide TimerFate, R.Releases, R.Plan;
    var rest := turns[..|turns| - 1];
    assert rest[..i] == turns[..i] && rest[i] in rest;
  }

  lemma LastFate(p: Settings, before: Db, turns: seq<R.Turn>, now: Time, after: Db)
    requires turns != [] && RowsFit(before) && TimerRow(before, turns[|turns| - 1].c, now, p)
    requires var rest, t := turns[..|turns| - 1], turns[|turns| - 1];
      && SameContacts(before, t.db) && OthersStood(before, t.db, rest)
      && (forall x | x in rest :: x.c.key != t.c.key)
      && after == R.Promoted(t, R.Plan(t.db, R.BudgetOver(p, rest, now), p, t.c, t.degraded, now), now)
    ensures var t := turns[|turns| - 1];
      && SameContacts(before, after) && OnlyRow(t.db, after, t.c.key)
      && TurnLeft(p, before, turns, |turns| - 1, now, after)
  {
    var rest, t := turns[..|turns| - 1], turns[|turns| - 1];
    var b := R.BudgetOver(p, rest, now);
    ContactsFit(before, t.db);
    R.ReleasesAreBudgeted(p, rest, now, R.SlotOf(t.c));
    hide R.Plan, R.BudgetOver, RowsFit, TimerFate, R.Releases;
    assert R.DecisionAt(p, turns, |turns| - 1, now) == R.Plan(t.db, b, p, t.c, t.degraded, now);
    TurnFate(t.db, b, p, t.c, t.degraded, now);
    hide Engine.CommitState, SameContacts;
    TurnKeepsContacts(before, t.db, after, t.c, t.degraded, HasSlot(b, t.c, p), now, p);
  }

  // ----------------------------------------------------------- attempts at links

  // Whoever carries a link has a create on record.
  ghost predicate LinksRecorded(db: Db) {
    forall k | k in db.cases && db.cases[k].linkId.Some? :: CreateKey(k) in db.actions
  }

  // Every recorded cancel is of a case that carries a link.
  ghost predicate CancelsHaveLinks(db: Db) {
    forall ak: ActionKey | ak in db.actions && ak.IsCancel() ::
      ak.key in db.cases && db.cases[ak.key].key == ak.key && db.cases[ak.key].linkId.Some?
  }

  predicate GotLink(c: RecoveryCase, c': RecoveryCase, answer: Answer<NewLink>, now: Time) {
    && (answer.Accepted? ==> LinkedTo(c, c', answer.value, now))
    && (answer.Refused? ==> LinkRefused(c, c', answer.retryable, now))
  }

  // What one attempt makes of its case. Whoever may not be written to is not; a case whose link was tried before is
  // left waiting; and any other gets the link the provider answers with, or goes to a human.
  ghost predicate AttemptFate(p: Settings, t: LinkTurn, c': RecoveryCase, now: Time)
    requires t.c.key in t.db.cases
  {
    exists refusal :: Verdict(t.db, t.c.key, now, p.contactCooldown, refusal) && AttemptUnder(t, c', refusal, now)
  }

  predicate AttemptUnder(t: LinkTurn, c': RecoveryCase, refusal: Option<Reason>, now: Time) {
    && (t.called <==> refusal.None? && InRange(now) && CreateKey(t.c.key) !in t.db.actions)
    && (if t.r.Err? then c' == t.c
        else if refusal.Some? then Escalated(t.c, c', refusal, now)
        else if t.called then GotLink(t.c, c', t.answer, now)
        else c' == t.c)
  }

  lemma AttemptLeaves(p: Settings, t: LinkTurn, after: Db, now: Time)
    requires RowsFit(t.db) && LinksRecorded(t.db)
    requires LinkAttempt(t.r, t.db, after, p, t.c, now, t.answer, t.called)
    requires t.c.key in t.db.cases && t.db.cases[t.c.key] == t.c && t.c.state.ConsentRequired?
    ensures OnlyRow(t.db, after, t.c.key) && AttemptFate(p, t, after.cases[t.c.key], now)
    ensures t.db.actions.Keys <= after.actions.Keys && (t.called ==> CreateKey(t.c.key) in after.actions)
    ensures forall ak: ActionKey | ak in after.actions && ak.IsCancel() :: ak in t.db.actions
  {
    CheckSays(t.db, p, t.c, now);
    var refusal := MayContact(t.db, p, t.c, now);
    assert RowFits(t.c.key, t.c) && (t.c.linkId.Some? ==> CreateKey(t.c.key) in t.db.actions);
    hide MayContact, Verdict, RowsFit, LinksRecorded, Engine.CommitState, Engine.CreateCommit, InRange, Writable;
    if refusal.Some? {
      RefusalFate(t.db, t.c, refusal, now);
      CommitEnds(t.r, Ok((Engine.CommitState(t.db, t.c, RefusalPlan(refusal.value), now).0, ())), t.db, after);
    } else if t.called {
      CreateCommitLeaves(CreateIntent(t.db, t.c.key, now).0, t.c.key, t.answer, now);
    }
    assert AttemptUnder(t, after.cases[t.c.key], refusal, now);
  }

  lemma RefusalFate(db: Db, c: RecoveryCase, refusal: Option<Reason>, now: Time)
    requires c.key in db.cases && db.cases[c.key] == c && c.state.ConsentRequired?
    requires refusal.Some? && (refusal.value.CustomerOptedOut? || refusal.value.ContactBudgetExhausted?
                               || refusal.value.ContactCooldownActive?)
    ensures var db' := Engine.CommitState(db, c, RefusalPlan(refusal.value), now).0;
      && OnlyRow(db, db', c.key) && db'.actions == db.actions
      && Escalated(c, db'.cases[c.key], refusal, now)
  {
  }

  lemma AttemptFits(p: Settings, t: LinkTurn, after: Db, now: Time)
    requires RowsFit(t.db) && LinksRecorded(t.db) && t.c.key in t.db.cases && t.db.cases[t.c.key] == t.c
    requires OnlyRow(t.db, after, t.c.key) && AttemptFate(p, t, after.cases[t.c.key], now)
    requires t.db.actions.Keys <= after.actions.Keys && (t.called ==> CreateKey(t.c.key) in after.actions)
    requires forall ak: ActionKey | ak in after.actions && ak.IsCancel() :: ak in t.db.actions
    ensures RowsFit(after) && LinksRecorded(after)
    ensures CancelsHaveLinks(t.db) ==> CancelsHaveLinks(after)
  {
    hide Verdict, InRange;
  }

  ghost predicate AttemptLeft(p: Settings, turns: seq<LinkTurn>, i: nat, now: Time, after: Db)
    requires i < |turns|
  {
    var t := turns[i];
    t.c.key in t.db.cases && t.c.key in after.cases && AttemptFate(p, t, after.cases[t.c.key], now)
  }

  // A link pass leaves each case it took as the table says, by the contacts as they were at its turn.
  lemma {:induction false} AttemptsLeave(p: Settings, before: Db, turns: seq<LinkTurn>, now: Time, after: Db)
    requires RowsFit(before) && LinksRecorded(before) && Waiting(before, LinkCases(turns))
    requires LinkChain(p, before, turns, now, after)
    ensures RowsFit(after) && LinksRecorded(after) && (CancelsHaveLinks(before) ==> CancelsHaveLinks(after))
    ensures forall i | 0 <= i < |turns| :: AttemptLeft(p, turns, i, now, after)
  {
    hide LinkAttempt, Waiting, ParkingStands, AttemptFate, RowsFit, LinksRecorded, CancelsHaveLinks;
    if turns != [] {
      var rest, t := turns[..|turns| - 1], turns[|turns| - 1];
      assert LinkCases(turns) == LinkCases(rest) + [t.c];
      WaitingPrefix(before, LinkCases(turns), LinkCases(rest), t.c);
      AttemptsLeave(p, before, rest, now, t.db);
      LinksStand(p, before, rest, now, t.db);
      KeysStand(before, t.db);
      AttemptLeaves(p, t, after, now);
      AttemptFits(p, t, after, now);
      forall i | 0 <= i < |turns| ensures AttemptLeft(p, turns, i, now, after) {
        if i < |rest| {
          assert rest[i] == turns[i] && LinkCases(rest)[i] == rest[i].c;
          assert rest[i].c in LinkCases(rest);
          assert AttemptLeft(p, rest, i, now, t.db);
        }
      }
    }
  }

  // -------------------------------------------------------------- whole ticks

  // Whoever waits for a timer has a deadline and attempts to spare.
  ghost predicate TimersFit(db: Db, p: Settings) {
    forall k | k in db.cases && Timed(db.cases[k]) ::
      db.cases[k].nextActionAt.Some? && db.cases[k].attempts < p.maxRecoveryAttempts
  }

  // A reachable database is one the check can rely on.
  lemma ReachableFits(s: Sys)
    requires Reachable(s)
    ensures RowsFit(s.db) && LinksRecorded(s.db) && CancelsHaveLinks(s.db)
    ensures TimersFit(s.db, s.p)
  {
    ReachableIsSafe(s);
    FitsWhenSafe(s.db, s.p) by {
      assert LinksOk(s.db);
    }
    assert CancelsHaveLinks(s.db) by {
      assert Counted(s.db, s.issued, s.p) && AllAttended(s.db, s.closing);
    }
    hide Reachable, Safe;
  }

  lemma FitsWhenSafe(db: Db, p: Settings)
    requires DbOk(db, p) && LinksOk(db)
    ensures RowsFit(db) && LinksRecorded(db)
    ensures TimersFit(db, p)
  {
    forall k | k in db.cases
      ensures RowFits(k, db.cases[k]) && (db.cases[k].linkId.Some? ==> CreateKey(k) in db.actions)
      ensures Timed(db.cases[k]) ==> db.cases[k].nextActionAt.Some? && db.cases[k].attempts < p.maxRecoveryAttempts
    {
      assert CaseOk(k, db.cases[k], p);
    }
  }

  // The timer pass of a tick, from any reachable state: each case it takes goes where the table says, and no other case
  // moves.
  lemma TimersEscalate(s: Sys, turns: seq<R.Turn>, now: Time, after: Db, ok: bool)
    requires Reachable(s) && TimersDid(s.p, s.db, turns, now, after, ok)
    ensures forall i | 0 <= i < |turns| :: TurnEnds(s.p, s.db, turns, i, now, after)
    ensures SameContacts(s.db, after) && OthersStood(s.db, after, turns)
    ensures ok && |turns| != s.p.dispatchBatchSize ==>
      forall k | k in s.db.cases && Timed(s.db.cases[k]) && R.Due(s.db.cases[k], now) ::
        exists t :: t in turns && t.c == s.db.cases[k]
  {
    ReachableFits(s);
    hide Reachable, RowsFit, LinksRecorded, R.Chained, TurnLeft, TurnEnds, SameContacts, OthersStood;
    if turns == [] {
      assert TimerRows(s.db, s.p, turns, now);
    } else {
      var batch :| IsDueBatch(s.db.cases, {Cooldown, RetryScheduled}, now, Some(s.p.dispatchBatchSize), batch)
                   && TimersTook(s.p, turns, now, after, ok, batch);
      BatchRows(s.db, s.p, turns, now, batch);
    }
    TimersLeave(s.p, s.db, turns, now, after);
    forall i | 0 <= i < |turns| ensures TurnEnds(s.p, s.db, turns, i, now, after) {
      TurnIsCounted(s.p, s.db, turns, i, now, after);
    }
    if ok && |turns| != s.p.dispatchBatchSize {
      var batch :| IsDueBatch(s.db.cases, {Cooldown, RetryScheduled}, now, Some(s.p.dispatchBatchSize), batch)
                   && TimersTook(s.p, turns, now, after, ok, batch);
      AllDueTaken(s.db, s.p, turns, now, batch);
    }
  }

  lemma TurnIsCounted(p: Settings, before: Db, turns: seq<R.Turn>, i: nat, now: Time, after: Db)
    requires i < |turns| && forall j | 0 <= j <= i :: TurnLeft(p, before, turns, j, now, after)
    ensures TurnEnds(p, before, turns, i, now, after)
  {
    var c := turns[i].c;
    assert TurnLeft(p, before, turns, i, now, after);
    ReleasesAreCounted(p, before, turns, i, now, after, c.failure.issuer, c.failure.rail);
    hide R.Releases, ReleasedBefore, TimerFate, R.ReleasedAt;
  }

  lemma BatchRows(db: Db, p: Settings, turns: seq<R.Turn>, now: Time, batch: seq<RecoveryCase>)
    requires IsDueBatch(db.cases, {Cooldown, RetryScheduled}, now, Some(p.dispatchBatchSize), batch)
    requires R.Taken(turns) <= batch
    requires TimersFit(db, p)
    requires RowsFit(db)
    ensures TimerRows(db, p, turns, now)
  {
    RowsDiffer(db.cases, batch);
    hide Ordered, CaseBefore;
    forall t | t in turns ensures TimerRow(db, t.c, now, p) {
      var i :| 0 <= i < |turns| && turns[i] == t;
      assert R.Taken(turns)[i] == t.c && batch[i] == t.c && batch[i] in batch;
    }
    forall i, j | 0 <= i < j < |turns| ensures turns[i].c.key != turns[j].c.key {
      assert R.Taken(turns)[i] == batch[i] && R.Taken(turns)[j] == batch[j];
    }
  }

  lemma AllDueTaken(db: Db, p: Settings, turns: seq<R.Turn>, now: Time, batch: seq<RecoveryCase>)
    requires IsDueBatch(db.cases, {Cooldown, RetryScheduled}, now, Some(p.dispatchBatchSize), batch)
    requires R.Taken(turns) == batch && |turns| != p.dispatchBatchSize
    ensures forall k | k in db.cases && Timed(db.cases[k]) && R.Due(db.cases[k], now) ::
      exists t :: t in turns && t.c == db.cases[k]
  {
    hide Ordered, CaseBefore;
    forall k | k in db.cases && Timed(db.cases[k]) && R.Due(db.cases[k], now)
      ensures exists t :: t in turns && t.c == db.cases[k]
    {
      var i :| 0 <= i < |batch| && batch[i] == db.cases[k];
      assert turns[i] in turns && turns[i].c == db.cases[k];
    }
  }

  // May be written to: nobody of theirs opted out, room in the budget, and every contact cooled.
  ghost predicate Contactable(db: Db, k: Key, now: Time, cooldown: int)
    requires k in db.cases
  {
    && !db.cases[k].attention.optedOut && !OthersOut(db, k) && !BudgetSpent(db, k, now)
    && !Cooling(db.cases[k], now, cooldown) && !OthersCooling(db, k, now, cooldown)
  }

  // What becomes of a retry that has run out: the person is asked for consent if they may be written to, a spent budget
  // or a running cooldown leaves the decision to a human, and only an opt-out ends the case.
  lemma ElapsedRetries(s: Sys, turns: seq<R.Turn>, now: Time, after: Db, ok: bool, t: R.Turn)
    requires Reachable(s) && TimersDid(s.p, s.db, turns, now, after, ok) && t in turns && t.c.state.RetryScheduled?
    ensures t.c.key in s.db.cases && t.c.key in after.cases
    ensures var k, gap := t.c.key, s.p.contactCooldown;
      var out := t.c.attention.optedOut || OthersOut(s.db, k);
      && (after.cases[k].state.ConsentRequired? <==> Contactable(s.db, k, now, gap))
      && (after.cases[k].state.Stopped? ==> out)
      && (!out && (BudgetSpent(s.db, k, now) || Cooling(t.c, now, gap) || OthersCooling(s.db, k, now, gap)) ==>
            after.cases[k].state.ManualReview?)
      && after.cases[k].nextActionAt.None?
  {
    hide Reachable, TimersDid, TurnEnds, Contactable, Verdict, Escalated, TimerFate, SameContacts, OthersStood;
    TimersEscalate(s, turns, now, after, ok);
    TakenAsRead(s, turns, now, after, ok, t);
    var i :| 0 <= i < |turns| && turns[i] == t;
    assert TurnEnds(s.p, s.db, turns, i, now, after);
    RetryTurn(s.p, s.db, turns, i, now, after);
  }

  lemma RetryTurn(p: Settings, db: Db, turns: seq<R.Turn>, i: nat, now: Time, after: Db)
    requires i < |turns| && turns[i].c.state.RetryScheduled? && TurnEnds(p, db, turns, i, now, after)
    requires turns[i].c.key in db.cases && db.cases[turns[i].c.key] == turns[i].c
    ensures turns[i].c.key in after.cases
    ensures var k, gap := turns[i].c.key, p.contactCooldown;
      var out := turns[i].c.attention.optedOut || OthersOut(db, k);
      && (after.cases[k].state.ConsentRequired? <==> Contactable(db, k, now, gap))
      && (after.cases[k].state.Stopped? ==> out)
      && (!out && (BudgetSpent(db, k, now) || Cooling(turns[i].c, now, gap) || OthersCooling(db, k, now, gap)) ==>
            after.cases[k].state.ManualReview?)
      && after.cases[k].nextActionAt.None?
  {
    hide OthersOut, OthersCooling, BudgetSpent, ReleasedBefore, Cooling;
    var c := turns[i].c;
    var refusal :| Verdict(db, c.key, now, p.contactCooldown, refusal)
                   && Escalated(c, after.cases[c.key], refusal, now);
  }

  lemma TakenAsRead(s: Sys, turns: seq<R.Turn>, now: Time, after: Db, ok: bool, t: R.Turn)
    requires TimersDid(s.p, s.db, turns, now, after, ok) && t in turns
    ensures t.c.key in s.db.cases && s.db.cases[t.c.key] == t.c
  {
    var i :| 0 <= i < |turns| && turns[i] == t;
    var batch :| IsDueBatch(s.db.cases, {Cooldown, RetryScheduled}, now, Some(s.p.dispatchBatchSize), batch)
                 && TimersTook(s.p, turns, now, after, ok, batch);
    assert R.Taken(turns)[i] == t.c && batch[i] == t.c && batch[i] in batch;
  }

  // And the link pass of a tick: each case it takes is sent its link, sent nothing, or given up, as the table says.
  lemma LinksEscalate(s: Sys, t: TickTrace, now: Time, after: Db, ok: bool)
    requires Reachable(s) && TickDid(s.p, s.db, t, now, after, ok)
    ensures forall i | 0 <= i < |t.links| :: AttemptLeft(s.p, t.links, i, now, t.linked)
    ensures CancelsHaveLinks(t.linked)
  {
    hide Reachable, TimersDid, SweepsDid, LinkChain, IsDueBatch, Waiting, AttemptLeft, RowsFit, LinksRecorded,
      CancelsHaveLinks, SameContacts, OthersStood;
    ReachableFits(s);
    TimersEscalate(s, t.turns, now, t.timed, t.timersOk);
    ContactsFit(s.db, t.timed);
    RecordsFit(s.db, t.timed);
    if t.links == [] {
      assert t.linked == t.timed by {
        NoLinkTurns(s.p, t, now);
      }
    } else {
      var batch :| IsDueBatch(t.timed.cases, {ConsentRequired}, now, Some(s.p.dispatchBatchSize), batch)
                   && Took(LinkCases(t.links), batch, t.linksOk, t.links != [] && t.links[|t.links| - 1].r.Err?);
      BatchWaits(t.timed, now, Some(s.p.dispatchBatchSize), batch, LinkCases(t.links));
      AttemptsLeave(s.p, t.timed, t.links, now, t.linked);
    }
  }

  lemma RecordsFit(db: Db, db': Db)
    requires LinksRecorded(db) && CancelsHaveLinks(db) && SameContacts(db, db')
    ensures LinksRecorded(db') && CancelsHaveLinks(db')
  {
  }

  lemma NoLinkTurns(p: Settings, t: TickTrace, now: Time)
    requires t.links == []
    requires if t.timersOk then LinksDid(p, t.timed, t.links, now, t.linked, t.linksOk)
             else t.links == [] && t.linked == t.timed && !t.linksOk
    ensures t.linked == t.timed
  {
    hide IsDueBatch;
  }

  // ------------------------------------------------------------- swept cancels

  // A failed cancel with attempts left, as the sweep read it.
  predicate StillFailed(db: Db, u: SweepTurn, p: Settings) {
    && u.ak.IsCancel() && u.ak in db.actions && db.actions[u.ak] == u.row
    && u.row.status == Failed && u.row.attempts < p.maxLinkCancelAttempts
  }

  // What the sweep makes of a failed cancel. If the link reads cancelled by now the row is closed and nobody is asked;
  // otherwise the provider is asked once more, whatever came of the attempts before, and its answer is written down.
  predicate SweepFate(u: SweepTurn, db': Db, now: Time)
    requires u.ak in u.db.actions && u.ak.key in u.db.cases
  {
    var c := u.db.cases[u.ak.key];
    var revoked := c.linkStatus == Some(LinkStatus.Cancelled);
    && u.ak in db'.actions && u.ak.key in db'.cases
    && (u.called <==> !revoked && InRange(u.row.createdAt))
    && (if u.called && u.r.Ok? then
          && WrittenDown(c, db'.cases[u.ak.key], u.answer, now)
          && db'.actions[u.ak].status == (if u.answer.Refused? then Failed else Succeeded)
        else db'.cases == u.db.cases && (revoked && u.r.Ok? ==> db'.actions[u.ak].status == Succeeded))
    && db'.actions[u.ak].attempts == u.row.attempts + if u.called then 1 else 0
  }

  // It touches its own row and case alone, and takes no case its link.
  ghost predicate SweepKeeps(db: Db, db': Db, ak: ActionKey) {
    && db'.cases.Keys == db.cases.Keys
    && (forall k | k in db.cases :: db'.cases[k].key == db.cases[k].key && db'.cases[k].linkId == db.cases[k].linkId)
    && (forall k | k in db.cases && k != ak.key :: db'.cases[k] == db.cases[k])
    && (forall a | a != ak :: (a in db'.actions <==> a in db.actions)
          && (a in db.actions ==> db'.actions[a] == db.actions[a]))
    && (ak in db.actions <==> ak in db'.actions)
  }

  lemma SweepLeaves(p: Settings, u: SweepTurn, after: Db, now: Time)
    requires CancelsHaveLinks(u.db) && StillFailed(u.db, u, p) && InRange(now)
    requires SweepOutcome(u.r, u.db, after, p, u.ak, u.row, now, u.answer, u.called)
    ensures u.ak.key in u.db.cases && SweepFate(u, after, now) && SweepKeeps(u.db, after, u.ak)
  {
    assert u.ak.key in u.db.cases && u.db.cases[u.ak.key].key == u.ak.key && u.db.cases[u.ak.key].linkId.Some?;
    hide InRange, Writable, Engine.CancelCommit, CancelsHaveLinks, WrittenDown;
    if u.called {
      var link := RowLink(u.row, Lookup(u.db, u.ak.key));
      var a := Action(ActionStatus.Started, 1, link, u.row.createdAt);
      var db1 := Engine.ClaimAction(u.db, u.ak, a, p.maxLinkCancelAttempts).0;
      var pc := PendingCancel(u.ak.key, u.ak, link.value);
      CancelCommitLeaves(db1, pc, u.answer, now);
      CommitEnds(u.r, Plain(Engine.CancelCommit(db1, pc, u.answer, now)), db1, after);
      AnswerKeepsLink(db1.cases[u.ak.key], u.answer, now);
    }
  }

  lemma AnswerKeepsLink(c: RecoveryCase, answer: Answer<LinkStatus>, now: Time)
    ensures forall c' | WrittenDown(c, c', answer, now) :: c'.linkId == c.linkId && c'.key == c.key
  {
  }

  // How far a sweep has got: cases keep their keys and links, and rows it has not taken stand.
  ghost predicate SweptSoFar(before: Db, after: Db, turns: seq<SweepTurn>) {
    && after.cases.Keys == before.cases.Keys && after.actions.Keys == before.actions.Keys
    && (forall k | k in before.cases ::
          after.cases[k].key == before.cases[k].key && after.cases[k].linkId == before.cases[k].linkId)
    && (forall a | a in before.actions && (forall u | u in turns :: u.ak != a) ::
          after.actions[a] == before.actions[a])
  }

  // The failed cancels a sweep takes, each once, as they read at its start.
  ghost predicate SweepRows(before: Db, turns: seq<SweepTurn>, p: Settings) {
    && (forall u | u in turns :: StillFailed(before, u, p))
    && (forall i, j | 0 <= i < j < |turns| :: turns[i].ak != turns[j].ak)
  }

  function DbAfter(turns: seq<SweepTurn>, i: nat, after: Db): Db
    requires i < |turns|
  {
    if i + 1 < |turns| then turns[i + 1].db else after
  }

  // How each row of a sweep ends.
  predicate SweepLeft(turns: seq<SweepTurn>, i: nat, now: Time, after: Db)
    requires i < |turns|
  {
    var u := turns[i];
    && u.ak in u.db.actions && u.db.actions[u.ak] == u.row && u.ak.key in u.db.cases
    && SweepFate(u, DbAfter(turns, i, after), now)
  }

  lemma SweepRowsPrefix(before: Db, turns: seq<SweepTurn>, p: Settings)
    requires SweepRows(before, turns, p) && turns != []
    ensures var rest, u := turns[..|turns| - 1], turns[|turns| - 1];
      && SweepRows(before, rest, p) && StillFailed(before, u, p)
      && forall x | x in rest :: x.ak != u.ak
  {
    assert turns[|turns| - 1] in turns;
    hide StillFailed;
  }

  lemma LinksHeld(before: Db, after: Db, turns: seq<SweepTurn>)
    requires CancelsHaveLinks(before) && SweptSoFar(before, after, turns)
    ensures CancelsHaveLinks(after)
  {
  }

  lemma SweptOneMore(before: Db, mid: Db, after: Db, turns: seq<SweepTurn>)
    requires turns != [] && SweptSoFar(before, mid, turns[..|turns| - 1])
    requires SweepKeeps(mid, after, turns[|turns| - 1].ak)
    ensures SweptSoFar(before, after, turns)
  {
    var rest, u := turns[..|turns| - 1], turns[|turns| - 1];
    forall a | a in before.actions && (forall x | x in turns :: x.ak != a)
      ensures after.actions[a] == before.actions[a]
    {
      assert u in turns && forall x | x in rest :: x in turns;
    }
  }

  // A sweep ends each row it takes as the table says, one after the other.
  lemma {:induction false} SweepsLeave(p: Settings, before: Db, turns: seq<SweepTurn>, now: Time, after: Db)
    requires SweepChain(p, before, turns, now, after) && InRange(now)
    requires CancelsHaveLinks(before) && SweepRows(before, turns, p)
    ensures SweptSoFar(before, after, turns)
    ensures forall i | 0 <= i < |turns| :: SweepLeft(turns, i, now, after)
  {
    hide SweepOutcome, InRange, CancelsHaveLinks, SweepRows, StillFailed, SweepFate, SweepKeeps, SweptSoFar, SweepLeft;
    if turns == [] {
      NothingSwept(before, after, turns);
    } else {
      var rest, u := turns[..|turns| - 1], turns[|turns| - 1];
      SweepRowsPrefix(before, turns, p);
      SweepsLeave(p, before, rest, now, u.db);
      LinksHeld(before, u.db, rest);
      RowStillFailed(before, rest, u, p);
      SweepLeaves(p, u, after, now);
      SweptOneMore(before, u.db, after, turns);
      forall i | 0 <= i < |turns| ensures SweepLeft(turns, i, now, after) {
        if i < |rest| {
          EarlierSwept(turns, i, now, after);
        } else {
          LastSwept(turns, now, after, p);
        }
      }
    }
  }

  lemma NothingSwept(before: Db, after: Db, turns: seq<SweepTurn>)
    requires turns == [] && after == before
    ensures SweptSoFar(before, after, turns)
  {
  }

  lemma EarlierSwept(turns: seq<SweepTurn>, i: nat, now: Time, after: Db)
    requires i + 1 < |turns| && SweepLeft(turns[..|turns| - 1], i, now, turns[|turns| - 1].db)
    ensures SweepLeft(turns, i, now, after)
  {
    hide SweepFate;
    var rest := turns[..|turns| - 1];
    assert rest[i] == turns[i] && DbAfter(rest, i, turns[|turns| - 1].db) == DbAfter(turns, i, after);
  }

  lemma RowStillFailed(before: Db, rest: seq<SweepTurn>, u: SweepTurn, p: Settings)
    requires SweptSoFar(before, u.db, rest) && StillFailed(before, u, p) && forall x | x in rest :: x.ak != u.ak
    ensures StillFailed(u.db, u, p)
  {
  }

  lemma LastSwept(turns: seq<SweepTurn>, now: Time, after: Db, p: Settings)
    requires turns != [] && StillFailed(turns[|turns| - 1].db, turns[|turns| - 1], p)
    requires turns[|turns| - 1].ak.key in turns[|turns| - 1].db.cases && SweepFate(turns[|turns| - 1], after, now)
    ensures SweepLeft(turns, |turns| - 1, now, after)
  {
    hide SweepFate;
  }

  // A link pass that got to its end with room to spare took every case due a link.
  lemma LinksTakeAll(p: Settings, before: Db, turns: seq<LinkTurn>, now: Time, after: Db)
    requires LinksDid(p, before, turns, now, after, true) && |turns| != p.dispatchBatchSize
    ensures forall k | k in before.cases && before.cases[k].state.ConsentRequired?
                       && (before.cases[k].nextActionAt.None? || before.cases[k].nextActionAt.value <= now) ::
      exists u :: u in turns && u.c == before.cases[k]
  {
    hide LinkChain, Ordered, CaseBefore;
    var batch :| IsDueBatch(before.cases, {ConsentRequired}, now, Some(p.dispatchBatchSize), batch)
                 && Took(LinkCases(turns), batch, true, turns != [] && turns[|turns| - 1].r.Err?);
    forall k | k in before.cases && DueCase(before.cases[k], {ConsentRequired}, now)
      ensures exists u :: u in turns && u.c == before.cases[k]
    {
      var i :| 0 <= i < |batch| && batch[i] == before.cases[k];
      assert LinkCases(turns)[i] == turns[i].c && turns[i] in turns;
    }
  }

  // And the sweep of a tick: each failed cancel it takes is asked of the provider once more, unless its link reads
  // cancelled by its turn, and then it is closed; unless the batch is full no failed cancel with attempts left is
  // passed over.
  lemma SweepsSettle(s: Sys, t: TickTrace, now: Time, after: Db, ok: bool)
    requires Reachable(s) && TickDid(s.p, s.db, t, now, after, ok)
    ensures forall i | 0 <= i < |t.sweeps| :: SweepLeft(t.sweeps, i, now, after)
    ensures ok && |t.sweeps| != s.p.linkCancelRetryBatch ==>
      forall ak: ActionKey | ak in t.linked.actions && ak.IsCancel() && t.linked.actions[ak].status == Failed
                             && t.linked.actions[ak].attempts < s.p.maxLinkCancelAttempts ::
        exists u :: u in t.sweeps && u.ak == ak
  {
    hide Reachable, TimersDid, LinksDid, SweepChain, IsSweepBatch, SweepLeft, CancelsHaveLinks, AttemptLeft, InRange;
    if t.linksOk {
      LinksEscalate(s, t, now, after, ok);
      InTime(s.p, s.db, t, now, after, ok);
      var stale :| IsSweepBatch(t.linked.actions, s.p.maxLinkCancelAttempts, s.p.linkCancelRetryBatch, stale)
                   && Took(SweptRows(t.sweeps), stale, ok, t.sweeps != [] && t.sweeps[|t.sweeps| - 1].r.Err?);
      SweepTakes(s.p, t.linked, t.sweeps, stale, ok);
      SweepsLeave(s.p, t.linked, t.sweeps, now, after);
    }
  }

  lemma InTime(p: Settings, before: Db, t: TickTrace, now: Time, after: Db, ok: bool)
    requires TickDid(p, before, t, now, after, ok) && t.linksOk
    ensures InRange(now)
  {
    hide R.Chained, LinkChain, SweepChain, IsDueBatch, IsSweepBatch, TimersTook, InRange;
  }

  lemma SweepTakes(p: Settings, before: Db, turns: seq<SweepTurn>, stale: seq<ActionKey>, ok: bool)
    requires forall u | u in turns :: u.ak in before.actions && u.row == before.actions[u.ak]
    requires IsSweepBatch(before.actions, p.maxLinkCancelAttempts, p.linkCancelRetryBatch, stale)
    requires Took(SweptRows(turns), stale, ok, turns != [] && turns[|turns| - 1].r.Err?)
    ensures SweepRows(before, turns, p)
    ensures ok && |turns| != p.linkCancelRetryBatch ==>
      forall ak: ActionKey | ak in before.actions && ak.IsCancel() && before.actions[ak].status == Failed
                             && before.actions[ak].attempts < p.maxLinkCancelAttempts ::
        exists u :: u in turns && u.ak == ak
  {
    assert forall i | 0 <= i < |turns| :: SweptRows(turns)[i] == turns[i].ak == stale[i];
    forall u | u in turns ensures StillFailed(before, u, p) {
      var i :| 0 <= i < |turns| && turns[i] == u;
      assert stale[i] in stale;
    }
    if ok && |turns| != p.linkCancelRetryBatch {
      forall ak: ActionKey | ak in before.actions && Retryable(before.actions, ak, p.maxLinkCancelAttempts)
        ensures exists u :: u in turns && u.ak == ak
      {
        var i :| 0 <= i < |stale| && stale[i] == ak;
        assert turns[i] in turns;
      }
    }
  }
}
