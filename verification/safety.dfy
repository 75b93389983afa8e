// Finite-set counting.
module Counting {
  lemma {:induction false} SubsetCount<T>(a: set<T>, b: set<T>)
    requires a <= b
    ensures |a| <= |b|
  {
    if a != {} {
      var x :| x in a;
      SubsetCount(a - {x}, b - {x});
    }
  }

  lemma {:induction false} BelowCount(s: set<nat>, n: nat)
    requires forall d | d in s :: d < n
    ensures |s| <= n
  {
    if n == 0 {
      assert s == {};
    } else {
      BelowCount(s - {n - 1}, n - 1);
    }
  }
}

// The invariant of the link-creation side of the protocol, kept by every step.
module LinkSafety {
  import opened Base
  import opened Models
  import opened Engine
  import opened Effects
  import opened Protocol
  import opened Counting

  // How a row that was read relates to the row as it is now.
  predicate Newer(c: RecoveryCase, row: RecoveryCase) {
    && row.customer == c.customer
    && (c.linkId.Some? ==> row.linkId == c.linkId)
    && (c.attention.optedOut ==> row.attention.optedOut)
    && c.version <= row.version
    && (c.version == row.version ==> c == row)
  }

  ghost predicate SeenOk(s: Sys) {
    forall c | c in s.seen :: c.key in s.db.cases && CaseOk(c.key, c, s.p) && Newer(c, s.db.cases[c.key])
  }

  predicate TaskOk(t: Task, seen: set<RecoveryCase>, p: Settings) {
    match t
    case Planned(c, d, _) => c in seen && PlanFits(c, d, p)
    case Checked(c, _) => c in seen
    case Creating(_, _) => true
    case Answered(_, _, _) => true
  }

  ghost predicate TasksOk(s: Sys) {
    forall d | d in s.tasks :: d < s.dispatchers && TaskOk(s.tasks[d], s.seen, s.p)
  }

  predicate HasIntent(t: Task) {
    t.Creating? || t.Answered?
  }

  predicate Started(db: Db, k: Key) {
    CreateKey(k) in db.actions && db.actions[CreateKey(k)].status == ActionStatus.Started
  }

  predicate CreateSucceeded(db: Db, k: Key) {
    CreateKey(k) in db.actions && db.actions[CreateKey(k)].status == Succeeded
  }

  // At most one provider call per logical key, and only under a recorded intent.
  ghost predicate RowsOk(db: Db, creates: multiset<Key>) {
    && (forall k {:trigger CreateKey(k)} :: CreateKey(k) in db.actions ==> k in db.cases)
    && (forall k :: creates[k] <= 1 && (creates[k] == 1 ==> CreateKey(k) in db.actions))
  }

  // Each dispatcher creating a link owns the started row of its key.
  ghost predicate IntentsOk(tasks: map<nat, Task>, db: Db, creates: multiset<Key>) {
    && (forall d | d in tasks && HasIntent(tasks[d]) ::
          Started(db, tasks[d].key) && (tasks[d].Creating? ==> creates[tasks[d].key] == 0))
    && (forall d, d' | d in tasks && d' in tasks && d != d' && HasIntent(tasks[d]) && HasIntent(tasks[d']) ::
          tasks[d].key != tasks[d'].key)
  }

  ghost predicate LinksOk(db: Db) {
    forall k | k in db.cases :: db.cases[k].linkId.Some? <==> CreateSucceeded(db, k)
  }

  // The create ledger: one row, one dispatcher and one provider call per logical key.
  ghost predicate LedgerOk(s: Sys) {
    RowsOk(s.db, s.creates) && IntentsOk(s.tasks, s.db, s.creates) && LinksOk(s.db)
  }

  predicate LogsContact(c: Contact, db: Db) {
    && c.key in db.cases
    && db.cases[c.key].linkId.Some?
    && db.cases[c.key].customer == c.customer
    && db.cases[c.key].attention.lastContactAt == Some(c.at)
  }

  // The contact log names exactly the cases that carry a link, each once.
  ghost predicate ContactsOk(s: Sys) {
    && (forall i | 0 <= i < |s.contacts| :: LogsContact(s.contacts[i], s.db))
    && (forall i, j | 0 <= i < j < |s.contacts| :: s.contacts[i].key != s.contacts[j].key)
    && (forall k | k in s.db.cases && s.db.cases[k].linkId.Some? ::
          exists i :: 0 <= i < |s.contacts| && s.contacts[i].key == k)
  }

  // One person's cases that carry a link.
  ghost function Sent(db: Db, u: CustomerId): set<Key> {
    set k | k in db.cases && db.cases[k].customer == Some(u) && db.cases[k].linkId.Some?
  }

  // A dispatcher that may still send this person a link.
  predicate LiveFor(t: Task, db: Db, u: CustomerId) {
    match t
    case Planned(_, _, _) => false
    case Checked(c, _) => c.customer == Some(u) && CreateKey(c.key) !in db.actions
    case Creating(k, _) => k in db.cases && db.cases[k].customer == Some(u)
    case Answered(k, _, _) => k in db.cases && db.cases[k].customer == Some(u)
  }

  ghost function Live(s: Sys, u: CustomerId): set<nat> {
    set d | d in s.tasks && LiveFor(s.tasks[d], s.db, u)
  }

  // Links already sent plus links that may still be: at most the maximum, plus one per extra dispatcher.
  ghost predicate BudgetOk(s: Sys) {
    var extra := if s.dispatchers == 0 then 0 else s.dispatchers - 1;
    forall u :: |Sent(s.db, u)| + |Live(s, u)| <= DEFAULT_MAX_CONTACTS_7D + extra
  }

  // With a single dispatcher, a link about to be sent is a full cooldown after every earlier contact with that
  // person, and so is every contact in the log.
  ghost predicate CooledOk(s: Sys) {
    s.dispatchers <= 1 ==>
      && (forall d, u, k | d in s.tasks && LiveFor(s.tasks[d], s.db, u) && k in Sent(s.db, u) ::
            s.db.cases[k].attention.lastContactAt.Some? &&
            s.tasks[d].now - s.db.cases[k].attention.lastContactAt.value >= s.p.contactCooldown)
      && Spaced(s.contacts, s.p.contactCooldown)
  }

  ghost predicate Spaced(contacts: seq<Contact>, gap: int) {
    forall i, j | 0 <= i < j < |contacts| && contacts[i].customer.Some?
                  && contacts[i].customer == contacts[j].customer ::
      contacts[j].at - contacts[i].at >= gap
  }

  ghost predicate Inv(s: Sys) {
    DbOk(s.db, s.p) && SeenOk(s) && TasksOk(s) && LedgerOk(s) && ContactsOk(s) && BudgetOk(s) && CooledOk(s)
  }

  // ---------------------------------------------------------- quiet steps

  // A step that leaves links, contacts and create actions alone and starts no dispatch work.
  ghost predicate Background(s: Sys, s': Sys) {
    && Quiet(s.db, s'.db)
    && DbOk(s'.db, s.p)
    && s'.p == s.p
    && s'.dispatchers == s.dispatchers
    && s'.seen == s.seen
    && s'.creates == s.creates
    && s'.contacts == s.contacts
    && (forall d | d in s'.tasks :: d in s.tasks && s'.tasks[d] == s.tasks[d])
  }

  lemma BackgroundRows(s: Sys, s': Sys)
    requires SeenOk(s) && TasksOk(s) && Background(s, s')
    ensures SeenOk(s') && TasksOk(s')
  {
  }

  lemma BackgroundLedger(s: Sys, s': Sys)
    requires LedgerOk(s) && Background(s, s')
    ensures LedgerOk(s')
  {
    hide DbOk;
    forall k | k in s'.db.cases ensures s'.db.cases[k].linkId.Some? <==> CreateSucceeded(s'.db, k) {
      assert k !in s.db.cases ==> CreateKey(k) !in s.db.actions;
      assert k in s.db.cases ==> Carries(s.db.cases[k], s'.db.cases[k]);
    }
    hide Carries;
    forall d | d in s'.tasks && HasIntent(s'.tasks[d]) ensures Started(s'.db, s'.tasks[d].key) {
      assert CreateKey(s'.tasks[d].key) in s'.db.actions;
    }
  }

  lemma BackgroundContacts(s: Sys, s': Sys)
    requires ContactsOk(s) && Background(s, s')
    ensures ContactsOk(s')
  {
  }

  lemma BackgroundSent(s: Sys, s': Sys, u: CustomerId)
    requires LedgerOk(s) && Background(s, s')
    ensures Sent(s'.db, u) == Sent(s.db, u) && Live(s', u) <= Live(s, u)
  {
    forall d | d in Live(s', u) ensures d in Live(s, u) {
      var t := s.tasks[d];
      assert LiveFor(s'.tasks[d], s'.db, u) && s'.tasks[d] == t;
      if t.Creating? || t.Answered? {
        assert HasIntent(t);
        assert CreateKey(t.key) in s.db.actions;
        assert Carries(s.db.cases[t.key], s'.db.cases[t.key]);
      } else if t.Checked? {
        assert CreateKey(t.snapshot.key) !in s'.db.actions;
      }
    }
  }

  lemma BackgroundBudget(s: Sys, s': Sys)
    requires SeenOk(s) && TasksOk(s) && LedgerOk(s) && BudgetOk(s) && CooledOk(s) && Background(s, s')
    ensures BudgetOk(s') && CooledOk(s')
  {
    forall u
      ensures Sent(s'.db, u) == Sent(s.db, u) && Live(s', u) <= Live(s, u) && |Live(s', u)| <= |Live(s, u)|
    {
      BackgroundSent(s, s', u);
      SubsetCount(Live(s', u), Live(s, u));
    }
    forall d, u, k | s.dispatchers <= 1 && d in s'.tasks && LiveFor(s'.tasks[d], s'.db, u) && k in Sent(s'.db, u)
      ensures s'.db.cases[k].attention.lastContactAt.Some?
      ensures s'.tasks[d].now - s'.db.cases[k].attention.lastContactAt.value >= s.p.contactCooldown
    {
      assert d in Live(s', u);
      assert LiveFor(s.tasks[d], s.db, u);
    }
  }

  lemma BackgroundKeeps(s: Sys, s': Sys)
    requires Inv(s) && Background(s, s')
    ensures Inv(s')
  {
    BackgroundRows(s, s');
    BackgroundLedger(s, s');
    BackgroundContacts(s, s');
    BackgroundBudget(s, s');
  }

  // ---------------------------------------------------------- dispatch reads

  // A step that only reads the database and starts no link work.
  ghost predicate SameLedger(s: Sys, s': Sys) {
    && s'.db == s.db
    && s'.p == s.p
    && s'.dispatchers == s.dispatchers
    && s'.creates == s.creates
    && s'.contacts == s.contacts
    && (forall d | d in s'.tasks && (s'.tasks[d].Creating? || s'.tasks[d].Answered?) ::
          d in s.tasks && s.tasks[d] == s'.tasks[d])
  }

  lemma SameLedgerKeeps(s: Sys, s': Sys)
    requires LedgerOk(s) && ContactsOk(s) && SameLedger(s, s')
    ensures LedgerOk(s') && ContactsOk(s')
  {
    hide LogsContact;
  }

  lemma SameBudget(s: Sys, s': Sys)
    requires BudgetOk(s) && CooledOk(s) && SameLedger(s, s')
    requires forall d | d in s'.tasks && !s'.tasks[d].Planned? :: d in s.tasks && s.tasks[d] == s'.tasks[d]
    ensures BudgetOk(s') && CooledOk(s')
  {
    forall u ensures |Live(s', u)| <= |Live(s, u)| {
      assert Live(s', u) <= Live(s, u);
      SubsetCount(Live(s', u), Live(s, u));
    }
    forall d, u | d in s'.tasks && LiveFor(s'.tasks[d], s'.db, u)
      ensures d in s.tasks && s.tasks[d] == s'.tasks[d] && LiveFor(s.tasks[d], s.db, u)
    {
    }
  }

  lemma ReadKeeps(s: Sys, key: Key)
    requires Inv(s) && key in s.db.cases
    ensures Inv(Reads(s, key))
  {
    var s' := s.(seen := s.seen + {s.db.cases[key]});
    assert SeenOk(s') && TasksOk(s');
    hide CaseOk, DbOk, SeenOk, TasksOk, LedgerOk, ContactsOk, BudgetOk, CooledOk;
    SameLedgerKeeps(s, s');
    SameBudget(s, s');
  }

  // Giving a free dispatcher a plan touches neither the ledger nor anyone's budget.
  lemma PlannedKeeps(s: Sys, d: nat, t: Task)
    requires Inv(s) && Free(s, d) && t.Planned? && TaskOk(t, s.seen, s.p)
    ensures Inv(s.(tasks := s.tasks[d := t]))
  {
    var s' := s.(tasks := s.tasks[d := t]);
    assert TasksOk(s');
    hide CaseOk, DbOk, TasksOk, LedgerOk, ContactsOk, BudgetOk, CooledOk;
    SameLedgerKeeps(s, s');
    SameBudget(s, s');
  }

  lemma TimedPlanFits(s: Sys, snapshot: RecoveryCase, degraded: bool, slot: bool, offset: int, at: Time)
    requires SeenOk(s) && snapshot in s.seen && (snapshot.state.Cooldown? || snapshot.state.RetryScheduled?)
    ensures PlanFits(snapshot, PlanTimed(s.db, s.p, snapshot, degraded, slot, offset, at), s.p)
  {
    hide MayContact, Newer;
  }

  // Each of these cases counts one contact if it carries a link, and none otherwise.
  ghost predicate OneEach(db: Db, keys: set<Key>)
    requires keys <= db.cases.Keys
  {
    forall k | k in keys :: db.cases[k].attention.contacts == if db.cases[k].linkId.Some? then 1 else 0
  }

  lemma {:induction false} ContactSumCounts(db: Db, keys: set<Key>)
    requires keys <= db.cases.Keys && OneEach(db, keys)
    ensures ContactSum(db, keys) == |set k | k in keys && db.cases[k].linkId.Some?|
  {
    var linked := set k | k in keys && db.cases[k].linkId.Some?;
    if keys == {} {
      assert linked == {};
    } else {
      var k :| k in keys && ContactSum(db, keys) == db.cases[k].attention.contacts + ContactSum(db, keys - {k});
      ContactSumCounts(db, keys - {k});
      var rest := set j | j in keys - {k} && db.cases[j].linkId.Some?;
      assert linked == if db.cases[k].linkId.Some? then rest + {k} else rest;
    }
  }

  lemma RowsCountOneEach(db: Db, p: Settings, keys: set<Key>)
    requires DbOk(db, p) && keys <= db.cases.Keys
    ensures OneEach(db, keys)
  {
    forall k | k in keys
      ensures db.cases[k].attention.contacts == if db.cases[k].linkId.Some? then 1 else 0
    {
      assert CaseOk(k, db.cases[k], p);
    }
  }

  // A passed check leaves room for one more link and finds every earlier contact cooled.
  lemma CheckLeavesRoom(db: Db, p: Settings, c: RecoveryCase, now: Time, u: CustomerId)
    requires DbOk(db, p) && CaseOk(c.key, c, p) && c.customer == Some(u)
    requires c.key in db.cases && db.cases[c.key].linkId.None?
    requires MayContact(db, p, c, now).None?
    ensures |Sent(db, u)| <= DEFAULT_MAX_CONTACTS_7D - 1
    ensures AllCooled(db, Sent(db, u), now, p.contactCooldown)
  {
    var others := OthersOf(db, u, c.key);
    assert (set k | k in others && db.cases[k].linkId.Some?) == Sent(db, u);
    RowsCountOneEach(db, p, others);
    ContactSumCounts(db, others);
  }

  lemma CheckedKeeps(s: Sys, d: nat, c: RecoveryCase, at: Time)
    requires Inv(s) && Free(s, d) && c in s.seen && MayContact(s.db, s.p, c, at).None?
    ensures Inv(s.(tasks := s.tasks[d := Checked(c, at)]))
  {
    var s' := s.(tasks := s.tasks[d := Checked(c, at)]);
    assert TasksOk(s');
    CheckedBudget(s, d, c, at);
    hide CaseOk, DbOk, TasksOk, LedgerOk, ContactsOk, BudgetOk, CooledOk;
    SameLedgerKeeps(s, s');
  }

  lemma CheckedBudget(s: Sys, d: nat, c: RecoveryCase, at: Time)
    requires Inv(s) && Free(s, d) && c in s.seen && MayContact(s.db, s.p, c, at).None?
    ensures BudgetOk(s.(tasks := s.tasks[d := Checked(c, at)]))
    ensures CooledOk(s.(tasks := s.tasks[d := Checked(c, at)]))
  {
    var s' := s.(tasks := s.tasks[d := Checked(c, at)]);
    forall u
      ensures Live(s', u) == Live(s, u) ||
        (|Sent(s.db, u)| <= DEFAULT_MAX_CONTACTS_7D - 1 && |Live(s', u)| <= s.dispatchers
         && AllCooled(s.db, Sent(s.db, u), at, s.p.contactCooldown))
    {
      if LiveFor(Checked(c, at), s.db, u) {
        assert s.db.cases[c.key].linkId.None?;
        CheckLeavesRoom(s.db, s.p, c, at, u);
        BelowCount(Live(s', u), s.dispatchers);
      } else {
        assert Live(s', u) == Live(s, u);
      }
    }
    hide CaseOk, Newer, MayContact;
    forall e, u, k | s.dispatchers <= 1 && e in s'.tasks && LiveFor(s'.tasks[e], s.db, u) && k in Sent(s.db, u)
      ensures s.db.cases[k].attention.lastContactAt.Some?
      ensures s'.tasks[e].now - s.db.cases[k].attention.lastContactAt.value >= s.p.contactCooldown
    {
      assert e in Live(s', u);
      assert s.db.cases[k].attention.lastContactAt.Some? by {
        assert CaseOk(k, s.db.cases[k], s.p);
      }
    }
  }

  // ------------------------------------------------------------ link creation

  lemma IntentKeeps(s: Sys, d: nat)
    requires Inv(s) && d in s.tasks && s.tasks[d].Checked?
    ensures Inv(RecordsIntent(s, d))
  {
    var t := s.tasks[d];
    var k := t.snapshot.key;
    if CreateKey(k) in s.db.actions {
      QuietReflexive(s.db);
      BackgroundKeeps(s, s.(tasks := s.tasks - {d}));
    } else {
      var s' := RecordsIntent(s, d);
      IntentLedger(s, d);
      IntentBudget(s, d);
      hide CaseOk, Newer, LedgerOk, BudgetOk, CooledOk, LogsContact;
    }
  }

  lemma IntentLedger(s: Sys, d: nat)
    requires Inv(s) && d in s.tasks && s.tasks[d].Checked? && CreateKey(s.tasks[d].snapshot.key) !in s.db.actions
    ensures LedgerOk(RecordsIntent(s, d))
  {
    assert s.tasks[d].snapshot.key in s.db.cases by {
      assert TaskOk(s.tasks[d], s.seen, s.p);
    }
    hide CaseOk, DbOk, BudgetOk, CooledOk, SeenOk, TasksOk, ContactsOk, RowsOk, IntentsOk, LinksOk, RecordsIntent;
    IntentRows(s, d);
    IntentIsOwned(s, d);
  }

  lemma IntentIsOwned(s: Sys, d: nat)
    requires LedgerOk(s) && d in s.tasks && s.tasks[d].Checked?
    requires CreateKey(s.tasks[d].snapshot.key) !in s.db.actions
    ensures var s' := RecordsIntent(s, d);
      IntentsOk(s'.tasks, s'.db, s'.creates)
  {
    assert forall e | e in s.tasks && HasIntent(s.tasks[e]) :: s.tasks[e].key != s.tasks[d].snapshot.key;
    hide LinksOk;
  }

  lemma IntentRows(s: Sys, d: nat)
    requires LedgerOk(s) && d in s.tasks && s.tasks[d].Checked? && s.tasks[d].snapshot.key in s.db.cases
    requires CreateKey(s.tasks[d].snapshot.key) !in s.db.actions
    ensures var s' := RecordsIntent(s, d);
      RowsOk(s'.db, s'.creates) && LinksOk(s'.db)
  {
    hide IntentsOk;
  }

  lemma IntentBudget(s: Sys, d: nat)
    requires Inv(s) && d in s.tasks && s.tasks[d].Checked? && CreateKey(s.tasks[d].snapshot.key) !in s.db.actions
    ensures BudgetOk(RecordsIntent(s, d)) && CooledOk(RecordsIntent(s, d))
  {
    var s' := RecordsIntent(s, d);
    hide CaseOk, DbOk, LogsContact;
    forall u ensures Live(s', u) <= Live(s, u) && |Live(s', u)| <= |Live(s, u)| {
      SubsetCount(Live(s', u), Live(s, u));
    }
    forall e, u | e in s'.tasks && LiveFor(s'.tasks[e], s'.db, u)
      ensures LiveFor(s.tasks[e], s.db, u) && s'.tasks[e].now == s.tasks[e].now
    {
    }
  }

  lemma ProviderKeeps(s: Sys, d: nat, answer: Answer<NewLink>)
    requires Inv(s) && d in s.tasks && s.tasks[d].Creating?
    ensures Inv(CallsProvider(s, d, answer))
  {
    hide CaseOk, DbOk, Newer, LogsContact, LedgerOk, BudgetOk, CooledOk;
    ProviderBudget(s, d, answer);
    ProviderLedger(s, d, answer);
  }

  lemma ProviderLedger(s: Sys, d: nat, answer: Answer<NewLink>)
    requires LedgerOk(s) && d in s.tasks && s.tasks[d].Creating?
    ensures LedgerOk(CallsProvider(s, d, answer))
  {
    hide RowsOk, LinksOk, IntentsOk;
    ProviderRows(s, d, answer);
    ProviderIntents(s, d, answer);
  }

  lemma ProviderRows(s: Sys, d: nat, answer: Answer<NewLink>)
    requires LedgerOk(s) && d in s.tasks && s.tasks[d].Creating?
    ensures var s' := CallsProvider(s, d, answer);
      RowsOk(s'.db, s'.creates)
  {
    assert HasIntent(s.tasks[d]);
    hide LinksOk;
  }

  lemma ProviderIntents(s: Sys, d: nat, answer: Answer<NewLink>)
    requires LedgerOk(s) && d in s.tasks && s.tasks[d].Creating?
    ensures var s' := CallsProvider(s, d, answer);
      IntentsOk(s'.tasks, s'.db, s'.creates)
  {
    assert HasIntent(s.tasks[d]);
    hide LinksOk, RowsOk;
  }

  lemma ProviderBudget(s: Sys, d: nat, answer: Answer<NewLink>)
    requires BudgetOk(s) && CooledOk(s) && d in s.tasks && s.tasks[d].Creating?
    ensures BudgetOk(CallsProvider(s, d, answer)) && CooledOk(CallsProvider(s, d, answer))
  {
    var s' := CallsProvider(s, d, answer);
    forall e, u | e in s'.tasks
      ensures LiveFor(s'.tasks[e], s'.db, u) == LiveFor(s.tasks[e], s.db, u) && s'.tasks[e].now == s.tasks[e].now
    {
    }
    assert forall u :: Live(s', u) == Live(s, u);
  }

  // A create row settling as failed or superseded, once no dispatcher is working on it.
  lemma RowSettles(s: Sys, k: Key, status: ActionStatus, link: Option<LinkId>)
    requires Inv(s) && Started(s.db, k) && status != Succeeded
    requires forall d | d in s.tasks && HasIntent(s.tasks[d]) :: s.tasks[d].key != k
    ensures Inv(s.(db := CompleteAction(s.db, CreateKey(k), status, link)))
  {
    hide CaseOk, Newer, LedgerOk, BudgetOk, CooledOk;
    RowSettlesLedger(s, k, status, link);
    RowSettlesBudget(s, k, status, link);
  }

  lemma RowSettlesLedger(s: Sys, k: Key, status: ActionStatus, link: Option<LinkId>)
    requires LedgerOk(s) && Started(s.db, k) && status != Succeeded
    requires forall d | d in s.tasks && HasIntent(s.tasks[d]) :: s.tasks[d].key != k
    ensures LedgerOk(s.(db := CompleteAction(s.db, CreateKey(k), status, link)))
  {
    var s' := s.(db := CompleteAction(s.db, CreateKey(k), status, link));
    assert RowsOk(s'.db, s'.creates) && IntentsOk(s'.tasks, s'.db, s'.creates) && LinksOk(s'.db);
  }

  lemma RowSettlesBudget(s: Sys, k: Key, status: ActionStatus, link: Option<LinkId>)
    requires BudgetOk(s) && CooledOk(s) && Started(s.db, k)
    ensures var s' := s.(db := CompleteAction(s.db, CreateKey(k), status, link));
      BudgetOk(s') && CooledOk(s')
  {
    var s' := s.(db := CompleteAction(s.db, CreateKey(k), status, link));
    assert forall u :: Sent(s'.db, u) == Sent(s.db, u);
    assert forall d, u | d in s.tasks :: LiveFor(s'.tasks[d], s'.db, u) == LiveFor(s.tasks[d], s.db, u);
    assert forall u :: Live(s', u) == Live(s, u);
  }

  lemma IdleKeeps(s: Sys, d: nat)
    requires Inv(s)
    ensures Inv(Idle(s, d))
  {
    QuietReflexive(s.db);
    BackgroundKeeps(s, Idle(s, d));
  }

  // A dispatcher holding an answer owns the started row of its key.
  lemma AnswerOwnsRow(s: Sys, d: nat)
    requires Inv(s) && d in s.tasks && s.tasks[d].Answered?
    ensures var k, s1 := s.tasks[d].key, Idle(s, d);
      && Started(s.db, k)
      && Inv(s1)
      && forall e | e in s1.tasks && HasIntent(s1.tasks[e]) :: s1.tasks[e].key != k
  {
    assert HasIntent(s.tasks[d]);
    IdleKeeps(s, d);
    hide SeenOk, TasksOk, ContactsOk, BudgetOk, CooledOk, DbOk, LinksOk, RowsOk;
  }

  lemma UnsentKeeps(s: Sys, d: nat)
    requires Inv(s) && d in s.tasks && s.tasks[d].Answered?
    requires s.tasks[d].answer.Refused? || s.tasks[d].key !in s.db.cases
      || s.db.cases[s.tasks[d].key].state != ConsentRequired
    ensures Inv(CommitsLink(s, d))
  {
    hide Inv, AfterCreateRefused, AfterLinkCreated, SaveCase, HasIntent;
    var t := s.tasks[d];
    var s1 := Idle(s, d);
    AnswerOwnsRow(s, d);
    if t.answer.Accepted? {
      RowSettles(s1, t.key, Superseded, Some(t.answer.value.id));
    } else {
      RowSettles(s1, t.key, Failed, None);
      if t.key in s.db.cases && s.db.cases[t.key].state == ConsentRequired {
        RefusalCommits(s1.(db := CompleteAction(s.db, CreateKey(t.key), Failed, None)), t.key, t.answer.retryable,
                       t.now);
      }
    }
  }

  lemma RefusalCommits(s: Sys, k: Key, retryable: bool, now: Time)
    requires Inv(s) && k in s.db.cases && s.db.cases[k].state == ConsentRequired
    ensures var r := AfterCreateRefused(s.db.cases[k], retryable, now);
      && r.Ok?
      && SaveCase(s.db, r.value).Ok?
      && Inv(s.(db := SaveCase(s.db, r.value).value))
  {
    var c := s.db.cases[k];
    RefusedCase(c, retryable, now, s.p);
    var c' := AfterCreateRefused(c, retryable, now).value;
    hide AfterCreateRefused, Quiet, SeenOk, TasksOk, LedgerOk, ContactsOk, BudgetOk, CooledOk;
    Saves(s.db, c', s.p);
    BackgroundKeeps(s, s.(db := SaveCase(s.db, c').value));
  }

  lemma RefusedCase(c: RecoveryCase, retryable: bool, now: Time, p: Settings)
    requires CaseOk(c.key, c, p) && c.state.ConsentRequired?
    ensures var r := AfterCreateRefused(c, retryable, now);
      r.Ok? && CaseOk(c.key, r.value, p) && Saved(c, r.value)
  {
  }

  lemma SentCase(c: RecoveryCase, link: NewLink, now: Time, p: Settings)
    requires CaseOk(c.key, c, p) && c.state.ConsentRequired? && c.linkId.None?
    ensures var r := AfterLinkCreated(c, link, now);
      && r.Ok?
      && CaseOk(c.key, r.value, p)
      && r.value.state.LinkSent?
      && r.value.linkId == Some(link.id)
      && r.value.version == c.version
      && r.value.customer == c.customer
      && r.value.attention.lastContactAt == Some(now)
      && r.value.attention.optedOut == c.attention.optedOut
  {
  }

  // The database right after a link is sent for a case that had none.
  ghost predicate JustSent(db: Db, db': Db, k: Key, now: Time, p: Settings) {
    && k in db.cases && db.cases[k].linkId.None?
    && Started(db, k) && CreateSucceeded(db', k)
    && (forall ak | ak != CreateKey(k) :: (ak in db.actions <==> ak in db'.actions)
          && (ak in db.actions ==> db.actions[ak] == db'.actions[ak]))
    && db'.cases.Keys == db.cases.Keys
    && (forall j | j in db.cases && j != k :: db'.cases[j] == db.cases[j])
    && var c, c' := db.cases[k], db'.cases[k];
      && CaseOk(k, c', p) && c'.state.LinkSent? && c'.linkId.Some?
      && c'.version == c.version + 1 && c'.customer == c.customer
      && c'.attention.lastContactAt == Some(now) && c'.attention.optedOut == c.attention.optedOut
      && c'.amount == c.amount && c'.reversal == c.reversal
  }

  lemma SentDb(db: Db, k: Key, link: NewLink, now: Time, p: Settings)
    requires DbOk(db, p) && LinksOk(db) && Started(db, k)
    requires k in db.cases && db.cases[k].state == ConsentRequired
    ensures var r := CreateCommit(db, k, Accepted(link), now);
      r.Ok? && !r.value.1 && JustSent(db, r.value.0, k, now, p)
  {
    var c := db.cases[k];
    assert CaseOk(k, c, p) && c.key == k;
    SentCase(c, link, now, p);
    var c' := AfterLinkCreated(c, link, now).value;
    assert CaseOk(k, c'.(version := c'.version + 1), p) && c'.key == k;
    hide CaseOk, AfterLinkCreated;
  }

  lemma SentRows(s: Sys, s': Sys, k: Key, now: Time)
    requires DbOk(s.db, s.p) && SeenOk(s) && JustSent(s.db, s'.db, k, now, s.p)
    requires s'.p == s.p && s'.seen == s.seen
    ensures DbOk(s'.db, s.p) && SeenOk(s')
  {
  }

  lemma SentLedger(s: Sys, s': Sys, d: nat, now: Time)
    requires LedgerOk(s) && d in s.tasks && s.tasks[d].Answered?
    requires JustSent(s.db, s'.db, s.tasks[d].key, now, s.p)
    requires s'.tasks == s.tasks - {d} && s'.creates == s.creates
    ensures LedgerOk(s')
  {
    assert HasIntent(s.tasks[d]);
    SentLinks(s.db, s'.db, s.tasks[d].key, now, s.p);
    hide CaseOk, LinksOk;
  }

  lemma SentLinks(db: Db, db': Db, k: Key, now: Time, p: Settings)
    requires LinksOk(db) && JustSent(db, db', k, now, p)
    ensures LinksOk(db')
  {
    hide CaseOk;
    forall j | j in db'.cases ensures db'.cases[j].linkId.Some? <==> CreateSucceeded(db', j) {
      assert j != k ==> CreateKey(j) != CreateKey(k);
    }
  }

  lemma SentContacts(s: Sys, s': Sys, k: Key, now: Time)
    requires ContactsOk(s) && JustSent(s.db, s'.db, k, now, s.p)
    requires s'.contacts == s.contacts + [Contact(k, s.db.cases[k].customer, now)]
    ensures ContactsOk(s')
  {
    var n := |s.contacts|;
    assert s'.contacts[n].key == k;
    assert forall i | 0 <= i < n :: s'.contacts[i] == s.contacts[i] && s.contacts[i].key != k;
    hide CaseOk;
    forall j | j in s'.db.cases && s'.db.cases[j].linkId.Some?
      ensures exists i :: 0 <= i < |s'.contacts| && s'.contacts[i].key == j
    {
      if j != k {
        var i :| 0 <= i < n && s.contacts[i].key == j;
        assert s'.contacts[i].key == j;
      }
    }
  }

  lemma SentSets(s: Sys, s': Sys, d: nat, u: CustomerId)
    requires LedgerOk(s) && TasksOk(s)
    requires d in s.tasks && s.tasks[d].Answered? && JustSent(s.db, s'.db, s.tasks[d].key, s.tasks[d].now, s.p)
    requires s'.tasks == s.tasks - {d}
    ensures var k := s.tasks[d].key;
      && Live(s', u) == Live(s, u) - {d}
      && Sent(s'.db, u) == (if s.db.cases[k].customer == Some(u) then Sent(s.db, u) + {k} else Sent(s.db, u))
      && (s.db.cases[k].customer == Some(u) ==> d in Live(s, u))
  {
    assert CreateKey(s.tasks[d].key) in s.db.actions;
    hide CaseOk, LedgerOk, TaskOk;
    forall e | e in s'.tasks ensures LiveFor(s'.tasks[e], s'.db, u) == LiveFor(s.tasks[e], s.db, u) {
    }
  }

  lemma SentBudget(s: Sys, s': Sys, d: nat)
    requires LedgerOk(s) && BudgetOk(s) && CooledOk(s) && TasksOk(s) && ContactsOk(s)
    requires d in s.tasks && s.tasks[d].Answered? && JustSent(s.db, s'.db, s.tasks[d].key, s.tasks[d].now, s.p)
    requires s'.tasks == s.tasks - {d} && s'.dispatchers == s.dispatchers && s'.p == s.p
    requires s'.contacts == s.contacts + [Contact(s.tasks[d].key, s.db.cases[s.tasks[d].key].customer, s.tasks[d].now)]
    ensures BudgetOk(s') && CooledOk(s')
  {
    forall u ensures |Sent(s'.db, u)| + |Live(s', u)| <= |Sent(s.db, u)| + |Live(s, u)| {
      SentSets(s, s', d, u);
      SubsetCount(Live(s', u), Live(s, u));
    }
    if s.dispatchers <= 1 {
      assert s'.tasks == map[] by {
        assert forall e | e in s'.tasks :: e < s.dispatchers;
      }
      SentSpaced(s, s'.contacts, d);
    }
  }

  lemma SentSpaced(s: Sys, contacts: seq<Contact>, d: nat)
    requires LedgerOk(s) && CooledOk(s) && ContactsOk(s) && s.dispatchers <= 1
    requires d in s.tasks && s.tasks[d].Answered? && s.tasks[d].key in s.db.cases
    requires contacts == s.contacts + [Contact(s.tasks[d].key, s.db.cases[s.tasks[d].key].customer, s.tasks[d].now)]
    ensures Spaced(contacts, s.p.contactCooldown)
  {
    var u := s.db.cases[s.tasks[d].key].customer;
    forall i | 0 <= i < |s.contacts| && u.Some? && s.contacts[i].customer == u
      ensures s.tasks[d].now - s.contacts[i].at >= s.p.contactCooldown
    {
      assert LogsContact(s.contacts[i], s.db);
      assert s.contacts[i].key in Sent(s.db, u.value) && LiveFor(s.tasks[d], s.db, u.value);
    }
    hide LedgerOk;
  }

  lemma SentKeeps(s: Sys, d: nat)
    requires Inv(s) && d in s.tasks && s.tasks[d].Answered? && s.tasks[d].answer.Accepted?
    requires s.tasks[d].key in s.db.cases && s.db.cases[s.tasks[d].key].state == ConsentRequired
    ensures Inv(CommitsLink(s, d))
  {
    var s', t := CommitsLink(s, d), s.tasks[d];
    AnswerOwnsRow(s, d);
    hide CreateCommit, TasksOk, DbOk, SeenOk, LinksOk, RowsOk, IntentsOk, ContactsOk, BudgetOk, CooledOk, JustSent;
    SentDb(s.db, t.key, t.answer.value, t.now, s.p);
    hide CommitsLink, LedgerOk;
    SentRows(s, s', t.key, t.now);
    SentLedger(s, s', d, t.now);
    SentContacts(s, s', t.key, t.now);
    SentBudget(s, s', d);
  }

  // ------------------------------------------------------------- every step

  // Cancels in flight, listed or being closed are keyed by cancel actions of their own case.
  ghost predicate KeysOk(s: Sys) {
    && (forall pc | pc in s.cancels :: pc.action.IsCancel() && pc.action.key == pc.key)
    && (forall pc | pc in s.swept :: pc.action.IsCancel() && pc.action.key == pc.key)
    && (forall ak | ak in s.closing :: ak.IsCancel())
  }

  lemma LaunchKeepsKeys(s: Sys, db: Db, pending: Option<PendingCancel>)
    requires KeysOk(s)
    requires pending.Some? ==> pending.value.action.IsCancel() && pending.value.action.key == pending.value.key
    ensures KeysOk(Launch(s, db, pending))
  {
  }

  predicate IsDispatchStep(step: Step) {
    step.ReadCase? || step.PlanTimer? || step.CheckContact? || step.CommitPlan? || step.RecordIntent?
    || step.ProviderCreates? || step.CommitLink? || step.DispatcherCrashes? || step.OperatorReopens?
    || step.PreviewSaved?
  }

  // Dispatchers and operators start, finish and list no cancels.
  lemma DispatchSparesCancels(s: Sys, step: Step)
    requires IsDispatchStep(step)
    ensures var s' := Next(s, step);
      s'.cancels == s.cancels && s'.swept == s.swept && s'.closing == s.closing && s'.issued == s.issued && s'.p == s.p
  {
    hide CommitState, CreateCommit, CreateIntent, Reopen, SavePreview, MayContact, PlanTimed, Ingests, CancelDone,
      ListsFailed, SeesCancelled, Closes, Reclaims;
  }

  lemma WebhookKeeps(s: Sys, e: PaymentEvent, degraded: bool)
    requires Inv(s)
    ensures Inv(Ingests(s, e, degraded))
  {
    IngestIsTotal(s.db, e, degraded, s.p);
    hide Ingest, DbOk, Quiet, Moves, SeenOk, TasksOk, LedgerOk, ContactsOk, BudgetOk, CooledOk;
    BackgroundKeeps(s, Ingests(s, e, degraded));
  }

  lemma CancelDoneKeeps(s: Sys, pc: PendingCancel, answer: Answer<LinkStatus>, at: Time)
    requires Inv(s) && KeysOk(s)
    ensures Inv(CancelDone(s, pc, answer, at))
  {
    if pc in s.cancels {
      hide CancelCommit, DbOk, Quiet, Moves, SeenOk, TasksOk, LedgerOk, ContactsOk, BudgetOk, CooledOk;
      CancelEffect(s.db, pc, answer, at, s.p);
      BackgroundKeeps(s, CancelDone(s, pc, answer, at));
    }
  }

  lemma OperatorKeeps(s: Sys, r: Result<Db, Fault>)
    requires Inv(s) && (r.Ok? ==> DbOk(r.value, s.p) && Quiet(s.db, r.value))
    ensures Inv(Committed(s, r))
  {
    hide DbOk, Quiet, SeenOk, TasksOk, LedgerOk, ContactsOk, BudgetOk, CooledOk;
    if r.Ok? {
      BackgroundKeeps(s, Committed(s, r));
    }
  }

  lemma ReopenKeeps(s: Sys, key: Key, fc: Option<FailureClass>, degraded: bool, at: Time)
    requires Inv(s)
    ensures Inv(Committed(s, Reopen(s.db, key, fc, degraded, at, s.p)))
  {
    ReopenEffect(s.db, key, fc, degraded, at, s.p);
    hide Reopen, SeenOk, TasksOk, LedgerOk, ContactsOk, BudgetOk, CooledOk, DbOk, Quiet;
    OperatorKeeps(s, Reopen(s.db, key, fc, degraded, at, s.p));
  }

  lemma PreviewKeeps(s: Sys, snapshot: RecoveryCase, at: Time)
    requires Inv(s)
    ensures Inv(Committed(s, SavePreview(s.db, snapshot, at)))
  {
    PreviewEffect(s.db, snapshot, at, s.p);
    hide SavePreview, SeenOk, TasksOk, LedgerOk, ContactsOk, BudgetOk, CooledOk, DbOk, Quiet;
    OperatorKeeps(s, SavePreview(s.db, snapshot, at));
  }

  lemma ReadsKeep(s: Sys, key: Key)
    requires Inv(s)
    ensures Inv(Reads(s, key))
  {
    if key in s.db.cases {
      ReadKeeps(s, key);
    }
  }

  lemma SweepKeeps(s: Sys, ak: ActionKey, pc: PendingCancel)
    requires Inv(s) && KeysOk(s)
    ensures Inv(Closes(s, ak)) && Inv(Reclaims(s, pc))
  {
    assert ak in s.closing ==> ak.IsCancel();
    assert pc in s.swept ==> pc.action.IsCancel();
    assert DbOk(s.db, s.p);
    hide Inv, ClaimAction, CompleteAction, Quiet, Moves, DbOk;
    var a := Action(ActionStatus.Started, 1, Some(pc.link), 0);
    if ak in s.closing {
      ClaimMoves(s.db, ak, a, 0, Succeeded, None);
      RowsStand(s.db, ak, a, 0, s.p);
      BackgroundKeeps(s, Closes(s, ak));
    }
    if pc in s.swept {
      ClaimMoves(s.db, pc.action, a, s.p.maxLinkCancelAttempts, Succeeded, None);
      RowsStand(s.db, pc.action, a, s.p.maxLinkCancelAttempts, s.p);
      BackgroundKeeps(s, Reclaims(s, pc));
    }
  }

  lemma RowsStand(db: Db, ak: ActionKey, a: Action, max: int, p: Settings)
    requires DbOk(db, p)
    ensures DbOk(CompleteAction(db, ak, Succeeded, None), p) && DbOk(ClaimAction(db, ak, a, max).0, p)
  {
  }

  lemma CommitsPlanKeeps(s: Sys, d: nat)
    requires Inv(s)
    ensures Inv(CommitsPlan(s, d))
  {
    if d in s.tasks && s.tasks[d].Planned? {
      var t := s.tasks[d];
      assert TaskOk(t, s.seen, s.p) && Newer(t.snapshot, s.db.cases[t.snapshot.key]);
      hide DbOk, Quiet, Moves, SeenOk, TasksOk, LedgerOk, ContactsOk, BudgetOk, CooledOk, PlanFits, CommitState;
      CommitStateEffect(s.db, t.snapshot, t.decision, t.now, s.p);
      BackgroundKeeps(s, CommitsPlan(s, d));
    }
  }

  lemma DispatchReadsKeep(s: Sys, d: nat, snapshot: RecoveryCase, degraded: bool, slot: bool, offset: int, at: Time)
    requires Inv(s)
    ensures Inv(PlansTimer(s, d, snapshot, degraded, slot, offset, at))
    ensures Inv(ChecksContact(s, d, snapshot, at))
  {
    if Free(s, d) && snapshot in s.seen {
      if snapshot.state.Cooldown? || snapshot.state.RetryScheduled? {
        TimedPlanFits(s, snapshot, degraded, slot, offset, at);
        hide Inv, PlanFits, PlanTimed;
        PlannedKeeps(s, d, Planned(snapshot, PlanTimed(s.db, s.p, snapshot, degraded, slot, offset, at), at));
      } else if snapshot.state.ConsentRequired? {
        var refusal := MayContact(s.db, s.p, snapshot, at);
        if refusal.None? {
          hide Inv, MayContact;
          CheckedKeeps(s, d, snapshot, at);
        } else {
          var plan := Decision(RefusalTarget(refusal.value), refusal.value, None);
          assert PlanFits(snapshot, plan, s.p);
          hide Inv, MayContact;
          PlannedKeeps(s, d, Planned(snapshot, plan, at));
        }
      }
    }
  }

  lemma LinkStepsKeep(s: Sys, d: nat, answer: Answer<NewLink>)
    requires Inv(s)
    ensures Inv(RecordsIntent(s, d)) && Inv(CallsProvider(s, d, answer)) && Inv(CommitsLink(s, d))
  {
    hide Inv;
    if d in s.tasks {
      var t := s.tasks[d];
      if t.Checked? {
        IntentKeeps(s, d);
      } else if t.Creating? {
        ProviderKeeps(s, d, answer);
      } else if t.Answered? {
        if t.answer.Accepted? && t.key in s.db.cases && s.db.cases[t.key].state == ConsentRequired {
          SentKeeps(s, d);
        } else {
          UnsentKeeps(s, d);
        }
      }
    }
  }

  lemma BookkeepingKeeps(s: Sys, s': Sys)
    requires Inv(s)
    requires s' == s.(cancels := s'.cancels, swept := s'.swept, closing := s'.closing, issued := s'.issued)
    ensures Inv(s')
  {
    QuietReflexive(s.db);
    BackgroundKeeps(s, s');
  }

  lemma InvNext(s: Sys, step: Step)
    requires Inv(s) && KeysOk(s)
    ensures Inv(Next(s, step))
  {
    hide Inv, KeysOk;
    match step
    case Webhook(e, degraded) => WebhookKeeps(s, e, degraded);
    case CancelReturns(pc, answer, at) => CancelDoneKeeps(s, pc, answer, at);
    case CancelLost(pc) => BookkeepingKeeps(s, Next(s, step));
    case ReadCase(key) => ReadsKeep(s, key);
    case PlanTimer(d, c, degraded, slot, offset, at) => DispatchReadsKeep(s, d, c, degraded, slot, offset, at);
    case CheckContact(d, c, at) => DispatchReadsKeep(s, d, c, false, false, 0, at);
    case CommitPlan(d) => CommitsPlanKeeps(s, d);
    case RecordIntent(d) => LinkStepsKeep(s, d, Refused(false));
    case ProviderCreates(d, answer) => LinkStepsKeep(s, d, answer);
    case CommitLink(d) => LinkStepsKeep(s, d, Refused(false));
    case DispatcherCrashes(d) => IdleKeeps(s, d);
    case SweepLists(ak) => BookkeepingKeeps(s, ListsFailed(s, ak));
    case SweepSeesCancelled(pc) => BookkeepingKeeps(s, SeesCancelled(s, pc));
    case SweepCloses(ak) => SweepKeeps(s, ak, PendingCancel("", ak, ""));
    case SweepClaims(pc) => SweepKeeps(s, pc.action, pc);
    case OperatorReopens(key, fc, degraded, at) => ReopenKeeps(s, key, fc, degraded, at);
    case PreviewSaved(snapshot, at) => PreviewKeeps(s, snapshot, at);
  }
}
