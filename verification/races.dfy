// Why the customer budget is exact with one dispatcher only: the contact check is made outside the transaction that
// records the intent (app/service.py:342-359), so two dispatchers can both pass it on the same last contact.
module Races {
  import opened Base
  import opened Models
  import opened Engine
  import opened Protocol
  import opened ProtocolTheorems
  import opened Refinement

  // A consent case a dispatcher has just read and may contact, with its create key unused.
  ghost predicate Eligible(s: Sys, d: nat, c: RecoveryCase, at: Time) {
    && Free(s, d) && c in s.seen && c.state.ConsentRequired? && c.key in s.db.cases && s.db.cases[c.key] == c
    && MayContact(s.db, s.p, c, at).None? && CreateKey(c.key) !in s.db.actions
  }

  function Intended(s: Sys, d: nat, k: Key, d': nat, k': Key, at: Time): Sys {
    s.(db := s.db.(actions := s.db.actions[CreateKey(k) := Action(ActionStatus.Started, 1, None, at)]
                                          [CreateKey(k') := Action(ActionStatus.Started, 1, None, at)]),
       tasks := s.tasks[d := Creating(k, at)][d' := Creating(k', at)])
  }

  lemma CheckPasses(s: Sys, d: nat, c: RecoveryCase, at: Time)
    requires Free(s, d) && c in s.seen && c.state.ConsentRequired? && MayContact(s.db, s.p, c, at).None?
    ensures Next(s, CheckContact(d, c, at)) == s.(tasks := s.tasks[d := Checked(c, at)])
  {
    hide MayContact;
  }

  lemma IntentPasses(s: Sys, d: nat, c: RecoveryCase, at: Time)
    requires d in s.tasks && s.tasks[d] == Checked(c, at) && CreateKey(c.key) !in s.db.actions
    ensures Next(s, RecordIntent(d)) ==
      s.(db := s.db.(actions := s.db.actions[CreateKey(c.key) := Action(ActionStatus.Started, 1, None, at)]),
         tasks := s.tasks[d := Creating(c.key, at)])
  {
  }

  lemma BothIntend(s: Sys, d: nat, c: RecoveryCase, d': nat, c': RecoveryCase, at: Time)
    requires Eligible(s, d, c, at) && Eligible(s, d', c', at) && d != d' && c.key != c'.key
    ensures Leads(s, Intended(s, d, c.key, d', c'.key, at))
  {
    hide MayContact, Leads, Next;
    CheckPasses(s, d, c, at);
    var s1 := Next(s, CheckContact(d, c, at));
    CheckPasses(s1, d', c', at);
    var s2 := Next(s1, CheckContact(d', c', at));
    IntentPasses(s2, d, c, at);
    var s3 := Next(s2, RecordIntent(d));
    IntentPasses(s3, d', c', at);
    assert Next(s3, RecordIntent(d')).tasks == s.tasks[d := Creating(c.key, at)][d' := Creating(c'.key, at)];
    LeadsByFour(s, CheckContact(d, c, at), CheckContact(d', c', at), RecordIntent(d), RecordIntent(d'));
  }

  lemma Commits(db: Db, k: Key, link: NewLink, at: Time)
    requires k in db.cases && db.cases[k].state.ConsentRequired? && db.cases[k].key == k
    ensures var r := CreateCommit(db, k, Accepted(link), at);
      && r.Ok? && !r.value.1 && r.value.0.actions.Keys <= db.actions.Keys + {CreateKey(k)}
      && AfterLinkCreated(db.cases[k], link, at).Ok?
      && r.value.0.cases ==
           db.cases[k := AfterLinkCreated(db.cases[k], link, at).value.(version := db.cases[k].version + 1)]
      && (forall j | j in db.cases && j != k :: j in r.value.0.cases && r.value.0.cases[j] == db.cases[j])
  {
    var r := AfterLinkCreated(db.cases[k], link, at);
    assert r.Ok? && r.value.key == k && r.value.version == db.cases[k].version;
    hide AfterLinkCreated;
  }

  // A dispatcher with its intent recorded has the provider create the link and commits it.
  lemma Delivers(s: Sys, d: nat, k: Key, at: Time, link: NewLink) returns (s': Sys)
    requires d in s.tasks && s.tasks[d] == Creating(k, at)
    requires k in s.db.cases && s.db.cases[k].state.ConsentRequired? && s.db.cases[k].key == k
    ensures Leads(s, s') && AfterLinkCreated(s.db.cases[k], link, at).Ok?
    ensures s'.p == s.p && s'.dispatchers == s.dispatchers && s'.tasks == s.tasks - {d}
    ensures s'.contacts == s.contacts + [Contact(k, s.db.cases[k].customer, at)]
    ensures s'.db.cases ==
      s.db.cases[k := AfterLinkCreated(s.db.cases[k], link, at).value.(version := s.db.cases[k].version + 1)]
    ensures s'.db.actions.Keys <= s.db.actions.Keys + {CreateKey(k)}
  {
    hide Leads, AfterLinkCreated;
    Commits(s.db, k, link, at);
    LeadsByTwo(s, ProviderCreates(d, Accepted(link)), CommitLink(d));
    s' := Next(Next(s, ProviderCreates(d, Accepted(link))), CommitLink(d));
    hide CreateCommit;
    assert s'.tasks == s.tasks - {d};
  }

  // Two dispatchers that have each read a case of one person and find room for the next contact both send.
  lemma RaceSendsBoth(s: Sys, d: nat, c: RecoveryCase, d': nat, c': RecoveryCase, at: Time, link: NewLink,
                      link': NewLink, u: CustomerId)
    requires Eligible(s, d, c, at) && Eligible(s, d', c', at) && d != d' && c.key != c'.key
    requires c.customer == Some(u) && c'.customer == Some(u)
    ensures exists s' :: Leads(s, s') && LinksTo(s'.contacts, u) == LinksTo(s.contacts, u) + 2
  {
    BothIntend(s, d, c, d', c', at);
    var s1 := Intended(s, d, c.key, d', c'.key, at);
    hide Leads, Eligible, AfterLinkCreated;
    assert s1.db.cases == s.db.cases && s.db.cases[c.key] == c && s.db.cases[c'.key] == c' by {
      assert Eligible(s, d, c, at) && Eligible(s, d', c', at);
    }
    var s2 := Delivers(s1, d, c.key, at, link);
    var s3 := Delivers(s2, d', c'.key, at, link');
    LeadsOn(s, s1, s2);
    LeadsOn(s, s2, s3);
    TwoMore(s.contacts, Contact(c.key, Some(u), at), Contact(c'.key, Some(u), at), u);
  }

  lemma TwoMore(log: seq<Contact>, a: Contact, b: Contact, u: CustomerId)
    requires a.customer == Some(u) && b.customer == Some(u)
    ensures LinksTo(log + [a] + [b], u) == LinksTo(log, u) + 2
  {
    assert (log + [a] + [b])[..|log| + 1] == log + [a] && (log + [a])[..|log|] == log;
  }

  // ------------------------------------------------- the worst case, reached

  // The i-th of any number of names.
  function Name(i: nat): string {
    seq(i, _ => 'x')
  }

  function Names(i: nat): set<string> {
    set j | 0 <= j < i :: Name(j)
  }

  lemma NamesDiffer(i: nat, j: nat)
    ensures Name(i) == Name(j) ==> i == j
    ensures Name(i) in Names(j) <==> i < j
  {
    assert |Name(i)| == i && |Name(j)| == j;
    if Name(i) in Names(j) {
      var k :| 0 <= k < j && Name(k) == Name(i);
      assert |Name(k)| == k;
    }
  }

  // A case waiting for its first contact.
  predicate Waits(c: RecoveryCase, k: Key, u: CustomerId) {
    c.key == k && c.state.ConsentRequired? && c.customer == Some(u) && c.attention == FRESH_ATTENTION && c.linkId.None?
  }

  // Settings under which a failure with this code asks for the customer's consent, at once or once reopened.
  predicate Workable(p: Settings, code: Option<string>) {
    p.classify(code).CustomerAction? && p.maxRecoveryAttempts >= 1 && code != Some("")
  }

  function FailureOf(i: nat, u: CustomerId, code: Option<string>, at: Time): PaymentEvent {
    PaymentEvent(Name(i), PaymentFailed, Name(i), at, 100, None, Some(u), "", Card, code, false)
  }

  // `i` cases of one person wait, and nothing else has happened.
  ghost predicate Lined(s: Sys, p: Settings, n: nat, u: CustomerId, i: nat) {
    && s.p == p && s.dispatchers == n && s.tasks == map[] && s.contacts == []
    && s.db.cases.Keys == Names(i) && s.db.claimed == Names(i)
    && (forall k :: CreateKey(k) !in s.db.actions)
    && (forall k | k in s.db.cases :: Waits(s.db.cases[k], k, u))
  }

  // A failure makes a case wait for consent; one that is out of attempts at once waits after an operator's reopening.
  lemma FailureWaits(p: Settings, i: nat, u: CustomerId, code: Option<string>, at: Time)
    requires Workable(p, code)
    ensures var e := FailureOf(i, u, code, at);
      var c := AfterFailure(FromFailedEvent(e), e, false, p);
      && c.key == Name(i) && c.version == 0
      && if p.maxRecoveryAttempts > 1 then Waits(c, Name(i), u)
         else c.state.ManualReview? && Waits(AfterReopen(c, None, false, at, p), Name(i), u)
  {
    hide Name;
    var e := FailureOf(i, u, code, at);
    var c := FromFailedEvent(e);
    assert CodeFor(c, e) == code;
    var c1 := WithFailure(c, e, p);
    assert c1.attempts == 1 && c1.failure.cause == Some(CustomerAction);
  }

  function Opens(i: nat, u: CustomerId, code: Option<string>, at: Time): Step {
    Webhook(FailureOf(i, u, code, at), false)
  }

  // The database with one more case.
  function WithCase(db: Db, i: nat, c: RecoveryCase): Db {
    Db(db.cases[Name(i) := c], db.actions, db.claimed + {Name(i)})
  }

  lemma FailureOpens(s: Sys, i: nat, u: CustomerId, code: Option<string>, at: Time)
    requires Name(i) !in s.db.cases && Name(i) !in s.db.claimed
    requires var e := FailureOf(i, u, code, at);
      var c := AfterFailure(FromFailedEvent(e), e, false, s.p);
      c.key == Name(i) && c.version == 0
    ensures var e := FailureOf(i, u, code, at);
      var c := AfterFailure(FromFailedEvent(e), e, false, s.p);
      Next(s, Opens(i, u, code, at)) == s.(db := WithCase(s.db, i, c.(version := 1)))
  {
    hide Name, AfterFailure;
    var e := FailureOf(i, u, code, at);
    var c := AfterFailure(FromFailedEvent(e), e, false, s.p);
    assert s.db.cases[Name(i) := FromFailedEvent(e)][Name(i) := c.(version := 1)] ==
      s.db.cases[Name(i) := c.(version := 1)];
    assert HandleFailure(Claim(s.db, e.id), e, false, s.p) == Ok(WithCase(s.db, i, c.(version := 1)));
    hide HandleFailure;
  }

  // What an operator's reopening makes of the newest case.
  lemma ReopenWaits(s: Sys, i: nat, c: RecoveryCase, at: Time)
    requires s.db.cases.Keys >= {Name(i)} && s.db.cases[Name(i)] == c && c.key == Name(i)
    ensures var s' := Next(s, OperatorReopens(Name(i), None, false, at));
      if c.state.ManualReview? then
        s' == s.(db := s.db.(cases := s.db.cases[Name(i) :=
                               AfterReopen(c, None, false, at, s.p).(version := c.version + 1)],
                             actions := RecordAction(s.db, ReopenKey(Name(i), at),
                                                     Action(Succeeded, 1, None, at)).0.actions))
      else s' == s
  {
    hide Name, Decide;
  }

  lemma OneMoreWaits(s: Sys, p: Settings, n: nat, u: CustomerId, i: nat, code: Option<string>, at: Time)
    requires Workable(p, code) && Lined(s, p, n, u, i)
    ensures Lined(Next(Next(s, Opens(i, u, code, at)), OperatorReopens(Name(i), None, false, at)), p, n, u, i + 1)
  {
    hide Name, Names, AfterFailure, AfterReopen, Next, Workable, FromFailedEvent;
    var e := FailureOf(i, u, code, at);
    var c := AfterFailure(FromFailedEvent(e), e, false, p);
    FailureWaits(p, i, u, code, at);
    NamesDiffer(i, i);
    NamesGrow(i);
    FailureOpens(s, i, u, code, at);
    var s1 := Next(s, Opens(i, u, code, at));
    ReopenWaits(s1, i, c.(version := 1), at);
    ReopenIgnoresVersion(c, at, p);
  }

  lemma ReopenIgnoresVersion(c: RecoveryCase, at: Time, p: Settings)
    ensures AfterReopen(c.(version := 1), None, false, at, p) == AfterReopen(c, None, false, at, p).(version := 1)
  {
  }

  lemma NamesGrow(i: nat)
    ensures Names(i + 1) == Names(i) + {Name(i)} && Names(0) == {}
  {
  }

  lemma {:induction false} CasesLineUp(p: Settings, n: nat, u: CustomerId, i: nat, code: Option<string>, at: Time)
    returns (s: Sys)
    requires Workable(p, code)
    ensures Leads(Init(p, n), s) && Lined(s, p, n, u, i)
  {
    hide Next, Leads;
    if i == 0 {
      s := Init(p, n);
      NamesGrow(0);
      LeadsNowhere(s);
    } else {
      var s0 := CasesLineUp(p, n, u, i - 1, code, at);
      var a, b := Opens(i - 1, u, code, at), OperatorReopens(Name(i - 1), None, false, at);
      OneMoreWaits(s0, p, n, u, i - 1, code, at);
      s := Next(Next(s0, a), b);
      LeadsByTwo(s0, a, b);
      hide Lined;
      LeadsOn(Init(p, n), s0, s);
    }
  }

  // -------------------------------------------------------- one link is sent

  // A free dispatcher reads a case it may contact, and checks it.
  lemma Checks(s: Sys, d: nat, c: RecoveryCase, at: Time) returns (s': Sys)
    requires Free(s, d) && c.key in s.db.cases && s.db.cases[c.key] == c && c.state.ConsentRequired?
    requires MayContact(s.db, s.p, c, at).None?
    ensures Leads(s, s') && s' == s.(seen := s.seen + {c}, tasks := s.tasks[d := Checked(c, at)])
  {
    hide Leads, MayContact;
    var s1 := Next(s, ReadCase(c.key));
    assert s1 == s.(seen := s.seen + {c});
    CheckPasses(s1, d, c, at);
    hide Next;
    s' := Next(s1, CheckContact(d, c, at));
    LeadsByTwo(s, ReadCase(c.key), CheckContact(d, c, at));
  }

  // A dispatcher past its check sends the link.
  lemma Dispatches(s: Sys, d: nat, c: RecoveryCase, at: Time, link: NewLink) returns (s': Sys)
    requires d in s.tasks && s.tasks[d] == Checked(c, at) && CreateKey(c.key) !in s.db.actions
    requires c.key in s.db.cases && s.db.cases[c.key].state.ConsentRequired? && s.db.cases[c.key].key == c.key
    ensures Leads(s, s') && AfterLinkCreated(s.db.cases[c.key], link, at).Ok?
    ensures s'.p == s.p && s'.dispatchers == s.dispatchers && s'.tasks == s.tasks - {d}
    ensures s'.contacts == s.contacts + [Contact(c.key, s.db.cases[c.key].customer, at)]
    ensures s'.db.cases == s.db.cases[c.key :=
      AfterLinkCreated(s.db.cases[c.key], link, at).value.(version := s.db.cases[c.key].version + 1)]
    ensures forall k | k != c.key && CreateKey(k) !in s.db.actions :: CreateKey(k) !in s'.db.actions
  {
    hide Next, Leads, AfterLinkCreated;
    IntentPasses(s, d, c, at);
    var s1 := Next(s, RecordIntent(d));
    LeadsBy(s, RecordIntent(d));
    assert s1.tasks - {d} == s.tasks - {d};
    s' := Delivers(s1, d, c.key, at, link);
    LeadsOn(s, s1, s');
  }

  predicate Linked(c: RecoveryCase, k: Key, u: CustomerId, at: Time) {
    c.key == k && c.customer == Some(u) && c.attention == Attention(1, DEFAULT_MAX_CONTACTS_7D, false, Some(at))
  }

  lemma LinkingLinks(c: RecoveryCase, k: Key, u: CustomerId, link: NewLink, at: Time)
    requires Waits(c, k, u)
    ensures AfterLinkCreated(c, link, at).Ok? && Linked(AfterLinkCreated(c, link, at).value, k, u, at)
  {
  }

  // Everyone waits, except perhaps the last named, whose link was sent.
  ghost predicate OneAtMost(db: Db, u: CustomerId, n: nat, at: Time) {
    forall k | k in db.cases ::
      Waits(db.cases[k], k, u) || (k == Name(n) && Linked(db.cases[k], k, u, at))
  }

  lemma {:induction false} SumAtMostOne(db: Db, u: CustomerId, n: nat, at: Time, keys: set<Key>)
    requires OneAtMost(db, u, n, at) && keys <= db.cases.Keys
    ensures ContactSum(db, keys) <= if Name(n) in keys then 1 else 0
  {
    hide Name;
    if keys != {} {
      var k :| k in keys && ContactSum(db, keys) == db.cases[k].attention.contacts + ContactSum(db, keys - {k});
      SumAtMostOne(db, u, n, at, keys - {k});
    }
  }

  // A case that waits is then found free to contact once the cooldown has passed.
  lemma RoomForOne(db: Db, p: Settings, u: CustomerId, n: nat, first: Time, c: RecoveryCase, at: Time)
    requires OneAtMost(db, u, n, first) && at - first >= p.contactCooldown && Waits(c, c.key, u)
    ensures MayContact(db, p, c, at).None?
  {
    hide Name;
    SumAtMostOne(db, u, n, first, OthersOf(db, u, c.key));
  }

  // The first link is out, and `n` more cases wait.
  ghost predicate OneSent(s: Sys, p: Settings, n: nat, u: CustomerId, first: Time) {
    && s.p == p && s.dispatchers == n && s.tasks == map[] && LinksTo(s.contacts, u) == 1
    && s.db.cases.Keys == Names(n + 1) && OneAtMost(s.db, u, n, first)
    && (forall k | k in s.db.cases && k != Name(n) ::
          Waits(s.db.cases[k], k, u) && CreateKey(k) !in s.db.actions)
  }

  lemma FirstSends(s: Sys, p: Settings, n: nat, u: CustomerId, at: Time, link: NewLink) returns (s': Sys)
    requires Lined(s, p, n, u, n + 1) && n >= 1
    ensures Leads(s, s') && OneSent(s', p, n, u, at)
  {
    var k := Name(n);
    NamesDiffer(n, n + 1);
    hide Name, Names, Leads, Next;
    var c := s.db.cases[k];
    RoomForOne(s.db, p, u, n, at - Base.Max(p.contactCooldown, 0), c, at);
    var s1 := Checks(s, 0, c, at);
    s' := Dispatches(s1, 0, c, at, link);
    LeadsOn(s, s1, s');
    LinkingLinks(c, k, u, link, at);
    hide AfterLinkCreated;
    assert s'.tasks == map[];
    OneLink(Contact(k, Some(u), at), u);
    assert [] + [Contact(k, Some(u), at)] == [Contact(k, Some(u), at)];
  }

  lemma OneLink(c: Contact, u: CustomerId)
    requires c.customer == Some(u)
    ensures LinksTo([c], u) == 1
  {
    assert [c][..0] == [];
  }

  // ------------------------------------------------------------ the race

  // The first `i` dispatchers have each found room for a case of their own.
  ghost predicate Checking(base: Sys, s: Sys, at: Time, i: nat) {
    && s.db == base.db && s.p == base.p && s.dispatchers == base.dispatchers && s.contacts == base.contacts
    && (forall d: nat :: d in s.tasks <==> d < i)
    && (forall d: nat | d < i :: Name(d) in base.db.cases && s.tasks[d] == Checked(base.db.cases[Name(d)], at))
  }

  lemma {:induction false} AllCheck(base: Sys, p: Settings, n: nat, u: CustomerId, first: Time, at: Time, i: nat)
    returns (s: Sys)
    requires OneSent(base, p, n, u, first) && at - first >= p.contactCooldown && i <= n
    ensures Leads(base, s) && Checking(base, s, at, i)
  {
    hide Name, Names, Leads, OneAtMost;
    if i == 0 {
      s := base;
      LeadsNowhere(base);
    } else {
      var s0 := AllCheck(base, p, n, u, first, at, i - 1);
      NamesDiffer(i - 1, n + 1);
      NamesDiffer(i - 1, n);
      var c := base.db.cases[Name(i - 1)];
      RoomForOne(base.db, p, u, n, first, c, at);
      s := Checks(s0, i - 1, c, at);
      LeadsOn(base, s0, s);
    }
  }

  // The first `i` of them have sent their links.
  ghost predicate Sending(base: Sys, s: Sys, u: CustomerId, n: nat, at: Time, i: nat) {
    && s.dispatchers == n && LinksTo(s.contacts, u) == 1 + i
    && (forall d: nat :: d in s.tasks <==> i <= d < n)
    && (forall d: nat | i <= d < n ::
          && Name(d) in base.db.cases && s.tasks[d] == Checked(base.db.cases[Name(d)], at)
          && Name(d) in s.db.cases && s.db.cases[Name(d)] == base.db.cases[Name(d)]
          && Waits(s.db.cases[Name(d)], Name(d), u) && CreateKey(Name(d)) !in s.db.actions)
  }

  lemma ReadyToSend(base: Sys, s: Sys, p: Settings, n: nat, u: CustomerId, first: Time, at: Time)
    requires OneSent(base, p, n, u, first) && Checking(base, s, at, n)
    ensures Sending(base, s, u, n, at, 0)
  {
    forall d: nat | d < n ensures Name(d) != Name(n) {
      NamesDiffer(d, n);
    }
    hide Name, Names;
  }

  lemma {:induction false} AllSend(base: Sys, start: Sys, u: CustomerId, n: nat, at: Time, link: NewLink, i: nat)
    returns (s: Sys)
    requires Sending(base, start, u, n, at, 0) && i <= n
    ensures Leads(start, s) && Sending(base, s, u, n, at, i)
  {
    hide Leads, Sending;
    if i == 0 {
      s := start;
      LeadsNowhere(start);
    } else {
      var s0 := AllSend(base, start, u, n, at, link, i - 1);
      s := OneMoreSends(base, s0, u, n, at, link, i - 1);
      LeadsOn(start, s0, s);
    }
  }

  lemma OneMoreSends(base: Sys, s: Sys, u: CustomerId, n: nat, at: Time, link: NewLink, i: nat) returns (s': Sys)
    requires Sending(base, s, u, n, at, i) && i < n
    ensures Leads(s, s') && Sending(base, s', u, n, at, i + 1)
  {
    hide Name, Leads, AfterLinkCreated;
    var c := base.db.cases[Name(i)];
    s' := Dispatches(s, i, c, at, link);
    OneMoreLink(s.contacts, Contact(c.key, Some(u), at), u);
    forall d: nat | i + 1 <= d < n ensures Name(d) != Name(i) {
      NamesDiffer(d, i);
    }
  }

  lemma OneMoreLink(log: seq<Contact>, c: Contact, u: CustomerId)
    requires c.customer == Some(u)
    ensures LinksTo(log + [c], u) == LinksTo(log, u) + 1
  {
    assert (log + [c])[..|log|] == log;
  }

  // The states a deployment with these settings and `n` dispatchers can reach.
  ghost predicate ReachableWith(p: Settings, n: nat, s: Sys) {
    Leads(Init(p, n), s)
  }

  // The budget's bound is reached: from an empty database, by way of n + 1 failures of one person, one link sent, the
  // cooldown waited out and n dispatchers each sending the link it found room for.
  lemma BudgetIsReached(p: Settings, n: nat, u: CustomerId, code: Option<string>, at: Time, link: NewLink)
    requires Workable(p, code) && n >= 1
    ensures exists s :: ReachableWith(p, n, s) && LinksTo(s.contacts, u) == DEFAULT_MAX_CONTACTS_7D + n - 1
  {
    hide Leads, Lined, OneSent, Checking, Workable;
    var s0 := CasesLineUp(p, n, u, n + 1, code, at);
    var s1 := FirstSends(s0, p, n, u, at, link);
    var later := at + Base.Max(p.contactCooldown, 0);
    var s2 := AllCheck(s1, p, n, u, at, later, n);
    ReadyToSend(s1, s2, p, n, u, at, later);
    var s3 := AllSend(s1, s2, u, n, later, link, n);
    LeadsOn(Init(p, n), s0, s1);
    LeadsOn(Init(p, n), s1, s2);
    LeadsOn(Init(p, n), s2, s3);
    assert ReachableWith(p, n, s3);
  }

  ghost predicate KeepsBudget(p: Settings, n: nat, u: CustomerId) {
    forall s | ReachableWith(p, n, s) :: LinksTo(s.contacts, u) <= DEFAULT_MAX_CONTACTS_7D
  }

  // A person's budget can never be exceeded exactly when there is one dispatcher.
  lemma OneDispatcherOnly(p: Settings, n: nat, u: CustomerId, code: Option<string>, at: Time, link: NewLink)
    requires Workable(p, code) && n >= 1
    ensures KeepsBudget(p, n, u) <==> n == 1
  {
    hide Leads, Workable;
    if n == 1 {
      forall s | ReachableWith(p, n, s) ensures LinksTo(s.contacts, u) <= DEFAULT_MAX_CONTACTS_7D {
        StaysOfSize(p, n, s);
        BudgetAcrossInvoices(s, u);
      }
    } else {
      BudgetIsReached(p, n, u, code, at, link);
      var s :| ReachableWith(p, n, s) && LinksTo(s.contacts, u) == DEFAULT_MAX_CONTACTS_7D + n - 1;
    }
  }

  lemma StaysOfSize(p: Settings, n: nat, s: Sys)
    requires ReachableWith(p, n, s)
    ensures Reachable(s) && s.dispatchers == n
  {
    var steps :| s == Run(Init(p, n), steps);
    RunKeepsSize(Init(p, n), steps);
  }

  lemma {:induction false} RunKeepsSize(s: Sys, steps: seq<Step>)
    ensures Run(s, steps).dispatchers == s.dispatchers
  {
    hide Next;
    if steps != [] {
      RunKeepsSize(s, steps[..|steps| - 1]);
      NextKeepsSize(Run(s, steps[..|steps| - 1]), steps[|steps| - 1]);
    }
  }

  lemma NextKeepsSize(s: Sys, step: Step)
    ensures Next(s, step).dispatchers == s.dispatchers
  {
    hide Ingest, CancelCommit, PlanTimed, MayContact, CommitState, CreateIntent, CreateCommit, Reopen, SavePreview,
      ClaimAction, CompleteAction, SweptLink;
  }
}
