// Deliveries as the service makes them (app/service.py:112-131), calendar and all: an instant that cannot be written
// rolls the transaction back, claim included, and the provider will deliver the event again.
module Serving {
  import opened Base
  import opened Models
  import opened Engine
  import opened Effects
  import opened Stamps
  import opened Rows
  import opened Delivery

  // One delivery: what it leaves, and what the caller is told: whether the event was new, or that it failed.
  ghost function Serve<H>(env: Env<H>, w: Plant<H>, e: PaymentEvent): (Plant<H>, Option<bool>) {
    if !InRange(e.at) then (w, None)
    else if e.id in w.db.claimed then (w, Some(false))
    else
      var (health, degraded) := env.observe(w.health, w.db, e);
      var t := Ingest(w.db, e, degraded, env.p);
      if t.Err? || !Writable(t.value.0) then (w.(health := health), None)
      else if t.value.1.None? then (Plant(t.value.0, health, w.asked), Some(true))
      else Cancelling(env, Plant(t.value.0, health, w.asked), t.value.1.value, e.at)
  }

  // The cancel a committed delivery hands on: the provider is asked, and its answer committed if it can be.
  ghost function Cancelling<H>(env: Env<H>, w: Plant<H>, pc: PendingCancel, now: Time): (Plant<H>, Option<bool>) {
    var asked := w.(asked := w.asked + [pc.link]);
    var c := CancelCommit(w.db, pc, env.answer(w.asked), now);
    if c.Err? || !Writable(c.value) then (asked, None) else (asked.(db := c.value), Some(true))
  }

  ghost function ServeAll<H>(env: Env<H>, w: Plant<H>, es: seq<PaymentEvent>): Plant<H> {
    if es == [] then w else Serve(env, ServeAll(env, w, es[..|es| - 1]), es[|es| - 1]).0
  }

  // ------------------------------------------------------------ redelivery

  // Deliveries that were not passed over as already claimed, nor refused for their instant.
  ghost function Tried<H>(env: Env<H>, w: Plant<H>, es: seq<PaymentEvent>): seq<PaymentEvent> {
    if es == [] then []
    else
      var rest, last := es[..|es| - 1], es[|es| - 1];
      Tried(env, w, rest)
      + if InRange(last.at) && last.id !in ServeAll(env, w, rest).db.claimed then [last] else []
  }

  // The others leave no trace at all.
  lemma {:induction false} OnlyTriesMatter<H>(env: Env<H>, w: Plant<H>, es: seq<PaymentEvent>)
    ensures ServeAll(env, w, es) == ServeAll(env, w, Tried(env, w, es))
  {
    if es != [] {
      var rest, last := es[..|es| - 1], es[|es| - 1];
      OnlyTriesMatter(env, w, rest);
      var tried := Tried(env, w, rest);
      if InRange(last.at) && last.id !in ServeAll(env, w, rest).db.claimed {
        hide Serve;
        assert (tried + [last])[..|tried|] == tried;
      } else {
        assert tried + [] == tried;
      }
    }
  }

  // A delivery keeps the rows well formed and every claim; whatever it commits, it claims.
  lemma ServingClaims<H>(env: Env<H>, w: Plant<H>, e: PaymentEvent)
    requires DbOk(w.db, env.p)
    ensures var w' := Serve(env, w, e).0;
      DbOk(w'.db, env.p) && (w'.db == w.db || w'.db.claimed == w.db.claimed + {e.id})
    ensures Serve(env, w, e).1.Some? ==> e.id in Serve(env, w, e).0.db.claimed
  {
    hide DbOk, Ingest, CancelCommit, InRange, Writable;
    if InRange(e.at) && e.id !in w.db.claimed {
      var degraded := env.observe(w.health, w.db, e).1;
      IngestIsTotal(w.db, e, degraded, env.p);
      PendingShape(w.db, e, degraded, env.p);
      var (db, pending) := Ingest(w.db, e, degraded, env.p).value;
      if pending.Some? {
        CancelEffect(db, pending.value, env.answer(w.asked), e.at, env.p);
        CancelKeepsClaims(db, pending.value, env.answer(w.asked), e.at);
      }
    }
  }

  lemma {:induction false} ClaimsLast<H>(env: Env<H>, w: Plant<H>, es: seq<PaymentEvent>, i: nat)
    requires DbOk(w.db, env.p) && i <= |es|
    ensures DbOk(ServeAll(env, w, es).db, env.p)
    ensures ServeAll(env, w, es[..i]).db.claimed <= ServeAll(env, w, es).db.claimed
  {
    hide Serve, DbOk;
    if i == |es| {
      assert es[..i] == es;
      if es != [] {
        ClaimsLast(env, w, es[..i - 1], i - 1);
        ServingClaims(env, ServeAll(env, w, es[..i - 1]), es[i - 1]);
      }
    } else {
      var rest := es[..|es| - 1];
      ClaimsLast(env, w, rest, i);
      assert rest[..i] == es[..i];
      ServingClaims(env, ServeAll(env, w, rest), es[|es| - 1]);
    }
  }

  // An event is tried a second time only if the first try was rolled back: each is committed at most once.
  lemma CommittedOnce<H>(env: Env<H>, w: Plant<H>, es: seq<PaymentEvent>, i: nat, j: nat)
    requires DbOk(w.db, env.p) && i < j < |es| && es[i].id == es[j].id
    requires es[j].id !in ServeAll(env, w, es[..j]).db.claimed
    ensures ServeAll(env, w, es[..i + 1]).db == ServeAll(env, w, es[..i]).db
    ensures Serve(env, ServeAll(env, w, es[..i]), es[i]).1.None?
  {
    hide Serve, DbOk;
    ClaimsLast(env, w, es[..j], i + 1);
    assert es[..j][..i + 1] == es[..i + 1] && es[..i + 1][..i] == es[..i];
    ClaimsLast(env, w, es[..i], i);
    ServingClaims(env, ServeAll(env, w, es[..i]), es[i]);
  }

  // ---------------------------------------------------------- within range

  // An event whose instant, and the deadlines policy may set from it, can all be written.
  predicate Fits(p: Settings, e: PaymentEvent) {
    InRange(e.at) && InRange(e.at + p.cooldown) && InRange(e.at + p.retryEscalationAfter)
  }

  lemma SavedIsWritable(db: Db, c: RecoveryCase)
    requires Writable(db) && Stampable(c)
    ensures SaveCase(db, c).Ok? ==> Writable(SaveCase(db, c).value)
  {
    hide InRange;
  }

  lemma FailureFits(c: RecoveryCase, e: PaymentEvent, degraded: bool, p: Settings)
    requires Stampable(c) && Fits(p, e)
    ensures Stampable(AfterFailure(c, e, degraded, p))
  {
    hide InRange, AllowedTransition, Lower;
  }

  lemma SuccessFits(c: RecoveryCase, e: PaymentEvent)
    requires Stampable(c) && InRange(e.at)
    ensures AfterSuccess(c, e).Ok? ==> Stampable(AfterSuccess(c, e).value)
  {
    hide InRange, AllowedTransition;
  }

  lemma ReversalFits(c: RecoveryCase, e: PaymentEvent)
    requires Stampable(c) && InRange(e.at)
    ensures Stampable(AfterReversal(c, e))
  {
    hide InRange, AllowedTransition;
  }

  lemma LinkFits(c: RecoveryCase, e: PaymentEvent)
    requires Stampable(c) && InRange(e.at)
    ensures Stampable(AfterLinkEvent(c, e))
  {
    hide InRange, AllowedTransition;
  }

  lemma CancelFits(c: RecoveryCase, answer: Answer<LinkStatus>, now: Time)
    requires Stampable(c) && InRange(now)
    ensures Stampable(AfterCancel(c, answer, now))
  {
    hide InRange;
  }

  lemma FailureIsWritable(db: Db, e: PaymentEvent, degraded: bool, p: Settings)
    requires Writable(db) && Fits(p, e)
    ensures HandleFailure(db, e, degraded, p).Ok? ==> Writable(HandleFailure(db, e, degraded, p).value)
  {
    hide AfterFailure, SaveCase, InRange, Stampable;
    if e.key in db.cases {
      FailureFits(db.cases[e.key], e, degraded, p);
      SavedIsWritable(db, AfterFailure(db.cases[e.key], e, degraded, p));
    } else {
      var c := FromFailedEvent(e);
      FreshFits(e);
      FailureFits(c, e, degraded, p);
      SavedIsWritable(db.(cases := db.cases[e.key := c]), AfterFailure(c, e, degraded, p));
    }
  }

  lemma FreshFits(e: PaymentEvent)
    requires InRange(e.at)
    ensures Stampable(FromFailedEvent(e))
  {
    hide InRange;
  }

  lemma ClaimKeepsCases(db: Db, c: RecoveryCase, ak: ActionKey, at: Time, p: Settings)
    ensures ClaimCancel(db, c, ak, at, p).0.cases == db.cases
  {
  }

  lemma SuccessIsWritable(db: Db, e: PaymentEvent, p: Settings)
    requires Writable(db) && InRange(e.at)
    ensures HandleSuccess(db, e, p).Ok? ==> Writable(HandleSuccess(db, e, p).value.0)
  {
    hide AfterSuccess, SaveCase, InRange, ClaimCancel;
    if e.key in db.cases && !IsFinal(db.cases[e.key].state) && AfterSuccess(db.cases[e.key], e).Ok? {
      var c := AfterSuccess(db.cases[e.key], e).value;
      SuccessFits(db.cases[e.key], e);
      ClaimKeepsCases(db, c, LateCancelOf(c), e.at, p);
      var db1 := ClaimCancel(db, c, LateCancelOf(c), e.at, p).0;
      SavedIsWritable(db1, c);
      SavedIsWritable(db1, c.(preview := false));
    }
  }

  lemma ReversalIsWritable(db: Db, e: PaymentEvent, p: Settings)
    requires Writable(db) && InRange(e.at)
    ensures HandleReversal(db, e, p).Ok? ==> Writable(HandleReversal(db, e, p).value.0)
  {
    hide AfterReversal, SaveCase, InRange, ClaimCancel, OptOutCustomer, Stampable;
    if e.key in db.cases {
      var c := db.cases[e.key];
      ReversalFits(c, e);
      ClaimKeepsCases(db, c, ReversalCancelKey(c.key), e.at, p);
      var db1 := ClaimCancel(db, c, ReversalCancelKey(c.key), e.at, p).0;
      if c.customer.Some? {
        SilencingIsWritable(db1, c.customer.value, c.key);
        SavedIsWritable(OptOutCustomer(db1, c.customer.value, c.key), AfterReversal(c, e));
      }
      SavedIsWritable(db1, AfterReversal(c, e));
    }
  }

  lemma SilencingIsWritable(db: Db, customer: CustomerId, exclude: Key)
    requires Writable(db)
    ensures Writable(OptOutCustomer(db, customer, exclude))
  {
    hide InRange;
  }

  lemma LinkIsWritable(db: Db, e: PaymentEvent)
    requires Writable(db) && InRange(e.at)
    ensures HandleLink(db, e).Ok? ==> Writable(HandleLink(db, e).value)
  {
    hide AfterLinkEvent, SaveCase, InRange, Stampable;
    if e.key in db.cases {
      LinkFits(db.cases[e.key], e);
      SavedIsWritable(db, AfterLinkEvent(db.cases[e.key], e));
    }
  }

  lemma IngestIsWritable(db: Db, e: PaymentEvent, degraded: bool, p: Settings)
    requires Writable(db) && Fits(p, e)
    ensures Ingest(db, e, degraded, p).Ok? ==> Writable(Ingest(db, e, degraded, p).value.0)
  {
    hide HandleFailure, HandleSuccess, HandleReversal, HandleLink, InRange, Stampable;
    var db1 := Claim(db, e.id);
    assert Writable(db1);
    FailureIsWritable(db1, e, degraded, p);
    SuccessIsWritable(db1, e, p);
    ReversalIsWritable(db1, e, p);
    LinkIsWritable(db1, e);
    hide Writable;
  }

  lemma CancelIsWritable(db: Db, pc: PendingCancel, answer: Answer<LinkStatus>, now: Time)
    requires Writable(db) && InRange(now)
    ensures CancelCommit(db, pc, answer, now).Ok? ==> Writable(CancelCommit(db, pc, answer, now).value)
  {
    hide AfterCancel, SaveCase, InRange, Stampable, CompleteAction;
    var status := if answer.Refused? then Failed else Succeeded;
    CompletionKeeps(db, pc.action, status, Some(pc.link));
    var db1 := CompleteAction(db, pc.action, status, Some(pc.link));
    if pc.key in db1.cases {
      CancelFits(db1.cases[pc.key], answer, now);
      SavedIsWritable(db1, AfterCancel(db1.cases[pc.key], answer, now));
    }
  }

  lemma CompletionKeeps(db: Db, ak: ActionKey, status: ActionStatus, link: Option<LinkId>)
    ensures CompleteAction(db, ak, status, link).cases == db.cases
  {
  }

  // A delivery that fits never fails, and does what the calendar-free model of a delivery does.
  lemma FittingIsServed<H>(env: Env<H>, w: Plant<H>, e: PaymentEvent)
    requires DbOk(w.db, env.p) && Writable(w.db) && Fits(env.p, e)
    ensures var (w', r) := Serve(env, w, e);
      && r == Some(e.id !in w.db.claimed) && w' == Deliver(env, w, e)
      && DbOk(w'.db, env.p) && Writable(w'.db)
  {
    hide DbOk, Ingest, CancelCommit, Writable, InRange, Cancelling;
    ServingClaims(env, w, e);
    if e.id !in w.db.claimed {
      var (health, degraded) := env.observe(w.health, w.db, e);
      IngestIsTotal(w.db, e, degraded, env.p);
      IngestIsWritable(w.db, e, degraded, env.p);
      PendingShape(w.db, e, degraded, env.p);
      var (db, pending) := Ingest(w.db, e, degraded, env.p).value;
      if pending.Some? {
        CancellingSucceeds(env, Plant(db, health, w.asked), pending.value, e.at);
      }
    }
  }

  lemma CancellingSucceeds<H>(env: Env<H>, w: Plant<H>, pc: PendingCancel, now: Time)
    requires DbOk(w.db, env.p) && Writable(w.db) && InRange(now) && pc.action.IsCancel()
    ensures var c := CancelCommit(w.db, pc, env.answer(w.asked), now);
      && c.Ok? && Writable(c.value)
      && Cancelling(env, w, pc, now) == (Plant(c.value, w.health, w.asked + [pc.link]), Some(true))
  {
    hide DbOk, CancelCommit, Writable, InRange;
    CancelEffect(w.db, pc, env.answer(w.asked), now, env.p);
    CancelIsWritable(w.db, pc, env.answer(w.asked), now);
  }

  lemma {:induction false} ServedIsDelivered<H>(env: Env<H>, w: Plant<H>, es: seq<PaymentEvent>)
    requires DbOk(w.db, env.p) && Writable(w.db) && forall e | e in es :: Fits(env.p, e)
    ensures ServeAll(env, w, es) == DeliverAll(env, w, es)
    ensures DbOk(ServeAll(env, w, es).db, env.p) && Writable(ServeAll(env, w, es).db)
  {
    hide Serve, Deliver, DbOk, Writable, Fits;
    if es != [] {
      var rest, last := es[..|es| - 1], es[|es| - 1];
      assert last in es && forall e | e in rest :: e in es;
      ServedIsDelivered(env, w, rest);
      FittingIsServed(env, ServeAll(env, w, rest), last);
    }
  }

  // Exactly once: with events that fit, any deliveries with any repeats leave store, health window and provider as the
  // first occurrences alone do.
  lemma ServedExactlyOnce<H>(env: Env<H>, w: Plant<H>, es: seq<PaymentEvent>)
    requires DbOk(w.db, env.p) && Writable(w.db) && forall e | e in es :: Fits(env.p, e)
    ensures ServeAll(env, w, es) == ServeAll(env, w, FirstOccurrences(es, w.db.claimed))
  {
    hide Serve, Deliver, DbOk, Writable, Fits;
    FirstsAreDelivered(es, w.db.claimed);
    ServedIsDelivered(env, w, es);
    ServedIsDelivered(env, w, FirstOccurrences(es, w.db.claimed));
    ExactlyOnce(env, w, es);
  }

  lemma {:induction false} FirstsAreDelivered(es: seq<PaymentEvent>, claimed: set<EventId>)
    ensures forall e | e in FirstOccurrences(es, claimed) :: e in es
  {
    if es != [] {
      FirstsAreDelivered(es[..|es| - 1], claimed);
    }
  }

  lemma {:induction false} RecordedIsServed<H>(env: Env<H>, ws: seq<Plant<H>>, es: seq<PaymentEvent>,
                                               told: seq<Option<bool>>)
    requires |ws| == |es| + 1 && |told| == |es|
    requires forall i | 0 <= i < |es| :: (ws[i + 1], told[i]) == Serve(env, ws[i], es[i])
    ensures ws[|es|] == ServeAll(env, ws[0], es)
  {
    hide Serve;
    if es != [] {
      var n := |es| - 1;
      RecordedIsServed(env, ws[..n + 1], es[..n], told[..n]);
      assert ws[n + 1] == Serve(env, ws[n], es[n]).0;
    }
  }

  // Deliveries made one after another, each from what the one before left: what they come to, and what each caller is
  // told, is that every event happened once, on its first delivery.
  lemma DeliveriesInTurn<H>(env: Env<H>, ws: seq<Plant<H>>, es: seq<PaymentEvent>, told: seq<Option<bool>>)
    requires |ws| == |es| + 1 && |told| == |es|
    requires forall i | 0 <= i < |es| :: (ws[i + 1], told[i]) == Serve(env, ws[i], es[i])
    requires DbOk(ws[0].db, env.p) && Writable(ws[0].db) && forall e | e in es :: Fits(env.p, e)
    ensures ws[|es|] == DeliverAll(env, ws[0], FirstOccurrences(es, ws[0].db.claimed))
    ensures forall i | 0 <= i < |es| :: told[i] == Some(es[i].id !in ws[0].db.claimed + Ids(es[..i]))
  {
    hide Serve, Deliver, DbOk, Writable, Fits;
    RecordedIsServed(env, ws, es, told);
    ServedIsDelivered(env, ws[0], es);
    ExactlyOnce(env, ws[0], es);
    forall i | 0 <= i < |es| ensures told[i] == Some(es[i].id !in ws[0].db.claimed + Ids(es[..i])) {
      assert forall e | e in es[..i] :: e in es;
      assert es[i] in es;
      RecordedIsServed(env, ws[..i + 1], es[..i], told[..i]);
      ServedIsDelivered(env, ws[0], es[..i]);
      AllClaimed(env, ws[0], es[..i]);
      FittingIsServed(env, ws[i], es[i]);
      assert (ws[i + 1], told[i]) == Serve(env, ws[i], es[i]);
    }
  }

  // What is tried is tried unclaimed.
  lemma {:induction false} TriedUnclaimed<H>(env: Env<H>, w: Plant<H>, es: seq<PaymentEvent>, j: nat)
    requires j < |Tried(env, w, es)|
    ensures var tried := Tried(env, w, es);
      tried[j].id !in ServeAll(env, w, tried[..j]).db.claimed && InRange(tried[j].at)
  {
    hide Serve, InRange;
    var rest, last := es[..|es| - 1], es[|es| - 1];
    var before := Tried(env, w, rest);
    if j < |before| {
      TriedUnclaimed(env, w, rest, j);
      assert Tried(env, w, es)[..j] == before[..j];
    } else {
      OnlyTriesMatter(env, w, rest);
      assert Tried(env, w, es)[..j] == before;
    }
  }
}
