// Exactly-once delivery: redelivered webhooks change nothing at all (app/service.py:112-131, app/store.py:286-336).
module Delivery {
  import opened Models
  import opened Engine
  import opened Effects

  // Everything a webhook can touch: the store, the health window and the log of provider cancels.
  datatype Plant<H> = Plant(db: Db, health: H, asked: seq<LinkId>)

  // The world around ingest: what an event does to the health window and which verdict it then reads, and what the
  // provider answers after the calls made so far.
  datatype Env<!H> = Env(p: Settings, observe: (H, Db, PaymentEvent) -> (H, bool),
                         answer: seq<LinkId> -> Answer<LinkStatus>)

  function Deliver<H>(env: Env<H>, w: Plant<H>, e: PaymentEvent): Plant<H> {
    if e.id in w.db.claimed then w
    else
      var (health, degraded) := env.observe(w.health, w.db, e);
      var r := Ingest(w.db, e, degraded, env.p);
      if r.Err? then w.(health := health)
      else
        var (db, pending) := r.value;
        if pending.None? then Plant(db, health, w.asked)
        else
          var cancelled := CancelCommit(db, pending.value, env.answer(w.asked), e.at);
          Plant(if cancelled.Ok? then cancelled.value else db, health, w.asked + [pending.value.link])
  }

  lemma DeliveryObserves<H>(env: Env<H>, w: Plant<H>, e: PaymentEvent)
    ensures Deliver(env, w, e).health ==
      if e.id in w.db.claimed then w.health else env.observe(w.health, w.db, e).0
  {
    hide Ingest, CancelCommit;
  }

  function DeliverAll<H>(env: Env<H>, w: Plant<H>, es: seq<PaymentEvent>): Plant<H> {
    if es == [] then w else Deliver(env, DeliverAll(env, w, es[..|es| - 1]), es[|es| - 1])
  }

  function Ids(es: seq<PaymentEvent>): set<EventId> {
    set e | e in es :: e.id
  }

  // The first delivery of each event id not claimed before.
  function FirstOccurrences(es: seq<PaymentEvent>, claimed: set<EventId>): seq<PaymentEvent> {
    if es == [] then []
    else
      var rest, last := es[..|es| - 1], es[|es| - 1];
      FirstOccurrences(rest, claimed) + if last.id in claimed + Ids(rest) then [] else [last]
  }

  lemma IdsStep(es: seq<PaymentEvent>)
    requires es != []
    ensures Ids(es) == Ids(es[..|es| - 1]) + {es[|es| - 1].id}
  {
    assert forall e :: e in es <==> e in es[..|es| - 1] || e == es[|es| - 1];
  }

  lemma CancelKeepsClaims(db: Db, pc: PendingCancel, answer: Answer<LinkStatus>, now: Time)
    ensures CancelCommit(db, pc, answer, now).Ok? ==> CancelCommit(db, pc, answer, now).value.claimed == db.claimed
  {
    hide AfterCancel;
  }

  // A delivery claims its id and keeps the rows well formed.
  lemma DeliverClaims<H>(env: Env<H>, w: Plant<H>, e: PaymentEvent)
    requires DbOk(w.db, env.p)
    ensures var w' := Deliver(env, w, e);
      DbOk(w'.db, env.p) && w'.db.claimed == w.db.claimed + {e.id}
  {
    hide DbOk, Ingest, CancelCommit;
    if e.id !in w.db.claimed {
      var degraded := env.observe(w.health, w.db, e).1;
      IngestIsTotal(w.db, e, degraded, env.p);
      PendingShape(w.db, e, degraded, env.p);
      var (db, pending) := Ingest(w.db, e, degraded, env.p).value;
      if pending.Some? {
        CancelEffect(db, pending.value, env.answer(w.asked), e.at, env.p);
        CancelKeepsClaims(db, pending.value, env.answer(w.asked), e.at);
      }
    } else {
      assert w.db.claimed + {e.id} == w.db.claimed;
    }
  }

  lemma {:induction false} AllClaimed<H>(env: Env<H>, w: Plant<H>, es: seq<PaymentEvent>)
    requires DbOk(w.db, env.p)
    ensures DbOk(DeliverAll(env, w, es).db, env.p) && DeliverAll(env, w, es).db.claimed == w.db.claimed + Ids(es)
  {
    hide Deliver, DbOk;
    if es == [] {
      assert Ids(es) == {};
    } else {
      AllClaimed(env, w, es[..|es| - 1]);
      DeliverClaims(env, DeliverAll(env, w, es[..|es| - 1]), es[|es| - 1]);
      IdsStep(es);
    }
  }

  // Any list of deliveries, with any repeats, leaves the store, the health window and the provider log exactly as
  // the first occurrences alone do.
  lemma {:induction false} ExactlyOnce<H>(env: Env<H>, w: Plant<H>, es: seq<PaymentEvent>)
    requires DbOk(w.db, env.p)
    ensures DeliverAll(env, w, es) == DeliverAll(env, w, FirstOccurrences(es, w.db.claimed))
  {
    if es != [] {
      var rest, last := es[..|es| - 1], es[|es| - 1];
      ExactlyOnce(env, w, rest);
      AllClaimed(env, w, rest);
      var firsts := FirstOccurrences(rest, w.db.claimed);
      if last.id in w.db.claimed + Ids(rest) {
        assert firsts + [] == firsts;
      } else {
        assert (firsts + [last])[..|firsts|] == firsts;
        hide Deliver;
      }
    }
  }

  // The first occurrences are what they are called: each unclaimed id delivered appears among them exactly once.
  lemma {:induction false} FirstsAreFirst(es: seq<PaymentEvent>, claimed: set<EventId>)
    ensures Ids(FirstOccurrences(es, claimed)) == Ids(es) - claimed
    ensures var firsts := FirstOccurrences(es, claimed);
      forall i, j | 0 <= i < j < |firsts| :: firsts[i].id != firsts[j].id
  {
    if es != [] {
      var rest, last := es[..|es| - 1], es[|es| - 1];
      FirstsAreFirst(rest, claimed);
      IdsStep(es);
      var firsts := FirstOccurrences(rest, claimed);
      if last.id in claimed + Ids(rest) {
        assert firsts + [] == firsts;
      } else {
        IdsStep(firsts + [last]);
        assert (firsts + [last])[..|firsts|] == firsts;
        assert forall e | e in firsts :: e.id in Ids(firsts);
      }
    }
  }
}
