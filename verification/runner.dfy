// The simulation loop (app/sim/runner.py:85-175): a priority queue of wake-ups over the world, for any policy.
module Runner {
  import opened Base
  import opened Models
  import opened Runs
  import Stamps
  import opened Windows
  import opened WorldModel
  import opened World

  // ----------------------------------------------------------- issuer health

  function EventsOf(events: map<string, seq<Obs>>, issuer: string): seq<Obs> {
    if issuer in events then events[issuer] else []
  }

  ghost predicate AllFaithful(events: map<string, seq<Obs>>, history: seq<Record<string>>, floor: Time) {
    forall issuer :: Agrees(EventsOf(events, issuer), history, issuer, floor)
  }

  ghost predicate AllBefore(events: map<string, seq<Obs>>, clock: Time) {
    forall issuer | issuer in events :: NoneAfter(events[issuer], clock)
  }

  lemma RecordedFaithfully(events: map<string, seq<Obs>>, history: seq<Record<string>>, floor: Time, issuer: string,
                           o: Obs)
    requires AllFaithful(events, history, floor) && AllBefore(events, o.at)
    ensures AllFaithful(events[issuer := EventsOf(events, issuer) + [o]], history + [Record(issuer, o)], floor)
    ensures AllBefore(events[issuer := EventsOf(events, issuer) + [o]], o.at)
  {
    var events' := events[issuer := EventsOf(events, issuer) + [o]];
    forall i ensures Agrees(EventsOf(events', i), history + [Record(issuer, o)], i, floor) {
      assert Agrees(EventsOf(events, i), history, i, floor);
      if i == issuer {
        AppendAgrees(EventsOf(events, issuer), history, issuer, floor, o);
      } else {
        OtherAgrees(EventsOf(events, i), history, i, floor, Record(issuer, o));
      }
    }
  }

  lemma TrimmedFaithfully(events: map<string, seq<Obs>>, history: seq<Record<string>>, floor: Time, issuer: string,
                          cutoff: Time)
    requires AllFaithful(events, history, floor) && floor <= cutoff && issuer in events
    ensures AllFaithful(events[issuer := Trimmed(events[issuer], cutoff)], history, cutoff)
    ensures |Trimmed(events[issuer], cutoff)| == Recount(history, issuer, cutoff, false)
    ensures Flagged(Trimmed(events[issuer], cutoff)) == Recount(history, issuer, cutoff, true)
  {
    assert Agrees(EventsOf(events, issuer), history, issuer, floor);
    TrimAgrees(events[issuer], history, issuer, floor, cutoff);
    var events' := events[issuer := Trimmed(events[issuer], cutoff)];
    forall i ensures Agrees(EventsOf(events', i), history, i, cutoff) {
      assert Agrees(EventsOf(events, i), history, i, floor);
      WeakerFloor(EventsOf(events, i), history, i, floor, cutoff);
    }
  }

  lemma NothingRecorded(history: seq<Record<string>>, events: map<string, seq<Obs>>, floor: Time, issuer: string,
                        cutoff: Time)
    requires AllFaithful(events, history, floor) && floor <= cutoff && EventsOf(events, issuer) == []
    ensures Recount(history, issuer, cutoff, false) == 0
  {
    assert Agrees([], history, issuer, floor);
    assert CountSince([], cutoff, false) == Recount(history, issuer, cutoff, false);
  }

  // Observable health, from the attempts the policy itself made.
  class IssuerHealth {
    var events: map<string, seq<Obs>>                  // flag: the attempt failed
    ghost var history: seq<Record<string>>             // every attempt ever recorded
    ghost var clock: Time                              // the latest instant seen

    ghost predicate Faithful()
      reads this
    {
      AllFaithful(events, history, clock - HEALTH_WINDOW) && AllBefore(events, clock)
    }

    constructor (ghost start: Time)
      ensures Faithful() && history == [] && clock == start
    {
      events, history, clock := map[], [], start;
    }

    method Note(issuer: string, at: Time, failed: bool)
      modifies this
      ensures history == old(history) + [Record(issuer, Obs(at, failed))]
      ensures old(Faithful()) && old(clock) <= at ==> Faithful() && clock == at
    {
      hide AllFaithful, AllBefore;
      ghost var was, past, floor := events, history, clock - HEALTH_WINDOW;
      events := events[issuer := (if issuer in events then events[issuer] else []) + [Obs(at, failed)]];
      history := history + [Record(issuer, Obs(at, failed))];
      if old(Faithful()) && old(clock) <= at {
        LaterClock(was, clock, at);
        RecordedFaithfully(was, past, floor, issuer, Obs(at, failed));
        LaterFloor(events, history, floor, at - HEALTH_WINDOW);
        clock := at;
      }
    }

    lemma LaterClock(events: map<string, seq<Obs>>, clock: Time, later: Time)
      requires AllBefore(events, clock) && clock <= later
      ensures AllBefore(events, later)
    {
    }

    lemma LaterFloor(events: map<string, seq<Obs>>, history: seq<Record<string>>, floor: Time, later: Time)
      requires AllFaithful(events, history, floor) && floor <= later
      ensures AllFaithful(events, history, later)
    {
      forall i ensures Agrees(EventsOf(events, i), history, i, later) {
        WeakerFloor(EventsOf(events, i), history, i, floor, later);
      }
    }

    // The rate over the trimmed deque; on time-ordered calls it equals a recount of the last hour.
    method FailureRate(issuer: string, now: Time) returns (rate: real)
      modifies this`events, this`clock
      ensures old(Faithful()) && old(clock) <= now ==>
        Faithful() && clock == now && rate == NaiveRate(history, issuer, now)
    {
      hide AllFaithful, AllBefore, Recount;
      ghost var orderly, floor, was := Faithful() && clock <= now, clock - HEALTH_WINDOW, events;
      if orderly {
        LaterClock(events, clock, now);
        LaterFloor(events, history, floor, now - HEALTH_WINDOW);
        clock := now;
      }
      if issuer !in events || events[issuer] == [] {
        if orderly {
          NothingRecorded(history, was, floor, issuer, now - HEALTH_WINDOW);
        }
        return 0.0;
      }
      if orderly {
        TrimmedFaithfully(was, history, floor, issuer, now - HEALTH_WINDOW);
        TrimmedBefore(was, issuer, now - HEALTH_WINDOW, now);
      }
      var w := TrimTo(events[issuer], now - HEALTH_WINDOW);
      events := events[issuer := w];
      if |w| < HEALTH_MIN_SAMPLES {
        return 0.0;
      }
      var failed := CountFailed(w);
      rate := failed as real / |w| as real;
    }

    lemma TrimmedBefore(events: map<string, seq<Obs>>, issuer: string, cutoff: Time, now: Time)
      requires AllBefore(events, now) && issuer in events
      ensures AllBefore(events[issuer := Trimmed(events[issuer], cutoff)], now)
    {
      TrimmedNoneAfter(events[issuer], cutoff, now);
    }

    method TrimTo(events: seq<Obs>, cutoff: Time) returns (w: seq<Obs>)
      ensures w == Trimmed(events, cutoff)
    {
      w := events;
      while w != [] && w[0].at < cutoff
        invariant Trimmed(w, cutoff) == Trimmed(events, cutoff)
        decreases |w|
      {
        w := w[1..];
      }
    }

    method CountFailed(w: seq<Obs>) returns (failed: nat)
      ensures failed == Flagged(w)
    {
      failed := 0;
      for i := 0 to |w|
        invariant failed == Flagged(w[..i])
      {
        assert w[..i + 1][..i] == w[..i];
        if w[i].flag {
          failed := failed + 1;
        }
      }
      assert w[..|w|] == w;
    }
  }

  // ------------------------------------------------------------- wake queue

  // Minutes of work an entry may still stand for.
  function Work(e: Entry, horizon: Time): nat {
    if e.at > horizon then 1 else (horizon - e.at) / MINUTE + 1
  }

  function TotalWork(queue: seq<Entry>, horizon: Time): nat {
    if queue == [] then 0 else Work(queue[0], horizon) + TotalWork(queue[1..], horizon)
  }

  lemma {:induction false} WorkSplits(a: seq<Entry>, b: seq<Entry>, horizon: Time)
    ensures TotalWork(a + b, horizon) == TotalWork(a, horizon) + TotalWork(b, horizon)
  {
    if a == [] {
      assert a + b == b;
    } else {
      WorkSplits(a[1..], b, horizon);
      assert (a + b)[1..] == a[1..] + b;
    }
  }

  function Dropped(queue: seq<Entry>, i: nat): seq<Entry>
    requires i < |queue|
  {
    queue[..i] + queue[i + 1..]
  }

  lemma DroppedFacts(queue: seq<Entry>, i: nat, horizon: Time)
    requires i < |queue|
    ensures multiset(Dropped(queue, i)) == multiset(queue) - multiset{queue[i]}
    ensures TotalWork(queue, horizon) == TotalWork(Dropped(queue, i), horizon) + Work(queue[i], horizon)
  {
    assert queue == queue[..i] + ([queue[i]] + queue[i + 1..]);
    WorkSplits(queue[..i], [queue[i]] + queue[i + 1..], horizon);
    WorkSplits([queue[i]], queue[i + 1..], horizon);
    WorkSplits(queue[..i], queue[i + 1..], horizon);
    hide Work;
  }

  // A later wake-up within the horizon stands for less work.
  lemma LaterIsLess(e: Entry, next: Entry, horizon: Time)
    requires e.at + MINUTE <= next.at <= horizon
    ensures Work(next, horizon) < Work(e, horizon)
  {
  }

  lemma SoonerIsTransitive(a: Entry, b: Entry, c: Entry)
    requires Sooner(a, b) && Sooner(b, c)
    ensures Sooner(a, c)
  {
    if a.at == b.at == c.at {
      Stamps.TextIsTransitive(a.id, b.id, c.id);
    }
  }

  // heappop: the least entry of the queue.
  method PopLeast(queue: seq<Entry>) returns (i: nat)
    requires queue != []
    ensures i < |queue| && forall e | e in queue :: !Sooner(e, queue[i])
  {
    hide Sooner;
    i := 0;
    NotBefore(queue[0]);
    for j := 1 to |queue|
      invariant i < |queue| && forall k | 0 <= k < j :: !Sooner(queue[k], queue[i])
    {
      if Sooner(queue[j], queue[i]) {
        forall k | 0 <= k < j ensures !Sooner(queue[k], queue[j]) {
          if Sooner(queue[k], queue[j]) {
            SoonerIsTransitive(queue[k], queue[j], queue[i]);
          }
        }
        i := j;
        NotBefore(queue[i]);
      }
    }
  }

  lemma NotBefore(e: Entry)
    ensures !Sooner(e, e)
  {
    Stamps.NotBelowItself(e.id);
  }

  // -------------------------------------------------------------- the loop

  ghost function Views(world: World): map<PaymentId, Latent>
    reads world, world.latents.Values
  {
    map id | id in world.latents :: world.latents[id].View()
  }

  ghost function AllFacts(world: World): map<PaymentId, Facts> {
    map id | id in world.latents :: world.FactsOf(id)
  }

  // What a run over this world, from here, depends on.
  ghost function SetupOf(world: World, policy: Policy): Setup
    reads world, world.latents.Values
  {
    Setup(world.config, policy, world.Stream(), Views(world), AllFacts(world))
  }

  // The world, the issuer health and the policy's memory are what the trace so far makes them.
  ghost predicate InStep(s: Setup, past: seq<Turn>, views: map<PaymentId, Latent>, rest: Draws,
                         history: seq<Record<string>>, told: seq<Told>) {
    && views.Keys == s.was.Keys == s.facts.Keys
    && (forall id | id in s.was :: views[id] == Now(s, past, id))
    && rest == DrawsAfter(s, past) && history == Attempts(past) && told == Memory(past)
  }

  lemma InStepAtFirst(s: Setup)
    requires s.was.Keys == s.facts.Keys
    ensures InStep(s, [], s.was, s.start, [], [])
  {
  }

  lemma StaysInStep(s: Setup, past: seq<Turn>, views: map<PaymentId, Latent>, rest: Draws,
                    history: seq<Record<string>>, told: seq<Told>, w: Turn)
    requires InStep(s, past, views, rest, history, told) && w.entry.id in s.was
    ensures w.Skipped? ==> InStep(s, past + [w], views, rest, history, told)
    ensures w.Acted? ==>
      InStep(s, past + [w],
             views[w.entry.id := Apply(s.cfg, w.draws, views[w.entry.id], w.decision.action, w.entry.at).0], w.rest,
             history + NewAttempt(w), told + [Told(w.seen, w.outcome)])
  {
    hide Apply, Now, Attempts, Memory, DrawsAfter;
    OneMore(s, past, w);
    hide Pending;
    ViewsMove(s, past, views, w);
    assert w.Skipped? ==> history + [] == history && told + [] == told;
  }

  lemma ViewsMove(s: Setup, past: seq<Turn>, views: map<PaymentId, Latent>, w: Turn)
    requires w.entry.id in s.was && views.Keys == s.was.Keys && forall id | id in s.was :: views[id] == Now(s, past, id)
    ensures forall id | id in s.was ::
      Now(s, past + [w], id) ==
        if w.Acted? && w.entry.id == id then Apply(s.cfg, w.draws, views[id], w.decision.action, w.entry.at).0
        else views[id]
  {
    hide Apply, Now;
    forall id | id in s.was {
      NowOneMore(s, past, w, id);
    }
  }

  function NewAttempt(w: Turn): seq<Record<string>>
    requires w.Acted?
  {
    if w.decision.action.Retry? then [Record(w.seen.issuer, Obs(w.entry.at, w.outcome != Recovered))] else []
  }

  // One wake-up: show the policy the issuer's recent failure rate, act on its decision, tell it the outcome, and say
  // when to wake next.
  method TakeTurn(world: World, health: IssuerHealth, e: Entry, policy: Policy, told: seq<Told>, ghost s: Setup,
                  ghost past: seq<Turn>)
    returns (next: Option<Entry>, told': seq<Told>, ghost w: Turn)
    requires world.Valid() && e.id in world.latents
    requires health.Faithful() && health.clock <= e.at
    requires s.cfg == world.config && s.policy == policy && e.id in s.facts && s.facts[e.id] == world.FactsOf(e.id)
    requires InStep(s, past, Views(world), world.Stream(), health.history, told)
    modifies world`used, world.latents[e.id], health
    ensures health.Faithful() && health.clock <= e.at
    ensures w.entry == e && e.id in s.was
    ensures w.Skipped? <==> e.at > s.cfg.horizon || Now(s, past, e.id).resolved
    ensures w.Acted? ==> Handled(s, past, w)
    ensures next == if w.Acted? then w.next else None
    ensures world.latents[e.id].View() ==
      if w.Acted? then Apply(s.cfg, w.draws, old(world.latents[e.id].View()), w.decision.action, e.at).0
      else old(world.latents[e.id].View())
    ensures world.Stream() == if w.Acted? then w.rest else old(world.Stream())
    ensures health.history == old(health.history) + if w.Acted? then NewAttempt(w) else []
    ensures told' == told + if w.Acted? then [Told(w.seen, w.outcome)] else []
  {
    hide WorldModel.Apply, NaiveRate, AllFaithful, AllBefore, Now, Attempts, Memory, DrawsAfter, Seen;
    next, told', w := None, told, Skipped(e);
    var horizon := world.config.horizon;
    assert e.id in Views(world) && Now(s, past, e.id) == world.latents[e.id].View();
    if e.at > horizon {
      return;
    }
    var done := world.IsResolved(e.id);
    if done {
      return;
    }
    var glance := world.Observe(e.id, e.at, 0.0);
    SeenIssuer(e.id, s.facts[e.id], world.latents[e.id].View(), e.at, 0.0);
    var rate := health.FailureRate(glance.issuer, e.at);
    var observation := world.Observe(e.id, e.at, rate);
    SeenIssuer(e.id, s.facts[e.id], world.latents[e.id].View(), e.at, rate);
    var decision := policy(told, observation);
    ghost var d, before := world.Stream(), world.latents[e.id].View();
    var outcome := world.Apply(e.id, decision.action, e.at);
    ghost var after := Apply(world.config, d, before, decision.action, e.at);
    assert (world.latents[e.id].View(), world.Stream(), outcome) == after;
    told' := told + [Told(observation, outcome)];
    if decision.action.Retry? {
      health.Note(observation.issuer, e.at, outcome != Recovered);
    }
    w := Acted(e, observation, decision, d, outcome, after.1, Rewake(world.config, e, decision, after.0));
    done := world.IsResolved(e.id);
    if decision.action.Abandon? || done {
      return;
    }
    var wake := e.at + Base.Max(1, decision.wakeAfterMinutes) * MINUTE;
    if wake <= horizon {
      next := Some(Entry(wake, e.id));
    }
  }

  lemma SeenIssuer(id: PaymentId, facts: Facts, l: Latent, now: Time, rate: real)
    ensures Seen(id, facts, l, now, rate).issuer == facts.issuer
  {
  }

  method InitialQueue(world: World) returns (queue: seq<Entry>)
    requires world.Valid()
    ensures multiset(queue) == multiset(FirstEntries(Views(world)))
  {
    queue := [];
    for i := 0 to |world.ids|
      invariant |queue| == i
      invariant forall j | 0 <= j < i ::
        && queue[j].id == world.ids[j] && queue[j].id in world.latents
        && queue[j].at == world.latents[queue[j].id].failedAt
    {
      assert world.ids[i] in world.ids;
      queue := queue + [Entry(world.latents[world.ids[i]].failedAt, world.ids[i])];
    }
    QueueIsFirst(Views(world), world.ids, queue);
  }

  lemma QueueIsFirst(was: map<PaymentId, Latent>, ids: seq<PaymentId>, queue: seq<Entry>)
    requires (forall i, j | 0 <= i < j < |ids| :: ids[i] != ids[j]) && forall id :: id in ids <==> id in was
    requires |queue| == |ids|
    requires forall i | 0 <= i < |ids| :: ids[i] in was && queue[i] == Entry(was[ids[i]].failedAt, ids[i])
    ensures multiset(queue) == multiset(FirstEntries(was))
  {
    forall e ensures e in queue <==> e in FirstEntries(was) {
      if e in FirstEntries(was) {
        assert e.id in ids;
        var j :| 0 <= j < |ids| && ids[j] == e.id;
        assert queue[j] == e;
      }
    }
    Distinct(queue, FirstEntries(was));
  }

  lemma {:induction false} Distinct(queue: seq<Entry>, entries: set<Entry>)
    requires forall i, j | 0 <= i < j < |queue| :: queue[i].id != queue[j].id
    requires forall e :: e in queue <==> e in entries
    ensures multiset(queue) == multiset(entries)
  {
    if queue != [] {
      var init, last := queue[..|queue| - 1], queue[|queue| - 1];
      assert queue == init + [last];
      Distinct(init, entries - {last});
      assert last in entries;
    }
  }

  // What popping the least entry and pushing the next wake-up makes of the queue.
  lemma QueueFollows(s: Setup, past: seq<Turn>, queue: seq<Entry>, i: nat, w: Turn)
    requires IsRun(s, past) && multiset(queue) == Pending(s, past) && i < |queue| && w.entry == queue[i]
    requires Follows(s, past, w)
    ensures var queue' := Dropped(queue, i) + if w.Acted? && w.next.Some? then [w.next.value] else [];
      && multiset(queue') == Pending(s, past + [w])
      && (forall e | e in queue' :: queue[i].at <= e.at)
      && TotalWork(queue', s.cfg.horizon) < TotalWork(queue, s.cfg.horizon)
  {
    var pushed := if w.Acted? && w.next.Some? then [w.next.value] else [];
    DroppedFacts(queue, i, s.cfg.horizon);
    OneMore(s, past, w);
    StepInOrder(s, past, w);
    WorkSplits(Dropped(queue, i), pushed, s.cfg.horizon);
    PushedIsLess(s, past, w);
    hide Follows, Pending, Work, IsRun;
    assert multiset(pushed) == Pushed(w);
    assert TotalWork(pushed, s.cfg.horizon) < Work(queue[i], s.cfg.horizon);
    assert forall e | e in Dropped(queue, i) + pushed :: e in multiset(Dropped(queue, i) + pushed);
  }

  lemma PushedIsLess(s: Setup, past: seq<Turn>, w: Turn)
    requires Follows(s, past, w)
    ensures TotalWork(if w.Acted? && w.next.Some? then [w.next.value] else [], s.cfg.horizon) <
      Work(w.entry, s.cfg.horizon)
  {
    if w.Acted? && w.next.Some? {
      LaterWake(s, past, w);
      hide Follows;
      assert TotalWork([w.next.value], s.cfg.horizon) == Work(w.next.value, s.cfg.horizon);
      LaterIsLess(w.entry, w.next.value, s.cfg.horizon);
    }
    hide Follows;
  }

  lemma {:induction false} NoneEarlier(queue: seq<Entry>) returns (t: Time)
    ensures forall e | e in queue :: t <= e.at
  {
    if queue == [] {
      t := 0;
    } else {
      var rest := NoneEarlier(queue[1..]);
      t := if queue[0].at < rest then queue[0].at else rest;
      assert forall e | e in queue :: e == queue[0] || e in queue[1..];
    }
  }

  lemma Begins(s: Setup, queue: seq<Entry>)
    requires s.was.Keys == s.facts.Keys && multiset(queue) == multiset(FirstEntries(s.was))
    ensures Running(s, [], queue, s.was, s.start, [], [])
  {
    InStepAtFirst(s);
  }

  lemma EntryIsKnown(s: Setup, trace: seq<Turn>, queue: seq<Entry>, i: nat, views: map<PaymentId, Latent>, rest: Draws,
                     history: seq<Record<string>>, told: seq<Told>)
    requires Running(s, trace, queue, views, rest, history, told) && i < |queue|
    ensures queue[i].id in s.was && queue[i].id in s.facts && queue[i].id in views
    ensures InStep(s, trace, views, rest, history, told)
  {
    WaitsOnce(s, trace);
    hide Pending, IsRun, Now;
    assert queue[i] in multiset(queue);
  }

  lemma TurnFollows(s: Setup, trace: seq<Turn>, queue: seq<Entry>, i: nat, w: Turn)
    requires multiset(queue) == Pending(s, trace) && i < |queue| && w.entry == queue[i]
    requires w.entry.id in s.was && w.entry.id in s.facts
    requires forall e | e in queue :: !Sooner(e, queue[i])
    requires w.Skipped? <==> w.entry.at > s.cfg.horizon || Now(s, trace, w.entry.id).resolved
    requires w.Acted? ==> Handled(s, trace, w)
    ensures Follows(s, trace, w)
  {
    hide Handled, Pending, Now, Sooner;
    forall e | e in Pending(s, trace) ensures e in queue {
      assert e in multiset(queue);
    }
    assert queue[i] in multiset(queue);
  }

  // Acting on one payment changes its view alone.
  lemma Elsewhere(world: World, was: map<PaymentId, Latent>, id: PaymentId)
    requires was.Keys == world.latents.Keys && id in world.latents
    requires forall k | k in world.latents && k != id :: world.latents[k].View() == was[k]
    ensures Views(world) == was[id := world.latents[id].View()]
  {
  }

  lemma Ends(s: Setup, trace: seq<Turn>, views: map<PaymentId, Latent>, rest: Draws, history: seq<Record<string>>,
             told: seq<Told>)
    requires Running(s, trace, [], views, rest, history, told)
    ensures Finished(s, trace) && rest == DrawsAfter(s, trace)
    ensures views.Keys == s.was.Keys && forall id | id in s.was :: views[id] == Now(s, trace, id)
  {
    hide IsRun, Now;
  }

  // The loop between wake-ups.
  ghost predicate Running(s: Setup, trace: seq<Turn>, queue: seq<Entry>, views: map<PaymentId, Latent>, rest: Draws,
                          history: seq<Record<string>>, told: seq<Told>) {
    IsRun(s, trace) && multiset(queue) == Pending(s, trace) && InStep(s, trace, views, rest, history, told)
  }

  // One pass of the loop, over the least entry.
  lemma KeepsRunning(s: Setup, trace: seq<Turn>, queue: seq<Entry>, i: nat, views: map<PaymentId, Latent>, rest: Draws,
                     history: seq<Record<string>>, told: seq<Told>, w: Turn, now: Latent)
    requires Running(s, trace, queue, views, rest, history, told)
    requires i < |queue| && w.entry == queue[i] && forall e | e in queue :: !Sooner(e, queue[i])
    requires w.entry.id in s.was && w.entry.id in s.facts && w.entry.id in views
    requires w.Skipped? <==> w.entry.at > s.cfg.horizon || Now(s, trace, w.entry.id).resolved
    requires w.Acted? ==> Handled(s, trace, w)
    requires now == if w.Acted? then Apply(s.cfg, w.draws, views[w.entry.id], w.decision.action, w.entry.at).0
                    else views[w.entry.id]
    ensures var queue' := Dropped(queue, i) + if w.Acted? && w.next.Some? then [w.next.value] else [];
      && Running(s, trace + [w], queue', views[w.entry.id := now], if w.Acted? then w.rest else rest,
                 history + (if w.Acted? then NewAttempt(w) else []),
                 told + (if w.Acted? then [Told(w.seen, w.outcome)] else []))
      && (forall e | e in queue' :: queue[i].at <= e.at)
      && TotalWork(queue', s.cfg.horizon) < TotalWork(queue, s.cfg.horizon)
  {
    hide InStep, Follows, Handled, Now, IsRun, Pending, TotalWork, Apply, Sooner, NewAttempt, Dropped;
    TurnFollows(s, trace, queue, i, w);
    QueueFollows(s, trace, queue, i, w);
    RunStep(s, trace, w);
    StaysInStep(s, trace, views, rest, history, told, w);
    if w.Skipped? {
      assert views[w.entry.id := now] == views && history + [] == history && told + [] == told;
    }
  }

  // One pass of the loop.
  method Pass(world: World, health: IssuerHealth, queue: seq<Entry>, policy: Policy, told: seq<Told>, ghost s: Setup,
              ghost trace: seq<Turn>)
    returns (queue': seq<Entry>, told': seq<Told>, ghost w: Turn)
    requires world.Valid() && queue != [] && s.cfg == world.config && s.policy == policy
    requires s.facts == AllFacts(world)
    requires health.Faithful() && forall e | e in queue :: health.clock <= e.at
    requires Running(s, trace, queue, Views(world), world.Stream(), health.history, told)
    modifies world`used, world.latents.Values, health
    ensures health.Faithful() && forall e | e in queue' :: health.clock <= e.at
    ensures Running(s, trace + [w], queue', Views(world), world.Stream(), health.history, told')
    ensures TotalWork(queue', s.cfg.horizon) < TotalWork(queue, s.cfg.horizon)
  {
    hide Running, InStep, AllFaithful, AllBefore, Handled, Now, TotalWork, Apply, Dropped, NewAttempt, Sooner;
    var i := PopLeast(queue);
    ghost var views, draws, history := Views(world), world.Stream(), health.history;
    EntryIsKnown(s, trace, queue, i, views, draws, history, told);
    var next;
    next, told', w := TakeTurn(world, health, queue[i], policy, told, s, trace);
    Elsewhere(world, views, queue[i].id);
    KeepsRunning(s, trace, queue, i, views, draws, history, told, w, world.latents[queue[i].id].View());
    queue' := Dropped(queue, i) + if next.Some? then [next.value] else [];
  }

  // The loop proper.
  method DrainQueue(world: World, policy: Policy) returns (ghost trace: seq<Turn>)
    requires world.Valid()
    modifies world`used, world.latents.Values
    ensures Finished(old(SetupOf(world, policy)), trace)
    ensures Views(world).Keys == old(Views(world)).Keys
    ensures forall id | id in world.latents ::
      world.latents[id].View() == Now(old(SetupOf(world, policy)), trace, id)
    ensures world.Stream() == DrawsAfter(old(SetupOf(world, policy)), trace)
  {
    hide Running, AllFaithful, AllBefore, Now, TotalWork, Finished, FirstEntries;
    ghost var s := SetupOf(world, policy);
    var queue := InitialQueue(world);
    ghost var start := NoneEarlier(queue);
    var health := new IssuerHealth(start);
    trace := [];
    var told: seq<Told> := [];
    Begins(s, queue);
    while queue != []
      invariant health.Faithful() && fresh(health)
      invariant forall e | e in queue :: health.clock <= e.at
      invariant Running(s, trace, queue, Views(world), world.Stream(), health.history, told)
      decreases TotalWork(queue, world.config.horizon)
    {
      ghost var w;
      queue, told, w := Pass(world, health, queue, policy, told, s, trace);
      trace := trace + [w];
    }
    Ends(s, trace, Views(world), world.Stream(), health.history, told);
  }

  // ---------------------------------------------------------------- scoring

  datatype Scorecard = Scorecard(cases: nat, recoveredCases: nat, recoveredPaise: int, cost: int, attempts: nat,
                                 contacts: nat, optOuts: nat)

  // A payment's line in the ledger.
  datatype Line = Line(amount: int, recovered: bool, attempts: nat, contacts: nat, optedOut: bool, cost: int)

  function LineOf(l: Latent, amount: int): Line {
    Line(amount, l.recoveredAt.Some?, l.attempts, l.contacts, l.optedOut, l.cost)
  }

  function Added(card: Scorecard, line: Line): Scorecard {
    Scorecard(card.cases + 1,
              card.recoveredCases + if line.recovered then 1 else 0,
              card.recoveredPaise + if line.recovered then line.amount else 0,
              card.cost + line.cost, card.attempts + line.attempts, card.contacts + line.contacts,
              card.optOuts + if line.optedOut then 1 else 0)
  }

  const BLANK: Scorecard := Scorecard(0, 0, 0, 0, 0, 0, 0)

  function Tally(lines: seq<Line>): Scorecard {
    if lines == [] then BLANK else Added(Tally(lines[..|lines| - 1]), lines[|lines| - 1])
  }

  predicate Balances(card: Scorecard) {
    && card.cost == RETRY_COST * card.attempts + CONTACT_COST * card.contacts
    && card.recoveredCases + card.optOuts <= card.cases
  }

  // The books balance over any set of payments whose own books do: every rupee spent is a retry or a contact, and no
  // payment is both recovered and opted out.
  lemma {:induction false} BooksBalance(lines: seq<Line>)
    requires forall line | line in lines ::
      line.cost == RETRY_COST * line.attempts + CONTACT_COST * line.contacts && !(line.recovered && line.optedOut)
    ensures Tally(lines).cases == |lines| && Balances(Tally(lines))
  {
    if lines != [] {
      assert forall line | line in lines[..|lines| - 1] :: line in lines;
      BooksBalance(lines[..|lines| - 1]);
      assert lines[|lines| - 1] in lines;
    }
  }

  ghost function Lines(world: World): seq<Line>
    requires world.Valid()
    reads world, world.latents.Values
  {
    seq(|world.ids|, i requires 0 <= i < |world.ids| reads world, world.latents.Values =>
      var p := world.latents[world.ids[i]]; LineOf(p.View(), p.amount))
  }

  // _score: one pass over the ledger.
  method Score(world: World) returns (card: Scorecard)
    requires world.Valid()
    ensures card == Tally(Lines(world))
  {
    var recoveredCases: nat, attempts: nat, contacts: nat, optOuts: nat := 0, 0, 0, 0;
    var recoveredPaise, cost := 0, 0;
    for i := 0 to |world.ids|
      invariant Scorecard(i, recoveredCases, recoveredPaise, cost, attempts, contacts,
                          optOuts) == Tally(Lines(world)[..i])
    {
      var p := world.latents[world.ids[i]];
      assert Lines(world)[..i + 1][..i] == Lines(world)[..i];
      attempts, contacts, cost := attempts + p.attempts, contacts + p.contacts, cost + p.cost;
      if p.optedOut {
        optOuts := optOuts + 1;
      }
      if p.recoveredAt.Some? {
        recoveredCases, recoveredPaise := recoveredCases + 1, recoveredPaise + p.amount;
      }
    }
    assert Lines(world)[..|world.ids|] == Lines(world);
    card := Scorecard(|world.ids|, recoveredCases, recoveredPaise, cost, attempts, contacts, optOuts);
  }

  // A run up to the horizon and its score. It ends, because every wake-up pushes less work than was popped. Its trace
  // is the one the world's state, the draws and the policy determine, and each payment ends as its share of that trace
  // and one stretch of the remaining draws make it. Over an untouched world the books balance.
  method Run(world: World, policy: Policy) returns (card: Scorecard, ghost trace: seq<Turn>)
    requires world.Valid()
    modifies world`used, world.latents.Values
    ensures Finished(old(SetupOf(world, policy)), trace)
    ensures forall i | 0 <= i < |world.ids| ::
      world.latents[world.ids[i]].View() ==
        End(old(SetupOf(world, policy)), trace, world.ids[i],
            TailOf(old(SetupOf(world, policy)), trace, world.ids, i))
    ensures card == Tally(Lines(world))
    ensures (forall id | id in world.latents :: Untouched(old(Views(world))[id])) ==> Balances(card)
  {
    hide Finished, WorldModel.SettleToHorizon, Now, SettleAll, NewlyRecovered, Untouched, Balances, End, Tally;
    ghost var s := SetupOf(world, policy);
    trace := DrainQueue(world, policy);
    ghost var roll, draws := world.Roll(), world.Stream();
    assert roll == Reached(s, trace, world.ids);
    var settled := world.SettleToHorizon();
    forall i | 0 <= i < |world.ids|
      ensures world.latents[world.ids[i]].View() == End(s, trace, world.ids[i], TailOf(s, trace, world.ids, i))
    {
      SettledEach(world.config, draws, roll, i);
      assert world.Roll()[i] == world.latents[world.ids[i]].View();
      EndIsSettled(s, trace, world.ids, i);
    }
    card := Score(world);
    if forall id | id in world.latents :: Untouched(s.was[id]) {
      RunBalances(world, s, trace);
    }
  }

  lemma RunBalances(world: World, s: Setup, trace: seq<Turn>)
    requires world.Valid() && s.was.Keys == world.latents.Keys && Finished(s, trace)
    requires forall id | id in world.latents :: Untouched(s.was[id])
    requires forall i | 0 <= i < |world.ids| ::
      world.latents[world.ids[i]].View() == End(s, trace, world.ids[i], TailOf(s, trace, world.ids, i))
    ensures Balances(Tally(Lines(world)))
  {
    hide IsRun, End, TailOf, Untouched, Tally;
    forall line | line in Lines(world)
      ensures line.cost == RETRY_COST * line.attempts + CONTACT_COST * line.contacts
      ensures !(line.recovered && line.optedOut)
    {
      var i :| 0 <= i < |world.ids| && Lines(world)[i] == line;
      RunsBalance(s, trace, world.ids[i], TailOf(s, trace, world.ids, i));
    }
    BooksBalance(Lines(world));
  }
}
