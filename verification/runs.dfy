// Whole runs of the simulation loop (app/sim/runner.py:85-145) as traces: what every wake-up of a run must be, given
// the wake-ups before it, and what follows of any run, whatever its policy.
module Runs {
  import opened Base
  import opened Models
  import Stamps
  import opened Windows
  import opened WorldModel
  import opened WorldTheorems

  const HEALTH_WINDOW: int := 60 * MINUTE
  const HEALTH_MIN_SAMPLES: int := 4

  // The failure rate a recount of every attempt gives.
  function NaiveRate(history: seq<Record<string>>, issuer: string, now: Time): real {
    var n := Recount(history, issuer, now - HEALTH_WINDOW, false);
    if n < HEALTH_MIN_SAMPLES then 0.0
    else Recount(history, issuer, now - HEALTH_WINDOW, true) as real / n as real
  }

  // ------------------------------------------------------------------ traces

  datatype Entry = Entry(at: Time, id: PaymentId)

  // The order the queue is kept in: by time, then by payment.
  predicate Sooner(a: Entry, b: Entry) {
    a.at < b.at || (a.at == b.at && Stamps.TextLess(a.id, b.id))
  }

  datatype Decision = Decision(action: ActionKind, wakeAfterMinutes: int)

  // What a policy has been shown and told: it may decide by all of it.
  datatype Told = Told(seen: Observation, outcome: OutcomeKind)

  type Policy = (seq<Told>, Observation) -> Decision

  // One popped entry: passed over, or shown to the policy and acted on, with the draws before and after.
  datatype Turn =
    | Skipped(entry: Entry)
    | Acted(entry: Entry, seen: Observation, decision: Decision, draws: Draws, outcome: OutcomeKind, rest: Draws,
            next: Option<Entry>)

  datatype Setup = Setup(
    cfg: WorldConfig,
    policy: Policy,
    start: Draws,
    was: map<PaymentId, Latent>,
    facts: map<PaymentId, Facts>)

  // The attempts made so far, as the issuer health is told of them.
  function Attempts(trace: seq<Turn>): seq<Record<string>> {
    if trace == [] then []
    else
      var w := trace[|trace| - 1];
      Attempts(trace[..|trace| - 1])
      + if w.Acted? && w.decision.action.Retry? then
          [Record(w.seen.issuer, Obs(w.entry.at, w.outcome != Recovered))]
        else []
  }

  function Memory(trace: seq<Turn>): seq<Told> {
    if trace == [] then []
    else
      var w := trace[|trace| - 1];
      Memory(trace[..|trace| - 1]) + if w.Acted? then [Told(w.seen, w.outcome)] else []
  }

  function DrawsAfter(s: Setup, trace: seq<Turn>): Draws {
    if trace == [] then s.start
    else
      var w := trace[|trace| - 1];
      if w.Acted? then w.rest else DrawsAfter(s, trace[..|trace| - 1])
  }

  // One payment's share of a trace.
  function WakesOf(trace: seq<Turn>, id: PaymentId): seq<Wake> {
    if trace == [] then []
    else
      var w := trace[|trace| - 1];
      WakesOf(trace[..|trace| - 1], id)
      + if w.Acted? && w.entry.id == id then [Wake(w.decision.action, w.entry.at, w.draws)] else []
  }

  function Now(s: Setup, trace: seq<Turn>, id: PaymentId): Latent
    requires id in s.was
  {
    Live(s.cfg, s.was[id], WakesOf(trace, id))
  }

  function FirstEntries(was: map<PaymentId, Latent>): set<Entry> {
    set id | id in was :: Entry(was[id].failedAt, id)
  }

  function Pushed(w: Turn): multiset<Entry> {
    if w.Acted? && w.next.Some? then multiset{w.next.value} else multiset{}
  }

  // The queue: at first every payment at its failure; then less what was popped, plus what was pushed.
  function Pending(s: Setup, trace: seq<Turn>): multiset<Entry> {
    if trace == [] then multiset(FirstEntries(s.was))
    else
      var w := trace[|trace| - 1];
      Pending(s, trace[..|trace| - 1]) - multiset{w.entry} + Pushed(w)
  }

  // The wake-up a decision leads to: whole minutes later, at least one, unless the payment is settled or the horizon
  // is past.
  function Rewake(cfg: WorldConfig, e: Entry, decision: Decision, after: Latent): Option<Entry> {
    if decision.action.Abandon? || after.resolved then None
    else
      var at := e.at + Base.Max(1, decision.wakeAfterMinutes) * MINUTE;
      if at <= cfg.horizon then Some(Entry(at, e.id)) else None
  }

  // What the loop does with an entry it does not pass over.
  ghost predicate Handled(s: Setup, past: seq<Turn>, w: Turn)
    requires w.Acted? && w.entry.id in s.was && w.entry.id in s.facts
  {
    var id, at := w.entry.id, w.entry.at;
    var before := Now(s, past, id);
    var after := Apply(s.cfg, w.draws, before, w.decision.action, at);
    && w.seen == Seen(id, s.facts[id], before, at, NaiveRate(Attempts(past), s.facts[id].issuer, at))
    && w.decision == s.policy(Memory(past), w.seen)
    && w.draws == DrawsAfter(s, past)
    && w.rest == after.1 && w.outcome == after.2
    && w.next == Rewake(s.cfg, w.entry, w.decision, after.0)
  }

  // `w` is what the loop does next after `past`.
  ghost predicate Follows(s: Setup, past: seq<Turn>, w: Turn) {
    && w.entry in Pending(s, past) && w.entry.id in s.was && w.entry.id in s.facts
    && (forall e | e in Pending(s, past) :: !Sooner(e, w.entry))
    && (w.Skipped? <==> w.entry.at > s.cfg.horizon || Now(s, past, w.entry.id).resolved)
    && (w.Acted? ==> Handled(s, past, w))
  }

  ghost predicate IsRun(s: Setup, trace: seq<Turn>) {
    forall i | 0 <= i < |trace| :: Follows(s, trace[..i], trace[i])
  }

  ghost predicate Finished(s: Setup, trace: seq<Turn>) {
    IsRun(s, trace) && Pending(s, trace) == multiset{}
  }

  lemma RunPrefix(s: Setup, trace: seq<Turn>, n: nat)
    requires IsRun(s, trace) && n <= |trace|
    ensures IsRun(s, trace[..n])
  {
    hide Follows;
    forall i | 0 <= i < n ensures Follows(s, trace[..n][..i], trace[..n][i]) {
      assert trace[..n][..i] == trace[..i];
    }
  }

  lemma RunStep(s: Setup, past: seq<Turn>, w: Turn)
    requires IsRun(s, past) && Follows(s, past, w)
    ensures IsRun(s, past + [w])
  {
    hide Follows;
    var trace := past + [w];
    forall i | 0 <= i < |trace| ensures Follows(s, trace[..i], trace[i]) {
      assert trace[..i] == past[..i] && (i == |past| ==> past[..i] == past);
    }
  }

  // The functions of a trace, one turn on.
  lemma OneMore(s: Setup, past: seq<Turn>, w: Turn)
    ensures Attempts(past + [w]) == Attempts(past) +
      if w.Acted? && w.decision.action.Retry? then [Record(w.seen.issuer, Obs(w.entry.at, w.outcome != Recovered))]
      else []
    ensures Memory(past + [w]) == Memory(past) + if w.Acted? then [Told(w.seen, w.outcome)] else []
    ensures DrawsAfter(s, past + [w]) == if w.Acted? then w.rest else DrawsAfter(s, past)
    ensures Pending(s, past + [w]) == Pending(s, past) - multiset{w.entry} + Pushed(w)
  {
    assert (past + [w])[..|past|] == past;
    hide Pushed, FirstEntries;
  }

  lemma NowOneMore(s: Setup, past: seq<Turn>, w: Turn, id: PaymentId)
    requires id in s.was
    ensures WakesOf(past + [w], id) == WakesOf(past, id) +
      if w.Acted? && w.entry.id == id then [Wake(w.decision.action, w.entry.at, w.draws)] else []
    ensures Now(s, past + [w], id) ==
      if w.Acted? && w.entry.id == id then Apply(s.cfg, w.draws, Now(s, past, id), w.decision.action, w.entry.at).0
      else Now(s, past, id)
  {
    assert (past + [w])[..|past|] == past;
    hide Apply, Live;
    if w.Acted? && w.entry.id == id {
      LiveStep(s.cfg, s.was[id], WakesOf(past, id), Wake(w.decision.action, w.entry.at, w.draws));
    } else {
      assert WakesOf(past + [w], id) == WakesOf(past, id);
    }
  }

  // --------------------------------------------------------------- the queue

  // One entry per payment, of a payment there is, none before its failure.
  ghost predicate OneEach(s: Setup, queue: multiset<Entry>) {
    && (forall e | e in queue :: queue[e] == 1 && e.id in s.was && s.was[e.id].failedAt <= e.at)
    && (forall e, f | e in queue && f in queue && e.id == f.id :: e == f)
  }

  lemma FirstOneEach(s: Setup)
    ensures OneEach(s, multiset(FirstEntries(s.was)))
  {
  }

  lemma LaterWake(s: Setup, past: seq<Turn>, w: Turn)
    requires Follows(s, past, w) && w.Acted? && w.next.Some?
    ensures w.next.value.id == w.entry.id && w.entry.at + MINUTE <= w.next.value.at <= s.cfg.horizon
  {
    hide Apply, Now, NaiveRate, Attempts, Memory, DrawsAfter, Pending, Seen;
  }

  lemma StaysOneEach(s: Setup, queue: multiset<Entry>, e: Entry, next: multiset<Entry>)
    requires OneEach(s, queue) && e in queue
    requires next == multiset{} || exists f :: next == multiset{f} && f.id == e.id && e.at <= f.at
    ensures OneEach(s, queue - multiset{e} + next)
  {
    var queue' := queue - multiset{e};
    assert forall f | f in queue' :: f in queue && f != e && f.id != e.id;
  }

  // At every point of a run each payment waits at most once.
  lemma {:induction false} WaitsOnce(s: Setup, trace: seq<Turn>)
    requires IsRun(s, trace)
    ensures OneEach(s, Pending(s, trace))
  {
    hide Follows, OneEach;
    if trace == [] {
      FirstOneEach(s);
    } else {
      var past, w := trace[..|trace| - 1], trace[|trace| - 1];
      RunPrefix(s, trace, |past|);
      WaitsOnce(s, past);
      StepWaitsOnce(s, past, w);
      assert trace == past + [w];
      OneMore(s, past, w);
    }
  }

  lemma StepWaitsOnce(s: Setup, past: seq<Turn>, w: Turn)
    requires OneEach(s, Pending(s, past)) && Follows(s, past, w)
    ensures OneEach(s, Pending(s, past) - multiset{w.entry} + Pushed(w))
  {
    hide OneEach;
    assert w.entry in Pending(s, past);
    if w.Acted? && w.next.Some? {
      LaterWake(s, past, w);
      hide Follows;
      assert Pushed(w) == multiset{w.next.value};
    }
    hide Follows;
    StaysOneEach(s, Pending(s, past), w.entry, Pushed(w));
  }

  // Wake-ups in time order, and whatever still waits no earlier than any of them.
  ghost predicate InOrder(trace: seq<Turn>, queue: multiset<Entry>) {
    && (forall i, j | 0 <= i < j < |trace| :: trace[i].entry.at <= trace[j].entry.at)
    && (forall i, e | 0 <= i < |trace| && e in queue :: trace[i].entry.at <= e.at)
  }

  lemma {:induction false} PopsInOrder(s: Setup, trace: seq<Turn>)
    requires IsRun(s, trace)
    ensures InOrder(trace, Pending(s, trace))
  {
    hide Follows, InOrder;
    if trace == [] {
      NothingYet(Pending(s, trace));
    } else {
      var past, w := trace[..|trace| - 1], trace[|trace| - 1];
      RunPrefix(s, trace, |past|);
      PopsInOrder(s, past);
      assert Follows(s, past, w);
      StepInOrder(s, past, w);
      assert trace == past + [w];
      OneMore(s, past, w);
      hide Pending, Pushed, IsRun;
      OrderGrows(past, Pending(s, past), w, Pending(s, trace));
    }
  }

  lemma NothingYet(queue: multiset<Entry>)
    ensures InOrder([], queue)
  {
  }

  lemma OrderGrows(past: seq<Turn>, queue: multiset<Entry>, w: Turn, queue': multiset<Entry>)
    requires InOrder(past, queue) && w.entry in queue
    requires forall e | e in queue' :: w.entry.at <= e.at
    ensures InOrder(past + [w], queue')
  {
    var trace := past + [w];
    forall i | 0 <= i < |trace| ensures trace[i].entry.at <= w.entry.at {
    }
  }

  lemma StepInOrder(s: Setup, past: seq<Turn>, w: Turn)
    requires Follows(s, past, w)
    ensures w.entry in Pending(s, past)
    ensures forall e | e in Pending(s, past) - multiset{w.entry} + Pushed(w) :: w.entry.at <= e.at
  {
    if w.Acted? && w.next.Some? {
      LaterWake(s, past, w);
    }
    hide Handled, Now;
    forall e | e in Pending(s, past) - multiset{w.entry} + Pushed(w)
      ensures w.entry.at <= e.at
    {
      if e in Pending(s, past) {
        assert !Sooner(e, w.entry);
      }
    }
  }

  // A life of the kind the world's theorems speak of.
  ghost predicate IsLife(wakes: seq<Wake>, failedAt: Time, horizon: Time) {
    Ordered(wakes, failedAt) && forall w | w in wakes :: w.at <= horizon
  }

  // A payment's share of a run is one.
  lemma {:induction false} SharesAreLives(s: Setup, trace: seq<Turn>, id: PaymentId)
    requires IsRun(s, trace) && id in s.was
    ensures IsLife(WakesOf(trace, id), s.was[id].failedAt, s.cfg.horizon)
  {
    hide Follows, IsLife, OneEach, InOrder;
    if trace == [] {
      NoLifeYet(s.was[id].failedAt, s.cfg.horizon);
    } else {
      var past, w := trace[..|trace| - 1], trace[|trace| - 1];
      RunPrefix(s, trace, |past|);
      SharesAreLives(s, past, id);
      PopsInOrder(s, past);
      WaitsOnce(s, past);
      assert Follows(s, past, w);
      TurnFits(s, past, w);
      assert trace == past + [w];
      NowOneMore(s, past, w, id);
      hide IsRun, Now, Pending;
      if w.Acted? && w.entry.id == id {
        LifeGrows(s, past, w);
      } else {
        assert WakesOf(trace, id) == WakesOf(past, id);
      }
    }
  }

  lemma NoLifeYet(failedAt: Time, horizon: Time)
    ensures IsLife([], failedAt, horizon)
  {
  }

  lemma LifeGrows(s: Setup, past: seq<Turn>, w: Turn)
    requires InOrder(past, Pending(s, past)) && w.entry in Pending(s, past) && w.entry.id in s.was && w.Acted?
    requires IsLife(WakesOf(past, w.entry.id), s.was[w.entry.id].failedAt, s.cfg.horizon)
    requires s.was[w.entry.id].failedAt <= w.entry.at <= s.cfg.horizon
    ensures IsLife(WakesOf(past, w.entry.id) + [Wake(w.decision.action, w.entry.at, w.draws)],
                   s.was[w.entry.id].failedAt, s.cfg.horizon)
  {
    hide Pending;
    WakesArePops(past, w.entry.id);
    var wakes := WakesOf(past, w.entry.id);
    hide WakesOf;
    forall i | 0 <= i < |wakes| ensures wakes[i].at <= w.entry.at {
      assert wakes[i] in wakes;
    }
  }

  lemma {:induction false} WakesArePops(trace: seq<Turn>, id: PaymentId)
    ensures forall w | w in WakesOf(trace, id) :: exists i | 0 <= i < |trace| :: trace[i].entry.at == w.at
  {
    if trace != [] {
      var past, w := trace[..|trace| - 1], trace[|trace| - 1];
      WakesArePops(past, id);
      forall x | x in WakesOf(trace, id) ensures exists i | 0 <= i < |trace| :: trace[i].entry.at == x.at {
        if x in WakesOf(past, id) {
          var i :| 0 <= i < |past| && past[i].entry.at == x.at;
          assert trace[i] == past[i];
        } else {
          assert trace[|past|].entry.at == x.at;
        }
      }
    }
  }

  lemma TurnFits(s: Setup, past: seq<Turn>, w: Turn)
    requires Follows(s, past, w) && OneEach(s, Pending(s, past))
    ensures w.entry in Pending(s, past) && w.entry.id in s.was && s.was[w.entry.id].failedAt <= w.entry.at
    ensures w.Acted? ==> w.entry.at <= s.cfg.horizon
  {
    hide Handled, Now, Pending;
    assert w.entry in Pending(s, past);
  }

  // ------------------------------------------------------------ determinism

  // After the same past the loop can do one thing only.
  lemma OneTurnFollows(s: Setup, past: seq<Turn>, w: Turn, w': Turn)
    requires OneEach(s, Pending(s, past)) && Follows(s, past, w) && Follows(s, past, w')
    ensures w == w'
  {
    SameEntry(s, past, w, w');
    hide Apply, Now, NaiveRate, Attempts, Memory, DrawsAfter, Pending, Seen, Sooner, OneEach, Rewake;
    assert w.Acted? <==> w'.Acted?;
  }

  lemma SameEntry(s: Setup, past: seq<Turn>, w: Turn, w': Turn)
    requires OneEach(s, Pending(s, past)) && Follows(s, past, w) && Follows(s, past, w')
    ensures w.entry == w'.entry
  {
    hide Handled, Now, Pending;
    assert !Sooner(w.entry, w'.entry) && !Sooner(w'.entry, w.entry);
    hide Follows;
    if w.entry.id != w'.entry.id {
      Stamps.TextIsTotal(w.entry.id, w'.entry.id);
    }
  }

  // A policy, a world and its draws determine the run: the order the queue happens to keep does not matter.
  lemma RunsAreDetermined(s: Setup, trace: seq<Turn>, trace': seq<Turn>)
    requires Finished(s, trace) && Finished(s, trace')
    ensures trace == trace'
  {
    hide Follows, IsRun, Pending;
    var n := if |trace| <= |trace'| then |trace| else |trace'|;
    SamePrefix(s, trace, trace', n);
    assert trace[..n] == trace'[..n];
    assert trace[..|trace|] == trace && trace'[..|trace'|] == trace';
    if |trace| < |trace'| {
      NthFollows(s, trace', n);
      NothingFollows(s, trace, trace'[n]);
    } else if |trace'| < |trace| {
      NthFollows(s, trace, n);
      NothingFollows(s, trace', trace[n]);
    }
  }

  lemma NthFollows(s: Setup, trace: seq<Turn>, n: nat)
    requires IsRun(s, trace) && n < |trace|
    ensures Follows(s, trace[..n], trace[n])
  {
    hide Follows;
  }

  lemma NothingFollows(s: Setup, trace: seq<Turn>, w: Turn)
    requires Pending(s, trace) == multiset{}
    ensures !Follows(s, trace, w)
  {
    hide Handled, Now;
  }

  lemma {:induction false} SamePrefix(s: Setup, trace: seq<Turn>, trace': seq<Turn>, n: nat)
    requires IsRun(s, trace) && IsRun(s, trace') && n <= |trace| && n <= |trace'|
    ensures trace[..n] == trace'[..n]
  {
    hide Follows, OneEach;
    if n > 0 {
      SamePrefix(s, trace, trace', n - 1);
      RunPrefix(s, trace, n - 1);
      WaitsOnce(s, trace[..n - 1]);
      OneTurnFollows(s, trace[..n - 1], trace[n - 1], trace'[n - 1]);
      assert trace[..n] == trace[..n - 1] + [trace[n - 1]];
      assert trace'[..n] == trace'[..n - 1] + [trace'[n - 1]];
    }
  }

  // ---------------------------------------------------------- ends of runs

  // A payment at the end of a run, its remaining tail rolled.
  function End(s: Setup, trace: seq<Turn>, id: PaymentId, tail: Draws): Latent
    requires id in s.was
  {
    Whole(s.cfg, s.was[id], WakesOf(trace, id), tail)
  }

  // Every payment when the queue is empty, in the order the tails are then rolled in.
  function Reached(s: Setup, trace: seq<Turn>, ids: seq<PaymentId>): seq<Latent>
    requires forall id | id in ids :: id in s.was
  {
    seq(|ids|, i requires 0 <= i < |ids| => Now(s, trace, ids[i]))
  }

  // The draws a payment's tail is rolled with: those left by the run and by the tails before it.
  function TailOf(s: Setup, trace: seq<Turn>, ids: seq<PaymentId>, i: nat): Draws
    requires i <= |ids| && forall id | id in ids :: id in s.was
  {
    TailDraws(s.cfg, DrawsAfter(s, trace), Reached(s, trace, ids), i)
  }

  lemma EndIsSettled(s: Setup, trace: seq<Turn>, ids: seq<PaymentId>, i: nat)
    requires i < |ids| && forall id | id in ids :: id in s.was
    ensures End(s, trace, ids[i], TailOf(s, trace, ids, i)) ==
      SettleToHorizon(s.cfg, TailDraws(s.cfg, DrawsAfter(s, trace), Reached(s, trace, ids), i),
                      Reached(s, trace, ids)[i]).0
  {
    hide SettleToHorizon, Live, TailDraws;
  }

  // The books of an untouched payment balance after any run, and it is never both recovered and opted out.
  lemma RunsBalance(s: Setup, trace: seq<Turn>, id: PaymentId, tail: Draws)
    requires IsRun(s, trace) && id in s.was && Untouched(s.was[id])
    ensures var end := End(s, trace, id, tail);
      && end.cost == RETRY_COST * end.attempts + CONTACT_COST * end.contacts
      && !(end.recoveredAt.Some? && end.optedOut)
  {
    hide Whole, IsRun;
    SharesAreLives(s, trace, id);
    EveryLife(s.cfg, s.was[id], WakesOf(trace, id), tail);
  }

  // Two policies compared on the same untouched payment: if both leave it unrecovered and opted in, and neither gave
  // up exactly at the horizon, both were credited with the same time and the same chance of an unprompted payment,
  // however often either looked.
  lemma PoliciesAreCreditedAlike(s: Setup, trace: seq<Turn>, tail: Draws, s': Setup, trace': seq<Turn>, tail': Draws,
                                 id: PaymentId)
    requires IsRun(s, trace) && IsRun(s', trace') && s'.cfg == s.cfg && Memoryless(s.cfg)
    requires id in s.was && id in s'.was && s'.was[id] == s.was[id] && Untouched(s.was[id])
    requires var end := End(s, trace, id, tail);
      end.recoveredAt.None? && !end.optedOut
    requires var end' := End(s', trace', id, tail');
      end'.recoveredAt.None? && !end'.optedOut
    requires !SomeForfeit(s.cfg, s.was[id], WakesOf(trace, id))
    requires !SomeForfeit(s.cfg, s.was[id], WakesOf(trace', id))
    ensures End(s, trace, id, tail).credit == End(s', trace', id, tail').credit
    ensures End(s, trace, id, tail).unpaid == End(s', trace', id, tail').unpaid
  {
    hide Whole, IsRun, SomeForfeit, Memoryless;
    SharesAreLives(s, trace, id);
    SharesAreLives(s', trace', id);
    CadenceDoesNotMatter(s.cfg, s.was[id], WakesOf(trace, id), tail, WakesOf(trace', id), tail');
  }

  // -------------------------------------------------- what a turn shows and does

  // The retries of one issuer's payments since an instant, by their places in the trace, and those that failed.
  ghost function RetriesSince(trace: seq<Turn>, issuer: string, cutoff: Time): set<nat> {
    set j: nat | j < |trace| && RetriedSince(trace[j], issuer, cutoff)
  }

  predicate RetriedSince(w: Turn, issuer: string, cutoff: Time) {
    w.Acted? && w.decision.action.Retry? && w.seen.issuer == issuer && w.entry.at >= cutoff
  }

  ghost function FailuresSince(trace: seq<Turn>, issuer: string, cutoff: Time): set<nat> {
    set j: nat | j < |trace| && RetriedSince(trace[j], issuer, cutoff) && FailedRetry(trace[j])
  }

  predicate FailedRetry(w: Turn) {
    w.Acted? && !w.outcome.Recovered?
  }

  lemma {:induction false} RetriesAreCounted(trace: seq<Turn>, issuer: string, cutoff: Time)
    ensures Recount(Attempts(trace), issuer, cutoff, false) == |RetriesSince(trace, issuer, cutoff)|
  {
    hide Recount, Attempts, RetriedSince, RetriesSince;
    if trace == [] {
      NothingCounted(trace, issuer, cutoff);
    } else {
      RetriesAreCounted(trace[..|trace| - 1], issuer, cutoff);
      OneMoreCounted(trace, issuer, cutoff, false);
      OneMoreRetry(trace, issuer, cutoff);
    }
  }

  lemma {:induction false} FailuresAreCounted(trace: seq<Turn>, issuer: string, cutoff: Time)
    ensures Recount(Attempts(trace), issuer, cutoff, true) == |FailuresSince(trace, issuer, cutoff)|
  {
    hide Recount, Attempts, RetriedSince, FailedRetry, FailuresSince;
    if trace == [] {
      NothingCounted(trace, issuer, cutoff);
    } else {
      FailuresAreCounted(trace[..|trace| - 1], issuer, cutoff);
      OneMoreCounted(trace, issuer, cutoff, true);
      OneMoreFailure(trace, issuer, cutoff);
    }
  }

  lemma NothingCounted(trace: seq<Turn>, issuer: string, cutoff: Time)
    requires trace == []
    ensures Recount(Attempts(trace), issuer, cutoff, false) == 0 == |RetriesSince(trace, issuer, cutoff)|
    ensures Recount(Attempts(trace), issuer, cutoff, true) == 0 == |FailuresSince(trace, issuer, cutoff)|
  {
    assert RetriesSince(trace, issuer, cutoff) == {} && FailuresSince(trace, issuer, cutoff) == {};
  }

  lemma OneMoreRetry(trace: seq<Turn>, issuer: string, cutoff: Time)
    requires trace != []
    ensures |RetriesSince(trace, issuer, cutoff)| ==
      |RetriesSince(trace[..|trace| - 1], issuer, cutoff)|
      + if RetriedSince(trace[|trace| - 1], issuer, cutoff) then 1 else 0
  {
    hide RetriedSince;
    var n := |trace| - 1;
    var rest := RetriesSince(trace[..n], issuer, cutoff);
    assert RetriesSince(trace, issuer, cutoff) == if RetriedSince(trace[n], issuer, cutoff) then rest + {n} else rest;
  }

  lemma OneMoreFailure(trace: seq<Turn>, issuer: string, cutoff: Time)
    requires trace != []
    ensures |FailuresSince(trace, issuer, cutoff)| ==
      |FailuresSince(trace[..|trace| - 1], issuer, cutoff)|
      + if RetriedSince(trace[|trace| - 1], issuer, cutoff) && FailedRetry(trace[|trace| - 1]) then 1 else 0
  {
    hide RetriedSince, FailedRetry;
    var n := |trace| - 1;
    var rest := FailuresSince(trace[..n], issuer, cutoff);
    assert FailuresSince(trace, issuer, cutoff) ==
           if RetriedSince(trace[n], issuer, cutoff) && FailedRetry(trace[n]) then rest + {n} else rest;
  }

  lemma OneMoreCounted(trace: seq<Turn>, issuer: string, cutoff: Time, failedOnly: bool)
    requires trace != []
    ensures var rest, w := trace[..|trace| - 1], trace[|trace| - 1];
      Recount(Attempts(trace), issuer, cutoff, failedOnly) ==
        Recount(Attempts(rest), issuer, cutoff, failedOnly)
        + if RetriedSince(w, issuer, cutoff) && (failedOnly ==> FailedRetry(w)) then 1 else 0
  {
    var was := Attempts(trace[..|trace| - 1]);
    if Attempts(trace) == was {
    } else {
      assert Attempts(trace)[..|Attempts(trace)| - 1] == was;
    }
  }

  // The failure rate a policy is shown: none from fewer than four retries in the last hour, and else their share.
  ghost predicate ShowsRate(rate: real, past: seq<Turn>, issuer: string, now: Time) {
    var tried := |RetriesSince(past, issuer, now - HOUR)|;
    if tried < 4 then rate == 0.0 else rate * tried as real == |FailuresSince(past, issuer, now - HOUR)| as real
  }

  // When a turn wakes its payment again: as many minutes on as the policy asked for, but at least one, unless the case
  // is closed or given up, or that is past the horizon.
  predicate WakesAgain(cfg: WorldConfig, w: Turn, after: Latent)
    requires w.Acted?
  {
    var pause := if w.decision.wakeAfterMinutes > 1 then w.decision.wakeAfterMinutes else 1;
    var at := w.entry.at + pause * MINUTE;
    if after.resolved || w.decision.action.Abandon? || at > cfg.horizon then w.next.None?
    else w.next.Some? && w.next.value.at == at && w.next.value.id == w.entry.id
  }

  // What a policy is shown of a payment: what was done so far, and whether a link is still open.
  predicate Shows(seen: Observation, l: Latent, e: Entry) {
    && seen.payment == e.id && seen.now == e.at && seen.failedAt == l.failedAt && seen.instrument == l.instrument
    && seen.attemptsMade == l.attempts && seen.contactsMade == l.contacts
    && (seen.consentOutstanding <==> l.pendingUntil.Some? && l.pendingUntil.value > e.at)
  }

  // Each turn of a run takes an earliest entry, of entries at one instant the first by name; it shows the policy the
  // payment and its issuer's rate as the trace so far has them, and wakes the payment again when it should.
  lemma TurnsSay(s: Setup, trace: seq<Turn>, i: nat)
    requires IsRun(s, trace) && i < |trace|
    ensures var past, w := trace[..i], trace[i];
      && w.entry.id in s.was
      && (forall e | e in Pending(s, past) ::
            e.at >= w.entry.at && (e.at == w.entry.at ==> !Stamps.TextLess(e.id, w.entry.id)))
      && (w.Skipped? <==> w.entry.at > s.cfg.horizon || Now(s, past, w.entry.id).resolved)
      && (w.Acted? ==>
            && Shows(w.seen, Now(s, past, w.entry.id), w.entry)
            && ShowsRate(w.seen.issuerFailureRate, past, w.seen.issuer, w.entry.at)
            && WakesAgain(s.cfg, w, Now(s, trace[..i + 1], w.entry.id)))
  {
    hide Now, Pending, IsRun, NaiveRate, Attempts, Apply, Memory, DrawsAfter, Handled, ShowsRate, Shows;
    var past, w := trace[..i], trace[i];
    assert Follows(s, past, w) by {
      TurnFollows(s, trace, i);
    }
    assert trace[..i + 1] == past + [w];
    if w.Acted? {
      ActedSays(s, past, w);
    }
  }

  lemma TurnFollows(s: Setup, trace: seq<Turn>, i: nat)
    requires IsRun(s, trace) && i < |trace|
    ensures Follows(s, trace[..i], trace[i])
  {
    hide Follows;
  }

  lemma ActedSays(s: Setup, past: seq<Turn>, w: Turn)
    requires w.Acted? && w.entry.id in s.was && w.entry.id in s.facts && Handled(s, past, w)
    ensures Shows(w.seen, Now(s, past, w.entry.id), w.entry)
    ensures ShowsRate(w.seen.issuerFailureRate, past, w.seen.issuer, w.entry.at)
    ensures WakesAgain(s.cfg, w, Now(s, past + [w], w.entry.id))
  {
    RateShown(past, w.seen.issuer, w.entry.at);
    NowOneMore(s, past, w, w.entry.id);
    hide Now, NaiveRate, Attempts, Apply, Memory, DrawsAfter, ShowsRate, WakesOf;
  }

  lemma RateShown(past: seq<Turn>, issuer: string, now: Time)
    ensures ShowsRate(NaiveRate(Attempts(past), issuer, now), past, issuer, now)
  {
    RetriesAreCounted(past, issuer, now - HOUR);
    FailuresAreCounted(past, issuer, now - HOUR);
    hide RetriesSince, FailuresSince, Attempts, Recount;
  }
}
