// The stored health observations (app/store.py:704-720): rows with text timestamps, selected and ordered by comparing
// text, and the monitor a restart rebuilds from them.
module Observations {
  import opened Base
  import opened Models
  import opened Engine
  import opened Stamps
  import opened Windows
  import opened Health

  type Seen = Record<HealthKey>

  datatype ObsRow = ObsRow(issuer: string, rail: Rail, succeeded: bool, observedAt: string)

  function RowFor(o: Seen): ObsRow
    requires InRange(o.obs.at)
  {
    ObsRow(o.key.issuer, o.key.rail, o.obs.flag, StampOf(o.obs.at))
  }

  // Rows that hold these observations, one for one.
  ghost predicate Holds(rows: seq<ObsRow>, stored: seq<Seen>) {
    |rows| == |stored| && forall i | 0 <= i < |rows| :: InRange(stored[i].obs.at) && rows[i] == RowFor(stored[i])
  }

  ghost predicate InTimeOrder(stored: seq<Seen>) {
    forall i, j | 0 <= i < j < |stored| :: stored[i].obs.at <= stored[j].obs.at
  }

  function Inserted<T>(s: seq<T>, p: nat, x: T): seq<T>
    requires p <= |s|
  {
    s[..p] + [x] + s[p..]
  }

  lemma InsertHolds(rows: seq<ObsRow>, stored: seq<Seen>, p: nat, o: Seen)
    requires Holds(rows, stored) && InTimeOrder(stored) && p <= |rows| && InRange(o.obs.at)
    requires forall i | 0 <= i < p :: stored[i].obs.at <= o.obs.at
    requires forall i | p <= i < |stored| :: o.obs.at < stored[i].obs.at
    ensures Holds(Inserted(rows, p, RowFor(o)), Inserted(stored, p, o)) && InTimeOrder(Inserted(stored, p, o))
    ensures multiset(Inserted(stored, p, o)) == multiset(stored) + multiset{o}
  {
    hide StampOf, InRange;
    assert stored == stored[..p] + stored[p..];
  }

  lemma PrefixHolds(rows: seq<ObsRow>, stored: seq<Seen>, i: nat)
    requires Holds(rows, stored) && i < |rows|
    ensures InRange(stored[i].obs.at) && rows[i] == RowFor(stored[i])
  {
    hide StampOf, InRange;
  }

  lemma SinceStep(stored: seq<Seen>, i: nat, cutoff: Time)
    requires i < |stored|
    ensures Since(stored[..i + 1], cutoff) ==
      Since(stored[..i], cutoff) + if stored[i].obs.at >= cutoff then [stored[i]] else []
  {
    assert stored[..i + 1][..i] == stored[..i];
  }

  lemma ReadsBack(o: Seen)
    requires InRange(o.obs.at)
    ensures ReadIso(RowFor(o).observedAt) == Ok(CivilOf(o.obs.at))
  {
    StampRoundTrip(o.obs.at);
    hide StampOf, InRange, ReadIso, Micros, CivilOf;
  }

  class ObservationLog {
    var rows: seq<ObsRow>
    ghost var stored: seq<Seen>          // what the rows hold

    ghost predicate Valid()
      reads this
    {
      Holds(rows, stored)
    }

    constructor ()
      ensures Valid() && stored == []
    {
      rows, stored := [], [];
    }

    // record_observation: an instant that cannot be written is refused.
    method RecordObservation(issuer: string, rail: Rail, succeeded: bool, at: Time) returns (r: Result<(), Fault>)
      requires Valid()
      modifies this
      ensures Valid()
      ensures if InRange(at) then
          r == Ok(()) && stored == old(stored) + [Record(HealthKey(Lower(issuer), rail), Obs(at, succeeded))]
        else r == Err(Fault.OutOfCalendar) && stored == old(stored)
    {
      hide InRange, StampOf, Lower;
      if !InRange(at) {
        return Err(Fault.OutOfCalendar);
      }
      rows := rows + [ObsRow(Lower(issuer), rail, succeeded, StampOf(at))];
      stored := stored + [Record(HealthKey(Lower(issuer), rail), Obs(at, succeeded))];
      r := Ok(());
    }

    // load_observations: what the text comparisons select and order is what was observed since, in time order.
    method LoadObservations(since: Time) returns (r: Result<seq<Seen>, Fault>)
      requires Valid()
      ensures !InRange(since) ==> r == Err(Fault.OutOfCalendar)
      ensures InRange(since) ==>
        r.Ok? && multiset(r.value) == multiset(Since(stored, since)) && InTimeOrder(r.value)
    {
      if !InRange(since) {
        return Err(Fault.OutOfCalendar);
      }
      hide InRange, StampOf, TextLess, Holds, InTimeOrder, Inserted, Since, RowFor;
      var picked: seq<ObsRow>, cutoff := [], StampOf(since);
      ghost var chosen: seq<Seen> := [];
      NothingChosen(stored, since);
      for i := 0 to |rows|
        invariant Holds(picked, chosen) && InTimeOrder(chosen)
        invariant |rows| == |stored| && multiset(chosen) == multiset(Since(stored[..i], since))
      {
        PrefixHolds(rows, stored, i);
        SinceStep(stored, i, since);
        TextIsTime(stored[i], since);
        if !TextLess(rows[i].observedAt, cutoff) {
          var p := Place(picked, chosen, rows[i], stored[i]);
          InsertHolds(picked, chosen, p, stored[i]);
          picked, chosen := Inserted(picked, p, rows[i]), Inserted(chosen, p, stored[i]);
        }
      }
      assert stored[..|rows|] == stored;
      var loaded := Decoded(picked, chosen);
      r := Ok(loaded);
    }

    lemma NothingChosen(stored: seq<Seen>, since: Time)
      requires Valid() && stored == this.stored
      ensures Holds([], []) && InTimeOrder([]) && Since(stored[..0], since) == [] && |rows| == |stored|
    {
    }

    lemma TextIsTime(o: Seen, since: Time)
      requires InRange(o.obs.at) && InRange(since)
      ensures TextLess(RowFor(o).observedAt, StampOf(since)) <==> o.obs.at < since
    {
      StampOrder(o.obs.at, since);
      hide InRange, StampOf, TextLess;
    }

    // Where a row goes among rows already in order: after everything no later.
    method Place(picked: seq<ObsRow>, ghost chosen: seq<Seen>, row: ObsRow, ghost o: Seen) returns (p: nat)
      requires Holds(picked, chosen) && InTimeOrder(chosen) && InRange(o.obs.at) && row == RowFor(o)
      ensures p <= |picked| && |picked| == |chosen|
      ensures forall i | 0 <= i < p :: chosen[i].obs.at <= o.obs.at
      ensures forall i | p <= i < |chosen| :: o.obs.at < chosen[i].obs.at
    {
      hide InRange, StampOf, TextLess;
      p := |picked|;
      while p > 0 && TextLess(row.observedAt, picked[p - 1].observedAt)
        invariant p <= |picked|
        invariant forall i | p <= i < |chosen| :: o.obs.at < chosen[i].obs.at
      {
        StampOrder(o.obs.at, chosen[p - 1].obs.at);
        p := p - 1;
      }
      if p > 0 {
        StampOrder(o.obs.at, chosen[p - 1].obs.at);
      }
    }

    method Decoded(picked: seq<ObsRow>, ghost chosen: seq<Seen>) returns (loaded: seq<Seen>)
      requires Holds(picked, chosen)
      ensures loaded == chosen
    {
      hide InRange, StampOf, RowFor, ReadIso, Micros, CivilOf;
      loaded := [];
      for i := 0 to |picked|
        invariant |picked| == |chosen| && loaded == chosen[..i]
      {
        ReadsBack(chosen[i]);
        RowSays(chosen[i]);
        var moment := ReadIso(picked[i].observedAt);
        loaded := loaded + [Record(HealthKey(picked[i].issuer, picked[i].rail),
                                   Obs(Micros(moment.value), picked[i].succeeded))];
      }
    }

    lemma RowSays(o: Seen)
      requires InRange(o.obs.at)
      ensures RowFor(o).issuer == o.key.issuer && RowFor(o).rail == o.key.rail && RowFor(o).succeeded == o.obs.flag
    {
    }
  }

  // A restart: a fresh monitor reloads the window from the log, and from then on gives the verdicts of a recount of
  // everything ever stored.
  method Restart(log: ObservationLog, monitor: BankHealthMonitor, now: Time) returns (r: Result<(), Fault>)
    requires log.Valid() && monitor.Valid() && monitor.windows == map[] && monitor.history == []
    requires monitor.evicted == {} && monitor.clock <= now
    requires forall i | 0 <= i < |log.stored| :: log.stored[i].obs.at <= now
    modifies monitor
    ensures monitor.Valid()
    ensures r.Ok? <==> InRange(now - monitor.window)
    ensures r.Ok? ==> monitor.Faithful() && monitor.history == log.stored && monitor.clock == now
  {
    hide InRange, Since, BankHealthMonitor.Faithful;
    var rows := log.LoadObservations(now - monitor.window);
    if rows.Err? {
      return Err(rows.error);
    }
    monitor.Restore(log.stored, rows.value, now);
    r := Ok(());
  }
}
