// The issuer-health window (app/bank_health.py): trimmed deques under LRU keys against a recount of history.
module Health {
  import opened Base
  import opened Models
  import opened Windows

  datatype HealthKey = HealthKey(issuer: string, rail: Rail)

  datatype Snapshot = Snapshot(attempts: nat, successes: nat, degraded: bool)

  function Verdict(attempts: nat, successes: nat, minSamples: int, rate: real): Snapshot {
    var successRate := if attempts == 0 then 1.0 else successes as real / attempts as real;
    Snapshot(attempts, successes, attempts >= minSamples && successRate < rate)
  }

  // The verdict a full recount of history gives.
  function NaiveVerdict(history: seq<Record<HealthKey>>, key: HealthKey, now: Time, window: int, minSamples: int,
                        rate: real)
    : Snapshot
  {
    Verdict(Recount(history, key, now - window, false), Recount(history, key, now - window, true), minSamples, rate)
  }

  // The attempts of a key since a cutoff, and those that succeeded, by their places in history.
  ghost function AttemptsSince(history: seq<Record<HealthKey>>, key: HealthKey, cutoff: Time): set<nat> {
    set i: nat | i < |history| && history[i].key == key && history[i].obs.at >= cutoff
  }

  ghost function SuccessesSince(history: seq<Record<HealthKey>>, key: HealthKey, cutoff: Time): set<nat> {
    set i: nat | i < |history| && history[i].key == key && history[i].obs.at >= cutoff && history[i].obs.flag
  }

  // What a verdict says: how many tried, how many succeeded, and whether enough tried and too few of them succeeded. A
  // rail nobody tried counts as always succeeding.
  predicate Says(r: Snapshot, attempts: nat, successes: nat, minSamples: int, rate: real) {
    && r.attempts == attempts && r.successes == successes
    && (r.degraded <==> attempts >= minSamples &&
                        (if attempts > 0 then successes as real < rate * attempts as real else 1.0 < rate))
  }

  lemma {:induction false} AttemptsAreCounted(history: seq<Record<HealthKey>>, key: HealthKey, cutoff: Time)
    ensures Recount(history, key, cutoff, false) == |AttemptsSince(history, key, cutoff)|
  {
    if history == [] {
      assert AttemptsSince(history, key, cutoff) == {};
    } else {
      var n := |history| - 1;
      var counts := history[n].key == key && history[n].obs.at >= cutoff;
      AttemptsAreCounted(history[..n], key, cutoff);
      var rest := AttemptsSince(history[..n], key, cutoff);
      assert AttemptsSince(history, key, cutoff) == if counts then rest + {n} else rest;
    }
  }

  lemma {:induction false} SuccessesAreCounted(history: seq<Record<HealthKey>>, key: HealthKey, cutoff: Time)
    ensures Recount(history, key, cutoff, true) == |SuccessesSince(history, key, cutoff)|
  {
    if history == [] {
      assert SuccessesSince(history, key, cutoff) == {};
    } else {
      var n := |history| - 1;
      var counts := history[n].key == key && history[n].obs.at >= cutoff && history[n].obs.flag;
      SuccessesAreCounted(history[..n], key, cutoff);
      var rest := SuccessesSince(history[..n], key, cutoff);
      assert SuccessesSince(history, key, cutoff) == if counts then rest + {n} else rest;
    }
  }

  lemma VerdictSays(attempts: nat, successes: nat, minSamples: int, rate: real)
    ensures Says(Verdict(attempts, successes, minSamples, rate), attempts, successes, minSamples, rate)
  {
    if attempts > 0 {
      RatioBelow(successes as real, attempts as real, rate);
    }
  }

  lemma RatioBelow(part: real, whole: real, rate: real)
    requires whole > 0.0
    ensures part / whole < rate <==> part < rate * whole
  {
    var ratio := part / whole;
    assert ratio * whole == part;
    if ratio < rate {
      assert (rate - ratio) * whole > 0.0;
    } else {
      assert (ratio - rate) * whole >= 0.0;
    }
  }

  // The recount's verdict, in the numbers of history alone.
  lemma NaiveSays(history: seq<Record<HealthKey>>, key: HealthKey, now: Time, window: int, minSamples: int, rate: real)
    ensures Says(NaiveVerdict(history, key, now, window, minSamples, rate), |AttemptsSince(history, key, now - window)|,
                 |SuccessesSince(history, key, now - window)|, minSamples, rate)
  {
    AttemptsAreCounted(history, key, now - window);
    SuccessesAreCounted(history, key, now - window);
    VerdictSays(Recount(history, key, now - window, false), Recount(history, key, now - window, true), minSamples,
                rate);
  }

  lemma {:induction false} SuccessesAreAttempts(history: seq<Record<HealthKey>>, key: HealthKey, cutoff: Time)
    ensures Recount(history, key, cutoff, true) <= Recount(history, key, cutoff, false)
  {
    if history != [] {
      SuccessesAreAttempts(history[..|history| - 1], key, cutoff);
    }
  }

  lemma OneMoreSuccess(n: nat, k: nat, minSamples: int, rate: real)
    requires k <= n && n >= minSamples && !Verdict(n, k, minSamples, rate).degraded
    ensures !Verdict(n + 1, k + 1, minSamples, rate).degraded
  {
    VerdictSays(n, k, minSamples, rate);
    VerdictSays(n + 1, k + 1, minSamples, rate);
    hide Verdict;
    assert n > 0 ==> rate <= 1.0;
    assert rate * (n + 1) as real == rate * n as real + rate;
  }

  lemma OneMoreFailure(n: nat, k: nat, minSamples: int, rate: real)
    requires k <= n && Verdict(n, k, minSamples, rate).degraded
    ensures Verdict(n + 1, k, minSamples, rate).degraded
  {
    VerdictSays(n, k, minSamples, rate);
    VerdictSays(n + 1, k, minSamples, rate);
    hide Verdict;
    assert rate * (n + 1) as real == rate * n as real + rate;
    assert n > 0 ==> rate > 0.0;
  }

  // A success never makes a rail degraded that had been tried often enough to be judged, and a failure never heals one.
  lemma OutcomesPullTheirWay(history: seq<Record<HealthKey>>, key: HealthKey, now: Time, window: int, minSamples: int,
                             rate: real)
    ensures var was := NaiveVerdict(history, key, now, window, minSamples, rate);
      var won := NaiveVerdict(history + [Record(key, Obs(now, true))], key, now, window, minSamples, rate);
      var lost := NaiveVerdict(history + [Record(key, Obs(now, false))], key, now, window, minSamples, rate);
      && (was.attempts >= minSamples && !was.degraded ==> !won.degraded)
      && (was.degraded ==> lost.degraded)
  {
    var n, k := Recount(history, key, now - window, false), Recount(history, key, now - window, true);
    SuccessesAreAttempts(history, key, now - window);
    assert (history + [Record(key, Obs(now, true))])[..|history|] == history;
    assert (history + [Record(key, Obs(now, false))])[..|history|] == history;
    if n >= minSamples {
      if Verdict(n, k, minSamples, rate).degraded {
        OneMoreFailure(n, k, minSamples, rate);
      } else {
        OneMoreSuccess(n, k, minSamples, rate);
      }
    }
  }

  // --------------------------------------------------------------- monitor

  // Everything a monitor holds, as a value.
  datatype Memory = Memory(order: seq<HealthKey>, windows: map<HealthKey, seq<Obs>>, history: seq<Record<HealthKey>>,
                           observed: set<HealthKey>, evicted: set<HealthKey>, clock: Time)

  class BankHealthMonitor {
    const window: int
    const minSamples: int
    const degradedRate: real
    const maxTrackedKeys: nat

    // An ordered dictionary: keys from least to most recently used, and their deques.
    var order: seq<HealthKey>
    var windows: map<HealthKey, seq<Obs>>

    ghost var history: seq<Record<HealthKey>>       // every observation ever made
    ghost var observed: set<HealthKey>   // keys ever written
    ghost var evicted: set<HealthKey>    // keys the cap has ever pushed out
    ghost var clock: Time                // the latest instant seen

    ghost predicate Valid()
      reads this
    {
      && Keyed()
      && |order| <= maxTrackedKeys
      && (forall i | 0 <= i < |history| :: history[i].obs.at <= clock)
      && (forall k | k in windows :: NoneAfter(windows[k], clock))
      && CapIsWhy(windows.Keys, observed, evicted)
    }

    ghost function State(): Memory
      reads this
    {
      Memory(order, windows, history, observed, evicted, clock)
    }

    // What recording one observation makes of a monitor.
    ghost function Written(h: Memory, key: HealthKey, o: Obs): Memory {
      var known := key in h.windows;
      var order := if known then Without(h.order, key) + [key] else OrderWith(h.order, key);
      var kept := Kept(h.windows, order);
      Memory(order,
             if key in kept then kept[key := Trimmed(kept[key] + [o], o.at - window)] else kept,
             h.history + [Record(key, o)], h.observed + {key},
             h.evicted + (if known then {} else Members(Ousted(h.order, key))), Max(h.clock, o.at))
    }

    // What reading a verdict makes of it.
    function Read(h: Memory, key: HealthKey, now: Time): Memory {
      var after := h.(clock := Max(h.clock, now));
      if key in h.windows then
        after.(order := Without(h.order, key) + [key],
               windows := h.windows[key := Trimmed(h.windows[key], now - window)])
      else after
    }

    // Reading what was just written changes nothing.
    lemma WrittenIsRead(h: Memory, key: HealthKey, o: Obs)
      requires Distinct(h.order) && h.windows.Keys == Members(h.order)
      ensures Read(Written(h, key, o), key, o.at) == Written(h, key, o)
    {
      hide Without, OrderWith, Ousted, Distinct, Trimmed, Members, Kept;
      var kept := Kept(h.windows, Written(h, key, o).order);
      NewestIsLast(h.order, key);
      KeptKeys(h.windows, Written(h, key, o).order, key);
      if key in kept {
        TrimmedTwice(kept[key] + [o], o.at - window);
        RewrittenSame(kept, key, Trimmed(kept[key] + [o], o.at - window));
      }
    }

    lemma KeptKeys(ws: map<HealthKey, seq<Obs>>, order: seq<HealthKey>, key: HealthKey)
      ensures key in Kept(ws, order) <==> key in order
    {
    }

    lemma RewrittenSame(ws: map<HealthKey, seq<Obs>>, key: HealthKey, w: seq<Obs>)
      ensures ws[key := w][key := w] == ws[key := w]
    {
    }

    lemma NewestIsLast(order: seq<HealthKey>, key: HealthKey)
      requires Distinct(order)
      ensures key in Members(order) <==> key in order
      ensures var moved := Without(order, key) + [key];
        Without(moved, key) + [key] == moved
      ensures key !in order && key in OrderWith(order, key) ==>
        Without(OrderWith(order, key), key) + [key] == OrderWith(order, key)
    {
      WithoutKeys(order, key);
      DroppedAgain(Without(order, key), key);
      if key !in order && key in OrderWith(order, key) {
        var n := Surplus(|order| + 1);
        assert n <= |order|;
        assert OrderWith(order, key) == order[n..] + [key];
        DroppedAgain(order[n..], key);
      }
    }

    lemma DroppedAgain(rest: seq<HealthKey>, key: HealthKey)
      requires key !in rest
      ensures Without(rest + [key], key) == rest
    {
      WithoutAbsent(rest, key);
      assert (rest + [key])[..|rest + [key]| - 1] == rest;
    }

    lemma Consistent()
      requires Valid()
      ensures Distinct(order) && windows.Keys == Members(order)
    {
      KeysAreMembers();
    }

    lemma ReadOnlyReads(h: Memory, key: HealthKey, now: Time)
      ensures OnlyRead(h, Read(h, key, now), now - window) && OnlyRead(h, h, now - window)
    {
      TrimmingIsSame(h.windows, key, now - window);
      NothingIsSame(h.windows, now - window);
      hide Without, SameSince;
    }

    // Nothing is lost until more keys have been written than the cap allows.
    ghost predicate CapIsWhy(keys: set<HealthKey>, observed: set<HealthKey>, evicted: set<HealthKey>) {
      && keys <= observed
      && (evicted == {} ==> keys == observed)
      && (evicted != {} ==> |observed| > maxTrackedKeys)
    }

    function WindowOf(key: HealthKey): seq<Obs>
      reads this
    {
      WindowIn(windows, key)
    }

    // Every key never evicted agrees with the history over the current window.
    ghost predicate Faithful()
      reads this
    {
      AllAgree(windows, history, evicted, clock - window)
    }

    constructor (window: int, minSamples: int, degradedRate: real, maxTrackedKeys: nat, start: Time)
      ensures Valid() && Faithful() && history == [] && evicted == {} && windows == map[] && clock == start
      ensures observed == {}
      ensures this.window == window && this.minSamples == minSamples && this.degradedRate == degradedRate
      ensures this.maxTrackedKeys == maxTrackedKeys
    {
      this.window, this.minSamples, this.degradedRate := window, minSamples, degradedRate;
      this.maxTrackedKeys := maxTrackedKeys;
      order, windows, history, observed, evicted, clock := [], map[], [], {}, {}, start;
    }

    // _trim: pop old observations off the front.
    method Trim(key: HealthKey, now: Time)
      requires key in windows
      modifies this`windows
      ensures windows == old(windows)[key := Trimmed(old(windows[key]), now - window)]
    {
      ghost var whole := Trimmed(windows[key], now - window);
      var w := windows[key];
      while w != [] && w[0].at < now - window
        invariant Trimmed(w, now - window) == whole
        decreases |w|
      {
        w := w[1..];
      }
      windows := windows[key := w];
    }

    // popitem(last=False)
    method PopOldest()
      requires Keyed() && order != []
      modifies this`order, this`windows, this`evicted
      ensures Keyed()
      ensures order == old(order)[1..] && windows == old(windows) - {old(order)[0]}
      ensures evicted == old(evicted) + {old(order)[0]}
    {
      var oldest := order[0];
      assert forall k :: k in order[1..] <==> k in order && k != oldest;
      order, windows, evicted := order[1..], windows - {oldest}, evicted + {oldest};
    }

    // _evict_if_needed: drop least recently used keys beyond the cap.
    method EvictIfNeeded()
      requires Keyed()
      modifies this`order, this`windows, this`evicted
      ensures Keyed()
      ensures order == old(order)[Surplus(|old(order)|)..]
      ensures evicted == old(evicted) + Members(old(order)[..Surplus(|old(order)|)])
      ensures forall k | k in windows :: k in old(windows) && windows[k] == old(windows)[k]
      ensures forall k | k in old(windows) && k !in windows :: k in evicted
    {
      hide Keyed, Members;
      ghost var n := 0;
      NoMembers();
      while |order| > maxTrackedKeys
        invariant Keyed()
        invariant 0 <= n <= Surplus(|old(order)|) && order == old(order)[n..]
        invariant evicted == old(evicted) + Members(old(order)[..n])
        invariant forall k | k in windows :: k in old(windows) && windows[k] == old(windows)[k]
        invariant forall k | k in old(windows) && k !in windows :: k in evicted
        decreases |order|
      {
        assert old(order)[..n + 1] == old(order)[..n] + [order[0]];
        OneMoreMember(old(order)[..n], order[0]);
        PopOldest();
        n := n + 1;
      }
    }

    ghost predicate Keyed()
      reads this`order, this`windows
    {
      && (forall k :: k in order <==> k in windows)
      && Distinct(order)
    }

    function Surplus(n: nat): nat {
      if n > maxTrackedKeys then n - maxTrackedKeys else 0
    }

    // _window_for on a read: using a key makes it the most recent; an unknown key is not created.
    method Use(key: HealthKey)
      requires Valid()
      modifies this`order
      ensures Valid()
      ensures order == if key in windows then Without(old(order), key) + [key] else old(order)
      ensures |order| == |old(order)|
    {
      if key in windows {
        MoveToEnd(order, key);
        order := Without(order, key) + [key];
      }
    }

    // Who makes room for a new key: nobody below the cap, else the least recently used.
    function Ousted(order: seq<HealthKey>, key: HealthKey): seq<HealthKey> {
      (order + [key])[..Surplus(|order| + 1)]
    }

    function OrderWith(order: seq<HealthKey>, key: HealthKey): seq<HealthKey> {
      (order + [key])[Surplus(|order| + 1)..]
    }

    // _window_for on a write: create the deque if need be, evicting beyond the cap.
    method Create(key: HealthKey)
      requires Valid()
      modifies this`order, this`windows, this`observed, this`evicted
      ensures Valid()
      ensures observed == old(observed) + {key}
      ensures evicted == old(evicted) + (if key in old(windows) then {} else Members(Ousted(old(order), key)))
      ensures order == (if key in old(windows) then Without(old(order), key) + [key] else OrderWith(old(order), key))
      ensures maxTrackedKeys > 0 || old(key in windows) ==> key in windows
      ensures forall k | k in windows :: windows[k] == old(WindowOf(k))
      ensures forall k | k !in evicted :: k !in old(evicted) && WindowOf(k) == old(WindowOf(k))
      ensures key !in windows ==> key in evicted
      ensures windows == Kept(old(windows), order)
    {
      hide CapIsWhy, Members, Distinct;
      if key !in windows {
        Insert(key);
      } else {
        Use(key);
        Rewritten(windows.Keys, key, observed, evicted);
        observed := observed + {key};
      }
      KeptIs(old(windows));
    }

    lemma KeptIs(was: map<HealthKey, seq<Obs>>)
      requires Keyed() && forall k | k in windows :: windows[k] == WindowIn(was, k)
      ensures windows == Kept(was, order)
    {
      KeysAreMembers();
    }

    lemma Rewritten(keys: set<HealthKey>, key: HealthKey, observed: set<HealthKey>, evicted: set<HealthKey>)
      requires CapIsWhy(keys, observed, evicted) && key in keys
      ensures CapIsWhy(keys, observed + {key}, evicted)
    {
      assert observed + {key} == observed;
    }

    method Insert(key: HealthKey)
      requires Valid() && key !in windows
      modifies this`order, this`windows, this`observed, this`evicted
      ensures Valid()
      ensures observed == old(observed) + {key}
      ensures evicted == old(evicted) + Members(Ousted(old(order), key)) && order == OrderWith(old(order), key)
      ensures maxTrackedKeys > 0 ==> key in windows
      ensures forall k | k in windows :: windows[k] == old(WindowOf(k))
      ensures forall k | (k in old(windows) || k == key) && k !in windows :: k in evicted
    {
      hide CapIsWhy, Members, Distinct, Keyed, NoneAfter, Ousted, OrderWith;
      ghost var was := order;
      NothingAfter(clock);
      KeysAreMembers();
      MakeRoom(key);
      KeysAreMembers();
      CapStaysWhy(was, key, observed, old(evicted));
      observed := observed + {key};
    }

    // The new deque goes in last; whoever is then beyond the cap goes.
    method MakeRoom(key: HealthKey)
      requires Keyed() && key !in windows
      modifies this`order, this`windows, this`evicted
      ensures Keyed() && |order| <= maxTrackedKeys
      ensures evicted == old(evicted) + Members(Ousted(old(order), key)) && order == OrderWith(old(order), key)
      ensures maxTrackedKeys > 0 ==> key in windows
      ensures forall k | k in windows :: windows[k] == old(WindowOf(k))
      ensures forall k | (k in old(windows) || k == key) && k !in windows :: k in evicted
    {
      hide Members, Distinct, Keyed, Ousted, OrderWith;
      ghost var was := order;
      KeysAreMembers();
      SurplusOfOne(order, key);
      order, windows := order + [key], windows[key := []];
      KeyedGrows(was, old(windows), key);
      EvictIfNeeded();
      KeysAreMembers();
      assert maxTrackedKeys > 0 ==> order[|order| - 1] == key;
    }

    lemma SurplusOfOne(order: seq<HealthKey>, key: HealthKey)
      ensures Ousted(order, key) == (order + [key])[..Surplus(|order + [key]|)]
      ensures OrderWith(order, key) == (order + [key])[Surplus(|order + [key]|)..]
    {
    }

    lemma KeysAreMembers()
      requires Keyed()
      ensures windows.Keys == Members(order) && Distinct(order) && forall k :: k in order <==> k in windows
    {
    }

    twostate lemma SameKeysKeyed(was: map<HealthKey, seq<Obs>>)
      requires old(Keyed()) && old(windows) == was && windows.Keys == was.Keys && order == old(order)
      ensures Keyed()
    {
    }

    lemma KeyedGrows(was: seq<HealthKey>, before: map<HealthKey, seq<Obs>>, key: HealthKey)
      requires Distinct(was) && (forall k :: k in was <==> k in before) && key !in before
      requires order == was + [key] && windows == before[key := []]
      ensures Keyed()
    {
    }

    // A new key ousts someone only when the keys written outnumber the cap.
    lemma CapStaysWhy(was: seq<HealthKey>, key: HealthKey, observed: set<HealthKey>, evicted: set<HealthKey>)
      requires CapIsWhy(Members(was), observed, evicted) && Distinct(was) && key !in was && |was| <= maxTrackedKeys
      ensures CapIsWhy(Members(OrderWith(was, key)), observed + {key}, evicted + Members(Ousted(was, key)))
    {
      MembersCount(was);
      SubsetSize(observed, observed + {key});
      if |was| < maxTrackedKeys {
        assert OrderWith(was, key) == was + [key] && Ousted(was, key) == [];
        OneMoreMember(was, key);
        NoMembers();
      } else {
        assert forall k | k in Members(OrderWith(was, key)) :: k in was || k == key;
        if evicted == {} {
          assert |Members(was) + {key}| == |was| + 1;
        }
        assert (was + [key])[0] in Members(Ousted(was, key));
      }
    }

    // Record one outcome. With time-ordered calls the deques stay faithful to history.
    method Observe(issuer: string, rail: Rail, succeeded: bool, at: Time)
      requires Valid()
      modifies this
      ensures Valid()
      ensures var key := HealthKey(Lower(issuer), rail);
        && history == old(history) + [Record(key, Obs(at, succeeded))]
        && clock == Max(old(clock), at)
        && observed == old(observed) + {key}
        && evicted == old(evicted) + (if key in old(windows) then {} else Members(Ousted(old(order), key)))
        && order == (if key in old(windows) then Without(old(order), key) + [key] else OrderWith(old(order), key))
        && (maxTrackedKeys > 0 ==> key in windows)
        && (key in windows ==> windows[key] == Trimmed(old(WindowOf(key)) + [Obs(at, succeeded)], at - window))
        && (forall k | k !in evicted && k != key :: WindowOf(k) == old(WindowOf(k)))
      ensures old(Faithful()) && old(clock) <= at ==> Faithful()
      ensures State() == Written(old(State()), HealthKey(Lower(issuer), rail), Obs(at, succeeded))
    {
      hide Trimmed, Distinct, Keyed, Agrees, Lower, CapIsWhy, Members, Ousted, OrderWith, Without, AllAgree, Kept;
      var key, o := HealthKey(Lower(issuer), rail), Obs(at, succeeded);
      ghost var ws := windows;
      Create(key);
      Append(key, o);
      if old(Faithful()) && old(clock) <= at {
        ObserveStaysFaithful(ws, windows, old(history), old(evicted), evicted, old(clock) - window,
                             at - window, Record(key, o));
      }
    }

    // Append to the key's deque and trim it; the sink keeps the row whatever the cap does.
    method Append(key: HealthKey, o: Obs)
      requires Valid()
      modifies this`windows, this`history, this`clock
      ensures Valid()
      ensures history == old(history) + [Record(key, o)] && clock == Max(old(clock), o.at)
      ensures windows == if old(key in windows) then old(windows)[key := Trimmed(old(windows[key]) + [o],
                                                                                 o.at - window)]
                         else old(windows)
    {
      hide CapIsWhy, Keyed, Distinct, Trimmed;
      ghost var was := windows;
      if key in windows {
        TrimmedNoneAfter(windows[key] + [o], o.at - window, Max(clock, o.at));
        windows := windows[key := windows[key] + [o]];
        Trim(key, o.at);
      }
      SameKeysKeyed(was);
      history, clock := history + [Record(key, o)], Max(clock, o.at);
    }

    // The verdict at `now`; on time-ordered calls it tells, for every key never evicted, of all the attempts in history
    // that still count.
    // Reading creates no key.
    method SnapshotAt(issuer: string, rail: Rail, now: Time) returns (r: Snapshot)
      requires Valid()
      modifies this`order, this`windows, this`clock
      ensures Valid() && clock == Max(old(clock), now)
      ensures windows.Keys == old(windows).Keys && |order| == |old(order)|
      ensures var key := HealthKey(Lower(issuer), rail);
        && r == old(Peek(key, now))
        && (old(Faithful()) && old(clock) <= now && key !in evicted ==>
              Says(r, |AttemptsSince(history, key, now - window)|, |SuccessesSince(history, key, now - window)|,
                   minSamples, degradedRate))
      ensures old(Faithful()) && old(clock) <= now ==> Faithful()
      ensures SameSince(old(windows), windows, now - window)
      ensures State() == Read(old(State()), HealthKey(Lower(issuer), rail), now)
    {
      hide CapIsWhy, Keyed, Verdict, Trimmed, AllAgree, Peek, Without, Says, AttemptsSince, SuccessesSince,
        NaiveVerdict;
      var key := HealthKey(Lower(issuer), rail);
      if Faithful() && clock <= now && key !in evicted {
        PeekIsNaive(key, now);
      }
      r := ReadAt(key, now);
      if old(Faithful()) && old(clock) <= now {
        SnapshotStaysFaithful(old(windows), windows, history, evicted, old(clock) - window, now - window, key);
      }
      TrimmingIsSame(old(windows), key, now - window);
      if key !in old(windows) {
        NothingIsSame(old(windows), now - window);
      }
    }

    method ReadAt(key: HealthKey, now: Time) returns (r: Snapshot)
      requires Valid()
      modifies this`order, this`windows, this`clock
      ensures Valid() && clock == Max(old(clock), now)
      ensures |order| == |old(order)|
      ensures order == if key in old(windows) then Without(old(order), key) + [key] else old(order)
      ensures windows == if key in old(windows) then old(windows)[key := Trimmed(old(windows)[key], now - window)]
                         else old(windows)
      ensures windows.Keys == old(windows).Keys
      ensures r == old(Peek(key, now))
    {
      assert Trimmed([], now - window) == [];
      hide Trimmed, Flagged, Verdict, Keyed, CapIsWhy;
      Refresh(key, now);
      r := Summarise(WindowOf(key));
      clock := Max(clock, now);
    }

    // Using a key's window trims it; an absent window stays absent.
    method Refresh(key: HealthKey, now: Time)
      requires Valid()
      modifies this`order, this`windows
      ensures Valid() && |order| == |old(order)|
      ensures order == if key in old(windows) then Without(old(order), key) + [key] else old(order)
      ensures windows == if key in old(windows) then old(windows)[key := Trimmed(old(windows)[key], now - window)]
                         else old(windows)
      ensures windows.Keys == old(windows).Keys
    {
      hide Trimmed, Distinct, CapIsWhy;
      Use(key);
      if key in windows {
        TrimmedNoneAfter(windows[key], now - window, clock);
        Trim(key, now);
      }
      assert windows.Keys == old(windows).Keys;
    }

    // The verdict of the window as it stands.
    function Peek(key: HealthKey, now: Time): Snapshot
      reads this
    {
      PeekIn(windows, key, now)
    }

    function PeekIn(ws: map<HealthKey, seq<Obs>>, key: HealthKey, now: Time): Snapshot {
      var w := Trimmed(WindowIn(ws, key), now - window);
      Verdict(|w|, Flagged(w), minSamples, degradedRate)
    }

    lemma SameVerdicts(h: Memory, h': Memory, now: Time)
      requires OnlyRead(h, h', now - window)
      ensures forall k :: PeekIn(h'.windows, k, now) == PeekIn(h.windows, k, now)
    {
      hide Verdict, Trimmed;
    }

    lemma PeekIsNaive(key: HealthKey, now: Time)
      requires Faithful() && clock <= now && key !in evicted
      ensures Peek(key, now) == NaiveVerdict(history, key, now, window, minSamples, degradedRate)
      ensures Says(Peek(key, now), |AttemptsSince(history, key, now - window)|,
                   |SuccessesSince(history, key, now - window)|, minSamples, degradedRate)
    {
      TrimAgrees(WindowOf(key), history, key, clock - window, now - window);
      NaiveSays(history, key, now, window, minSamples, degradedRate);
    }

    // As long as no more keys have been written than the cap allows, nothing has been evicted and every verdict, for
    // any key, is a recount.
    lemma FewKeysAreExact(key: HealthKey, now: Time)
      requires Valid() && Faithful() && clock <= now && |observed| <= maxTrackedKeys
      ensures evicted == {} && windows.Keys == observed
      ensures Peek(key, now) == NaiveVerdict(history, key, now, window, minSamples, degradedRate)
    {
      PeekIsNaive(key, now);
    }

    // Rehydrate a fresh monitor from the rows the sink still holds for the window, in any order of equal instants.
    // From then on it gives the verdicts of a recount over the whole stored history.
    method Restore(ghost stored: seq<Record<HealthKey>>, rows: seq<Record<HealthKey>>, now: Time)
      requires Valid() && windows == map[] && evicted == {} && history == [] && clock <= now
      requires forall i | 0 <= i < |stored| :: stored[i].obs.at <= now
      requires multiset(rows) == multiset(Since(stored, now - window))
      requires forall i, j | 0 <= i < j < |rows| :: rows[i].obs.at <= rows[j].obs.at
      modifies this
      ensures Valid() && Faithful() && history == stored && clock == now
      ensures observed == old(observed) + KeysIn(rows)
    {
      hide Keyed, Agrees, AllAgree, Since, CapIsWhy, KeysIn, NoneAfter;
      clock := now;
      NoKeys();
      AllAgreeInitially(now - window);
      RowsInWindow(stored, rows, now - window, now);
      for i := 0 to |rows|
        invariant Valid() && clock == now && history == []
        invariant observed == old(observed) + KeysIn(rows[..i])
        invariant AllAgree(windows, rows[..i], evicted, now - window)
        invariant forall k | k in windows :: i < |rows| ==> NoneAfter(windows[k], rows[i].obs.at)
      {
        RestoreRow(rows, i, now);
        KeysGrow(rows, i);
      }
      assert rows[..|rows|] == rows;
      StoredAgrees(windows, evicted, rows, stored, now - window);
      history := stored;
    }

    method RestoreRow(rows: seq<Record<HealthKey>>, i: nat, now: Time)
      requires Valid() && clock == now && history == [] && i < |rows| && rows[i].obs.at <= now
      requires AllAgree(windows, rows[..i], evicted, now - window)
      requires forall k | k in windows :: NoneAfter(windows[k], rows[i].obs.at)
      requires forall a, b | 0 <= a < b < |rows| :: rows[a].obs.at <= rows[b].obs.at
      modifies this`order, this`windows, this`observed, this`evicted
      ensures Valid() && observed == old(observed) + {rows[i].key}
      ensures AllAgree(windows, rows[..i + 1], evicted, now - window)
      ensures forall k | k in windows :: i + 1 < |rows| ==> NoneAfter(windows[k], rows[i + 1].obs.at)
    {
      hide Distinct, CapIsWhy, Members, Ousted, OrderWith, Without, Keyed, Agrees;
      var key, o := rows[i].key, rows[i].obs;
      ghost var ws := windows;
      Create(key);
      label created:
      if key in windows {
        windows := windows[key := windows[key] + [o]];
      }
      SameKeysKeyed@created(old@created(windows));
      assert rows[..i + 1] == rows[..i] + [rows[i]];
      forall k | k !in evicted ensures Agrees(WindowOf(k), rows[..i + 1], k, now - window) {
        if k == key {
          AppendAgrees(WindowIn(ws, k), rows[..i], k, now - window, o);
        } else {
          OtherAgrees(WindowIn(ws, k), rows[..i], k, now - window, rows[i]);
        }
      }
    }

    method Summarise(w: seq<Obs>) returns (r: Snapshot)
      ensures r == Verdict(|w|, Flagged(w), minSamples, degradedRate)
    {
      var successes := 0;
      for i := 0 to |w|
        invariant successes == Flagged(w[..i])
      {
        assert w[..i + 1][..i] == w[..i];
        if w[i].flag {
          successes := successes + 1;
        }
      }
      assert w[..|w|] == w;
      r := Verdict(|w|, successes, minSamples, degradedRate);
    }
  }

  // A restarted monitor and one that never stopped give the same verdict on every key neither has evicted.
  lemma RestartKeepsVerdicts(running: BankHealthMonitor, restarted: BankHealthMonitor, key: HealthKey, now: Time)
    requires running.Faithful() && restarted.Faithful() && running.history == restarted.history
    requires running.window == restarted.window && running.minSamples == restarted.minSamples
    requires running.degradedRate == restarted.degradedRate
    requires running.clock <= now && restarted.clock <= now && key !in running.evicted && key !in restarted.evicted
    ensures running.Peek(key, now) == restarted.Peek(key, now)
  {
    running.PeekIsNaive(key, now);
    restarted.PeekIsNaive(key, now);
  }

  function WindowIn(windows: map<HealthKey, seq<Obs>>, key: HealthKey): seq<Obs> {
    if key in windows then windows[key] else []
  }

  // The windows of the keys in order.
  ghost function Kept(ws: map<HealthKey, seq<Obs>>, order: seq<HealthKey>): map<HealthKey, seq<Obs>> {
    map k | k in Members(order) :: WindowIn(ws, k)
  }

  // The same observations since an instant, under every key.
  ghost predicate SameSince(ws: map<HealthKey, seq<Obs>>, ws': map<HealthKey, seq<Obs>>, cutoff: Time) {
    forall k :: Trimmed(WindowIn(ws', k), cutoff) == Trimmed(WindowIn(ws, k), cutoff)
  }

  // What reading alone may have done by an instant: nothing recorded, evicted or forgotten.
  ghost predicate OnlyRead(h: Memory, h': Memory, cutoff: Time) {
    && h'.history == h.history && h'.observed == h.observed && h'.evicted == h.evicted
    && h'.windows.Keys == h.windows.Keys && SameSince(h.windows, h'.windows, cutoff)
  }

  lemma ReadingOn(a: Memory, b: Memory, c: Memory, cutoff: Time)
    requires OnlyRead(a, b, cutoff) && OnlyRead(b, c, cutoff)
    ensures OnlyRead(a, c, cutoff)
  {
    hide Trimmed, WindowIn;
  }

  lemma TrimmingIsSame(ws: map<HealthKey, seq<Obs>>, key: HealthKey, cutoff: Time)
    ensures key in ws ==> SameSince(ws, ws[key := Trimmed(ws[key], cutoff)], cutoff)
  {
    if key in ws {
      TrimmedTwice(ws[key], cutoff);
    }
  }

  lemma NothingIsSame(ws: map<HealthKey, seq<Obs>>, cutoff: Time)
    ensures SameSince(ws, ws, cutoff)
  {
  }

  ghost predicate AllAgree(windows: map<HealthKey, seq<Obs>>, history: seq<Record<HealthKey>>, evicted: set<HealthKey>,
                           floor: Time)
  {
    forall k | k !in evicted :: Agrees(WindowIn(windows, k), history, k, floor)
  }

  lemma AllAgreeInitially(floor: Time)
    ensures AllAgree(map[], [], {}, floor)
  {
  }

  lemma RowsInWindow(stored: seq<Record<HealthKey>>, rows: seq<Record<HealthKey>>, since: Time, now: Time)
    requires forall i | 0 <= i < |stored| :: stored[i].obs.at <= now
    requires multiset(rows) == multiset(Since(stored, since))
    ensures forall i | 0 <= i < |rows| :: rows[i].obs.at <= now
  {
    forall i | 0 <= i < |rows| ensures rows[i].obs.at <= now {
      assert rows[i] in multiset(rows);
      SinceMembers(stored, since, rows[i]);
    }
  }

  // Windows that agree with the reloaded rows agree with everything the store ever held.
  lemma StoredAgrees(windows: map<HealthKey, seq<Obs>>, evicted: set<HealthKey>, rows: seq<Record<HealthKey>>,
                     stored: seq<Record<HealthKey>>, floor: Time)
    requires AllAgree(windows, rows, evicted, floor)
    requires multiset(rows) == multiset(Since(stored, floor))
    ensures AllAgree(windows, stored, evicted, floor)
  {
    forall k | k !in evicted ensures Agrees(WindowIn(windows, k), stored, k, floor) {
      forall cutoff: Time, flaggedOnly | cutoff >= floor
        ensures Recount(stored, k, cutoff, flaggedOnly) == Recount(rows, k, cutoff, flaggedOnly)
      {
        RecountSince(stored, floor, k, cutoff, flaggedOnly);
        RecountPermuted(Since(stored, floor), rows, k, cutoff, flaggedOnly);
      }
    }
  }

  lemma SnapshotStaysFaithful(ws: map<HealthKey, seq<Obs>>, ws': map<HealthKey, seq<Obs>>,
                              history: seq<Record<HealthKey>>,
                              evicted: set<HealthKey>, floor: Time, floor': Time, key: HealthKey)
    requires AllAgree(ws, history, evicted, floor) && floor <= floor'
    requires ws' == if key in ws then ws[key := Trimmed(ws[key], floor')] else ws
    ensures AllAgree(ws', history, evicted, floor')
  {
    forall k | k !in evicted ensures Agrees(WindowIn(ws', k), history, k, floor') {
      if k == key && k in ws {
        TrimAgrees(ws[k], history, k, floor, floor');
      } else {
        WeakerFloor(WindowIn(ws, k), history, k, floor, floor');
      }
    }
  }

  lemma ObserveStaysFaithful(ws: map<HealthKey, seq<Obs>>, ws': map<HealthKey, seq<Obs>>,
                             history: seq<Record<HealthKey>>,
                             evicted: set<HealthKey>, evicted': set<HealthKey>, floor: Time, floor': Time,
                               r: Record<HealthKey>)
    requires AllAgree(ws, history, evicted, floor) && floor <= floor' && evicted <= evicted'
    requires forall k | k in ws :: NoneAfter(ws[k], r.obs.at)
    requires forall k | k !in evicted' && k != r.key :: WindowIn(ws', k) == WindowIn(ws, k)
    requires r.key !in evicted' ==> WindowIn(ws', r.key) == Trimmed(WindowIn(ws, r.key) + [r.obs], floor')
    ensures AllAgree(ws', history + [r], evicted', floor')
  {
    forall k | k !in evicted' ensures Agrees(WindowIn(ws', k), history + [r], k, floor') {
      ObserveAgrees(WindowIn(ws, k), WindowIn(ws', k), history, k, floor, floor', r);
    }
  }

  ghost function KeysIn(rows: seq<Record<HealthKey>>): set<HealthKey> {
    set r | r in rows :: r.key
  }

  lemma NoKeys()
    ensures KeysIn([]) == {}
  {
  }

  lemma KeysGrow(rows: seq<Record<HealthKey>>, i: nat)
    requires i < |rows|
    ensures KeysIn(rows[..i + 1]) == KeysIn(rows[..i]) + {rows[i].key}
  {
    assert rows[..i + 1] == rows[..i] + [rows[i]];
  }

  ghost function Members(order: seq<HealthKey>): set<HealthKey> {
    set k | k in order
  }

  lemma NoMembers()
    ensures Members([]) == {}
  {
  }

  lemma OneMoreMember(order: seq<HealthKey>, key: HealthKey)
    ensures Members(order + [key]) == Members(order) + {key}
  {
  }

  lemma {:induction false} MembersCount(order: seq<HealthKey>)
    requires Distinct(order)
    ensures |Members(order)| == |order|
  {
    if order != [] {
      var rest, last := order[..|order| - 1], order[|order| - 1];
      MembersCount(rest);
      assert Members(order) == Members(rest) + {last} && last !in Members(rest);
    }
  }

  lemma SubsetSize(a: set<HealthKey>, b: set<HealthKey>)
    requires a <= b
    ensures |a| <= |b|
  {
    assert b == a + (b - a);
  }

  ghost predicate Distinct(order: seq<HealthKey>) {
    forall i, j | 0 <= i < j < |order| :: order[i] != order[j]
  }

  function Without(order: seq<HealthKey>, key: HealthKey): seq<HealthKey> {
    if order == [] then []
    else Without(order[..|order| - 1], key) + if order[|order| - 1] == key then [] else [order[|order| - 1]]
  }

  lemma {:induction false} WithoutKeys(order: seq<HealthKey>, key: HealthKey)
    requires Distinct(order)
    ensures Distinct(Without(order, key)) && key !in Without(order, key)
    ensures forall k :: k in Without(order, key) <==> k in order && k != key
    ensures |Without(order, key)| == |order| - if key in order then 1 else 0
  {
    if order != [] {
      var rest, last := order[..|order| - 1], order[|order| - 1];
      WithoutKeys(rest, key);
      assert order == rest + [last] && last !in rest;
      assert last !in Without(rest, key);
    }
  }

  lemma {:induction false} WithoutAbsent(order: seq<HealthKey>, key: HealthKey)
    requires key !in order
    ensures Without(order, key) == order
  {
    if order != [] {
      WithoutAbsent(order[..|order| - 1], key);
    }
  }

  lemma MoveToEnd(order: seq<HealthKey>, key: HealthKey)
    requires Distinct(order) && key in order
    ensures var moved := Without(order, key) + [key];
      Distinct(moved) && |moved| == |order| && forall k :: k in moved <==> k in order
  {
    WithoutKeys(order, key);
  }
}
