// Sliding windows of observations: a deque trimmed from the front against a recount of the whole history.
module Windows {
  import opened Models

  // An observation and whether it is of the counted kind.
  datatype Obs = Obs(at: Time, flag: bool)

  // One observation of a keyed history.
  datatype Record<K> = Record(key: K, obs: Obs)

  // ------------------------------------------------------------ recounting

  // Observations of one key since a cutoff, over the whole history; `flaggedOnly` counts the flagged alone.
  function Recount<K(==)>(history: seq<Record<K>>, key: K, cutoff: Time, flaggedOnly: bool): nat {
    if history == [] then 0
    else
      var last := history[|history| - 1];
      Recount(history[..|history| - 1], key, cutoff, flaggedOnly)
      + if last.key == key && last.obs.at >= cutoff && (flaggedOnly ==> last.obs.flag) then 1 else 0
  }

  function CountSince(w: seq<Obs>, cutoff: Time, flaggedOnly: bool): nat {
    if w == [] then 0
    else
      var last := w[|w| - 1];
      CountSince(w[..|w| - 1], cutoff, flaggedOnly) + if last.at >= cutoff && (flaggedOnly ==> last.flag) then 1 else 0
  }

  function Flagged(w: seq<Obs>): nat {
    if w == [] then 0 else Flagged(w[..|w| - 1]) + if w[|w| - 1].flag then 1 else 0
  }

  predicate Sorted(w: seq<Obs>) {
    forall i, j | 0 <= i < j < |w| :: w[i].at <= w[j].at
  }

  // What the popping loop leaves of a window.
  function Trimmed(w: seq<Obs>, cutoff: Time): seq<Obs> {
    if w != [] && w[0].at < cutoff then Trimmed(w[1..], cutoff) else w
  }

  lemma {:induction false} TrimmedTwice(w: seq<Obs>, cutoff: Time)
    ensures Trimmed(Trimmed(w, cutoff), cutoff) == Trimmed(w, cutoff)
  {
    if w != [] && w[0].at < cutoff {
      TrimmedTwice(w[1..], cutoff);
    }
  }

  lemma {:induction false} DropFirst(w: seq<Obs>, cutoff: Time, flaggedOnly: bool)
    requires w != []
    ensures CountSince(w, cutoff, flaggedOnly) ==
      CountSince(w[1..], cutoff, flaggedOnly) + if w[0].at >= cutoff && (flaggedOnly ==> w[0].flag) then 1 else 0
  {
    if |w| > 1 {
      DropFirst(w[..|w| - 1], cutoff, flaggedOnly);
      assert w[..|w| - 1][1..] == w[1..][..|w| - 2];
    }
  }

  // Trimming at one cutoff loses nothing that a later cutoff would count.
  lemma {:induction false} TrimKeepsCounts(w: seq<Obs>, cutoff: Time, later: Time, flaggedOnly: bool)
    requires cutoff <= later
    ensures CountSince(Trimmed(w, cutoff), later, flaggedOnly) == CountSince(w, later, flaggedOnly)
  {
    if w != [] && w[0].at < cutoff {
      DropFirst(w, later, flaggedOnly);
      TrimKeepsCounts(w[1..], cutoff, later, flaggedOnly);
    }
  }

  lemma {:induction false} TrimmedShape(w: seq<Obs>, cutoff: Time)
    requires Sorted(w)
    ensures Sorted(Trimmed(w, cutoff)) && |Trimmed(w, cutoff)| <= |w|
    ensures forall i | 0 <= i < |Trimmed(w, cutoff)| :: Trimmed(w, cutoff)[i].at >= cutoff
  {
    if w != [] && w[0].at < cutoff {
      TrimmedShape(w[1..], cutoff);
    }
  }

  // When nothing is older than the cutoff, counting since the cutoff counts everything.
  lemma {:induction false} AllCounted(w: seq<Obs>, cutoff: Time)
    requires forall i | 0 <= i < |w| :: w[i].at >= cutoff
    ensures CountSince(w, cutoff, false) == |w| && CountSince(w, cutoff, true) == Flagged(w)
  {
    if w != [] {
      AllCounted(w[..|w| - 1], cutoff);
    }
  }

  // The trimmed window of a key whose counts agree with history from `floor` on.
  ghost predicate Agrees<K>(w: seq<Obs>, history: seq<Record<K>>, key: K, floor: Time) {
    && Sorted(w)
    && (forall cutoff: Time, flaggedOnly | cutoff >= floor ::
          CountSince(w, cutoff, flaggedOnly) == Recount(history, key, cutoff, flaggedOnly))
  }

  lemma {:induction false} TrimAgrees<K>(w: seq<Obs>, history: seq<Record<K>>, key: K, floor: Time, cutoff: Time)
    requires Agrees(w, history, key, floor) && floor <= cutoff
    ensures Agrees(Trimmed(w, cutoff), history, key, cutoff)
    ensures |Trimmed(w, cutoff)| == Recount(history, key, cutoff, false)
    ensures Flagged(Trimmed(w, cutoff)) == Recount(history, key, cutoff, true)
  {
    TrimmedShape(w, cutoff);
    AllCounted(Trimmed(w, cutoff), cutoff);
    forall later: Time, flaggedOnly | later >= cutoff
      ensures CountSince(Trimmed(w, cutoff), later, flaggedOnly) == Recount(history, key, later, flaggedOnly)
    {
      TrimKeepsCounts(w, cutoff, later, flaggedOnly);
    }
  }

  lemma AppendAgrees<K>(w: seq<Obs>, history: seq<Record<K>>, key: K, floor: Time, o: Obs)
    requires Agrees(w, history, key, floor)
    requires forall i | 0 <= i < |w| :: w[i].at <= o.at
    ensures Agrees(w + [o], history + [Record(key, o)], key, floor)
  {
    var w', h' := w + [o], history + [Record(key, o)];
    assert w'[..|w'| - 1] == w && h'[..|h'| - 1] == history;
  }

  lemma OtherAgrees<K>(w: seq<Obs>, history: seq<Record<K>>, key: K, floor: Time, r: Record<K>)
    requires Agrees(w, history, key, floor) && r.key != key
    ensures Agrees(w, history + [r], key, floor)
  {
    var h' := history + [r];
    assert h'[..|h'| - 1] == history;
  }

  // The rows a reload selects.
  function Since<K>(rows: seq<Record<K>>, cutoff: Time): seq<Record<K>> {
    if rows == [] then []
    else Since(rows[..|rows| - 1], cutoff) + if rows[|rows| - 1].obs.at >= cutoff then [rows[|rows| - 1]] else []
  }

  lemma {:induction false} SinceMembers<K>(rows: seq<Record<K>>, cutoff: Time, r: Record<K>)
    requires r in Since(rows, cutoff)
    ensures r in rows && r.obs.at >= cutoff
  {
    if r in Since(rows[..|rows| - 1], cutoff) {
      SinceMembers(rows[..|rows| - 1], cutoff, r);
    }
  }

  lemma {:induction false} RecountSince<K>(rows: seq<Record<K>>, since: Time, key: K, cutoff: Time, flaggedOnly: bool)
    requires since <= cutoff
    ensures Recount(Since(rows, since), key, cutoff, flaggedOnly) == Recount(rows, key, cutoff, flaggedOnly)
  {
    if rows != [] {
      var rest, last := rows[..|rows| - 1], rows[|rows| - 1];
      RecountSince(rest, since, key, cutoff, flaggedOnly);
      var kept := Since(rest, since);
      if last.obs.at >= since {
        assert Since(rows, since) == kept + [last];
        assert (kept + [last])[..|kept|] == kept;
      } else {
        assert Since(rows, since) == kept;
      }
    }
  }

  lemma {:induction false} RecountSplit<K>(a: seq<Record<K>>, b: seq<Record<K>>, key: K, cutoff: Time,
                                           flaggedOnly: bool)
    ensures Recount(a + b, key, cutoff, flaggedOnly) ==
      Recount(a, key, cutoff, flaggedOnly) + Recount(b, key, cutoff, flaggedOnly)
  {
    if b == [] {
      assert a + b == a;
    } else {
      RecountSplit(a, b[..|b| - 1], key, cutoff, flaggedOnly);
      assert (a + b)[..|a + b| - 1] == a + b[..|b| - 1];
    }
  }

  // A recount does not depend on the order of the rows.
  lemma {:induction false} RecountPermuted<K>(a: seq<Record<K>>, b: seq<Record<K>>, key: K, cutoff: Time,
                                              flaggedOnly: bool)
    requires multiset(a) == multiset(b)
    ensures Recount(a, key, cutoff, flaggedOnly) == Recount(b, key, cutoff, flaggedOnly)
  {
    if a == [] {
      assert |b| == |multiset(b)| == |multiset(a)| == 0;
    } else {
      var last := a[|a| - 1];
      assert last in multiset(b);
      var j :| 0 <= j < |b| && b[j] == last;
      assert a == a[..|a| - 1] + [last];
      assert b == b[..j] + [last] + b[j + 1..];
      assert multiset(a[..|a| - 1]) == multiset(a) - multiset{last};
      assert multiset(b[..j] + b[j + 1..]) == multiset(b) - multiset{last};
      RecountPermuted(a[..|a| - 1], b[..j] + b[j + 1..], key, cutoff, flaggedOnly);
      RecountSplit(a[..|a| - 1], [last], key, cutoff, flaggedOnly);
      RecountSplit(b[..j], b[j + 1..], key, cutoff, flaggedOnly);
      RecountSplit(b[..j] + [last], b[j + 1..], key, cutoff, flaggedOnly);
      RecountSplit(b[..j], [last], key, cutoff, flaggedOnly);
    }
  }

  ghost predicate NoneAfter(w: seq<Obs>, t: Time) {
    forall i | 0 <= i < |w| :: w[i].at <= t
  }

  lemma NothingAfter(t: Time)
    ensures NoneAfter([], t)
  {
  }

  lemma {:induction false} TrimmedNoneAfter(w: seq<Obs>, cutoff: Time, t: Time)
    requires NoneAfter(w, t)
    ensures NoneAfter(Trimmed(w, cutoff), t)
  {
    if w != [] && w[0].at < cutoff {
      TrimmedNoneAfter(w[1..], cutoff, t);
    }
  }

  lemma WeakerFloor<K>(w: seq<Obs>, history: seq<Record<K>>, key: K, floor: Time, floor': Time)
    requires Agrees(w, history, key, floor) && floor <= floor'
    ensures Agrees(w, history, key, floor')
  {
  }

  lemma ObserveAgrees<K>(w: seq<Obs>, w': seq<Obs>, history: seq<Record<K>>, k: K, floor: Time, floor': Time,
                      r: Record<K>)
    requires Agrees(w, history, k, floor) && floor <= floor'
    requires NoneAfter(w, r.obs.at)
    requires w' == if k == r.key then Trimmed(w + [r.obs], floor') else w
    ensures Agrees(w', history + [r], k, floor')
  {
    if k == r.key {
      AppendAgrees(w, history, k, floor, r.obs);
      TrimAgrees(w + [r.obs], history + [r], k, floor, floor');
    } else {
      OtherAgrees(w, history, k, floor, r);
      WeakerFloor(w, history + [r], k, floor, floor');
    }
  }
}
