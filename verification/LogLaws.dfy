/** Why re-delivering part of a log is harmless: one key and one instance at a time, a
    window of lines either overwrites or only filters, so a second pass changes nothing. */
module LogLaws {
  import opened StoreState

  // ---- one record at a time ---------------------------------------------------------

  /** The effect of one line on what is stored under `k`. */
  function Hit(e: Entry, k: Key, v: Option<Record>): Option<Record> {
    match e
    case Put(id, r) => if KeyOf(id, r) == k then Some(r) else v
    case Delete(k') => if k' == k then None else v
    case Purge(i) => if v.Some? && PurgeHits(i, k, v.value) then None else v
    case Append(_) => v
  }

  function Fate(log: seq<Entry>, k: Key, v: Option<Record>): Option<Record> {
    if log == [] then v else Fate(log[1..], k, Hit(log[0], k, v))
  }

  lemma {:induction false} ReplayFate(s: State, log: seq<Entry>, k: Key)
    ensures Lookup(Replay(s, log), k) == Fate(log, k, Lookup(s, k))
    decreases log
  {
    if log != [] {
      ReplayFate(Apply(s, log[0]), log[1..], k);
    }
  }

  lemma {:induction false} FollowFate(s: State, log: seq<Entry>, k: Key)
    ensures Lookup(FollowAll(s, log), k) == Fate(log, k, Lookup(s, k))
    decreases log
  {
    if log != [] {
      FollowFate(Follow(s, log[0]), log[1..], k);
    }
  }

  predicate Overwrites(log: seq<Entry>, k: Key) {
    exists n :: 0 <= n < |log| && (log[n] == Delete(k) || (log[n].Put? && KeyOf(log[n].id, log[n].record) == k))
  }

  /** A window that puts or deletes the key fixes what is stored there. */
  lemma {:induction false} OverwriteFixes(log: seq<Entry>, k: Key, u: Option<Record>, w: Option<Record>)
    requires Overwrites(log, k) || u == w
    ensures Fate(log, k, u) == Fate(log, k, w)
    decreases log
  {
    if log != [] {
      var u', w' := Hit(log[0], k, u), Hit(log[0], k, w);
      if u' != w' {
        var n :| 0 <= n < |log| && (log[n] == Delete(k) || (log[n].Put? && KeyOf(log[n].id, log[n].record) == k));
        assert log[1..][n - 1] == log[n];
      }
      OverwriteFixes(log[1..], k, u', w');
    }
  }

  /** Any other window keeps the record it finds or drops it. */
  lemma {:induction false} OtherwiseFilters(log: seq<Entry>, k: Key, v: Option<Record>)
    requires !Overwrites(log, k)
    ensures Fate(log, k, v) == v || Fate(log, k, v) == None
    ensures Fate(log, k, None) == None
    decreases log
  {
    if log != [] {
      forall n | 0 <= n < |log[1..]|
        ensures !(log[1..][n] == Delete(k) || (log[1..][n].Put? && KeyOf(log[1..][n].id, log[1..][n].record) == k))
      {
        assert log[n + 1] == log[1..][n];
      }
      OtherwiseFilters(log[1..], k, Hit(log[0], k, v));
    }
  }

  lemma FateIdempotent(log: seq<Entry>, k: Key, v: Option<Record>)
    ensures Fate(log, k, Fate(log, k, v)) == Fate(log, k, v)
  {
    if Overwrites(log, k) {
      OverwriteFixes(log, k, Fate(log, k, v), v);
    } else {
      OtherwiseFilters(log, k, v);
    }
  }

  // ---- one audit trail at a time ----------------------------------------------------

  datatype Trail = Trail(events: seq<Event>, high: nat)

  function TrailOf(s: State, i: Id): Trail {
    Trail(HistoryOf(s, i), High(s, i))
  }

  /** A well-formed state is its records plus one trail per instance. */
  lemma SameParts(s: State, t: State)
    requires WellFormed(s) && WellFormed(t)
    requires forall k :: Lookup(s, k) == Lookup(t, k)
    requires forall i :: TrailOf(s, i) == TrailOf(t, i)
    ensures s == t
  {
    assert s.records == t.records by {
      forall k ensures (k in s.records) == (k in t.records)
                    && (k in s.records ==> s.records[k] == t.records[k]) {
        assert Lookup(s, k) == Lookup(t, k);
      }
    }
    forall i
      ensures (i in s.history) == (i in t.history)
      ensures i in s.history ==> s.history[i] == t.history[i] && s.histSeq[i] == t.histSeq[i]
    {
      assert TrailOf(s, i) == TrailOf(t, i);
    }
    assert s.history == t.history;
    assert s.histSeq == t.histSeq;
  }

  /** Every line a journal writes carries an assigned sequence number. */
  predicate AllNumbered(log: seq<Entry>) {
    forall n :: 0 <= n < |log| && log[n].Append? ==> log[n].event.seqNo > 0
  }

  predicate PurgesTrail(log: seq<Entry>, i: Id) {
    exists n :: 0 <= n < |log| && log[n] == Purge(i)
  }

  /** Largest number the window carries for an instance. */
  function TopSeq(log: seq<Entry>, i: Id): nat {
    if log == [] then 0
    else Max(if log[0].Append? && log[0].event.instance == i then log[0].event.seqNo else 0, TopSeq(log[1..], i))
  }

  lemma {:induction false} FollowRaisesHigh(s: State, log: seq<Entry>, i: Id)
    requires AllNumbered(log) && !PurgesTrail(log, i)
    ensures High(FollowAll(s, log), i) >= High(s, i)
    ensures High(FollowAll(s, log), i) >= TopSeq(log, i)
    decreases log
  {
    if log != [] {
      assert log[0] != Purge(i);
      FollowRaisesHigh(Follow(s, log[0]), log[1..], i);
    }
  }

  lemma {:induction false} FollowSkipsKnown(s: State, log: seq<Entry>, i: Id)
    requires AllNumbered(log) && !PurgesTrail(log, i)
    requires TopSeq(log, i) <= High(s, i)
    ensures TrailOf(FollowAll(s, log), i) == TrailOf(s, i)
    decreases log
  {
    if log != [] {
      assert log[0] != Purge(i);
      FollowSkipsKnown(Follow(s, log[0]), log[1..], i);
    }
  }

  function TrailHit(e: Entry, i: Id, t: Trail): Trail {
    match e
    case Append(ev) =>
      if ev.instance == i && t.high < ev.seqNo then Trail(t.events + [ev], ev.seqNo) else t
    case Purge(j) => if i == j then Trail([], 0) else t
    case _ => t
  }

  lemma FollowTrail(s: State, e: Entry, i: Id)
    requires AllNumbered([e])
    ensures TrailOf(Follow(s, e), i) == TrailHit(e, i, TrailOf(s, i))
  {
    assert [e][0] == e;
  }

  /** Past a purge, what came before no longer shows. */
  lemma {:induction false} PurgeForgets(s: State, t: State, log: seq<Entry>, i: Id)
    requires AllNumbered(log)
    requires PurgesTrail(log, i) || TrailOf(s, i) == TrailOf(t, i)
    ensures TrailOf(FollowAll(s, log), i) == TrailOf(FollowAll(t, log), i)
    decreases log
  {
    if log != [] {
      FollowTrail(s, log[0], i);
      FollowTrail(t, log[0], i);
      if log[0] != Purge(i) && PurgesTrail(log, i) {
        var n :| 0 <= n < |log| && log[n] == Purge(i);
        assert log[1..][n - 1] == Purge(i);
      }
      PurgeForgets(Follow(s, log[0]), Follow(t, log[0]), log[1..], i);
    }
  }

  lemma TrailIdempotent(s: State, log: seq<Entry>, i: Id)
    requires AllNumbered(log)
    ensures TrailOf(FollowAll(FollowAll(s, log), log), i) == TrailOf(FollowAll(s, log), i)
  {
    if PurgesTrail(log, i) {
      PurgeForgets(FollowAll(s, log), s, log, i);
    } else {
      FollowRaisesHigh(s, log, i);
      FollowSkipsKnown(FollowAll(s, log), log, i);
    }
  }

  // ---- the law ------------------------------------------------------------------------

  /** A window re-delivered on top of its own effect changes nothing, whatever mix of
      puts, deletes, purges and history it holds and whatever state it started from. */
  lemma OverlapIdempotent(s: State, log: seq<Entry>)
    requires WellFormed(s) && AllNumbered(log)
    ensures FollowAll(FollowAll(s, log), log) == FollowAll(s, log)
  {
    var once := FollowAll(s, log);
    var twice := FollowAll(once, log);
    FollowAllWellFormed(s, log);
    FollowAllWellFormed(once, log);
    forall k ensures Lookup(twice, k) == Lookup(once, k) {
      FollowFate(s, log, k);
      FollowFate(once, log, k);
      FateIdempotent(log, k, Lookup(s, k));
    }
    forall i ensures TrailOf(twice, i) == TrailOf(once, i) {
      TrailIdempotent(s, log, i);
    }
    SameParts(twice, once);
  }

  /** Delivery may restart anywhere: lines `b` sent again onto a state that already
      holds `a + b + c` are caught up by sending `c` again. */
  lemma OverlapCatchesUp(s: State, a: seq<Entry>, b: seq<Entry>, c: seq<Entry>)
    requires WellFormed(s) && AllNumbered(a + b + c)
    ensures FollowAll(FollowAll(s, a + b + c), b + c) == FollowAll(s, a + b + c)
  {
    assert a + b + c == a + (b + c);
    FollowAllConcat(s, a, b + c);
    FollowAllWellFormed(s, a);
    forall n | 0 <= n < |b + c| && (b + c)[n].Append?
      ensures (b + c)[n].event.seqNo > 0
    {
      assert (a + b + c)[|a| + n] == (b + c)[n];
    }
    OverlapIdempotent(FollowAll(s, a), b + c);
  }

  // ---- replay without deduplication ---------------------------------------------------

  /** Events of `i` in the window that no later purge of the window drops. */
  function Survivors(log: seq<Entry>, i: Id): seq<Event> {
    if log == [] then []
    else if log[0].Append? && log[0].event.instance == i && !PurgesTrail(log[1..], i)
    then [log[0].event] + Survivors(log[1..], i)
    else Survivors(log[1..], i)
  }

  /** Plain replay appends the survivors, after dropping the old trail if it was purged. */
  lemma {:induction false} ReplayTrail(s: State, log: seq<Entry>, i: Id)
    requires AllNumbered(log)
    ensures HistoryOf(Replay(s, log), i)
         == (if PurgesTrail(log, i) then [] else HistoryOf(s, i)) + Survivors(log, i)
    decreases log
  {
    if log != [] {
      ReplayTrail(Apply(s, log[0]), log[1..], i);
      if PurgesTrail(log[1..], i) {
        var n :| 0 <= n < |log[1..]| && log[1..][n] == Purge(i);
        assert log[n + 1] == Purge(i);
      } else {
        assert forall n :: 1 <= n < |log| ==> log[n] == log[1..][n - 1];
        assert PurgesTrail(log, i) <==> log[0] == Purge(i);
      }
    }
  }

  lemma {:induction false} MaxSeqConcat(a: seq<Event>, b: seq<Event>)
    ensures MaxSeq(a + b) == Max(MaxSeq(a), MaxSeq(b))
  {
    if b == [] {
      assert a + b == a;
    } else {
      assert (a + b)[..|a + b| - 1] == a + b[..|b| - 1];
      MaxSeqConcat(a, b[..|b| - 1]);
    }
  }

  /** Replaying a whole window over a state that already holds it: the keyed records and
      the counters come back exactly, and each trail holds the same events. */
  lemma ReplayTwice(s: State, log: seq<Entry>)
    requires WellFormed(s) && AllNumbered(log)
    ensures Replay(Replay(s, log), log).records == Replay(s, log).records
    ensures Replay(Replay(s, log), log).histSeq == Replay(s, log).histSeq
    ensures forall i, ev :: ev in HistoryOf(Replay(Replay(s, log), log), i)
                       <==> ev in HistoryOf(Replay(s, log), i)
  {
    var once := Replay(s, log);
    var twice := Replay(once, log);
    ReplayWellFormed(s, log);
    ReplayWellFormed(once, log);
    forall k ensures (k in twice.records) == (k in once.records)
                  && (k in once.records ==> twice.records[k] == once.records[k]) {
      ReplayFate(s, log, k);
      ReplayFate(once, log, k);
      FateIdempotent(log, k, Lookup(s, k));
    }
    assert twice.records == once.records;
    forall i
      ensures forall ev :: ev in HistoryOf(twice, i) <==> ev in HistoryOf(once, i)
      ensures MaxSeq(HistoryOf(twice, i)) == MaxSeq(HistoryOf(once, i))
      ensures HistoryOf(twice, i) == [] <==> HistoryOf(once, i) == []
    {
      ReplayTrail(s, log, i);
      ReplayTrail(once, log, i);
      MaxSeqConcat(HistoryOf(once, i), Survivors(log, i));
      MaxSeqConcat(if PurgesTrail(log, i) then [] else HistoryOf(s, i), Survivors(log, i));
    }
    forall i
      ensures i in twice.histSeq <==> i in once.histSeq
      ensures i in once.histSeq ==> twice.histSeq[i] == once.histSeq[i]
    {
      assert MaxSeq(HistoryOf(twice, i)) == MaxSeq(HistoryOf(once, i));
      assert HistoryOf(twice, i) == [] <==> HistoryOf(once, i) == [];
      assert i in twice.histSeq <==> i in twice.history;
      assert i in once.histSeq <==> i in once.history;
    }
  }

  /** A trail survives that double replay unrepeated exactly when the window purged it or
      said nothing about it. */
  lemma ReplayTwiceExactTrail(s: State, log: seq<Entry>, i: Id)
    requires AllNumbered(log)
    ensures HistoryOf(Replay(Replay(s, log), log), i) == HistoryOf(Replay(s, log), i)
       <==> PurgesTrail(log, i) || forall n :: 0 <= n < |log| && log[n].Append? ==> log[n].event.instance != i
  {
    ReplayTrail(s, log, i);
    ReplayTrail(Replay(s, log), log, i);
    if !PurgesTrail(log, i) {
      NoSurvivors(log, i);
      assert |HistoryOf(Replay(Replay(s, log), log), i)| == |HistoryOf(Replay(s, log), i)| + |Survivors(log, i)|;
    }
  }

  lemma {:induction false} NoSurvivors(log: seq<Entry>, i: Id)
    requires !PurgesTrail(log, i)
    ensures Survivors(log, i) == []
       <==> forall n :: 0 <= n < |log| && log[n].Append? ==> log[n].event.instance != i
  {
    if log != [] {
      assert forall n :: 1 <= n < |log| ==> log[n] == log[1..][n - 1];
      assert !PurgesTrail(log[1..], i) by {
        forall n | 0 <= n < |log[1..]| ensures log[1..][n] != Purge(i) { assert log[n + 1] == log[1..][n]; }
      }
      NoSurvivors(log[1..], i);
      if Survivors(log, i) == [] {
        forall n | 0 <= n < |log| && log[n].Append? ensures log[n].event.instance != i {
          if n > 0 { assert log[n] == log[1..][n - 1]; }
        }
      } else if Survivors(log[1..], i) != [] {
        var n :| 0 <= n < |log[1..]| && log[1..][n].Append? && log[1..][n].event.instance == i;
        assert log[n + 1].event.instance == i;
      }
    }
  }
}
