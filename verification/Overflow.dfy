/** What a dropped line costs: after a channel overflow the resync replays older lines over a
    newer snapshot, and the follower ends up right exactly if none of them matters. */
module Overflow {
  import opened StoreState
  import opened LogLaws
  import Mem = Memory
  import opened Replication

  // ---- one trail at a time ----------------------------------------------------------------

  function TrailFate(log: seq<Entry>, i: Id, t: Trail): Trail {
    if log == [] then t else TrailFate(log[1..], i, TrailHit(log[0], i, t))
  }

  lemma {:induction false} FollowTrailFate(s: State, log: seq<Entry>, i: Id)
    requires AllNumbered(log)
    ensures TrailOf(FollowAll(s, log), i) == TrailFate(log, i, TrailOf(s, i))
    decreases log
  {
    if log != [] {
      assert AllNumbered([log[0]]) && AllNumbered(log[1..]);
      FollowTrail(s, log[0], i);
      FollowTrailFate(Follow(s, log[0]), log[1..], i);
    }
  }

  lemma PurgesLater(log: seq<Entry>, i: Id)
    requires log != []
    ensures PurgesTrail(log, i) <==> log[0] == Purge(i) || PurgesTrail(log[1..], i)
  {
    if PurgesTrail(log[1..], i) {
      var n :| 0 <= n < |log[1..]| && log[1..][n] == Purge(i);
      assert log[n + 1] == Purge(i);
    }
    if PurgesTrail(log, i) && log[0] != Purge(i) {
      var n :| 0 <= n < |log| && log[n] == Purge(i);
      assert log[1..][n - 1] == Purge(i);
    }
  }

  /** Past a purge nothing shows of what came before. */
  lemma {:induction false} PurgeFixes(log: seq<Entry>, i: Id, t: Trail, u: Trail)
    requires PurgesTrail(log, i) || t == u
    ensures TrailFate(log, i, t) == TrailFate(log, i, u)
    decreases log
  {
    if log != [] {
      PurgesLater(log, i);
      PurgeFixes(log[1..], i, TrailHit(log[0], i, t), TrailHit(log[0], i, u));
    }
  }

  /** Without a purge a trail only grows, and stays as it is exactly if no number is new. */
  lemma {:induction false} TrailGrows(log: seq<Entry>, i: Id, t: Trail)
    requires !PurgesTrail(log, i)
    ensures t.events <= TrailFate(log, i, t).events
    ensures TrailFate(log, i, t) == t <==> TopSeq(log, i) <= t.high
    ensures t.high <= TrailFate(log, i, t).high
    decreases log
  {
    if log != [] {
      PurgesLater(log, i);
      TrailGrows(log[1..], i, TrailHit(log[0], i, t));
    }
  }

  /** An emptied trail stays empty exactly if no event of the window outlives its purges. */
  lemma {:induction false} EmptyTrailStays(log: seq<Entry>, i: Id, t: Trail)
    requires AllNumbered(log) && (PurgesTrail(log, i) || t == Trail([], 0))
    ensures TrailFate(log, i, t) == Trail([], 0) <==> Survivors(log, i) == []
    decreases log
  {
    if log != [] {
      PurgesLater(log, i);
      assert AllNumbered(log[1..]);
      var t' := TrailHit(log[0], i, t);
      if log[0].Append? && log[0].event.instance == i && !PurgesTrail(log[1..], i) {
        TrailGrows(log[1..], i, t');
        assert t'.events != [];
      } else {
        EmptyTrailStays(log[1..], i, t');
      }
    }
  }

  // ---- one record at a time ---------------------------------------------------------------

  /** Some purge of the window takes the record. */
  ghost predicate Purged(log: seq<Entry>, k: Key, r: Record) {
    exists n :: 0 <= n < |log| && log[n].Purge? && PurgeHits(log[n].instance, k, r)
  }

  lemma {:induction false} KeptUnlessPurged(log: seq<Entry>, k: Key, r: Record)
    requires !Overwrites(log, k)
    ensures Fate(log, k, Some(r)) == Some(r) <==> !Purged(log, k, r)
    decreases log
  {
    if log != [] {
      forall n | 0 <= n < |log[1..]|
        ensures !(log[1..][n] == Delete(k) || (log[1..][n].Put? && KeyOf(log[1..][n].id, log[1..][n].record) == k))
      {
        assert log[n + 1] == log[1..][n];
      }
      if log[0].Purge? && PurgeHits(log[0].instance, k, r) {
        OtherwiseFilters(log[1..], k, None);
      } else {
        KeptUnlessPurged(log[1..], k, r);
        if Purged(log, k, r) {
          var n :| 0 <= n < |log| && log[n].Purge? && PurgeHits(log[n].instance, k, r);
          assert log[1..][n - 1] == log[n];
        }
        if Purged(log[1..], k, r) {
          var n :| 0 <= n < |log[1..]| && log[1..][n].Purge? && PurgeHits(log[1..][n].instance, k, r);
          assert log[n + 1] == log[1..][n];
        }
      }
    }
  }

  /** Replaying a window that was already in the old value: the new one survives exactly if
      the window neither writes the key nor purges the record. */
  lemma NewValueSurvives(log: seq<Entry>, k: Key, was: Option<Record>, now: Option<Record>)
    requires Fate(log, k, was) == was && now != was
    ensures Fate(log, k, now) == now <==> !Overwrites(log, k) && (now.Some? ==> !Purged(log, k, now.value))
  {
    if Overwrites(log, k) {
      OverwriteFixes(log, k, was, now);
    } else if now.Some? {
      KeptUnlessPurged(log, k, now.value);
    } else {
      OtherwiseFilters(log, k, now);
    }
  }

  // ---- the exact condition ----------------------------------------------------------------

  /** Whatever was dropped, and however many lines: the resync leaves the follower equal to
      the leader exactly if no line still queued changes any record or trail of the leader. */
  lemma ResyncConvergesExactly(l: Link)
    requires l.phase.Idle? && l.ch != [] && WellFormed(l.leader) && AllNumbered(l.ch)
    ensures Runnable(l, Resync(l.ch)) && Run(l, Resync(l.ch)).leader == l.leader
    ensures Run(l, Resync(l.ch)).follower == l.leader <==>
      && (forall k :: Fate(l.ch, k, Lookup(l.leader, k)) == Lookup(l.leader, k))
      && (forall i :: TrailFate(l.ch, i, TrailOf(l.leader, i)) == TrailOf(l.leader, i))
  {
    ResyncReplaysChannel(l);
    SameByParts(l.leader, l.ch);
  }

  lemma SameByParts(s: State, log: seq<Entry>)
    requires WellFormed(s) && AllNumbered(log)
    ensures FollowAll(s, log) == s <==>
      && (forall k :: Fate(log, k, Lookup(s, k)) == Lookup(s, k))
      && (forall i :: TrailFate(log, i, TrailOf(s, i)) == TrailOf(s, i))
  {
    FollowAllWellFormed(s, log);
    forall k ensures Lookup(FollowAll(s, log), k) == Fate(log, k, Lookup(s, k)) { FollowFate(s, log, k); }
    forall i ensures TrailOf(FollowAll(s, log), i) == TrailFate(log, i, TrailOf(s, i)) { FollowTrailFate(s, log, i); }
    if (forall k :: Fate(log, k, Lookup(s, k)) == Lookup(s, k))
       && (forall i :: TrailFate(log, i, TrailOf(s, i)) == TrailOf(s, i)) {
      SameParts(FollowAll(s, log), s);
    }
  }

  /** The queued lines leave alone what the dropped operation did: no record it changed is
      written by one of them, none it left there is purged, the trail of an event it noted is
      not purged, and no event outlives the purges of a trail it dropped. */
  ghost predicate LeavesAlone(ch: seq<Entry>, was: State, now: State, op: Mem.Op) {
    && (forall k :: Lookup(now, k) != Lookup(was, k) ==>
          !Overwrites(ch, k) && (Lookup(now, k).Some? ==> !Purged(ch, k, Lookup(now, k).value)))
    && (op.Note? ==> !PurgesTrail(ch, op.event.instance))
    && (op.Forget? ==> Survivors(ch, op.instance) == [])
  }

  /** When all lines of one operation are dropped, the resync makes the follower right exactly
      if the lines still queued leave alone what the operation did. */
  lemma OverflowExactly(l: Link, dropped: Mem.Op)
    requires Inv(l) && l.phase.Idle? && l.ch != [] && EngineOp(dropped)
    ensures var l' := NextDropping(l, dropped);
      && Runnable(l', Resync(l.ch))
      && (Run(l', Resync(l.ch)).follower == l'.leader <==> LeavesAlone(l.ch, l.leader, l'.leader, dropped))
  {
    var l' := NextDropping(l, dropped);
    LeaderLines(l.leader, dropped);
    ResyncConvergesExactly(l');
    SameByParts(l.leader, l.ch);
    forall k
      ensures Fate(l.ch, k, Lookup(l'.leader, k)) == Lookup(l'.leader, k)
         <==> (Lookup(l'.leader, k) != Lookup(l.leader, k) ==>
                 !Overwrites(l.ch, k) && (Lookup(l'.leader, k).Some? ==> !Purged(l.ch, k, Lookup(l'.leader, k).value)))
    {
      if Lookup(l'.leader, k) != Lookup(l.leader, k) {
        NewValueSurvives(l.ch, k, Lookup(l.leader, k), Lookup(l'.leader, k));
      }
    }
    TrailsAlone(l, dropped);
  }

  lemma TrailsAlone(l: Link, dropped: Mem.Op)
    requires Inv(l) && EngineOp(dropped)
    ensures var now := NextDropping(l, dropped).leader;
      (forall i :: TrailFate(l.ch, i, TrailOf(now, i)) == TrailOf(now, i))
      <==> (dropped.Note? ==> !PurgesTrail(l.ch, dropped.event.instance))
           && (dropped.Forget? ==> Survivors(l.ch, dropped.instance) == [])
  {
    var now := NextDropping(l, dropped).leader;
    SameByParts(l.leader, l.ch);
    if dropped.Note? {
      var i := dropped.event.instance;
      forall j | j != i ensures TrailOf(now, j) == TrailOf(l.leader, j) {
      }
      if PurgesTrail(l.ch, i) {
        PurgeFixes(l.ch, i, TrailOf(now, i), TrailOf(l.leader, i));
        assert TrailOf(now, i).high != TrailOf(l.leader, i).high;
      } else {
        TrailGrows(l.ch, i, TrailOf(now, i));
        TrailGrows(l.ch, i, TrailOf(l.leader, i));
      }
    } else if dropped.Forget? {
      var i := dropped.instance;
      forall j | j != i ensures TrailOf(now, j) == TrailOf(l.leader, j) {
      }
      assert TrailOf(now, i) == Trail([], 0);
      EmptyTrailStays(l.ch, i, TrailOf(now, i));
    } else {
      forall j ensures TrailOf(now, j) == TrailOf(l.leader, j) {
      }
    }
  }
}
