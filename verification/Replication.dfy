/** Leader-to-follower streaming: a tap on the journal fills a channel, the sender
    batches it, and any failure falls back to a full snapshot. */
module Replication {
  import opened StoreState
  import opened LogLaws
  import opened JournalState
  import Mem = Memory
  import J = Journal

  // ---- the protocol, step by step -----------------------------------------------------

  /** What the sender goroutine is blocked on. While a snapshot is in flight the leader
      keeps going; `covered` counts the channel lines that were queued when it was taken. */
  datatype Phase = Idle | Syncing(snap: State, covered: nat) | Sending

  datatype Link = Link(leader: State, ch: seq<Entry>, batch: seq<Entry>,
                       needSync: bool, phase: Phase, follower: State)

  datatype Step =
    | LeaderOp(op: Mem.Op)
    | Take
    | Overrun
    | StartFlush
    | Delivered
    | Failed(left: State)

  /** The engine always lets the store number its history. */
  predicate EngineOp(op: Mem.Op) {
    Mem.Legal(op) && (op.Note? ==> op.event.seqNo == 0)
  }

  predicate Enabled(l: Link, s: Step) {
    match s
    case LeaderOp(op) => EngineOp(op)
    case Take => l.phase.Idle? && l.ch != []
    case Overrun => l.phase.Idle?
    case StartFlush => l.phase.Idle?
    case Delivered => !l.phase.Idle?
    case Failed(_) => !l.phase.Idle?
  }

  ghost function Next(l: Link, s: Step): Link
    requires Enabled(l, s)
  {
    match s
    case LeaderOp(op) =>
      l.(leader := Mem.MemStep(l.leader, op), ch := l.ch + Lines(l.leader, op))
    case Take => l.(batch := l.batch + [l.ch[0]], ch := l.ch[1..])
    case Overrun => l.(needSync := true)
    case StartFlush =>
      if l.needSync then l.(phase := Syncing(l.leader, |l.ch|))
      else if l.batch == [] then l
      else l.(phase := Sending)
    case Delivered =>
      if l.phase.Syncing? then l.(phase := Idle, needSync := false, batch := [], follower := l.phase.snap)
      else l.(phase := Idle, batch := [], follower := FollowAll(l.follower, l.batch))
    case Failed(left) =>
      // A reply can be lost after any part of the request took effect.
      l.(phase := Idle, needSync := true, follower := left)
  }

  ghost predicate Runnable(l: Link, steps: seq<Step>)
    decreases steps
  {
    steps == [] || (Enabled(l, steps[0]) && Runnable(Next(l, steps[0]), steps[1..]))
  }

  ghost function Run(l: Link, steps: seq<Step>): Link
    requires Runnable(l, steps)
    decreases steps
  {
    if steps == [] then l else Run(Next(l, steps[0]), steps[1..])
  }

  lemma TwoSteps(l: Link, s: Step, t: Step)
    requires Enabled(l, s) && Enabled(Next(l, s), t)
    ensures Runnable(l, [s, t]) && Run(l, [s, t]) == Next(Next(l, s), t)
  {
    TwoStepsThen(l, s, t, []);
    assert [s, t] + [] == [s, t];
  }

  lemma TwoStepsThen(l: Link, s: Step, t: Step, rest: seq<Step>)
    requires Enabled(l, s) && Enabled(Next(l, s), t) && Runnable(Next(Next(l, s), t), rest)
    ensures Runnable(l, [s, t] + rest) && Run(l, [s, t] + rest) == Run(Next(Next(l, s), t), rest)
  {
    assert ([s, t] + rest)[1..] == [t] + rest;
    assert ([t] + rest)[1..] == rest;
  }
  /** A fresh sender on a leader with any past, facing a follower in any state. */
  ghost predicate Initial(l: Link) {
    WellFormed(l.leader) && l.ch == [] && l.batch == [] && l.needSync && l.phase.Idle?
  }

  // ---- the invariant --------------------------------------------------------------------

  /** The queued lines are already part of the leader, and everything a synced follower
      lacks is in the batch and the channel. */
  ghost predicate Inv(l: Link) {
    && WellFormed(l.leader)
    && AllNumbered(l.batch) && AllNumbered(l.ch)
    && FollowAll(l.leader, l.ch) == l.leader
    && (l.phase.Sending? ==> !l.needSync)
    && (!l.needSync ==> FollowAll(l.follower, l.batch + l.ch) == l.leader)
    && (l.phase.Syncing? ==>
          && l.needSync && l.phase.covered <= |l.ch|
          && FollowAll(l.phase.snap, l.ch[..l.phase.covered]) == l.phase.snap
          && FollowAll(l.phase.snap, l.ch[l.phase.covered..]) == l.leader)
  }

  /** Streaming the lines of a leader operation does to any state what replay would. */
  lemma {:induction false} FollowKeyed(s: State, es: seq<Entry>)
    requires forall n :: 0 <= n < |es| ==> !es[n].Append?
    ensures FollowAll(s, es) == Replay(s, es)
    decreases es
  {
    if es != [] {
      FollowKeyed(Apply(s, es[0]), es[1..]);
    }
  }

  lemma LeaderLines(s: State, op: Mem.Op)
    requires WellFormed(s) && EngineOp(op)
    ensures FollowAll(s, Lines(s, op)) == Mem.MemStep(s, op)
    ensures AllNumbered(Lines(s, op))
    ensures WellFormed(Mem.MemStep(s, op))
  {
    LinesMeanStep(s, op);
    ReplayWellFormed(s, Lines(s, op));
    if op.Note? {
      var e := Append(Numbered(s, op.event));
      OneLine(s, e);
      assert FollowAll(s, [e]) == FollowAll(Follow(s, e), []);
    } else {
      FollowKeyed(s, Lines(s, op));
    }
  }

  lemma AllNumberedConcat(a: seq<Entry>, b: seq<Entry>)
    requires AllNumbered(a) && AllNumbered(b)
    ensures AllNumbered(a + b)
  {
  }

  lemma LeaderOpKeepsInv(l: Link, op: Mem.Op)
    requires Inv(l) && EngineOp(op)
    ensures Inv(Next(l, LeaderOp(op)))
  {
    hide Mem.MemStep, Lines;
    var es := Lines(l.leader, op);
    var l' := Next(l, LeaderOp(op));
    LeaderLines(l.leader, op);
    AllNumberedConcat(l.ch, es);
    FollowAllConcat(l.leader, l.ch, es);
    OverlapIdempotent(l.leader, l'.ch);
    if !l.needSync {
      assert l.batch + (l.ch + es) == (l.batch + l.ch) + es;
      FollowAllConcat(l.follower, l.batch + l.ch, es);
    }
    if l.phase.Syncing? {
      var c := l.phase.covered;
      assert l'.ch[..c] == l.ch[..c];
      assert l'.ch[c..] == l.ch[c..] + es;
      FollowAllConcat(l.phase.snap, l.ch[c..], es);
    }
  }

  lemma TakeKeepsInv(l: Link)
    requires Inv(l) && Enabled(l, Take)
    ensures Inv(Next(l, Take))
  {
    var l' := Next(l, Take);
    assert l'.batch + l'.ch == l.batch + l.ch;
    assert l.ch == [l.ch[0]] + l.ch[1..];
    assert AllNumbered([l.ch[0]]) by { assert [l.ch[0]][0] == l.ch[0]; }
    AllNumberedConcat(l.batch, [l.ch[0]]);
    assert AllNumbered(l.ch[1..]) by {
      assert forall n :: 0 <= n < |l.ch[1..]| ==> l.ch[1..][n] == l.ch[n + 1];
    }
    ApplyWellFormed(l.leader, l.ch[0]);
    OverlapIdempotent(Follow(l.leader, l.ch[0]), l.ch[1..]);
  }

  lemma DeliveryKeepsInv(l: Link)
    requires Inv(l) && Enabled(l, Delivered)
    ensures Inv(Next(l, Delivered))
  {
    assert [] + l.ch == l.ch;
    if l.phase.Syncing? {
      SnapshotCatchesUp(l);
    } else {
      FollowAllConcat(l.follower, l.batch, l.ch);
    }
  }

  /** The lines queued before the snapshot add nothing to it, the others lead to the leader. */
  lemma SnapshotCatchesUp(l: Link)
    requires Inv(l) && l.phase.Syncing?
    ensures FollowAll(l.phase.snap, l.ch) == l.leader
  {
    var c := l.phase.covered;
    assert l.ch == l.ch[..c] + l.ch[c..];
    FollowAllConcat(l.phase.snap, l.ch[..c], l.ch[c..]);
  }

  lemma StepKeepsInv(l: Link, s: Step)
    requires Inv(l) && Enabled(l, s)
    ensures Inv(Next(l, s))
  {
    match s {
      case LeaderOp(op) => LeaderOpKeepsInv(l, op);
      case Take => TakeKeepsInv(l);
      case StartFlush =>
        assert l.ch[..|l.ch|] == l.ch && l.ch[|l.ch|..] == [];
        assert FollowAll(l.leader, []) == l.leader;
      case Delivered => DeliveryKeepsInv(l);
      case _ =>
    }
  }

  lemma {:induction false} RunKeepsInv(l: Link, steps: seq<Step>)
    requires Inv(l) && Runnable(l, steps)
    ensures Inv(Run(l, steps))
    decreases steps
  {
    if steps != [] {
      StepKeepsInv(l, steps[0]);
      RunKeepsInv(Next(l, steps[0]), steps[1..]);
    }
  }

  // ---- main results ---------------------------------------------------------------------

  /** Convergence: from any start, through any interleaving of leader operations, batches,
      failed or half-applied requests and resyncs, a sender that believes the follower is
      in sync is right up to the lines it still holds. */
  lemma ReplicationConverges(start: Link, steps: seq<Step>)
    requires Initial(start) && Runnable(start, steps)
    ensures var l := Run(start, steps);
      && (!l.needSync ==> FollowAll(l.follower, l.batch + l.ch) == l.leader)
      && (!l.needSync && l.batch == [] && l.ch == [] ==> l.follower == l.leader)
  {
    RunKeepsInv(start, steps);
    var l := Run(start, steps);
    assert l.batch == [] && l.ch == [] ==> l.batch + l.ch == [];
  }

  /** The steps a sender takes once the leader is quiet and requests get through. */
  function Settle(l: Link): seq<Step> {
    if l.needSync then [StartFlush, Delivered] + TakeAll(l.ch) + [StartFlush] + (if l.ch == [] then [] else [Delivered])
    else TakeAll(l.ch) + [StartFlush] + (if l.batch + l.ch == [] then [] else [Delivered])
  }

  function TakeAll(ch: seq<Entry>): seq<Step> {
    seq(|ch|, n => Take)
  }

  lemma {:induction false} TakingAll(l: Link, rest: seq<Step>)
    requires l.phase.Idle?
    requires Runnable(l.(batch := l.batch + l.ch, ch := []), rest)
    ensures Runnable(l, TakeAll(l.ch) + rest)
    ensures Run(l, TakeAll(l.ch) + rest) == Run(l.(batch := l.batch + l.ch, ch := []), rest)
    decreases |l.ch|
  {
    if l.ch == [] {
      assert TakeAll(l.ch) + rest == rest;
      assert l.batch + [] == l.batch;
    } else {
      var l' := Next(l, Take);
      assert l'.batch + l'.ch == l.batch + l.ch;
      assert (TakeAll(l.ch) + rest)[1..] == TakeAll(l'.ch) + rest;
      TakingAll(l', rest);
    }
  }

  lemma FlushingBatch(l: Link)
    requires Inv(l) && l.phase.Idle? && !l.needSync && l.ch == []
    ensures var steps := [StartFlush] + (if l.batch == [] then [] else [Delivered]);
      Runnable(l, steps) && Run(l, steps).follower == l.leader == Run(l, steps).leader
  {
    var steps := [StartFlush] + (if l.batch == [] then [] else [Delivered]);
    assert l.batch + [] == l.batch;
    var mid := Next(l, StartFlush);
    if l.batch == [] {
      assert steps[1..] == [];
      assert Run(l, steps) == mid;
    } else {
      assert steps[1..] == [Delivered] && steps[1..][1..] == [];
      assert Runnable(mid, [Delivered]);
      assert Run(l, steps) == Next(mid, Delivered);
    }
  }

  /** Whatever went wrong before, a quiet leader and a reachable follower end up equal. A
      request in flight may still come back answered or fail after any partial effect. */
  lemma QuietLinkSettles(l: Link, reply: Step)
    requires Inv(l) && (reply.Delivered? || reply.Failed?)
    ensures var steps := if l.phase.Idle? then Settle(l) else [reply] + Settle(Next(l, reply));
      Runnable(l, steps) && Run(l, steps).follower == l.leader
  {
    if l.phase.Idle? {
      IdleLinkSettles(l);
    } else {
      var l' := Next(l, reply);
      StepKeepsInv(l, reply);
      IdleLinkSettles(l');
      assert ([reply] + Settle(l'))[1..] == Settle(l');
    }
  }

  lemma IdleLinkSettles(l: Link)
    requires Inv(l) && l.phase.Idle?
    ensures Runnable(l, Settle(l))
    ensures Run(l, Settle(l)).follower == l.leader
  {
    hide Inv, Runnable, Run, TakeAll;
    if l.needSync {
      SettleFromUnsynced(l);
    } else {
      var tail := [StartFlush] + (if l.batch + l.ch == [] then [] else [Delivered]);
      SettleFromSynced(l, tail);
      assert Settle(l) == TakeAll(l.ch) + tail;
    }
  }

  lemma SettleFromUnsynced(l: Link)
    requires Inv(l) && l.phase.Idle? && l.needSync
    ensures Runnable(l, Settle(l))
    ensures Run(l, Settle(l)).follower == l.leader
  {
    hide Inv, Runnable, Run, TakeAll;
    var l1 := Next(l, StartFlush);
    var l2 := Next(l1, Delivered);
    StepKeepsInv(l, StartFlush);
    StepKeepsInv(l1, Delivered);
    var tail := [StartFlush] + (if l.ch == [] then [] else [Delivered]);
    assert l2.batch + l2.ch == l.ch && l2.ch == l.ch;
    SettleFromSynced(l2, tail);
    TwoStepsThen(l, StartFlush, Delivered, TakeAll(l.ch) + tail);
    assert Settle(l) == [StartFlush, Delivered] + (TakeAll(l.ch) + tail);
  }

  lemma SettleFromSynced(l: Link, tail: seq<Step>)
    requires Inv(l) && l.phase.Idle? && !l.needSync
    requires tail == [StartFlush] + (if l.batch + l.ch == [] then [] else [Delivered])
    ensures Runnable(l, TakeAll(l.ch) + tail)
    ensures Run(l, TakeAll(l.ch) + tail).follower == l.leader
  {
    var taken := l.(batch := l.batch + l.ch, ch := []);
    AllNumberedConcat(l.batch, l.ch);
    assert taken.batch + taken.ch == l.batch + l.ch;
    FlushingBatch(taken);
    TakingAll(l, tail);
  }

  // ---- when the channel overflows -----------------------------------------------------

  /** The tap drops a line that does not fit and raises the overrun signal instead. */
  ghost function NextDropping(l: Link, op: Mem.Op): Link {
    l.(leader := Mem.MemStep(l.leader, op))
  }

  function Resync(ch: seq<Entry>): seq<Step> {
    [Overrun, StartFlush] + ([Delivered] + (TakeAll(ch) + [StartFlush, Delivered]))
  }

  /** The resync an overrun forces replays the whole channel on top of the snapshot,
      including lines queued before the gap. */
  lemma ResyncReplaysChannel(l: Link)
    requires l.phase.Idle? && l.ch != []
    ensures Runnable(l, Resync(l.ch))
    ensures var done := Run(l, Resync(l.ch));
      && !done.needSync && done.batch == [] && done.ch == [] && done.phase.Idle?
      && done.leader == l.leader && done.follower == FollowAll(l.leader, l.ch)
  {
    var flushing := Next(Next(l, Overrun), StartFlush);
    var synced := Next(flushing, Delivered);
    var taken := synced.(batch := synced.batch + synced.ch, ch := []);
    assert taken.batch == l.ch;
    TwoSteps(taken, StartFlush, Delivered);
    TakingAll(synced, [StartFlush, Delivered]);
    var rest := TakeAll(l.ch) + [StartFlush, Delivered];
    assert ([Delivered] + rest)[1..] == rest;
    assert Runnable(flushing, [Delivered] + rest) && Run(flushing, [Delivered] + rest) == Run(synced, rest);
    TwoStepsThen(l, Overrun, StartFlush, [Delivered] + rest);
  }

  /** So after a dropped line the follower can settle on an old value for good. */
  lemma OverflowDiverges()
    ensures exists l: Link, dropped: Mem.Op ::
      && Inv(l) && l.phase.Idle? && l.ch != [] && EngineOp(dropped)
      && Runnable(NextDropping(l, dropped), Resync(l.ch))
      && var done := Run(NextDropping(l, dropped), Resync(l.ch));
         !done.needSync && done.batch == [] && done.ch == [] && done.follower != done.leader
  {
    var start := Link(EmptyState, [], [], true, Idle, EmptyState);
    LeaderOpKeepsInv(start, Mem.Save(1, Blob(1)));
    var l := Next(start, LeaderOp(Mem.Save(1, Blob(1))));
    var dropped := Mem.Save(1, Blob(2));
    var line := Put(1, Blob(1));
    var l' := NextDropping(l, dropped);
    ResyncReplaysChannel(l');
    assert l.ch == [line];
    assert FollowAll(l'.leader, [line]) == FollowAll(Follow(l'.leader, line), []);
    var k := Key(BlobKind, 1);
    var done := Run(l', Resync(l.ch));
    assert done.follower.records[k] == Blob(1) && done.leader.records[k] == Blob(2);
    assert Inv(l) && EngineOp(dropped) && Runnable(NextDropping(l, dropped), Resync(l.ch));
  }

  // ---- the sender object ----------------------------------------------------------------

  /** How far a request got: how many of its effects happened, and whether the reply
      came back. */
  datatype Outcome = Outcome(applied: nat, replied: bool)

  class Sender {
    const leader: J.Journal
    const follower: J.Journal
    const buffer: nat
    var ch: seq<Entry>
    var batch: seq<Entry>
    var needSync: bool
    var overrun: bool

    ghost function View(): Link
      reads this, leader, leader.mem, follower, follower.mem
    {
      Link(leader.mem.Contents(), ch, batch, needSync, Idle, follower.mem.Contents())
    }

    constructor (leader: J.Journal, follower: J.Journal, buffer: nat)
      ensures this.leader == leader && this.follower == follower && this.buffer == buffer
      ensures ch == [] && batch == [] && needSync && !overrun
    {
      this.leader, this.follower, this.buffer := leader, follower, buffer;
      ch, batch, needSync, overrun := [], [], true, false;
    }

    /** The append listener: never blocks, drops on a full channel. */
    method Tap(line: Entry)
      modifies this`ch, this`overrun
      ensures if |old(ch)| < buffer then ch == old(ch) + [line] && overrun == old(overrun)
              else ch == old(ch) && overrun
    {
      if |ch| < buffer {
        ch := ch + [line];
      } else {
        overrun := true;
      }
    }

    /** The select loop takes a pending overrun or the first queued line; with both ready it
        picks either, as `overrunFirst` says. */
    method Receive(overrunFirst: bool)
      modifies this`ch, this`batch, this`needSync, this`overrun
      ensures if old(overrun) && (overrunFirst || old(ch) == []) then View() == Next(old(View()), Overrun) && !overrun
              else if old(ch) != [] then View() == Next(old(View()), Take) && overrun == old(overrun)
              else View() == old(View()) && overrun == old(overrun)
    {
      if overrun && (overrunFirst || ch == []) {
        overrun, needSync := false, true;
      } else if ch != [] {
        batch, ch := batch + [ch[0]], ch[1..];
      }
    }

    /** The resync half of a flush, against a follower that may do the work and still
        lose the reply; afterwards everything queued moves to the next batch. */
    method SyncSnapshot(out: Outcome)
      requires leader != follower && leader.mem != follower.mem && needSync
      requires WellFormed(leader.mem.Contents())
      requires out.replied ==> out.applied > 0
      modifies this`ch, this`batch, this`needSync, follower, follower.mem
      ensures leader.mem.Contents() == old(leader.mem.Contents())
      ensures !out.replied ==> View() == Next(Next(old(View()), StartFlush), Failed(follower.mem.Contents()))
      ensures out.replied ==>
        var synced := Next(Next(old(View()), StartFlush), Delivered);
        View() == synced.(batch := synced.batch + synced.ch, ch := [])
    {
      var snap := SnapshotOf(leader.mem.Contents());
      SnapshotRoundTrip(leader.mem.Contents());
      if out.applied > 0 {
        follower.ResetFromSnapshot(snap);
      }
      if out.replied {
        needSync, batch := false, [];
        while ch != []
          invariant !needSync && batch + ch == old(ch)
          invariant follower.mem.Contents() == StateOf(snap) == leader.mem.Contents() == old(leader.mem.Contents())
          decreases |ch|
        {
          batch, ch := batch + [ch[0]], ch[1..];
        }
        assert batch == old(ch) && [] + old(ch) == old(ch);
      }
    }

    /** One flush: resync if needed, otherwise send the batch; a failed send may have
        applied any prefix of it. */
    method Flush(out: Outcome)
      requires leader != follower && leader.mem != follower.mem
      requires WellFormed(leader.mem.Contents())
      requires out.replied ==> out.applied > 0 && (needSync || out.applied >= |batch|)
      modifies this`ch, this`batch, this`needSync, follower, follower.mem
      ensures leader.mem.Contents() == old(leader.mem.Contents())
      ensures exists steps :: Runnable(old(View()), steps) && View() == Run(old(View()), steps)
      ensures out.replied ==> !needSync && (batch == [] || batch == old(ch))
    {
      ghost var was := View();
      if needSync {
        SyncSnapshot(out);
        if out.replied {
          ghost var synced := Next(Next(was, StartFlush), Delivered);
          TakingAll(synced, []);
          TwoStepsThen(was, StartFlush, Delivered, TakeAll(synced.ch) + []);
          assert [] + was.ch == was.ch;
        } else {
          TwoSteps(was, StartFlush, Failed(follower.mem.Contents()));
        }
      } else if batch == [] {
        assert Runnable(was, []) && Run(was, []) == was;
      } else {
        var reached := if out.applied < |batch| then out.applied else |batch|;
        follower.ReceiveLines(batch[..reached]);
        if out.replied {
          assert batch[..reached] == batch;
          batch := [];
          TwoSteps(was, StartFlush, Delivered);
        } else {
          needSync := true;
          TwoSteps(was, StartFlush, Failed(follower.mem.Contents()));
        }
      }
    }
  }
}
