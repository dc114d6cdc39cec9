/** The durable store object: every operation writes through to memory and to the
    append-only file, compaction rewrites the disk, opening replays it. */
module Journal {
  import opened StoreState
  import opened LogLaws
  import opened JournalState
  import Mem = Memory

  const DEFAULT_COMPACT_EVERY := 20000

  class Journal {
    const mem: Mem.Memory
    const compactEvery: nat
    var disk: Disk
    var n: nat
    var tapped: seq<Entry>
    ghost var passed: seq<Disk>

    ghost function View(): Store
      reads this, mem
    {
      Store(mem.Contents(), disk, n)
    }

    /** Opens the store on whatever the last process left on disk. */
    constructor (found: Disk, every: int)
      ensures fresh(mem)
      ensures compactEvery == if every <= 0 then DEFAULT_COMPACT_EVERY else every
      ensures View() == Store(Recover(found), found, |Readable(found.journal.lines)|)
      ensures tapped == [] && passed == []
    {
      compactEvery := if every <= 0 then DEFAULT_COMPACT_EVERY else every;
      disk, n, tapped, passed := found, 0, [], [];
      mem := new Mem.Memory();
      new;
      Load();
    }

    method Load()
      requires mem.Contents() == EmptyState && n == 0
      modifies this`n, mem
      ensures View() == Store(Recover(disk), disk, |Readable(disk.journal.lines)|)
    {
      if disk.snapshot.Some? {
        LoadSnapshot(disk.snapshot.value);
      }
      var lines := disk.journal.lines;
      var i := 0;
      assert lines[0..] == lines;
      while i < |lines| && lines[i].Whole?
        invariant 0 <= i <= |lines|
        invariant Replay(mem.Contents(), Readable(lines[i..])) == Recover(disk)
        invariant n + |Readable(lines[i..])| == |Readable(lines)|
      {
        assert Readable(lines[i..]) == [lines[i].entry] + Readable(lines[i + 1..]) by {
          assert lines[i..][1..] == lines[i + 1..];
        }
        ApplyEntry(lines[i].entry);
        n := n + 1;
        i := i + 1;
      }
    }

    /** Installs a snapshot's maps and recomputes the history counters. */
    method LoadSnapshot(snap: Snapshot)
      modifies mem
      ensures mem.Contents() == StateOf(snap)
    {
      mem.records := snap.records;
      mem.history := snap.history;
      mem.histSeq := map[];
      var todo := snap.history.Keys;
      while todo != {}
        invariant todo <= snap.history.Keys
        invariant mem.records == snap.records && mem.history == snap.history
        invariant mem.histSeq == map i | i in snap.history && i !in todo :: MaxSeq(snap.history[i])
        decreases todo
      {
        var i :| i in todo;
        var evs := snap.history[i];
        var top: nat := 0;
        var j := 0;
        while j < |evs|
          invariant 0 <= j <= |evs|
          invariant top == MaxSeq(evs[..j])
        {
          assert evs[..j + 1][..j] == evs[..j];
          if evs[j].seqNo > top {
            top := evs[j].seqNo;
          }
          j := j + 1;
        }
        assert evs[..j] == evs;
        mem.histSeq := mem.histSeq[i := top];
        todo := todo - {i};
      }
    }

    method ApplyEntry(e: Entry)
      modifies mem
      ensures mem.Contents() == Apply(old(mem.Contents()), e)
    {
      match e {
        case Put(id, r) =>
          if r.Instance? {
            mem.RestoreInstance(id, r.rev, r.data);
          } else {
            mem.Put(id, r);
          }
        case Delete(k) => mem.Delete(k);
        case Purge(i) => mem.PurgeInstance(i);
        case Append(ev) => var _ := mem.AppendHistory(ev);
      }
    }

    /** Writes one line and compacts when enough have gathered. */
    method WriteEntry(e: Entry)
      modifies this
      ensures View() == AppendLine(old(View()), e, compactEvery) == AppendLines(old(View()), [e], compactEvery)
      ensures tapped == old(tapped) + [e]
      ensures passed == old(passed) + AppendTrace(old(View()), e, compactEvery)
      ensures passed == old(passed) + AppendLinesTrace(old(View()), [e], compactEvery)
    {
      OneAppend(View(), e, compactEvery);
      var f := disk.journal;
      passed := passed + [disk.(journal := File(f.lines + [Garbage], true)),
                          disk.(journal := File(f.lines + [Whole(e)], true))];
      disk := disk.(journal := WriteLine(f, e));
      passed := passed + [disk];
      n := n + 1;
      tapped := tapped + [e];
      if n >= compactEvery {
        CompactLocked();
      }
    }

    method CompactLocked()
      modifies this`disk, this`n, this`passed
      ensures View() == Compact(old(View()))
      ensures passed == old(passed) + CompactTrace(old(View()))
    {
      var data := Snapshot(mem.records, mem.history);
      disk := disk.(snapshot := Some(data));
      passed := passed + [disk];
      disk := disk.(journal := EmptyFile);
      passed := passed + [disk];
      n := 0;
    }

    // ---- the Store interface ---------------------------------------------------------

    /** The image, the disk, the lines streamed and every disk state passed through. */
    twostate predicate Performed(op: Mem.Op)
      reads this, mem
    {
      var start := old(View()).(mem := Mem.MemStep(old(View()).mem, op));
      && View() == Perform(old(View()), op, compactEvery)
      && tapped == old(tapped) + Lines(old(View()).mem, op)
      && passed == old(passed) + AppendLinesTrace(start, Lines(old(View()).mem, op), compactEvery)
    }

    method Put(id: Id, record: Record)
      requires !record.Instance?
      modifies this, mem
      ensures Performed(Mem.Save(id, record))
    {
      mem.Put(id, record);
      WriteEntry(StoreState.Put(id, record));
    }

    method PutInstance(id: Id, rev: nat, data: nat) returns (newRev: nat)
      modifies this, mem
      ensures newRev == rev + 1
      ensures Performed(Mem.SaveInstance(id, rev, data))
    {
      newRev := mem.PutInstance(id, rev, data);
      WriteEntry(StoreState.Put(id, Instance(newRev, data)));
    }

    method Delete(key: Key)
      modifies this, mem
      ensures Performed(Mem.Remove(key))
    {
      mem.Delete(key);
      WriteEntry(StoreState.Delete(key));
    }

    method PurgeInstance(i: Id)
      modifies this, mem
      ensures Performed(Mem.Forget(i))
    {
      mem.PurgeInstance(i);
      WriteEntry(Purge(i));
    }

    method AppendHistory(ev: Event) returns (stored: Event)
      modifies this, mem
      ensures stored == if ev.seqNo == 0 then ev.(seqNo := High(old(View()).mem, ev.instance) + 1) else ev
      ensures Performed(Mem.Note(ev))
    {
      stored := mem.AppendHistory(ev);
      WriteEntry(Append(stored));
    }

    /** Claims due jobs in memory, then journals one deletion per job. */
    method DueJobs(now: int, limit: nat) returns (due: seq<Id>)
      modifies this, mem
      ensures Mem.EarliestDue(old(mem.records), now, limit, due)
      ensures mem.records == old(mem.records) - (set id | id in due :: Key(JobKind, id))
      ensures Performed(Mem.TakeDue(now, limit))
    {
      due := mem.DueJobs(now, limit);
      WriteEntries(DeleteLines(JobKind, due));
    }

    method FetchAndLock(kind: Kind, topic: Id, worker: Id, until: int, now: int, limit: nat) returns (taken: seq<Id>)
      requires Mem.Claimable(kind)
      modifies this, mem
      ensures Mem.LowestUnlocked(old(mem.records), kind, topic, now, limit, taken)
      ensures Mem.Relocked(old(mem.records), mem.records, kind, taken, worker, until)
      ensures Performed(Mem.Lock(kind, topic, worker, until, now, limit))
    {
      ghost var was := mem.Contents();
      taken := mem.FetchAndLock(kind, topic, worker, until, now, limit);
      LockListStored(was, kind, topic, now, limit);
      var lines := seq(|taken|, j requires 0 <= j < |taken| && Key(kind, taken[j]) in mem.records reads mem
                                => StoreState.Put(taken[j], mem.records[Key(kind, taken[j])]));
      assert lines == LockLines(was, kind, taken, worker, until);
      WriteEntries(lines);
    }

    method WriteEntries(es: seq<Entry>)
      modifies this
      ensures View() == AppendLines(old(View()), es, compactEvery)
      ensures tapped == old(tapped) + es
      ensures passed == old(passed) + AppendLinesTrace(old(View()), es, compactEvery)
    {
      var i := 0;
      assert es[0..] == es;
      while i < |es|
        invariant 0 <= i <= |es|
        invariant AppendLines(View(), es[i..], compactEvery) == AppendLines(old(View()), es, compactEvery)
        invariant tapped == old(tapped) + es[..i]
        invariant passed + AppendLinesTrace(View(), es[i..], compactEvery)
               == old(passed) + AppendLinesTrace(old(View()), es, compactEvery)
      {
        assert es[i..][1..] == es[i + 1..];
        assert es[..i + 1] == es[..i] + [es[i]];
        WriteEntry(es[i]);
        i := i + 1;
      }
      assert es[..i] == es && es[i..] == [];
    }

    // ---- follower side ----------------------------------------------------------------

    /** Replaces the whole state by a leader's snapshot. */
    method ResetFromSnapshot(snap: Snapshot)
      modifies this, mem
      ensures View() == Store(StateOf(snap), Disk(Some(snap), EmptyFile), 0)
      ensures tapped == old(tapped)
    {
      LoadSnapshot(snap);
      disk := disk.(snapshot := Some(snap));
      passed := passed + [disk];
      disk := disk.(journal := EmptyFile);
      passed := passed + [disk];
      n := 0;
    }

    /** Applies one line from the leader unless its history is already known. */
    method ApplyReplicated(e: Entry)
      modifies this, mem
      ensures View() == ReplicateLine(old(View()), e, compactEvery)
      ensures mem.Contents() == Follow(old(mem.Contents()), e)
      ensures tapped == old(tapped)
    {
      if e.Append? {
        var high := if e.event.instance in mem.histSeq then mem.histSeq[e.event.instance] else 0;
        if e.event.seqNo != 0 && e.event.seqNo <= high {
          return;
        }
        assert |HistoryOf(Apply(mem.Contents(), e), e.event.instance)| > |HistoryOf(mem.Contents(), e.event.instance)|;
      }
      ApplyEntry(e);
      disk := disk.(journal := WriteLine(disk.journal, e));
      passed := passed + [disk];
      n := n + 1;
      if n >= compactEvery {
        CompactLocked();
      }
    }

    /** The /append handler: every line in order. */
    method ReceiveLines(es: seq<Entry>)
      modifies this, mem
      ensures View() == ReplicateAll(old(View()), es, compactEvery)
      ensures mem.Contents() == FollowAll(old(mem.Contents()), es)
      ensures tapped == old(tapped)
    {
      var i := 0;
      assert es[0..] == es;
      while i < |es|
        invariant 0 <= i <= |es|
        invariant ReplicateAll(View(), es[i..], compactEvery) == ReplicateAll(old(View()), es, compactEvery)
        invariant FollowAll(mem.Contents(), es[i..]) == FollowAll(old(mem.Contents()), es)
        invariant tapped == old(tapped)
      {
        assert es[i..][1..] == es[i + 1..];
        ApplyReplicated(es[i]);
        i := i + 1;
      }
    }
  }
}
