/** The durable store as a value: a snapshot file, an append-only journal file, and the
    disk states a process can leave behind by dying at any moment. */
module JournalState {
  import opened StoreState
  import opened LogLaws
  import opened Memory

  /** A journal line that parses, or one that does not. */
  datatype Line = Whole(entry: Entry) | Garbage

  /** `open` says that the last line has no newline yet. */
  datatype File = File(lines: seq<Line>, open: bool)

  datatype Snapshot = Snapshot(records: map<Key, Record>, history: map<Id, seq<Event>>)

  datatype Disk = Disk(snapshot: Option<Snapshot>, journal: File)

  /** A running journal store: live image, disk, and lines since the last snapshot. */
  datatype Store = Store(mem: State, disk: Disk, n: nat)

  const EmptyFile := File([], false)

  function SnapshotOf(s: State): Snapshot {
    Snapshot(s.records, s.history)
  }

  /** Counters are not stored in a snapshot; loading recomputes them. */
  function StateOf(snap: Snapshot): State {
    State(snap.records, snap.history, map i | i in snap.history :: MaxSeq(snap.history[i]))
  }

  function Base(d: Disk): State {
    if d.snapshot.Some? then StateOf(d.snapshot.value) else EmptyState
  }

  /** Replay stops at the first line that does not parse. */
  function Readable(lines: seq<Line>): seq<Entry> {
    if lines == [] || lines[0].Garbage? then [] else [lines[0].entry] + Readable(lines[1..])
  }

  function Recover(d: Disk): State {
    Replay(Base(d), Readable(d.journal.lines))
  }

  /** Appending to an unterminated line runs into it: the merged line never parses. */
  function WriteLine(f: File, e: Entry): File {
    if f.open && f.lines != [] then File(f.lines[..|f.lines| - 1] + [Garbage], false)
    else File(f.lines + [Whole(e)], false)
  }

  function Compact(st: Store): Store {
    Store(st.mem, Disk(Some(SnapshotOf(st.mem)), EmptyFile), 0)
  }

  function AppendLine(st: Store, e: Entry, every: nat): Store {
    var written := st.(disk := st.disk.(journal := WriteLine(st.disk.journal, e)), n := st.n + 1);
    if written.n >= every then Compact(written) else written
  }

  function AppendLines(st: Store, es: seq<Entry>, every: nat): Store
    decreases es
  {
    if es == [] then st else AppendLines(AppendLine(st, es[0], every), es[1..], every)
  }

  function DeleteLines(kind: Kind, ids: seq<Id>): seq<Entry> {
    seq(|ids|, n requires 0 <= n < |ids| => Delete(Key(kind, ids[n])))
  }

  function LockLines(s: State, kind: Kind, ids: seq<Id>, worker: Id, until: int): seq<Entry>
    requires forall id :: id in ids ==> Key(kind, id) in s.records
  {
    seq(|ids|, n requires 0 <= n < |ids| => Put(ids[n], Locked(s.records[Key(kind, ids[n])], worker, until)))
  }

  lemma LockListStored(s: State, kind: Kind, topic: Id, now: int, limit: nat)
    ensures forall id :: id in LockList(s, kind, topic, now, limit) ==>
      Key(kind, id) in s.records && Available(s.records[Key(kind, id)], topic, now)
  {
    var all := Ordering.Listing(IdRank(), AvailableSet(s, kind, topic, now));
    forall id | id in LockList(s, kind, topic, now, limit)
      ensures Key(kind, id) in s.records && Available(s.records[Key(kind, id)], topic, now)
    {
      assert id in Ordering.Elements(all);
    }
  }

  /** The lines each operation journals, computed after the image changed. */
  ghost function Lines(s: State, op: Op): seq<Entry> {
    match op
    case Save(id, r) => [Put(id, r)]
    case SaveInstance(id, rev, data) => [Put(id, Instance(rev + 1, data))]
    case Remove(k) => [Delete(k)]
    case Forget(i) => [Purge(i)]
    case Note(ev) => [Append(Numbered(s, ev))]
    case TakeDue(now, limit) => DeleteLines(JobKind, DueList(s, now, limit))
    case Lock(kind, topic, worker, until, now, limit) =>
      LockListStored(s, kind, topic, now, limit);
      LockLines(s, kind, LockList(s, kind, topic, now, limit), worker, until)
  }

  /** One Store operation: memory first, then its lines. */
  ghost function Perform(st: Store, op: Op, every: nat): Store {
    AppendLines(st.(mem := MemStep(st.mem, op)), Lines(st.mem, op), every)
  }

  /** One replicated line on a follower: skipped if its history is known, otherwise
      applied and written verbatim. */
  function ReplicateLine(st: Store, e: Entry, every: nat): Store {
    if AlreadyHeld(st.mem, e) then st
    else AppendLine(st.(mem := Apply(st.mem, e)), e, every)
  }

  /** A batch of replicated lines, one by one. */
  function ReplicateAll(st: Store, es: seq<Entry>, every: nat): Store
    decreases es
  {
    if es == [] then st else ReplicateAll(ReplicateLine(st, es[0], every), es[1..], every)
  }

  ghost function PerformAll(st: Store, ops: seq<Op>, every: nat): Store
    decreases ops
  {
    if ops == [] then st else PerformAll(Perform(st, ops[0], every), ops[1..], every)
  }

  ghost function MemRun(s: State, ops: seq<Op>): State
    decreases ops
  {
    if ops == [] then s else MemRun(MemStep(s, ops[0]), ops[1..])
  }

  // ---- what holds between operations ------------------------------------------------

  predicate Tidy(f: File) {
    !f.open && forall n :: 0 <= n < |f.lines| ==> f.lines[n].Whole?
  }

  ghost predicate TidyDisk(d: Disk) {
    && Tidy(d.journal)
    && AllNumbered(Readable(d.journal.lines))
    && WellFormed(Base(d))
  }

  /** Restarting now would rebuild exactly the live image. */
  ghost predicate Durable(st: Store) {
    TidyDisk(st.disk) && Recover(st.disk) == st.mem
  }

  lemma {:induction false} ReadableConcat(a: seq<Line>, b: seq<Line>)
    requires forall n :: 0 <= n < |a| ==> a[n].Whole?
    ensures Readable(a + b) == Readable(a) + Readable(b)
    decreases a
  {
    if a == [] {
      assert a + b == b;
    } else {
      assert (a + b)[1..] == a[1..] + b;
      ReadableConcat(a[1..], b);
    }
  }

  lemma SnapshotRoundTrip(s: State)
    requires WellFormed(s)
    ensures StateOf(SnapshotOf(s)) == s
  {
  }

  lemma RecoverAfterWrite(d: Disk, e: Entry)
    requires Tidy(d.journal)
    ensures Tidy(WriteLine(d.journal, e))
    ensures Readable(WriteLine(d.journal, e).lines) == Readable(d.journal.lines) + [e]
    ensures Recover(d.(journal := WriteLine(d.journal, e))) == Apply(Recover(d), e)
  {
    ReadableConcat(d.journal.lines, [Whole(e)]);
    assert Readable([Whole(e)]) == [e] + Readable([]);
    ReplayConcat(Base(d), Readable(d.journal.lines), [e]);
    OneLine(Recover(d), e);
  }

  lemma DurableWellFormed(st: Store)
    requires Durable(st)
    ensures WellFormed(st.mem)
  {
    ReplayWellFormed(Base(st.disk), Readable(st.disk.journal.lines));
  }

  predicate NumberedLine(e: Entry) {
    e.Append? ==> e.event.seqNo > 0
  }

  /** Writing out the lines of a finished change keeps or restores durability, with or
      without compactions on the way. More than one line is only ever written when each
      is already part of the image. */
  lemma {:induction false} WritingOutRestores(st: Store, es: seq<Entry>, every: nat)
    requires TidyDisk(st.disk) && WellFormed(st.mem)
    requires Replay(Recover(st.disk), es) == st.mem
    requires |es| > 1 ==> forall n :: 0 <= n < |es| ==> Apply(st.mem, es[n]) == st.mem
    requires forall n :: 0 <= n < |es| ==> NumberedLine(es[n])
    ensures Durable(AppendLines(st, es, every))
    ensures AppendLines(st, es, every).mem == st.mem
    decreases es
  {
    if es != [] {
      RecoverAfterWrite(st.disk, es[0]);
      SnapshotRoundTrip(st.mem);
      var st' := AppendLine(st, es[0], every);
      if st'.disk.journal == EmptyFile && st'.n == 0 && st.n + 1 >= every {
        SettledReplay(st.mem, es[1..]);
      }
      WritingOutRestores(st', es[1..], every);
    }
  }

  lemma {:induction false} SettledReplay(s: State, es: seq<Entry>)
    requires forall n :: 0 <= n < |es| ==> Apply(s, es[n]) == s
    ensures Replay(s, es) == s
    decreases es
  {
    if es != [] {
      SettledReplay(s, es[1..]);
    }
  }

  // ---- the lines of an operation mean the operation -----------------------------------

  lemma {:induction false} ReplayDeletes(s: State, kind: Kind, ids: seq<Id>)
    ensures Replay(s, DeleteLines(kind, ids)) == Without(s, kind, ids)
    decreases ids
  {
    if ids == [] {
      assert s.records - (set id | id in ids :: Key(kind, id)) == s.records;
    } else {
      var head := Apply(s, DeleteLines(kind, ids)[0]);
      assert DeleteLines(kind, ids)[1..] == DeleteLines(kind, ids[1..]);
      ReplayDeletes(head, kind, ids[1..]);
      assert Without(head, kind, ids[1..]).records == Without(s, kind, ids).records;
    }
  }

  lemma {:induction false} ReplayLocks(s: State, kind: Kind, ids: seq<Id>, worker: Id, until: int)
    requires forall id :: id in ids ==> Key(kind, id) in s.records && KindOf(s.records[Key(kind, id)]) == kind
    ensures Replay(s, LockLines(s, kind, ids, worker, until)) == LockAll(s, kind, ids, worker, until)
    decreases ids
  {
    if ids == [] {
      assert LockAll(s, kind, ids, worker, until).records == s.records;
    } else {
      var lines := LockLines(s, kind, ids, worker, until);
      var last := ids[|ids| - 1];
      var front := ids[..|ids| - 1];
      ReplayLocks(s, kind, front, worker, until);
      assert lines == LockLines(s, kind, front, worker, until) + [lines[|ids| - 1]];
      ReplayConcat(s, LockLines(s, kind, front, worker, until), [lines[|ids| - 1]]);
      var mid := LockAll(s, kind, front, worker, until);
      OneLine(mid, lines[|ids| - 1]);
      assert KeyOf(last, Locked(s.records[Key(kind, last)], worker, until)) == Key(kind, last);
      assert Apply(mid, lines[|ids| - 1]).records == LockAll(s, kind, ids, worker, until).records;
    }
  }

  lemma LockListKinds(s: State, kind: Kind, topic: Id, now: int, limit: nat)
    requires WellFormed(s)
    ensures forall id :: id in LockList(s, kind, topic, now, limit) ==>
      Key(kind, id) in s.records && KindOf(s.records[Key(kind, id)]) == kind
  {
    LockListStored(s, kind, topic, now, limit);
  }

  lemma OneLine(s: State, e: Entry)
    ensures Replay(s, [e]) == Apply(s, e)
  {
    assert Replay(s, [e]) == Replay(Apply(s, e), []);
  }

  lemma DeletesSettle(s: State, kind: Kind, ids: seq<Id>)
    ensures forall n :: 0 <= n < |ids| ==> Apply(Without(s, kind, ids), DeleteLines(kind, ids)[n]) == Without(s, kind, ids)
  {
    forall n | 0 <= n < |ids| ensures Apply(Without(s, kind, ids), DeleteLines(kind, ids)[n]) == Without(s, kind, ids) {
      assert Apply(Without(s, kind, ids), DeleteLines(kind, ids)[n]).records == Without(s, kind, ids).records;
    }
  }

  lemma LocksSettle(s: State, kind: Kind, ids: seq<Id>, worker: Id, until: int)
    requires forall id :: id in ids ==> Key(kind, id) in s.records && KindOf(s.records[Key(kind, id)]) == kind
    ensures var image := LockAll(s, kind, ids, worker, until);
      forall n :: 0 <= n < |ids| ==> Apply(image, LockLines(s, kind, ids, worker, until)[n]) == image
  {
    var image := LockAll(s, kind, ids, worker, until);
    forall n | 0 <= n < |ids| ensures Apply(image, LockLines(s, kind, ids, worker, until)[n]) == image {
      assert KeyOf(ids[n], Locked(s.records[Key(kind, ids[n])], worker, until)) == Key(kind, ids[n]);
      assert Apply(image, LockLines(s, kind, ids, worker, until)[n]).records == image.records;
    }
  }

  /** The journaled lines carry the whole effect; several lines are each already in it. */
  lemma LinesMeanStep(s: State, op: Op)
    requires WellFormed(s)
    ensures Replay(s, Lines(s, op)) == MemStep(s, op)
    ensures forall n :: 0 <= n < |Lines(s, op)| ==> NumberedLine(Lines(s, op)[n])
    ensures |Lines(s, op)| > 1 ==>
      forall n :: 0 <= n < |Lines(s, op)| ==> Apply(MemStep(s, op), Lines(s, op)[n]) == MemStep(s, op)
  {
    match op {
      case TakeDue(now, limit) =>
        ReplayDeletes(s, JobKind, DueList(s, now, limit));
        DeletesSettle(s, JobKind, DueList(s, now, limit));
      case Lock(kind, topic, worker, until, now, limit) =>
        LockListKinds(s, kind, topic, now, limit);
        ReplayLocks(s, kind, LockList(s, kind, topic, now, limit), worker, until);
        LocksSettle(s, kind, LockList(s, kind, topic, now, limit), worker, until);
      case Note(ev) =>
        assert Numbered(s, Numbered(s, ev)) == Numbered(s, ev);
        OneLine(s, Append(Numbered(s, ev)));
      case Save(id, r) => OneLine(s, Put(id, r));
      case SaveInstance(id, rev, data) => OneLine(s, Put(id, Instance(rev + 1, data)));
      case Remove(k) => OneLine(s, Delete(k));
      case Forget(i) => OneLine(s, Purge(i));
    }
  }

  // ---- main results ---------------------------------------------------------------------

  lemma PerformDurable(st: Store, op: Op, every: nat)
    requires Durable(st)
    ensures Durable(Perform(st, op, every))
    ensures Perform(st, op, every).mem == MemStep(st.mem, op)
  {
    DurableWellFormed(st);
    LinesMeanStep(st.mem, op);
    ReplayWellFormed(st.mem, Lines(st.mem, op));
    WritingOutRestores(st.(mem := MemStep(st.mem, op)), Lines(st.mem, op), every);
  }

  /** The journal refines memory: after any sequence of operations, with compactions
      wherever they fall, loading the disk gives what pure memory would hold, revisions
      and history counters included. */
  lemma {:induction false} JournalRefinesMemory(st: Store, ops: seq<Op>, every: nat)
    requires Durable(st)
    ensures Durable(PerformAll(st, ops, every))
    ensures Recover(PerformAll(st, ops, every).disk) == MemRun(st.mem, ops)
    decreases ops
  {
    if ops != [] {
      PerformDurable(st, ops[0], every);
      JournalRefinesMemory(Perform(st, ops[0], every), ops[1..], every);
    }
  }

  /** A follower is durable too: restarting it loses nothing it acknowledged. */
  lemma ReplicateDurable(st: Store, e: Entry, every: nat)
    requires Durable(st) && NumberedLine(e)
    ensures Durable(ReplicateLine(st, e, every))
    ensures ReplicateLine(st, e, every).mem == Follow(st.mem, e)
  {
    DurableWellFormed(st);
    ApplyWellFormed(st.mem, e);
    var st' := st.(mem := Apply(st.mem, e));
    OneLine(st.mem, e);
    WritingOutRestores(st', [e], every);
    OneAppend(st', e, every);
  }

  // ---- crashes --------------------------------------------------------------------------

  /** Equal records and counters, and each trail holds the same events, maybe repeated. */
  ghost predicate SameUpToRepeats(s: State, t: State) {
    && s.records == t.records
    && s.histSeq == t.histSeq
    && forall i, ev :: ev in HistoryOf(s, i) <==> ev in HistoryOf(t, i)
  }

  /** Disk states compaction passes through: the renamed snapshot beside the old journal,
      then the truncated journal. Writing the temporary file changes nothing that loads. */
  function CompactTrace(st: Store): seq<Disk> {
    [st.disk.(snapshot := Some(SnapshotOf(st.mem))), Compact(st).disk]
  }

  /** Disk states one append passes through: a torn line, the line without its newline,
      the finished line, and those of a compaction if one is due. */
  function AppendTrace(st: Store, e: Entry, every: nat): seq<Disk> {
    var f := st.disk.journal;
    var written := st.(disk := st.disk.(journal := WriteLine(f, e)), n := st.n + 1);
    [st.disk.(journal := File(f.lines + [Garbage], true)),
     st.disk.(journal := File(f.lines + [Whole(e)], true)),
     written.disk]
    + if written.n >= every then CompactTrace(written) else []
  }

  function AppendLinesTrace(st: Store, es: seq<Entry>, every: nat): seq<Disk>
    decreases es
  {
    if es == [] then [] else
      AppendTrace(st, es[0], every) + AppendLinesTrace(AppendLine(st, es[0], every), es[1..], every)
  }

  lemma OneAppend(st: Store, e: Entry, every: nat)
    ensures AppendLines(st, [e], every) == AppendLine(st, e, every)
    ensures AppendLinesTrace(st, [e], every) == AppendTrace(st, e, every)
  {
    assert AppendLines(st, [e], every) == AppendLines(AppendLine(st, e, every), [], every);
    assert AppendLinesTrace(st, [e], every)
        == AppendTrace(st, e, every) + AppendLinesTrace(AppendLine(st, e, every), [], every);
  }

  /** Compaction is safe wherever it dies: before the rename nothing changed; between
      rename and truncation the old journal is replayed over a snapshot that already
      contains it; after truncation the snapshot stands alone. */
  lemma CompactionCrashSafe(st: Store, d: Disk)
    requires Durable(st)
    requires d == st.disk || d in CompactTrace(st)
    ensures SameUpToRepeats(Recover(d), st.mem)
    ensures d != CompactTrace(st)[0] ==> Recover(d) == st.mem
  {
    DurableWellFormed(st);
    SnapshotRoundTrip(st.mem);
    ReplayTwice(Base(st.disk), Readable(st.disk.journal.lines));
    assert Readable([]) == [];
    assert d == st.disk || d == CompactTrace(st)[0] || d == CompactTrace(st)[1];
  }

  /** In the middle window a trail comes back unrepeated exactly when the old journal
      purged that instance or holds no event of it. */
  lemma MiddleWindowExactTrail(st: Store, i: Id)
    requires Durable(st)
    ensures var log := Readable(st.disk.journal.lines);
      HistoryOf(Recover(CompactTrace(st)[0]), i) == HistoryOf(st.mem, i)
      <==> (PurgesTrail(log, i)
            || forall n :: 0 <= n < |log| && log[n].Append? ==> log[n].event.instance != i)
  {
    DurableWellFormed(st);
    SnapshotRoundTrip(st.mem);
    ReplayTwiceExactTrail(Base(st.disk), Readable(st.disk.journal.lines), i);
  }

  /** Dying inside an operation that writes one line recovers exactly the state before or
      after it, but for repeated events in the middle window of a compaction. */
  lemma SingleLineCrash(before: Store, op: Op, every: nat, d: Disk)
    requires Durable(before) && |Lines(before.mem, op)| == 1
    requires d in AppendLinesTrace(before.(mem := MemStep(before.mem, op)), Lines(before.mem, op), every)
    ensures || Recover(d) == before.mem || Recover(d) == MemStep(before.mem, op)
            || (before.n + 1 >= every && d.snapshot == Some(SnapshotOf(MemStep(before.mem, op))) && d.journal != EmptyFile
                && SameUpToRepeats(Recover(d), MemStep(before.mem, op)))
  {
    var e := Lines(before.mem, op)[0];
    var st := before.(mem := MemStep(before.mem, op));
    var f := before.disk.journal;
    var written := st.(disk := st.disk.(journal := WriteLine(f, e)), n := st.n + 1);
    DurableWellFormed(before);
    LinesMeanStep(before.mem, op);
    OneLine(before.mem, e);
    assert Lines(before.mem, op) == [e];
    OneAppend(st, e, every);
    RecoverAfterWrite(before.disk, e);
    TornWrites(before.disk, e);
    if d !in AppendTrace(st, e, every)[..3] {
      assert d in CompactTrace(written);
      CompactionCrashSafe(written, d);
    }
  }

  /** What a half-written line loads as. */
  lemma TornWrites(d: Disk, e: Entry)
    requires Tidy(d.journal)
    ensures Recover(d.(journal := File(d.journal.lines + [Garbage], true))) == Recover(d)
    ensures Recover(d.(journal := File(d.journal.lines + [Whole(e)], true))) == Apply(Recover(d), e)
  {
    ReadableConcat(d.journal.lines, [Garbage]);
    ReadableConcat(d.journal.lines, [Whole(e)]);
    assert Readable([Garbage]) == [];
    assert Readable(d.journal.lines + [Garbage]) == Readable(d.journal.lines);
    assert Readable([Whole(e)]) == [e] + Readable([]);
    RecoverAfterWrite(d, e);
  }

  predicate Keyed(e: Entry) {
    e.Put? || e.Delete?
  }

  /** `after` drops or rewrites records of `before` without moving one to another instance. */
  ghost predicate KeepsOwners(before: State, after: State) {
    forall k :: k in after.records ==>
      k in before.records && SameOwner(k, before.records[k], after.records[k])
  }

  ghost predicate SameOwner(k: Key, v: Record, w: Record) {
    forall i :: PurgeHits(i, k, v) <==> PurgeHits(i, k, w)
  }

  lemma {:induction false} SameOwnerSameFilter(log: seq<Entry>, k: Key, v: Record, w: Record)
    requires !Overwrites(log, k)
    requires SameOwner(k, v, w)
    ensures Fate(log, k, Some(v)) == Some(v) ==> Fate(log, k, Some(w)) == Some(w)
    decreases log
  {
    if log != [] {
      forall n | 0 <= n < |log[1..]|
        ensures !(log[1..][n] == Delete(k) || (log[1..][n].Put? && KeyOf(log[1..][n].id, log[1..][n].record) == k))
      {
        assert log[n + 1] == log[1..][n];
      }
      if Hit(log[0], k, Some(v)) == None {
        OtherwiseFilters(log[1..], k, None);
      } else {
        SameOwnerSameFilter(log[1..], k, v, w);
      }
    }
  }

  /** The middle window of a compaction that runs before all lines of an operation are
      out: each record loads as it was, or as the finished operation left it. */
  lemma OldLogOverFinishedImage(base: State, log: seq<Entry>, image: State, k: Key)
    requires KeepsOwners(Replay(base, log), image)
    ensures Lookup(Replay(image, log), k) == Lookup(Replay(base, log), k)
         || Lookup(Replay(image, log), k) == Lookup(image, k)
  {
    ReplayFate(base, log, k);
    ReplayFate(image, log, k);
    if Overwrites(log, k) {
      OverwriteFixes(log, k, Lookup(base, k), Lookup(image, k));
    } else {
      OtherwiseFilters(log, k, Lookup(base, k));
      OtherwiseFilters(log, k, Lookup(image, k));
      if k in image.records {
        SameOwnerSameFilter(log, k, Replay(base, log).records[k], image.records[k]);
      }
    }
  }

  ghost predicate SameTrails(s: State, t: State) {
    && s.histSeq == t.histSeq
    && forall i, ev :: ev in HistoryOf(s, i) <==> ev in HistoryOf(t, i)
  }

  /** Each record of `s` is as in `before` or as in `after`, and the trails agree. */
  ghost predicate RecordwiseBetween(s: State, before: State, after: State) {
    && (forall k :: Lookup(s, k) == Lookup(before, k) || Lookup(s, k) == Lookup(after, k))
    && SameTrails(s, after)
  }

  /** Dying in a compaction that a line of the operation set off. */
  lemma CrashWhileCompacting(written: Store, d: Disk)
    requires TidyDisk(written.disk) && WellFormed(written.mem)
    requires KeepsOwners(Recover(written.disk), written.mem)
    requires Recover(written.disk).history == written.mem.history && Recover(written.disk).histSeq == written.mem.histSeq
    requires d in CompactTrace(written)
    ensures RecordwiseBetween(Recover(d), Recover(written.disk), written.mem)
  {
    SnapshotRoundTrip(written.mem);
    assert Readable([]) == [];
    if d == CompactTrace(written)[0] {
      var log := Readable(written.disk.journal.lines);
      forall k
        ensures Lookup(Recover(d), k) == Lookup(Recover(written.disk), k) || Lookup(Recover(d), k) == Lookup(written.mem, k)
      {
        OldLogOverFinishedImage(Base(written.disk), log, written.mem, k);
      }
      TrailsOfReplayedLog(Base(written.disk), log, written.mem);
    }
  }

  /** Dying while the lines of one operation are written out, compactions included, leaves
      every record either as it was or as the operation makes it. */
  lemma {:induction false} CrashWhileWriting(st: Store, es: seq<Entry>, every: nat, d: Disk)
    requires TidyDisk(st.disk) && WellFormed(st.mem)
    requires forall n :: 0 <= n < |es| ==> Keyed(es[n]) && Apply(st.mem, es[n]) == st.mem
    requires Replay(Recover(st.disk), es) == st.mem
    requires KeepsOwners(Recover(st.disk), st.mem)
    requires d in AppendLinesTrace(st, es, every)
    ensures RecordwiseBetween(Recover(d), Recover(st.disk), st.mem)
    decreases es
  {
    var e, cur := es[0], Recover(st.disk);
    KeyedLinesKeepTrails(cur, es);
    KeyedLineStep(cur, st.mem, e);
    if d in AppendTrace(st, e, every) {
      CrashInOneLine(st, e, every, d);
    } else {
      RecoverAfterWrite(st.disk, e);
      SnapshotRoundTrip(st.mem);
      SettledReplay(st.mem, es[1..]);
      assert Readable([]) == [];
      CrashWhileWriting(AppendLine(st, e, every), es[1..], every, d);
    }
  }

  lemma CrashInOneLine(st: Store, e: Entry, every: nat, d: Disk)
    requires TidyDisk(st.disk) && WellFormed(st.mem) && Keyed(e) && Apply(st.mem, e) == st.mem
    requires KeepsOwners(Recover(st.disk), st.mem)
    requires Recover(st.disk).history == st.mem.history && Recover(st.disk).histSeq == st.mem.histSeq
    requires d in AppendTrace(st, e, every)
    ensures RecordwiseBetween(Recover(d), Recover(st.disk), st.mem)
  {
    var written := st.(disk := st.disk.(journal := WriteLine(st.disk.journal, e)), n := st.n + 1);
    RecoverAfterWrite(st.disk, e);
    TornWrites(st.disk, e);
    KeyedLineStep(Recover(st.disk), st.mem, e);
    if d !in AppendTrace(st, e, every)[..3] {
      assert d in CompactTrace(written);
      CrashWhileCompacting(written, d);
    }
  }

  /** One line of the operation: each record stays or becomes what the image holds. */
  lemma KeyedLineStep(cur: State, image: State, e: Entry)
    requires Keyed(e) && Apply(image, e) == image && KeepsOwners(cur, image)
    ensures forall k :: Lookup(Apply(cur, e), k) == Lookup(cur, k) || Lookup(Apply(cur, e), k) == Lookup(image, k)
    ensures KeepsOwners(Apply(cur, e), image)
  {
    forall k ensures Lookup(Apply(cur, e), k) == Lookup(cur, k) || Lookup(Apply(cur, e), k) == Lookup(image, k) {
      assert Lookup(Apply(image, e), k) == Lookup(image, k);
    }
    forall k | k in image.records
      ensures k in Apply(cur, e).records && SameOwner(k, Apply(cur, e).records[k], image.records[k])
    {
      assert Lookup(Apply(cur, e), k) == Lookup(cur, k) || Lookup(Apply(cur, e), k) == Lookup(image, k);
    }
  }

  lemma {:induction false} KeyedLinesKeepTrails(s: State, es: seq<Entry>)
    requires forall n :: 0 <= n < |es| ==> Keyed(es[n])
    ensures Replay(s, es).history == s.history && Replay(s, es).histSeq == s.histSeq
    decreases es
  {
    if es != [] {
      KeyedLinesKeepTrails(Apply(s, es[0]), es[1..]);
    }
  }

  lemma TrailsOfReplayedLog(base: State, log: seq<Entry>, image: State)
    requires WellFormed(base) && AllNumbered(log) && WellFormed(image)
    requires image.history == Replay(base, log).history && image.histSeq == Replay(base, log).histSeq
    ensures SameTrails(Replay(image, log), image)
  {
    var same := Replay(base, log);
    ReplayTwice(base, log);
    ReplayHistoryOnly(image, same, log);
    assert forall i :: HistoryOf(Replay(image, log), i) == HistoryOf(Replay(same, log), i);
    assert forall i :: HistoryOf(image, i) == HistoryOf(same, i);
  }

  lemma {:induction false} ReplayHistoryOnly(s: State, t: State, log: seq<Entry>)
    requires s.history == t.history && s.histSeq == t.histSeq
    ensures Replay(s, log).history == Replay(t, log).history
    ensures Replay(s, log).histSeq == Replay(t, log).histSeq
    decreases log
  {
    if log != [] {
      ReplayHistoryOnly(Apply(s, log[0]), Apply(t, log[0]), log[1..]);
    }
  }

  /** Crash safety of claiming due jobs and of locking: whichever disk state is left, each
      record is as before or as after, so no unclaimed job is lost. */
  lemma ClaimCrash(before: Store, op: Op, every: nat, d: Disk)
    requires Durable(before) && (op.TakeDue? || op.Lock?)
    requires d in AppendLinesTrace(before.(mem := MemStep(before.mem, op)), Lines(before.mem, op), every)
    ensures RecordwiseBetween(Recover(d), before.mem, MemStep(before.mem, op))
  {
    var es := Lines(before.mem, op);
    DurableWellFormed(before);
    LinesMeanStep(before.mem, op);
    ReplayWellFormed(before.mem, es);
    ClaimLines(before.mem, op);
    ClaimKeepsOwners(before.mem, op);
    CrashWhileWriting(before.(mem := MemStep(before.mem, op)), es, every, d);
  }

  /** Claim lines are keyed, and writing one of them twice adds nothing. */
  lemma ClaimLines(s: State, op: Op)
    requires WellFormed(s) && (op.TakeDue? || op.Lock?)
    ensures forall n :: 0 <= n < |Lines(s, op)| ==>
      Keyed(Lines(s, op)[n]) && Apply(MemStep(s, op), Lines(s, op)[n]) == MemStep(s, op)
  {
    var es := Lines(s, op);
    LinesMeanStep(s, op);
    if |es| == 1 {
      OneLine(s, es[0]);
      assert es == [es[0]];
      assert Apply(MemStep(s, op), es[0]).records == MemStep(s, op).records;
    }
  }

  /** Claiming moves no record to another instance. */
  lemma ClaimKeepsOwners(s: State, op: Op)
    requires op.TakeDue? || op.Lock?
    ensures KeepsOwners(s, MemStep(s, op))
  {
  }

  /** The disk once DueJobs has taken its jobs from memory and written `k` delete lines. */
  ghost function AfterDeletes(before: Store, now: int, limit: nat, every: nat, k: nat): Disk
    requires k <= |DueList(before.mem, now, limit)|
  {
    AppendLines(before.(mem := MemStep(before.mem, TakeDue(now, limit))),
                DeleteLines(JobKind, DueList(before.mem, now, limit)[..k]), every).disk
  }

  /** Dying in DueJobs after `k` of its delete lines (the next one perhaps torn) forgets
      the first `k` claimed jobs, and all of them once a compaction fell into the call,
      although no caller ever received them. */
  lemma DueJobsCrash(before: Store, now: int, limit: nat, every: nat, k: nat)
    requires Durable(before) && k <= |DueList(before.mem, now, limit)|
    ensures var due := DueList(before.mem, now, limit); var dead := AfterDeletes(before, now, limit, every, k);
      && Recover(dead) == Without(before.mem, JobKind, if k > 0 && before.n + k >= every then due else due[..k])
      && Recover(dead.(journal := File(dead.journal.lines + [Garbage], true))) == Recover(dead)
      && (Recover(dead) == before.mem <==> k == 0)
  {
    var due := DueList(before.mem, now, limit);
    AfterDeletesIs(before, now, limit, every, k);
    TornWrites(AfterDeletes(before, now, limit, every, k), Purge(0));
    SomeJobGone(before.mem, now, limit, k);
    SomeJobGone(before.mem, now, limit, |due|);
    assert due[..|due|] == due;
  }

  lemma AfterDeletesIs(before: Store, now: int, limit: nat, every: nat, k: nat)
    requires Durable(before) && k <= |DueList(before.mem, now, limit)|
    ensures var due := DueList(before.mem, now, limit); var dead := AfterDeletes(before, now, limit, every, k);
      Tidy(dead.journal)
      && Recover(dead) == Without(before.mem, JobKind, if k > 0 && before.n + k >= every then due else due[..k])
  {
    var due := DueList(before.mem, now, limit);
    DurableWellFormed(before);
    ClaimLinesSettle(before, now, limit, k);
    SettledAppends(before.(mem := MemStep(before.mem, TakeDue(now, limit))), DeleteLines(JobKind, due[..k]), every);
    ReplayDeletes(before.mem, JobKind, due[..k]);
  }

  lemma SomeJobGone(s: State, now: int, limit: nat, k: nat)
    requires k <= |DueList(s, now, limit)|
    ensures Without(s, JobKind, DueList(s, now, limit)[..k]) == s <==> k == 0
  {
    var due := DueList(s, now, limit);
    assert due[..0] == [] && Without(s, JobKind, []).records == s.records;
    if k > 0 {
      DueIsStored(s, now, limit, 0);
      assert due[0] in due[..k] && Key(JobKind, due[0]) !in Without(s, JobKind, due[..k]).records;
    }
  }

  lemma DueIsStored(s: State, now: int, limit: nat, n: nat)
    requires n < |DueList(s, now, limit)|
    ensures Key(JobKind, DueList(s, now, limit)[n]) in s.records
  {
    var all := Ordering.Listing(DueRank(s), DueSet(s, now));
    assert DueList(s, now, limit)[n] in Ordering.Elements(all);
  }

  lemma ClaimLinesSettle(before: Store, now: int, limit: nat, k: nat)
    requires Durable(before) && WellFormed(before.mem) && k <= |DueList(before.mem, now, limit)|
    ensures var es := DeleteLines(JobKind, DueList(before.mem, now, limit)[..k]);
      forall n :: 0 <= n < |es| ==> Apply(MemStep(before.mem, TakeDue(now, limit)), es[n]) == MemStep(before.mem, TakeDue(now, limit))
    ensures WellFormed(MemStep(before.mem, TakeDue(now, limit)))
  {
    var op := TakeDue(now, limit);
    ClaimLines(before.mem, op);
    LinesMeanStep(before.mem, op);
    ReplayWellFormed(before.mem, Lines(before.mem, op));
    var es := DeleteLines(JobKind, DueList(before.mem, now, limit)[..k]);
    forall n | 0 <= n < |es| ensures Apply(MemStep(before.mem, op), es[n]) == MemStep(before.mem, op) {
      assert es[n] == Lines(before.mem, op)[n];
    }
  }

  /** Writing lines that are already in the image: the disk holds those written so far, or,
      once the counter has set off a compaction, the whole image. */
  lemma {:induction false} SettledAppends(st: Store, es: seq<Entry>, every: nat)
    requires Tidy(st.disk.journal) && WellFormed(st.mem)
    requires forall n :: 0 <= n < |es| ==> Apply(st.mem, es[n]) == st.mem
    ensures Tidy(AppendLines(st, es, every).disk.journal)
    ensures Recover(AppendLines(st, es, every).disk)
         == if es != [] && st.n + |es| >= every then st.mem else Replay(Recover(st.disk), es)
    decreases es
  {
    if es != [] {
      RecoverAfterWrite(st.disk, es[0]);
      SnapshotRoundTrip(st.mem);
      assert Readable([]) == [];
      SettledReplay(st.mem, es[1..]);
      SettledAppends(AppendLine(st, es[0], every), es[1..], every);
    }
  }

  /** Every job of `s` is still there after loading the disk. */
  ghost predicate KeepsJobs(d: Disk, s: State) {
    forall k :: k in s.records && k.kind.JobKind? ==> Lookup(Recover(d), k) == Lookup(s, k)
  }

  /** However the process dies inside DueJobs no job is lost, exactly if none was due: the
      first delete line loses its job even without its newline. */
  lemma DueJobsKeepsJobsExactly(before: Store, now: int, limit: nat, every: nat)
    requires Durable(before)
    ensures var op := TakeDue(now, limit);
      (forall d :: d in AppendLinesTrace(before.(mem := MemStep(before.mem, op)), Lines(before.mem, op), every)
         ==> KeepsJobs(d, before.mem))
      <==> DueList(before.mem, now, limit) == []
  {
    var op := TakeDue(now, limit);
    var due := DueList(before.mem, now, limit);
    var st := before.(mem := MemStep(before.mem, op));
    if due != [] {
      var e := Lines(before.mem, op)[0];
      var d := st.disk.(journal := File(st.disk.journal.lines + [Whole(e)], true));
      assert AppendLinesTrace(st, Lines(before.mem, op), every)[1] == AppendTrace(st, e, every)[1] == d;
      TornWrites(st.disk, e);
      DueIsStored(before.mem, now, limit, 0);
      assert Lookup(Recover(d), Key(JobKind, due[0])) == None;
      assert !KeepsJobs(d, before.mem);
    }
  }

  // ---- a tail that was torn and then written over -------------------------------------

  /** A torn tail is not trimmed when the store reopens. The first line written after it
      runs into it, so that line and everything later is lost at the next load, unless a
      compaction comes first. */
  lemma {:induction false} TornTailLosesLaterLines(st: Store, es: seq<Entry>, every: nat)
    requires st.disk.journal.open && st.disk.journal.lines != [] && st.n + |es| < every
    requires es != []
    ensures Recover(AppendLines(st, es, every).disk)
         == Recover(st.disk.(journal := File(st.disk.journal.lines[..|st.disk.journal.lines| - 1], false)))
  {
    var f := st.disk.journal;
    var front := f.lines[..|f.lines| - 1];
    var st' := AppendLine(st, es[0], every);
    GarbageHides(front, []);
    assert st'.disk.journal.lines == front + [Garbage] + [];
    AppendsAfterGarbage(st', front, [], es[1..], every);
  }

  lemma {:induction false} GarbageHides(front: seq<Line>, back: seq<Line>)
    ensures Readable(front + [Garbage] + back) == Readable(front)
    decreases front
  {
    if front == [] {
      assert (front + [Garbage] + back)[0] == Garbage;
    } else {
      assert (front + [Garbage] + back)[1..] == front[1..] + [Garbage] + back;
      GarbageHides(front[1..], back);
    }
  }

  lemma {:induction false} AppendsAfterGarbage(st: Store, front: seq<Line>, back: seq<Line>, es: seq<Entry>, every: nat)
    requires st.disk.journal == File(front + [Garbage] + back, false) && st.n + |es| < every
    ensures Recover(AppendLines(st, es, every).disk) == Replay(Base(st.disk), Readable(front))
    decreases es
  {
    GarbageHides(front, back);
    if es != [] {
      assert front + [Garbage] + back + [Whole(es[0])] == front + [Garbage] + (back + [Whole(es[0])]);
      AppendsAfterGarbage(AppendLine(st, es[0], every), front, back + [Whole(es[0])], es[1..], every);
    }
  }

  /** The journal goes on after `front` with a line that does not parse. */
  ghost predicate Spoiled(f: File, front: seq<Line>) {
    exists back: seq<Line> :: f == File(front + [Garbage] + back, false)
  }

  /** Everything after `front` is lost at the next load, or will be with the next line. */
  ghost predicate TailLost(f: File, front: seq<Line>) {
    Spoiled(f, front) || (f.open && f.lines != [] && f.lines[..|f.lines| - 1] == front)
  }

  lemma WriteOver(f: File, front: seq<Line>, e: Entry)
    requires TailLost(f, front)
    ensures Spoiled(WriteLine(f, e), front)
  {
    if Spoiled(f, front) {
      var back: seq<Line> :| f == File(front + [Garbage] + back, false);
      assert front + [Garbage] + back + [Whole(e)] == front + [Garbage] + (back + [Whole(e)]);
    } else {
      assert front + [Garbage] == front + [Garbage] + [];
    }
  }

  /** One operation on top of a lost tail: its lines are lost too, unless the counter sets
      off a compaction. */
  lemma {:induction false} AppendsToLostTail(st: Store, es: seq<Entry>, every: nat, front: seq<Line>)
    requires TailLost(st.disk.journal, front) && WellFormed(st.mem) && es != []
    requires |es| > 1 ==> forall n :: 0 <= n < |es| ==> Apply(st.mem, es[n]) == st.mem
    requires forall n :: 0 <= n < |es| ==> NumberedLine(es[n])
    ensures var fin := AppendLines(st, es, every);
      fin.mem == st.mem &&
      if st.n + |es| >= every then Durable(fin)
      else Spoiled(fin.disk.journal, front) && fin.disk.snapshot == st.disk.snapshot && fin.n == st.n + |es|
    decreases es
  {
    var st' := AppendLine(st, es[0], every);
    if st.n + 1 >= every {
      SnapshotRoundTrip(st.mem);
      assert Readable([]) == [];
      SettledReplay(st.mem, es[1..]);
      WritingOutRestores(st', es[1..], every);
    } else {
      WriteOver(st.disk.journal, front, es[0]);
      if |es| > 1 {
        AppendsToLostTail(st', es[1..], every, front);
      }
    }
  }

  ghost function LineCount(s: State, ops: seq<Op>): nat
    decreases ops
  {
    if ops == [] then 0 else |Lines(s, ops[0])| + LineCount(MemStep(s, ops[0]), ops[1..])
  }

  /** Operations on top of a lost tail. */
  lemma {:induction false} OperationsOnLostTail(st: Store, ops: seq<Op>, every: nat, front: seq<Line>)
    requires TailLost(st.disk.journal, front) && WellFormed(st.mem)
    ensures var fin := PerformAll(st, ops, every); var count := LineCount(st.mem, ops);
      fin.mem == MemRun(st.mem, ops) &&
      if count > 0 && st.n + count >= every then Durable(fin)
      else TailLost(fin.disk.journal, front) && fin.disk.snapshot == st.disk.snapshot && fin.n == st.n + count
           && (count > 0 || Spoiled(st.disk.journal, front) ==> Spoiled(fin.disk.journal, front))
    decreases ops
  {
    if ops != [] {
      var es := Lines(st.mem, ops[0]);
      var mid := st.(mem := MemStep(st.mem, ops[0]));
      LinesMeanStep(st.mem, ops[0]);
      ReplayWellFormed(st.mem, es);
      if es == [] {
        OperationsOnLostTail(mid, ops[1..], every, front);
      } else {
        AppendsToLostTail(mid, es, every, front);
        if st.n + |es| >= every {
          JournalRefinesMemory(Perform(st, ops[0], every), ops[1..], every);
        } else {
          OperationsOnLostTail(Perform(st, ops[0], every), ops[1..], every, front);
        }
      }
    }
  }

  /** What follows a torn tail survives exactly if a compaction comes: with at least one
      line written since, disk and memory agree again if and only if the lines counted
      reach the compaction threshold; otherwise loading gives what was before the tail. */
  lemma TornTailExactly(st: Store, ops: seq<Op>, every: nat)
    requires st.disk.journal.open && st.disk.journal.lines != [] && WellFormed(st.mem) && LineCount(st.mem, ops) > 0
    ensures var fin := PerformAll(st, ops, every);
      && (Durable(fin) <==> st.n + LineCount(st.mem, ops) >= every)
      && (Durable(fin) ==> Recover(fin.disk) == MemRun(st.mem, ops))
      && (!Durable(fin) ==>
            Recover(fin.disk) == Recover(st.disk.(journal := File(st.disk.journal.lines[..|st.disk.journal.lines| - 1], false))))
  {
    var front := st.disk.journal.lines[..|st.disk.journal.lines| - 1];
    var fin := PerformAll(st, ops, every);
    OperationsOnLostTail(st, ops, every, front);
    if st.n + LineCount(st.mem, ops) < every {
      var back: seq<Line> :| fin.disk.journal == File(front + [Garbage] + back, false);
      assert fin.disk.journal.lines[|front|] == Garbage;
      GarbageHides(front, back);
    }
  }
}
