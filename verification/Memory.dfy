/** The in-memory store: maps updated in place, one method per Store operation. */
module Memory {
  import opened StoreState
  import opened Ordering

  // ---- what each operation does, on values ----------------------------------------

  datatype Op =
    | Save(id: Id, record: Record)
    | SaveInstance(id: Id, rev: nat, data: nat)
    | Remove(key: Key)
    | Forget(instance: Id)
    | Note(event: Event)
    | TakeDue(now: int, limit: nat)
    | Lock(kind: Kind, topic: Id, worker: Id, until: int, now: int, limit: nat)

  predicate Claimable(kind: Kind) {
    kind == ExternalKind || kind == AgentKind
  }

  /** The Store interface has one Put per kind; instances go through SaveInstance, only
      jobs, subscriptions and blobs can be deleted, only external tasks and agent jobs locked. */
  predicate Legal(op: Op) {
    match op
    case Save(_, r) => !r.Instance?
    case Remove(k) => k.kind in {JobKind, SubscriptionKind, BlobKind}
    case Lock(kind, _, _, _, _, _) => Claimable(kind)
    case _ => true
  }

  function DueRank(s: State): Id -> int {
    (id: Id) => var k := Key(JobKind, id); if k in s.records && s.records[k].Job? then s.records[k].due else 0
  }

  function IdRank(): Id -> int {
    (id: Id) => 0
  }

  function DueSet(s: State, now: int): set<Id> {
    set k | k in s.records && k.kind == JobKind && s.records[k].Job? && s.records[k].due <= now :: k.id
  }

  ghost function DueList(s: State, now: int, limit: nat): seq<Id> {
    Limited(Listing(DueRank(s), DueSet(s, now)), limit)
  }

  function ClaimOf(r: Record): Option<Claim> {
    match r
    case External(_, c, _) => Some(c)
    case Agent(_, c, _) => Some(c)
    case _ => None
  }

  function WithClaim(r: Record, c: Claim): Record {
    match r
    case External(i, _, d) => External(i, c, d)
    case Agent(i, _, d) => Agent(i, c, d)
    case _ => r
  }

  /** Pending on the topic, and unlocked or with an expired lock. */
  predicate Available(r: Record, topic: Id, now: int) {
    var c := ClaimOf(r);
    c.Some? && c.value.topic == topic && c.value.pending && !(c.value.holder != 0 && c.value.until > now)
  }

  function AvailableSet(s: State, kind: Kind, topic: Id, now: int): set<Id> {
    set k | k in s.records && k.kind == kind && Available(s.records[k], topic, now) :: k.id
  }

  ghost function LockList(s: State, kind: Kind, topic: Id, now: int, limit: nat): seq<Id> {
    Limited(Listing(IdRank(), AvailableSet(s, kind, topic, now)), limit)
  }

  function Locked(r: Record, worker: Id, until: int): Record {
    var c := ClaimOf(r);
    if c.None? then r else WithClaim(r, c.value.(holder := worker, until := until))
  }

  function Without(s: State, kind: Kind, ids: seq<Id>): State {
    s.(records := s.records - set id | id in ids :: Key(kind, id))
  }

  function LockAll(s: State, kind: Kind, ids: seq<Id>, worker: Id, until: int): State {
    s.(records := map k | k in s.records ::
         if k.kind == kind && k.id in ids then Locked(s.records[k], worker, until) else s.records[k])
  }

  /** The state each operation leaves. */
  ghost function MemStep(s: State, op: Op): State {
    match op
    case Save(id, r) => s.(records := s.records[KeyOf(id, r) := r])
    case SaveInstance(id, rev, data) => s.(records := s.records[Key(InstanceKind, id) := Instance(rev + 1, data)])
    case Remove(k) => s.(records := s.records - {k})
    case Forget(i) => PurgeInstance(s, i)
    case Note(ev) => AppendEvent(s, ev)
    case TakeDue(now, limit) => Without(s, JobKind, DueList(s, now, limit))
    case Lock(kind, topic, worker, until, now, limit) =>
      LockAll(s, kind, LockList(s, kind, topic, now, limit), worker, until)
  }

  /** A lock list names stored, available records, none of them twice. */
  lemma LockedOnce(s: State, kind: Kind, topic: Id, now: int, limit: nat, n: nat)
    requires n < |LockList(s, kind, topic, now, limit)|
    ensures var taken := LockList(s, kind, topic, now, limit);
      && Key(kind, taken[n]) in s.records && Available(s.records[Key(kind, taken[n])], topic, now)
      && taken[n] !in taken[..n]
  {
    var all := Listing(IdRank(), AvailableSet(s, kind, topic, now));
    var taken := LockList(s, kind, topic, now, limit);
    assert taken[n] in Elements(all);
    forall j | 0 <= j < n ensures taken[j] != taken[n] { assert Before(IdRank(), all[j], all[n]); }
  }

  lemma LockMore(s: State, kind: Kind, ids: seq<Id>, id: Id, worker: Id, until: int)
    requires Key(kind, id) in s.records && id !in ids
    ensures var k := Key(kind, id); var locked := LockAll(s, kind, ids, worker, until);
      && k in locked.records && locked.records[k] == s.records[k]
      && LockAll(s, kind, ids + [id], worker, until) == locked.(records := locked.records[k := Locked(s.records[k], worker, until)])
  {
    var k := Key(kind, id);
    var locked := LockAll(s, kind, ids, worker, until);
    assert LockAll(s, kind, ids + [id], worker, until).records == locked.records[k := Locked(s.records[k], worker, until)];
  }

  // ---- the claimed lists, in terms of the records alone ------------------------------

  /** A stored job whose time has come. */
  predicate JobDue(records: map<Key, Record>, id: Id, now: int) {
    var k := Key(JobKind, id);
    k in records && records[k].Job? && records[k].due <= now
  }

  /** Job `a` is due before job `b`, or at the same time under a smaller ID. */
  predicate DueBefore(records: map<Key, Record>, a: Id, b: Id)
    requires Key(JobKind, a) in records && records[Key(JobKind, a)].Job?
    requires Key(JobKind, b) in records && records[Key(JobKind, b)].Job?
  {
    var s, t := records[Key(JobKind, a)].due, records[Key(JobKind, b)].due;
    s < t || (s == t && a < b)
  }

  /** The due jobs, none twice, earliest first; a job is left out only if it comes after
      `limit` others, a limit of 0 leaving none out. */
  ghost predicate EarliestDue(records: map<Key, Record>, now: int, limit: nat, due: seq<Id>) {
    && (forall i :: 0 <= i < |due| ==> JobDue(records, due[i], now))
    && (forall i, j :: 0 <= i < j < |due| ==> due[i] != due[j] && DueBefore(records, due[i], due[j]))
    && (limit > 0 ==> |due| <= limit)
    && (forall id :: JobDue(records, id, now) && id !in due ==>
          0 < limit == |due| && forall i :: 0 <= i < |due| ==> DueBefore(records, due[i], id))
  }

  /** A record of the kind that waits on the topic, with no lock or one that has expired. */
  predicate Unlocked(records: map<Key, Record>, kind: Kind, topic: Id, now: int, id: Id) {
    var k := Key(kind, id);
    && k in records && (records[k].External? || records[k].Agent?)
    && records[k].claim.topic == topic && records[k].claim.pending
    && (records[k].claim.holder == 0 || records[k].claim.until <= now)
  }

  /** The records a worker may lock, none twice, by ascending ID; one is left out only if it
      comes after `limit` others, a limit of 0 leaving none out. */
  ghost predicate LowestUnlocked(records: map<Key, Record>, kind: Kind, topic: Id, now: int, limit: nat, taken: seq<Id>) {
    && (forall i :: 0 <= i < |taken| ==> Unlocked(records, kind, topic, now, taken[i]))
    && (forall i, j :: 0 <= i < j < |taken| ==> taken[i] < taken[j])
    && (limit > 0 ==> |taken| <= limit)
    && (forall id :: Unlocked(records, kind, topic, now, id) && id !in taken ==>
          0 < limit == |taken| && forall i :: 0 <= i < |taken| ==> taken[i] < id)
  }

  /** A listing cut at the limit: what it leaves out comes after all it holds. */
  lemma CutListing(rank: Id -> int, all: seq<Id>, limit: nat)
    requires Sorted(rank, all)
    ensures var q := Limited(all, limit);
      && Elements(q) <= Elements(all) && Sorted(rank, q) && (limit > 0 ==> |q| <= limit)
      && forall x :: x in Elements(all) && x !in q ==> 0 < limit == |q| && forall i :: 0 <= i < |q| ==> Before(rank, q[i], x)
  {
    var q := Limited(all, limit);
    assert forall i :: 0 <= i < |q| ==> q[i] == all[i];
    forall x | x in Elements(all) && x !in q ensures 0 < limit == |q| && forall i :: 0 <= i < |q| ==> Before(rank, q[i], x) {
      var j :| 0 <= j < |all| && all[j] == x;
    }
  }

  lemma DueListIs(s: State, now: int, limit: nat)
    ensures EarliestDue(s.records, now, limit, DueList(s, now, limit))
  {
    var all := Listing(DueRank(s), DueSet(s, now));
    var due := DueList(s, now, limit);
    CutListing(DueRank(s), all, limit);
    forall id ensures id in Elements(all) <==> JobDue(s.records, id, now) {
      assert JobDue(s.records, id, now) ==> Key(JobKind, id).id in DueSet(s, now);
    }
    forall i | 0 <= i < |due| ensures JobDue(s.records, due[i], now) {
      assert due[i] in Elements(due);
    }
  }

  lemma LockListIs(s: State, kind: Kind, topic: Id, now: int, limit: nat)
    ensures LowestUnlocked(s.records, kind, topic, now, limit, LockList(s, kind, topic, now, limit))
  {
    var all := Listing(IdRank(), AvailableSet(s, kind, topic, now));
    var taken := LockList(s, kind, topic, now, limit);
    CutListing(IdRank(), all, limit);
    forall id ensures id in Elements(all) <==> Unlocked(s.records, kind, topic, now, id) {
      assert Unlocked(s.records, kind, topic, now, id) ==> Key(kind, id).id in AvailableSet(s, kind, topic, now);
    }
    forall i | 0 <= i < |taken| ensures Unlocked(s.records, kind, topic, now, taken[i]) {
      assert taken[i] in Elements(taken);
    }
  }

  /** The records before and after a lock call: exactly those taken carry the new lock. */
  ghost predicate Relocked(was: map<Key, Record>, records: map<Key, Record>, kind: Kind, taken: seq<Id>, worker: Id, until: int) {
    && records.Keys == was.Keys
    && forall k :: k in was ==>
         if k.kind == kind && k.id in taken && (was[k].External? || was[k].Agent?)
         then records[k] == was[k].(claim := was[k].claim.(holder := worker, until := until))
         else records[k] == was[k]
  }

  lemma LockAllRelocks(s: State, kind: Kind, taken: seq<Id>, worker: Id, until: int)
    ensures var s' := LockAll(s, kind, taken, worker, until);
      Relocked(s.records, s'.records, kind, taken, worker, until) && s'.history == s.history && s'.histSeq == s.histSeq
  {
  }

  /** Does the stored record belong to instance `i`, or is it the instance itself? */
  predicate BelongsTo(k: Key, r: Record, i: Id) {
    || (r.Instance? && k.id == i)
    || ((r.Task? || r.Job? || r.External? || r.Agent? || r.Subscription? || r.Incident?) && r.instance == i)
  }

  /** After a purge nothing of the instance is left, and everything else is as it was. */
  lemma PurgeSpares(s: State, i: Id)
    ensures var s' := MemStep(s, Forget(i));
      && (forall k :: k in s'.records <==> k in s.records && !BelongsTo(k, s.records[k], i))
      && (forall k :: k in s'.records ==> s'.records[k] == s.records[k])
      && i !in s'.history && i !in s'.histSeq
      && s'.history == s.history - {i} && s'.histSeq == s.histSeq - {i}
  {
  }

  // ---- the store object -------------------------------------------------------------

  class Memory {
    var records: map<Key, Record>
    var history: map<Id, seq<Event>>
    var histSeq: map<Id, nat>

    function Contents(): State
      reads this
    {
      State(records, history, histSeq)
    }

    constructor ()
      ensures Contents() == EmptyState
    {
      records, history, histSeq := map[], map[], map[];
    }

    method Put(id: Id, record: Record)
      requires !record.Instance?
      modifies this
      ensures records == old(records)[Key(KindOf(record), id) := record] && history == old(history) && histSeq == old(histSeq)
      ensures Contents() == MemStep(old(Contents()), Save(id, record))
    {
      records := records[KeyOf(id, record) := record];
    }

    /** Stores the instance under the next revision, which the caller gets back. */
    method PutInstance(id: Id, rev: nat, data: nat) returns (newRev: nat)
      modifies this
      ensures newRev == rev + 1
      ensures records == old(records)[Key(InstanceKind, id) := Instance(rev + 1, data)]
      ensures history == old(history) && histSeq == old(histSeq)
      ensures Contents() == MemStep(old(Contents()), SaveInstance(id, rev, data))
    {
      newRev := rev + 1;
      records := records[Key(InstanceKind, id) := Instance(newRev, data)];
    }

    /** Replay puts an instance back under the revision it was journaled with. */
    method RestoreInstance(id: Id, rev: nat, data: nat)
      modifies this
      ensures Contents() == Apply(old(Contents()), StoreState.Put(id, Instance(rev, data)))
    {
      records := records[Key(InstanceKind, id) := Instance(rev, data)];
    }

    method Delete(key: Key)
      modifies this
      ensures records == old(records) - {key} && history == old(history) && histSeq == old(histSeq)
      ensures Contents() == MemStep(old(Contents()), Remove(key))
    {
      records := records - {key};
    }

    method PurgeInstance(i: Id)
      modifies this
      ensures forall k :: k in records <==> k in old(records) && !BelongsTo(k, old(records)[k], i)
      ensures forall k :: k in records ==> records[k] == old(records)[k]
      ensures history == old(history) - {i} && histSeq == old(histSeq) - {i}
      ensures Contents() == MemStep(old(Contents()), Forget(i))
    {
      history := history - {i};
      histSeq := histSeq - {i};
      var todo := records.Keys;
      ghost var was := records;
      while todo != {}
        invariant todo <= was.Keys
        invariant records == map k | k in was && (k in todo || !PurgeHits(i, k, was[k])) :: was[k]
        invariant history == old(history) - {i} && histSeq == old(histSeq) - {i}
        decreases todo
      {
        var k :| k in todo;
        if PurgeHits(i, k, records[k]) {
          records := records - {k};
        }
        todo := todo - {k};
      }
    }

    method AppendHistory(ev: Event) returns (stored: Event)
      modifies this
      ensures var high := if ev.instance in old(histSeq) then old(histSeq)[ev.instance] else 0;
        && stored == (if ev.seqNo == 0 then ev.(seqNo := high + 1) else ev)
        && histSeq == old(histSeq)[ev.instance := if stored.seqNo > high then stored.seqNo else high]
      ensures history == old(history)[ev.instance := (if ev.instance in old(history) then old(history)[ev.instance] else []) + [stored]]
      ensures records == old(records)
      ensures stored == Numbered(old(Contents()), ev)
      ensures Contents() == MemStep(old(Contents()), Note(ev))
    {
      var high := if ev.instance in histSeq then histSeq[ev.instance] else 0;
      stored := ev;
      if ev.seqNo == 0 {
        histSeq := histSeq[ev.instance := high + 1];
        stored := ev.(seqNo := high + 1);
      } else if ev.seqNo > high {
        histSeq := histSeq[ev.instance := ev.seqNo];
      }
      var trail := if ev.instance in history then history[ev.instance] else [];
      history := history[ev.instance := trail + [stored]];
    }

    /** Claims and removes the due jobs, earliest first. */
    method DueJobs(now: int, limit: nat) returns (due: seq<Id>)
      modifies this
      ensures EarliestDue(old(records), now, limit, due)
      ensures records == old(records) - (set id | id in due :: Key(JobKind, id))
      ensures history == old(history) && histSeq == old(histSeq)
      ensures due == DueList(old(Contents()), now, limit)
      ensures Contents() == MemStep(old(Contents()), TakeDue(now, limit))
    {
      ghost var was := Contents();
      DueListIs(was, now, limit);
      var rank := DueRank(Contents());
      var all := Sort(rank, DueSet(Contents(), now));
      SortedUnique(DueRank(was), all, Listing(DueRank(was), DueSet(was, now)));
      due := Limited(all, limit);
      var n := 0;
      while n < |due|
        invariant 0 <= n <= |due|
        invariant Contents() == Without(was, JobKind, due[..n])
      {
        records := records - {Key(JobKind, due[n])};
        assert due[..n + 1] == due[..n] + [due[n]];
        n := n + 1;
      }
      assert due[..n] == due;
    }

    /** Locks pending records of a topic for a worker, lowest ID first. */
    method FetchAndLock(kind: Kind, topic: Id, worker: Id, until: int, now: int, limit: nat) returns (taken: seq<Id>)
      requires Claimable(kind)
      modifies this
      ensures LowestUnlocked(old(records), kind, topic, now, limit, taken)
      ensures Relocked(old(records), records, kind, taken, worker, until)
      ensures history == old(history) && histSeq == old(histSeq)
      ensures taken == LockList(old(Contents()), kind, topic, now, limit)
      ensures Contents() == MemStep(old(Contents()), Lock(kind, topic, worker, until, now, limit))
    {
      ghost var was := Contents();
      LockListIs(was, kind, topic, now, limit);
      LockAllRelocks(was, kind, LockList(was, kind, topic, now, limit), worker, until);
      hide Relocked, LowestUnlocked, LockAll, Available;
      var all := Sort(IdRank(), AvailableSet(Contents(), kind, topic, now));
      SortedUnique(IdRank(), all, Listing(IdRank(), AvailableSet(was, kind, topic, now)));
      taken := Limited(all, limit);
      forall n | 0 <= n < |taken| ensures Key(kind, taken[n]) in records && taken[n] !in taken[..n] {
        LockedOnce(was, kind, topic, now, limit, n);
      }
      LockEach(kind, taken, worker, until);
    }

    /** The claiming loop. */
    method LockEach(kind: Kind, taken: seq<Id>, worker: Id, until: int)
      requires forall n :: 0 <= n < |taken| ==> Key(kind, taken[n]) in records && taken[n] !in taken[..n]
      modifies this
      ensures Contents() == LockAll(old(Contents()), kind, taken, worker, until)
    {
      ghost var was := Contents();
      var n := 0;
      while n < |taken|
        invariant 0 <= n <= |taken|
        invariant Contents() == LockAll(was, kind, taken[..n], worker, until)
      {
        var k := Key(kind, taken[n]);
        LockMore(was, kind, taken[..n], taken[n], worker, until);
        records := records[k := Locked(records[k], worker, until)];
        assert taken[..n + 1] == taken[..n] + [taken[n]];
        n := n + 1;
      }
      assert taken[..n] == taken;
    }
  }
}
