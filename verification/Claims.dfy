/** Claims of stored work by several engine replicas on one SQL database: a scan, then one
    conditional statement per row, with anything in between. */
module Claims {
  import opened StoreState

  /** A work item's document; `payload` is everything the lock does not concern. */
  datatype Item = Item(topic: nat, pending: bool, lockedBy: nat, lockUntil: nat, payload: nat)

  /** The columns the conditional update looks at, next to the document. */
  datatype Row = Row(pending: bool, due: nat, data: Item)

  type Table = map<Id, Row>

  function RowOf(t: Item): Row {
    Row(t.pending, t.lockUntil, t)
  }

  /** A row the scan takes along: pending, and not under a running lock. */
  predicate Available(rows: Table, id: Id, topic: nat, now: nat) {
    id in rows && var t := rows[id].data; t.topic == topic && t.pending && !(t.lockedBy != 0 && t.lockUntil > now)
  }

  /** The condition of the update that claims. */
  predicate Claimable(rows: Table, id: Id, now: nat) {
    id in rows && rows[id].pending && rows[id].due <= now
  }

  function Lock(t: Item, worker: nat, until: nat): Item {
    t.(lockedBy := worker, lockUntil := until)
  }

  /** claimPending: the update carries the scanned document, locked. */
  function ClaimPending(rows: Table, id: Id, newData: Item, until: nat, now: nat): Table {
    if Claimable(rows, id, now) then rows[id := rows[id].(data := newData, due := until)] else rows
  }

  // ---- several replicas ------------------------------------------------------------------------

  datatype Candidate = Candidate(id: Id, copy: Item)

  /** A replica between its scan and its last claim. */
  datatype Replica = Replica(worker: nat, now: nat, until: nat, todo: seq<Candidate>)

  datatype World = World(rows: Table, jobs: map<Id, nat>, replicas: map<nat, Replica>, picking: map<nat, seq<Id>>)

  /** Scan and Try are the two halves of FetchAndLock, Pick and Take those of DueJobs; Write
      and Remove are any other statements of the engine, PutJob stores or requeues a job. */
  datatype Action =
    | Scan(replica: nat, topic: nat, worker: nat, now: nat, until: nat, ids: seq<Id>)
    | Try(replica: nat)
    | Write(id: Id, item: Item)
    | Remove(id: Id)
    | Pick(replica: nat, now: nat, ids: seq<Id>)
    | Take(replica: nat)
    | PutJob(id: Id, due: nat)

  function CopiesOf(rows: Table, ids: seq<Id>): seq<Candidate>
    requires forall i :: 0 <= i < |ids| ==> ids[i] in rows
  {
    seq(|ids|, i requires 0 <= i < |ids| => Candidate(ids[i], rows[ids[i]].data))
  }

  ghost predicate Enabled(w: World, a: Action) {
    match a
    case Scan(_, topic, _, now, _, ids) => forall i :: 0 <= i < |ids| ==> Available(w.rows, ids[i], topic, now)
    case Try(r) => r in w.replicas && w.replicas[r].todo != []
    case Pick(_, now, ids) => forall i :: 0 <= i < |ids| ==> ids[i] in w.jobs && w.jobs[ids[i]] <= now
    case Take(r) => r in w.picking && w.picking[r] != []
    case _ => true
  }

  function Next(w: World, a: Action): World
    requires Enabled(w, a)
  {
    match a
    case Scan(r, topic, worker, now, until, ids) =>
      w.(replicas := w.replicas[r := Replica(worker, now, until, CopiesOf(w.rows, ids))])
    case Try(r) =>
      var p := w.replicas[r];
      var c := p.todo[0];
      w.(rows := ClaimPending(w.rows, c.id, Lock(c.copy, p.worker, p.until), p.until, p.now),
         replicas := w.replicas[r := p.(todo := p.todo[1..])])
    case Write(id, item) => w.(rows := w.rows[id := RowOf(item)])
    case Remove(id) => w.(rows := w.rows - {id})
    case Pick(r, now, ids) => w.(picking := w.picking[r := ids])
    case Take(r) => w.(jobs := w.jobs - {w.picking[r][0]}, picking := w.picking[r := w.picking[r][1..]])
    case PutJob(id, due) => w.(jobs := w.jobs[id := due])
  }

  ghost predicate Happens(w: World, a: Action, w': World) {
    Enabled(w, a) && w' == Next(w, a)
  }

  ghost predicate IsRun(worlds: seq<World>, actions: seq<Action>) {
    && |worlds| == |actions| + 1
    && forall n {:trigger Happens(worlds[n], actions[n], worlds[n + 1])} ::
         0 <= n < |actions| ==> Happens(worlds[n], actions[n], worlds[n + 1])
  }

  lemma HappensAt(worlds: seq<World>, actions: seq<Action>, n: nat)
    requires IsRun(worlds, actions) && n < |actions|
    ensures Happens(worlds[n], actions[n], worlds[n + 1])
  {
  }

  /** The action claims row `id`. */
  predicate Claims(w: World, a: Action, id: Id) {
    a.Try? && a.replica in w.replicas && w.replicas[a.replica].todo != []
    && w.replicas[a.replica].todo[0].id == id && Claimable(w.rows, id, w.replicas[a.replica].now)
  }

  function ClaimUntil(w: World, a: Action): nat
    requires a.Try? && a.replica in w.replicas
  {
    w.replicas[a.replica].until
  }

  function ClaimNow(w: World, a: Action): nat
    requires a.Try? && a.replica in w.replicas
  {
    w.replicas[a.replica].now
  }

  /** Anything else that writes or removes the row. */
  predicate Rewrites(a: Action, id: Id) {
    (a.Write? && a.id == id) || (a.Remove? && a.id == id)
  }

  /** From a claim on, until something else writes the row, its lock ends no earlier than the
      claim said, provided locks taken meanwhile do not end before they begin. */
  lemma {:induction false} LockHolds(worlds: seq<World>, actions: seq<Action>, i: nat, n: nat, id: Id)
    requires IsRun(worlds, actions) && i < n <= |actions| && Claims(worlds[i], actions[i], id)
    requires forall k :: i < k < n ==> !Rewrites(actions[k], id)
    requires forall k :: i < k < n && Claims(worlds[k], actions[k], id) ==>
      ClaimNow(worlds[k], actions[k]) <= ClaimUntil(worlds[k], actions[k])
    ensures id in worlds[n].rows && worlds[n].rows[id].due >= ClaimUntil(worlds[i], actions[i])
    decreases n
  {
    HappensAt(worlds, actions, n - 1);
    if n - 1 > i {
      LockHolds(worlds, actions, i, n - 1, id);
    }
  }

  /** Exclusive claims: of two successful claims of one row with no rewrite between them, the
      later one's clock is at or past the end of the earlier one's lock. */
  lemma ClaimsAreExclusive(worlds: seq<World>, actions: seq<Action>, i: nat, j: nat, id: Id)
    requires IsRun(worlds, actions) && i < j < |actions|
    requires Claims(worlds[i], actions[i], id) && Claims(worlds[j], actions[j], id)
    requires forall k :: i < k < j ==> !Rewrites(actions[k], id)
    requires forall k :: i < k < j && Claims(worlds[k], actions[k], id) ==>
      ClaimNow(worlds[k], actions[k]) <= ClaimUntil(worlds[k], actions[k])
    ensures ClaimNow(worlds[j], actions[j]) >= ClaimUntil(worlds[i], actions[i])
  {
    LockHolds(worlds, actions, i, j, id);
  }

  // ---- the columns and the document agree --------------------------------------------------------

  ghost predicate Agree(w: World) {
    && (forall id :: id in w.rows ==> w.rows[id] == RowOf(w.rows[id].data))
    && (forall r, i :: r in w.replicas && 0 <= i < |w.replicas[r].todo| ==> w.replicas[r].todo[i].copy.pending)
  }

  /** However claims and writes interleave, the columns the condition tests always say what
      the stored document says. */
  lemma NextAgrees(w: World, a: Action)
    requires Enabled(w, a) && Agree(w)
    ensures Agree(Next(w, a))
  {
    var w' := Next(w, a);
    forall r, i | r in w'.replicas && 0 <= i < |w'.replicas[r].todo| ensures w'.replicas[r].todo[i].copy.pending {
      if a.Scan? && r == a.replica {
        assert Available(w.rows, a.ids[i], a.topic, a.now);
      } else if a.Try? && r == a.replica {
        assert w.replicas[r].todo[i + 1].copy.pending;
      }
    }
  }

  lemma {:induction false} RunAgrees(worlds: seq<World>, actions: seq<Action>, n: nat)
    requires IsRun(worlds, actions) && n < |worlds| && Agree(worlds[0])
    ensures Agree(worlds[n])
    decreases n
  {
    if n > 0 {
      RunAgrees(worlds, actions, n - 1);
      HappensAt(worlds, actions, n - 1);
      NextAgrees(worlds[n - 1], actions[n - 1]);
    }
  }

  // ---- a claim can undo a write ----------------------------------------------------------------------

  /** Apart from the lock, the documents are the same. */
  predicate SameWork(t: Item, u: Item) {
    t.topic == u.topic && t.payload == u.payload && t.pending == u.pending
  }

  /** Replica `r` scanned at `i` and has not scanned again before `n`. */
  ghost predicate ScannedAt(actions: seq<Action>, r: nat, i: nat, n: nat) {
    && i < n <= |actions| && actions[i].Scan? && actions[i].replica == r
    && forall k :: i < k < n ==> !(actions[k].Scan? && actions[k].replica == r)
  }

  /** What a replica has left to claim are the documents as they were when it scanned: pending
      on its topic, and with no lock or one that had expired. */
  lemma {:induction false} CopiesAreOld(worlds: seq<World>, actions: seq<Action>, r: nat, i: nat, n: nat)
    requires IsRun(worlds, actions) && ScannedAt(actions, r, i, n)
    ensures r in worlds[n].replicas
    ensures forall k :: 0 <= k < |worlds[n].replicas[r].todo| ==>
      var c := worlds[n].replicas[r].todo[k];
      && c.id in worlds[i].rows && c.copy == worlds[i].rows[c.id].data
      && c.copy.topic == actions[i].topic && c.copy.pending && (c.copy.lockedBy == 0 || c.copy.lockUntil <= actions[i].now)
    decreases n
  {
    HappensAt(worlds, actions, n - 1);
    if n - 1 > i {
      CopiesAreOld(worlds, actions, r, i, n - 1);
    } else {
      forall k | 0 <= k < |worlds[n].replicas[r].todo|
        ensures Available(worlds[i].rows, worlds[n].replicas[r].todo[k].id, actions[i].topic, actions[i].now)
      {
        assert worlds[n].replicas[r].todo[k].id == actions[i].ids[k];
      }
    }
  }

  /** A successful claim keeps the work of the row it updates exactly if that work is what
      the claimer's scan saw; the update's condition does not check that. */
  lemma ClaimKeepsWorkExactly(worlds: seq<World>, actions: seq<Action>, i: nat, j: nat, id: Id)
    requires IsRun(worlds, actions) && j < |actions| && Claims(worlds[j], actions[j], id)
    requires ScannedAt(actions, actions[j].replica, i, j)
    ensures id in worlds[i].rows && id in worlds[j].rows && id in worlds[j + 1].rows
    ensures SameWork(worlds[j].rows[id].data, worlds[j + 1].rows[id].data)
            <==> SameWork(worlds[j].rows[id].data, worlds[i].rows[id].data)
  {
    HappensAt(worlds, actions, j);
    CopiesAreOld(worlds, actions, actions[j].replica, i, j);
  }

  /** The action stores something else under the row, or claims it. */
  predicate Touches(w: World, a: Action, id: Id) {
    Rewrites(a, id) || Claims(w, a, id)
  }

  lemma {:induction false} UntouchedStays(worlds: seq<World>, actions: seq<Action>, m: nat, n: nat, id: Id)
    requires IsRun(worlds, actions) && m <= n < |worlds|
    requires forall k :: m <= k < n ==> !Touches(worlds[k], actions[k], id)
    ensures id in worlds[n].rows <==> id in worlds[m].rows
    ensures id in worlds[n].rows ==> worlds[n].rows[id] == worlds[m].rows[id]
    decreases n
  {
    if m < n {
      HappensAt(worlds, actions, n - 1);
      UntouchedStays(worlds, actions, m, n - 1, id);
    }
  }

  /** A claim of a row nobody touched since the scan keeps its work. */
  lemma UntouchedIsKept(worlds: seq<World>, actions: seq<Action>, i: nat, j: nat, id: Id)
    requires IsRun(worlds, actions) && j < |actions| && Claims(worlds[j], actions[j], id)
    requires ScannedAt(actions, actions[j].replica, i, j)
    requires forall k :: i < k < j ==> !Touches(worlds[k], actions[k], id)
    ensures id in worlds[j].rows && id in worlds[j + 1].rows
    ensures SameWork(worlds[j].rows[id].data, worlds[j + 1].rows[id].data)
  {
    HappensAt(worlds, actions, i);
    UntouchedStays(worlds, actions, i + 1, j, id);
    ClaimKeepsWorkExactly(worlds, actions, i, j, id);
  }

  /** Otherwise the last one to touch the row decides: a write is kept exactly if it wrote
      the work the claimer had scanned, another replica's claim exactly if both had scanned
      the same work. */
  lemma LastTouchDecides(worlds: seq<World>, actions: seq<Action>, i: nat, m: nat, j: nat, id: Id)
    requires IsRun(worlds, actions) && j < |actions| && Claims(worlds[j], actions[j], id)
    requires ScannedAt(actions, actions[j].replica, i, j) && i < m < j && Touches(worlds[m], actions[m], id)
    requires forall k :: m < k < j ==> !Touches(worlds[k], actions[k], id)
    ensures id in worlds[i].rows && id in worlds[j].rows && id in worlds[j + 1].rows && !actions[m].Remove?
    ensures actions[m].Write? ==>
      (SameWork(worlds[j].rows[id].data, worlds[j + 1].rows[id].data) <==> SameWork(actions[m].item, worlds[i].rows[id].data))
    ensures forall h: nat :: actions[m].Try? && ScannedAt(actions, actions[m].replica, h, m) ==>
      id in worlds[h].rows &&
      (SameWork(worlds[j].rows[id].data, worlds[j + 1].rows[id].data) <==> SameWork(worlds[h].rows[id].data, worlds[i].rows[id].data))
  {
    HappensAt(worlds, actions, m);
    UntouchedStays(worlds, actions, m + 1, j, id);
    ClaimKeepsWorkExactly(worlds, actions, i, j, id);
    forall h: nat | actions[m].Try? && ScannedAt(actions, actions[m].replica, h, m)
      ensures id in worlds[h].rows && SameWork(worlds[m + 1].rows[id].data, worlds[h].rows[id].data)
    {
      CopiesAreOld(worlds, actions, actions[m].replica, h, m);
    }
  }

  /** Every copy of the row still to be claimed carries the work that is stored. */
  ghost predicate Current(w: World, id: Id) {
    id in w.rows && forall r, k :: r in w.replicas && 0 <= k < |w.replicas[r].todo| && w.replicas[r].todo[k].id == id ==>
      SameWork(w.replicas[r].todo[k].copy, w.rows[id].data)
  }

  /** From such a point on, however scans and claims of all replicas interleave, the work
      stays as it is until something else writes or removes the row. */
  lemma {:induction false} ClaimsAloneKeepWork(worlds: seq<World>, actions: seq<Action>, h: nat, n: nat, id: Id)
    requires IsRun(worlds, actions) && h <= n < |worlds| && Current(worlds[h], id)
    requires forall k :: h <= k < n ==> !Rewrites(actions[k], id)
    ensures Current(worlds[n], id) && SameWork(worlds[n].rows[id].data, worlds[h].rows[id].data)
    decreases n
  {
    if h < n {
      ClaimsAloneKeepWork(worlds, actions, h, n - 1, id);
      HappensAt(worlds, actions, n - 1);
      StaysCurrent(worlds[n - 1], actions[n - 1], id);
    }
  }

  lemma StaysCurrent(w: World, a: Action, id: Id)
    requires Enabled(w, a) && Current(w, id) && !Rewrites(a, id)
    ensures Current(Next(w, a), id) && SameWork(Next(w, a).rows[id].data, w.rows[id].data)
  {
    var w' := Next(w, a);
    if a.Try? {
      assert w.replicas[a.replica].todo[0].id == id ==> SameWork(w.replicas[a.replica].todo[0].copy, w.rows[id].data);
    }
    forall r, k | r in w'.replicas && 0 <= k < |w'.replicas[r].todo| && w'.replicas[r].todo[k].id == id
      ensures SameWork(w'.replicas[r].todo[k].copy, w'.rows[id].data)
    {
      if a.Try? && r == a.replica {
        assert w'.replicas[r].todo[k] == w.replicas[r].todo[k + 1];
      } else if !(a.Scan? && r == a.replica) {
        assert w'.replicas[r].todo[k] == w.replicas[r].todo[k];
      }
    }
  }

  /** Scan, then a failed attempt is written back with its work changed and its lock released,
      then the claim: what was written is lost. */
  lemma ClaimUndoesWrite() returns (worlds: seq<World>, actions: seq<Action>, id: Id)
    ensures IsRun(worlds, actions) && |actions| == 3 && actions[1].Write? && actions[1].id == id
    ensures Claims(worlds[2], actions[2], id)
    ensures id in worlds[3].rows && worlds[3].rows[id].data.payload != actions[1].item.payload
  {
    var first := Item(1, true, 0, 0, 7);
    var failed := Item(1, true, 0, 0, 8);
    var w0 := World(map[1 := RowOf(first)], map[], map[], map[]);
    var a0, a1, a2 := Scan(0, 1, 5, 10, 20, [1]), Write(1, failed), Try(0);
    assert Available(w0.rows, [1][0], 1, 10);
    var w1 := Next(w0, a0);
    assert CopiesOf(w0.rows, [1]) == [Candidate(1, first)];
    var w2 := Next(w1, a1);
    var w3 := Next(w2, a2);
    worlds, actions, id := [w0, w1, w2, w3], [a0, a1, a2], 1;
    assert Happens(w0, a0, w1) && Happens(w1, a1, w2) && Happens(w2, a2, w3);
    assert Claims(worlds[2], actions[2], 1);
    assert worlds[3].rows[1].data.payload == 7;
    assert IsRun(worlds, actions);
  }

  // ---- due jobs ---------------------------------------------------------------------------------------

  /** The action's delete finds the job: this replica gets it. */
  predicate Takes(w: World, a: Action, id: Id) {
    a.Take? && a.replica in w.picking && w.picking[a.replica] != [] && w.picking[a.replica][0] == id && id in w.jobs
  }

  predicate Restores(a: Action, id: Id) {
    a.PutJob? && a.id == id
  }

  lemma {:induction false} TakenStaysGone(worlds: seq<World>, actions: seq<Action>, i: nat, n: nat, id: Id)
    requires IsRun(worlds, actions) && i < n <= |actions| && Takes(worlds[i], actions[i], id)
    requires forall k :: i < k < n ==> !Restores(actions[k], id)
    ensures id !in worlds[n].jobs
    decreases n
  {
    HappensAt(worlds, actions, n - 1);
    if n - 1 > i {
      TakenStaysGone(worlds, actions, i, n - 1, id);
    }
  }

  /** Each stored job goes to at most one caller, however many replicas scanned it. */
  lemma JobTakenOnce(worlds: seq<World>, actions: seq<Action>, i: nat, j: nat, id: Id)
    requires IsRun(worlds, actions) && i < j < |actions| && Takes(worlds[i], actions[i], id)
    requires forall k :: i < k < j ==> !Restores(actions[k], id)
    ensures !Takes(worlds[j], actions[j], id)
  {
    TakenStaysGone(worlds, actions, i, j, id);
  }

  // ---- one uninterrupted fetch -----------------------------------------------------------------------

  function ClaimAll(rows: Table, todo: seq<Candidate>, worker: nat, until: nat, now: nat): Table
    decreases |todo|
  {
    if todo == [] then rows
    else
      var front := ClaimAll(rows, todo[..|todo| - 1], worker, until, now);
      var c := todo[|todo| - 1];
      ClaimPending(front, c.id, Lock(c.copy, worker, until), until, now)
  }

  function LockedCopy(c: Candidate, worker: nat, until: nat): Candidate {
    Candidate(c.id, Lock(c.copy, worker, until))
  }

  /** Candidate `k` could be claimed when its turn came. */
  predicate Won(rows: Table, todo: seq<Candidate>, k: nat, worker: nat, until: nat, now: nat) {
    k < |todo| && Claimable(ClaimAll(rows, todo[..k], worker, until, now), todo[k].id, now)
  }

  class SqlStore {
    var rows: Table
    var jobs: map<Id, nat>

    method Upsert(id: Id, item: Item)
      modifies this`rows
      ensures rows == old(rows)[id := Row(item.pending, item.lockUntil, item)]
    {
      rows := rows[id := RowOf(item)];
    }

    /** claimPending. */
    method TryClaim(id: Id, newData: Item, until: nat, now: nat) returns (ok: bool)
      modifies this`rows
      ensures ok <==> id in old(rows) && old(rows)[id].pending && old(rows)[id].due <= now
      ensures ok ==> rows == old(rows)[id := Row(true, until, newData)]
      ensures !ok ==> rows == old(rows)
      ensures rows == ClaimPending(old(rows), id, newData, until, now)
    {
      ok := id in rows && rows[id].pending && rows[id].due <= now;
      if ok {
        rows := rows[id := rows[id].(data := newData, due := until)];
      }
    }

    /** The claiming loop of FetchAndLock over what its scan found. */
    method LockAll(todo: seq<Candidate>, worker: nat, until: nat, now: nat) returns (got: seq<Candidate>)
      modifies this`rows
      ensures rows == ClaimAll(old(rows), todo, worker, until, now) && rows.Keys == old(rows).Keys
      ensures forall c :: c in got ==> exists k: nat :: Won(old(rows), todo, k, worker, until, now) && c == LockedCopy(todo[k], worker, until)
      ensures forall id :: id in rows && rows[id] != old(rows)[id] ==> exists c :: c in got && c.id == id && rows[id].data == c.copy
      ensures forall k :: 0 <= k < |todo| && Claimable(old(rows), todo[k].id, now) ==> exists c :: c in got && c.id == todo[k].id
    {
      got := [];
      assert todo[..0] == [];
      for i := 0 to |todo|
        invariant rows == ClaimAll(old(rows), todo[..i], worker, until, now) && rows.Keys == old(rows).Keys
        invariant forall c :: c in got ==> exists k: nat :: Won(old(rows), todo, k, worker, until, now) && c == LockedCopy(todo[k], worker, until)
        invariant forall id :: id in rows && rows[id] != old(rows)[id] ==> exists c :: c in got && c.id == id && rows[id].data == c.copy
        invariant forall k :: 0 <= k < i && Claimable(old(rows), todo[k].id, now) ==> exists c :: c in got && c.id == todo[k].id
      {
        var c := todo[i];
        ghost var before := rows;
        assert todo[..i + 1][..i] == todo[..i];
        var ok := TryClaim(c.id, Lock(c.copy, worker, until), until, now);
        if ok {
          assert Won(old(rows), todo, i, worker, until, now);
          got := got + [LockedCopy(c, worker, until)];
        }
      }
      assert todo[..|todo|] == todo;
    }

    /** DueJobs: a job is returned if its delete still finds it. */
    method TakeDue(ids: seq<Id>) returns (got: seq<Id>)
      modifies this`jobs
      ensures jobs == old(jobs) - (set id | id in ids)
      ensures forall id :: id in got <==> id in ids && id in old(jobs)
      ensures forall i, j :: 0 <= i < j < |got| ==> got[i] != got[j]
    {
      got := [];
      for i := 0 to |ids|
        invariant jobs == old(jobs) - (set id | id in ids[..i])
        invariant forall id :: id in got <==> id in ids[..i] && id in old(jobs)
        invariant forall k, j :: 0 <= k < j < |got| ==> got[k] != got[j]
      {
        if ids[i] in jobs {
          jobs := jobs - {ids[i]};
          got := got + [ids[i]];
        }
      }
      assert ids[..|ids|] == ids;
    }
  }
}
