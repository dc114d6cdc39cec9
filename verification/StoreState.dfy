/** The state behind every store, as a value: the record maps of Memory, the audit
    trail with its per-instance counters, and the meaning of one journal line. */
module StoreState {

  datatype Option<+T> = None | Some(value: T)

  /** A record or instance ID, identified with its rank in string order; 0 is the empty string. */
  type Id = nat

  datatype Kind =
    | DefinitionKind | InstanceKind | TaskKind | JobKind | ExternalKind
    | AgentKind | SubscriptionKind | IncidentKind | BlobKind

  datatype Key = Key(kind: Kind, id: Id)

  /** The claim columns of an external task or agent job; holder 0 means unlocked. */
  datatype Claim = Claim(topic: Id, pending: bool, holder: Id, until: int)

  /** One stored record. `data` stands for the fields no store operation looks at. */
  datatype Record =
    | Definition(data: nat)
    | Instance(rev: nat, data: nat)
    | Task(instance: Id, data: nat)
    | Job(instance: Id, due: int, data: nat)
    | External(instance: Id, claim: Claim, data: nat)
    | Agent(instance: Id, claim: Claim, data: nat)
    | Subscription(instance: Id, data: nat)
    | Incident(instance: Id, data: nat)
    | Blob(data: nat)

  function KindOf(r: Record): Kind {
    match r
    case Definition(_) => DefinitionKind
    case Instance(_, _) => InstanceKind
    case Task(_, _) => TaskKind
    case Job(_, _, _) => JobKind
    case External(_, _, _) => ExternalKind
    case Agent(_, _, _) => AgentKind
    case Subscription(_, _) => SubscriptionKind
    case Incident(_, _) => IncidentKind
    case Blob(_) => BlobKind
  }

  /** A history event; sequence number 0 asks the store to assign the next one. */
  datatype Event = Event(instance: Id, seqNo: nat, data: nat)

  /** The contents of Memory: its nine record maps keyed by kind and ID, plus history. */
  datatype State = State(records: map<Key, Record>,
                         history: map<Id, seq<Event>>,
                         histSeq: map<Id, nat>)

  const EmptyState := State(map[], map[], map[])

  /** One journal line. */
  datatype Entry =
    | Put(id: Id, record: Record)
    | Delete(key: Key)
    | Purge(instance: Id)
    | Append(event: Event)

  function KeyOf(id: Id, r: Record): Key {
    Key(KindOf(r), id)
  }

  function Lookup(s: State, k: Key): Option<Record> {
    if k in s.records then Some(s.records[k]) else None
  }

  /** Does purging instance `i` remove record `r` stored under `k`? It looks at the
      instance the record names now; definitions and blobs are never touched. */
  predicate PurgeHits(i: Id, k: Key, r: Record) {
    match r
    case Definition(_) => false
    case Blob(_) => false
    case Instance(_, _) => k.id == i
    case _ => r.instance == i
  }

  function High(s: State, i: Id): nat {
    if i in s.histSeq then s.histSeq[i] else 0
  }

  function HistoryOf(s: State, i: Id): seq<Event> {
    if i in s.history then s.history[i] else []
  }

  function Max(a: nat, b: nat): nat {
    if a < b then b else a
  }

  function Numbered(s: State, ev: Event): Event {
    if ev.seqNo == 0 then ev.(seqNo := High(s, ev.instance) + 1) else ev
  }

  function AppendEvent(s: State, ev: Event): State {
    var stored := Numbered(s, ev);
    s.(history := s.history[ev.instance := HistoryOf(s, ev.instance) + [stored]],
       histSeq := s.histSeq[ev.instance := Max(High(s, ev.instance), stored.seqNo)])
  }

  function PurgeInstance(s: State, i: Id): State {
    State(map k | k in s.records && !PurgeHits(i, k, s.records[k]) :: s.records[k],
          s.history - {i}, s.histSeq - {i})
  }

  /** What one line does to the in-memory image during replay. */
  function Apply(s: State, e: Entry): State {
    match e
    case Put(id, r) => s.(records := s.records[KeyOf(id, r) := r])
    case Delete(k) => s.(records := s.records - {k})
    case Purge(i) => PurgeInstance(s, i)
    case Append(ev) => AppendEvent(s, ev)
  }

  /** A numbered event at or below the high-water mark of its instance. */
  predicate AlreadyHeld(s: State, e: Entry) {
    e.Append? && e.event.seqNo != 0 && e.event.seqNo <= High(s, e.event.instance)
  }

  /** What a follower does with one replicated line: events it already holds are skipped. */
  function Follow(s: State, e: Entry): State {
    if AlreadyHeld(s, e) then s else Apply(s, e)
  }

  function Replay(s: State, log: seq<Entry>): State
    decreases log
  {
    if log == [] then s else Replay(Apply(s, log[0]), log[1..])
  }

  function FollowAll(s: State, log: seq<Entry>): State
    decreases log
  {
    if log == [] then s else FollowAll(Follow(s, log[0]), log[1..])
  }

  function MaxSeq(evs: seq<Event>): nat {
    if evs == [] then 0 else Max(MaxSeq(evs[..|evs| - 1]), evs[|evs| - 1].seqNo)
  }

  /** What every operation keeps: counters and trails name the same instances, no trail
      is empty, and each counter is the largest number in its trail. */
  ghost predicate WellFormed(s: State) {
    && s.history.Keys == s.histSeq.Keys
    && (forall i :: i in s.history ==> s.history[i] != [] && s.histSeq[i] == MaxSeq(s.history[i]))
    && (forall k :: k in s.records ==> KindOf(s.records[k]) == k.kind)
  }

  lemma ApplyWellFormed(s: State, e: Entry)
    requires WellFormed(s)
    ensures WellFormed(Apply(s, e))
  {
    if e.Append? {
      var evs := HistoryOf(s, e.event.instance) + [Numbered(s, e.event)];
      assert evs[..|evs| - 1] == HistoryOf(s, e.event.instance);
    }
  }

  lemma {:induction false} ReplayWellFormed(s: State, log: seq<Entry>)
    requires WellFormed(s)
    ensures WellFormed(Replay(s, log))
    decreases log
  {
    if log != [] {
      ApplyWellFormed(s, log[0]);
      ReplayWellFormed(Apply(s, log[0]), log[1..]);
    }
  }

  lemma {:induction false} FollowAllWellFormed(s: State, log: seq<Entry>)
    requires WellFormed(s)
    ensures WellFormed(FollowAll(s, log))
    decreases log
  {
    if log != [] {
      ApplyWellFormed(s, log[0]);
      FollowAllWellFormed(Follow(s, log[0]), log[1..]);
    }
  }

  lemma {:induction false} ReplayConcat(s: State, a: seq<Entry>, b: seq<Entry>)
    ensures Replay(s, a + b) == Replay(Replay(s, a), b)
    decreases a
  {
    if a == [] {
      assert a + b == b;
    } else {
      assert (a + b)[1..] == a[1..] + b;
      ReplayConcat(Apply(s, a[0]), a[1..], b);
    }
  }

  lemma {:induction false} FollowAllConcat(s: State, a: seq<Entry>, b: seq<Entry>)
    ensures FollowAll(s, a + b) == FollowAll(FollowAll(s, a), b)
    decreases a
  {
    if a == [] {
      assert a + b == b;
    } else {
      assert (a + b)[1..] == a[1..] + b;
      FollowAllConcat(Follow(s, a[0]), a[1..], b);
    }
  }
}
