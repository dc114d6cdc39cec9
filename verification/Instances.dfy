/** One running process instance and the side records tied to it, with the mutations
    every engine operation is made of. */
module Instances {
  import opened StoreState
  import opened Bpmn

  /** Token and record IDs come from one counter; 0 is the empty string. */
  type TokenId = nat

  datatype TokenState =
    | Active | WaitTask | WaitTimer | WaitMessage | WaitSignal | WaitExternal | WaitAgent
    | WaitChild | WaitMulti | Joining | WaitRetry | WaitEvents

  /** A token's WaitRef: nothing, the embedded-scope marker, or a record. */
  datatype Ref = NoRef | ScopeRef | RecordRef(id: nat)

  /** `miChild` is the loop-iteration flag among the token's locals (0 if unset) and
      `loop` its loopCounter. */
  datatype Token = Token(
    element: ElementId, state: TokenState, path: Path, owners: seq<TokenId>,
    flow: ElementId, ref: Ref, parent: TokenId, miChild: ElementId, loop: nat)

  datatype MultiState = MultiState(total: nat, completed: nat, nextIndex: nat, outputs: nat)

  datatype Status = Running | Completed | Terminated

  datatype WaitKind = TaskWait | ExternalWait | AgentWait

  /** A user task, external task or agent job; `open` while created or pending. */
  datatype WaitRecord = WaitRecord(kind: WaitKind, token: TokenId, open: bool)

  datatype RecordKind = TimerJob | WorkJob | SubscriptionRecord

  /** A timer job, a retry or async job, or a message or signal subscription. Token 0 is
      the process root. */
  datatype EventRecord = EventRecord(kind: RecordKind, token: TokenId, element: ElementId)

  datatype Instance = Instance(
    tokens: map<TokenId, Token>, multi: map<TokenId, MultiState>, status: Status, suspended: bool,
    waits: map<nat, WaitRecord>, events: map<nat, EventRecord>, incidents: map<nat, TokenId>,
    cancelled: set<nat>, nextId: nat)

  // ---- scopes -----------------------------------------------------------------------

  /** Is a token with this path and owner chain inside the scope instance? */
  predicate InScope(t: Token, path: Path, owners: seq<TokenId>) {
    path <= t.path && owners <= t.owners
  }

  predicate SameScope(t: Token, u: Token) {
    t.path == u.path && t.owners == u.owners
  }

  function ElementOf(g: Graph, t: Token): Option<Element> {
    ElementAt(g, t.path, t.element)
  }

  predicate StandsOnSub(g: Graph, t: Token) {
    ElementOf(g, t).Some? && ElementOf(g, t).value.etype.SubProcess?
  }

  predicate IsMIChild(t: Token) {
    t.miChild != 0 && t.miChild == t.element
  }

  function Assemble(tokens: map<TokenId, Token>, multi: map<TokenId, MultiState>, status: Status, suspended: bool,
                    waits: map<nat, WaitRecord>, events: map<nat, EventRecord>, incidents: map<nat, TokenId>,
                    cancelled: set<nat>, nextId: nat): Instance {
    Instance.Instance(tokens, multi, status, suspended, waits, events, incidents, cancelled, nextId)
  }

  /** A new instance: one active token at the start event. */
  function Born(start: ElementId): Instance {
    Instance.Instance(map[1 := Token(start, Active, [], [], 0, NoRef, 0, 0, 0)], map[], Running, false,
             map[], map[], map[], {}, 2)
  }

  /** Token IDs are drawn from the counter. */
  predicate TokensBelow(s: Instance) {
    forall u :: u in s.tokens ==> u < s.nextId
  }

  // ---- small mutations ----------------------------------------------------------------

  function SetToken(s: Instance, id: TokenId, t: Token): Instance {
    s.(tokens := s.tokens[id := t])
  }

  function DeleteToken(s: Instance, id: TokenId): Instance {
    s.(tokens := s.tokens - {id})
  }

  /** spawnToken: a fresh active token; its ID is `s.nextId`. */
  function Spawn(s: Instance, element: ElementId, path: Path, owners: seq<TokenId>,
                 parent: TokenId, miChild: ElementId, loop: nat): Instance {
    s.(tokens := s.tokens[s.nextId := Token(element, Active, path, owners, 0, NoRef, parent, miChild, loop)],
       nextId := s.nextId + 1)
  }

  /** A job or subscription for a token. */
  function Register(s: Instance, kind: RecordKind, token: TokenId, element: ElementId): Instance {
    s.(events := s.events[s.nextId := EventRecord(kind, token, element)], nextId := s.nextId + 1)
  }

  /** dropTokenEventWaits: every job and subscription bound to the token. */
  function DropEvents(s: Instance, id: TokenId): Instance {
    s.(events := map e | e in s.events && s.events[e].token != id :: s.events[e])
  }

  /** raiseIncident: parks the token if it is still there. */
  function RaiseIncident(s: Instance, id: TokenId): Instance {
    var s' := s.(incidents := s.incidents[s.nextId := id], nextId := s.nextId + 1);
    if id in s.tokens then SetToken(s', id, s.tokens[id].(state := WaitRetry, ref := RecordRef(s.nextId))) else s'
  }

  /** Parks the token on a fresh record of the given kind. */
  function OpenWait(s: Instance, id: TokenId, kind: WaitKind): Instance
    requires id in s.tokens
  {
    var w := s.nextId;
    SetToken(s.(waits := s.waits[w := WaitRecord(kind, id, true)], nextId := w + 1),
             id, s.tokens[id].(state := StateFor(kind), ref := RecordRef(w)))
  }

  function StateFor(kind: WaitKind): TokenState {
    match kind
    case TaskWait => WaitTask
    case ExternalWait => WaitExternal
    case AgentWait => WaitAgent
  }

  function CloseWait(s: Instance, w: nat): Instance
    requires w in s.waits
  {
    s.(waits := s.waits[w := s.waits[w].(open := false)])
  }

  // ---- cancellation, as sets ----------------------------------------------------------

  predicate Awaits(t: Token, kind: WaitKind, w: nat) {
    t.state == StateFor(kind) && t.ref == RecordRef(w)
  }

  /** Does cancelling the token delete event record `e` by reference? */
  predicate AwaitsEvent(t: Token, e: nat) {
    t.state in {WaitTimer, WaitRetry, WaitMessage, WaitSignal} && t.ref == RecordRef(e)
  }

  predicate AwaitsChild(t: Token, child: nat) {
    t.state == WaitChild && t.ref == RecordRef(child)
  }

  /** Releases everything the tokens in `close` wait for and removes those in `kill`. */
  function Sweep(s: Instance, close: set<TokenId>, kill: set<TokenId>): Instance {
    s.(tokens := s.tokens - kill,
       multi := s.multi - close,
       waits := map w | w in s.waits ::
         if exists id :: id in close && id in s.tokens && Awaits(s.tokens[id], s.waits[w].kind, w)
         then s.waits[w].(open := false) else s.waits[w],
       events := map e | e in s.events && s.events[e].token !in close
           && !(exists id :: id in close && id in s.tokens && AwaitsEvent(s.tokens[id], e))
         :: s.events[e],
       cancelled := s.cancelled + ChildrenOf(s, close))
  }

  function ChildrenOf(s: Instance, ids: set<TokenId>): set<nat> {
    set id | id in ids && id in s.tokens && s.tokens[id].state == WaitChild && s.tokens[id].ref.RecordRef?
      :: s.tokens[id].ref.id
  }

  /** Tokens of a scope instance, except those in the excluded child scope (0 = none). */
  predicate Doomed(t: Token, path: Path, owners: seq<TokenId>, exclude: ElementId) {
    InScope(t, path, owners) && !(exclude != 0 && |t.path| > |path| && t.path[|path|] == exclude)
  }

  function ScopeSet(s: Instance, path: Path, owners: seq<TokenId>, exclude: ElementId): set<TokenId> {
    set u | u in s.tokens && Doomed(s.tokens[u], path, owners, exclude)
  }

  predicate InIteration(g: Graph, s: Instance, child: TokenId, u: Token) {
    child in s.tokens && StandsOnSub(g, s.tokens[child])
    && InScope(u, s.tokens[child].path + [s.tokens[child].element], s.tokens[child].owners + [child])
  }

  predicate LoopedUnder(g: Graph, s: Instance, coord: TokenId, u: Token) {
    u.parent == coord
    || exists child :: child in s.tokens && s.tokens[child].parent == coord && InIteration(g, s, child, u)
  }

  /** What cancelWaits removes with a loop coordinator: iterations and their scopes. */
  function LoopSet(g: Graph, s: Instance, id: TokenId): set<TokenId> {
    if id in s.multi then set u | u in s.tokens && LoopedUnder(g, s, id, s.tokens[u]) else {}
  }

  function ActivitySet(g: Graph, s: Instance, id: TokenId): set<TokenId>
    requires id in s.tokens
  {
    LoopSet(g, s, id) +
    (if StandsOnSub(g, s.tokens[id])
     then ScopeSet(s, s.tokens[id].path + [s.tokens[id].element], s.tokens[id].owners + [id], 0) else {})
  }

  function CancelWaits(g: Graph, s: Instance, id: TokenId): Instance {
    Sweep(s, {id} + LoopSet(g, s, id), LoopSet(g, s, id))
  }

  function CancelActivity(g: Graph, s: Instance, id: TokenId): Instance
    requires id in s.tokens
  {
    Sweep(s, {id} + ActivitySet(g, s, id), ActivitySet(g, s, id))
  }

  function KillScope(s: Instance, path: Path, owners: seq<TokenId>, exclude: ElementId): Instance {
    Sweep(s, ScopeSet(s, path, owners, exclude), ScopeSet(s, path, owners, exclude))
  }

  /** moveToBoundary. */
  function MoveToBoundary(s: Instance, id: TokenId, boundary: ElementId): Instance
    requires id in s.tokens
  {
    SetToken(s, id, s.tokens[id].(element := boundary, state := Active, ref := NoRef, miChild := 0, loop := 0))
  }

  /** cleanupInstanceRecords: closes every open wait and drops every job and subscription. */
  function Cleanup(s: Instance): Instance {
    s.(waits := map w | w in s.waits :: s.waits[w].(open := false), events := map[])
  }

  function CompleteInstance(s: Instance): Instance {
    Cleanup(s.(status := Completed))
  }

  /** terminate: all tokens go; loop entries stay behind in the ended record. */
  function TerminateInstance(s: Instance): Instance {
    Cleanup(s.(tokens := map[], status := Terminated))
  }
}
