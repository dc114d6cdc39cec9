/** What each engine operation makes of an instance, as functions. Evaluations the engine
    asks of expressions, handlers, agents and the clock are answered by an oracle. */
module Engine {
  import opened StoreState
  import opened Bpmn
  import opened Instances

  datatype Truth = Yes | No | Fails

  /** How a synchronous activity ends; `Missing` is an activity with nothing to run. */
  datatype Outcome = Succeeds | FailsPlain | Throws(code: nat) | Missing

  /** The answers met during one step. `items` is the loop collection's size, None if it
      does not evaluate to one; `retriesLeft` says whether a failure is retried; `gone`
      is which joining tokens map iteration meets first. */
  datatype Oracle = Oracle(
    cond: ElementId -> Truth, inputsOk: bool, outputsOk: TokenId -> bool, fieldsOk: bool,
    outcome: Outcome, retriesLeft: bool, budgetOk: bool, reviewOk: bool, calleeOk: bool,
    items: Option<nat>, outputOk: bool, done: Truth, timerOk: ElementId -> bool, repeats: bool,
    gone: set<TokenId>)

  // ---- moving over flows ----------------------------------------------------------------

  /** maybeAsync. */
  function MaybeAsync(g: Graph, s: Instance, id: TokenId): Instance
    requires id in s.tokens
  {
    var el := ElementOf(g, s.tokens[id]);
    if el.None? || !el.value.resumable then s
    else ParkOnJob(s, id)
  }

  function ParkOnJob(s: Instance, id: TokenId): Instance
    requires id in s.tokens
  {
    SetToken(Register(s, WorkJob, id, s.tokens[id].element), id,
             s.tokens[id].(state := WaitRetry, ref := RecordRef(s.nextId)))
  }

  function TargetOf(g: Graph, path: Path, f: ElementId): ElementId {
    if path in g && f in g[path].flows then g[path].flows[f].target else 0
  }

  /** A sibling of `t` over a further flow. */
  function OneSibling(g: Graph, s: Instance, t: Token, f: ElementId): Instance {
    var sib := s.nextId;
    var s1 := Spawn(s, TargetOf(g, t.path, f), t.path, t.owners, t.parent, t.miChild, t.loop);
    MaybeAsync(g, SetToken(s1, sib, s1.tokens[sib].(flow := f)), sib)
  }

  /** Siblings of `t` over further flows. */
  function SpawnSiblings(g: Graph, s: Instance, t: Token, flows: seq<ElementId>): Instance
    decreases flows
  {
    if flows == [] then s else SpawnSiblings(g, OneSibling(g, s, t, flows[0]), t, flows[1..])
  }

  lemma {:induction false} SiblingsKeep(g: Graph, s: Instance, t: Token, flows: seq<ElementId>, id: TokenId)
    requires id in s.tokens && id < s.nextId
    ensures var s' := SpawnSiblings(g, s, t, flows); id in s'.tokens && s'.tokens[id] == s.tokens[id]
    decreases flows
  {
    if flows != [] {
      SiblingsKeep(g, OneSibling(g, s, t, flows[0]), t, flows[1..], id);
    }
  }

  function MoveOver(g: Graph, s: Instance, id: TokenId, flows: seq<ElementId>): Instance
    requires id in s.tokens && flows != []
  {
    var t := s.tokens[id];
    var s1 := SpawnSiblings(g, s, t, flows[1..]);
    MaybeAsync(g, SetToken(s1, id, t.(element := TargetOf(g, t.path, flows[0]), flow := flows[0],
                                      state := Active, ref := NoRef)), id)
  }

  /** The flows a condition scan selects; None if a condition fails to evaluate. */
  function SelectFlows(c: Container, ids: seq<ElementId>, defaultFlow: ElementId, o: Oracle): Option<seq<ElementId>> {
    if ids == [] then Some([])
    else if ids[0] !in c.flows || ids[0] == defaultFlow then SelectFlows(c, ids[1..], defaultFlow, o)
    else if c.flows[ids[0]].conditional && o.cond(ids[0]).Fails? then None
    else
      var rest := SelectFlows(c, ids[1..], defaultFlow, o);
      if rest.None? || (c.flows[ids[0]].conditional && o.cond(ids[0]).No?) then rest
      else Some([ids[0]] + rest.value)
  }

  function WithDefault(c: Container, el: Element, chosen: seq<ElementId>): seq<ElementId> {
    if chosen == [] && el.defaultFlow != 0 && el.defaultFlow in c.flows then [el.defaultFlow] else chosen
  }

  /** takeOutgoing, and the fork of an inclusive gateway. */
  function TakeOutgoing(g: Graph, s: Instance, id: TokenId, o: Oracle): Instance
    requires id in s.tokens
  {
    var el := ElementOf(g, s.tokens[id]);
    if el.None? then s
    else
      var c := g[s.tokens[id].path];
      var chosen := SelectFlows(c, el.value.outgoing, el.value.defaultFlow, o);
      if chosen.None? then RaiseIncident(s, id)
      else
        var flows := WithDefault(c, el.value, chosen.value);
        if flows == [] then RaiseIncident(s, id) else MoveOver(g, s, id, flows)
  }

  function FirstTrue(c: Container, ids: seq<ElementId>, defaultFlow: ElementId, o: Oracle): Option<seq<ElementId>> {
    if ids == [] then Some([])
    else if ids[0] !in c.flows || ids[0] == defaultFlow then FirstTrue(c, ids[1..], defaultFlow, o)
    else if !c.flows[ids[0]].conditional || o.cond(ids[0]).Yes? then Some([ids[0]])
    else if o.cond(ids[0]).Fails? then None
    else FirstTrue(c, ids[1..], defaultFlow, o)
  }

  function RouteExclusive(g: Graph, s: Instance, id: TokenId, o: Oracle): Instance
    requires id in s.tokens
  {
    var el := ElementOf(g, s.tokens[id]);
    if el.None? then s
    else
      var c := g[s.tokens[id].path];
      var chosen := FirstTrue(c, el.value.outgoing, el.value.defaultFlow, o);
      if chosen.None? then RaiseIncident(s, id)
      else
        var flows := WithDefault(c, el.value, chosen.value);
        if flows == [] then RaiseIncident(s, id) else MoveOver(g, s, id, flows)
  }

  function ExistingFlows(c: Container, ids: seq<ElementId>): seq<ElementId> {
    if ids == [] then []
    else (if ids[0] in c.flows then [ids[0]] else []) + ExistingFlows(c, ids[1..])
  }

  function ForkAll(g: Graph, s: Instance, id: TokenId): Instance
    requires id in s.tokens
  {
    var el := ElementOf(g, s.tokens[id]);
    if el.None? then s
    else
      var flows := ExistingFlows(g[s.tokens[id].path], el.value.outgoing);
      if flows == [] then RaiseIncident(s, id) else MoveOver(g, s, id, flows)
  }

  // ---- joins ------------------------------------------------------------------------------

  /** Tokens joining at the same gateway in the same scope instance. */
  predicate JoinsWith(t: Token, u: Token) {
    t.element == u.element && t.state.Joining? && SameScope(t, u)
  }

  predicate ArrivedOver(s: Instance, t: Token, f: ElementId) {
    exists u :: u in s.tokens && JoinsWith(s.tokens[u], t) && s.tokens[u].flow == f
  }

  predicate ParallelJoinReady(s: Instance, t: Token, incoming: seq<ElementId>) {
    forall f :: f in incoming ==> ArrivedOver(s, t, f)
  }

  /** One joining token per flow other than the arriving token's own; which one of several
      is left to map iteration order. */
  ghost predicate MergeChoice(s: Instance, id: TokenId, gone: set<TokenId>)
    requires id in s.tokens
  {
    var t := s.tokens[id];
    && (forall u :: u in gone ==> u in s.tokens && u != id && JoinsWith(s.tokens[u], t) && s.tokens[u].flow != t.flow)
    && (forall u, v :: u in gone && v in gone && s.tokens[u].flow == s.tokens[v].flow ==> u == v)
    && (forall u :: u in s.tokens && u != id && JoinsWith(s.tokens[u], t) && s.tokens[u].flow != t.flow ==>
          exists v :: v in gone && s.tokens[v].flow == s.tokens[u].flow)
  }

  // ---- waits and registrations ------------------------------------------------------------

  /** createEventWait. */
  function CreateEventWait(s: Instance, id: TokenId, element: ElementId, kind: EventKind, setRef: bool, ok: bool): Instance
    requires id in s.tokens
  {
    match kind
    case Error => s
    case Terminate => s
    case _ =>
      if kind.Timer? && !ok then RaiseIncident(s, id)
      else
        var s' := Register(s, if kind.Timer? then TimerJob else SubscriptionRecord, id, element);
        if setRef then SetToken(s', id, s'.tokens[id].(ref := RecordRef(s.nextId))) else s'
  }

  function RegisterEach(g: Graph, s: Instance, id: TokenId, c: Container, bs: seq<ElementId>, ok: ElementId -> bool): Instance
    requires id in s.tokens
    decreases bs
  {
    if bs == [] then s else RegisterEach(g, RegisterOne(s, id, c, bs[0], ok(bs[0])), id, c, bs[1..], ok)
  }

  function RegisterOne(s: Instance, id: TokenId, c: Container, b: ElementId, ok: bool): Instance
    requires id in s.tokens
  {
    if b in c.elements && c.elements[b].event.Some?
    then CreateEventWait(s, id, b, c.elements[b].event.value.kind, false, ok) else s
  }

  /** registerBoundaries: one wait per timer, message or signal boundary. */
  function RegisterBoundaries(g: Graph, s: Instance, id: TokenId, o: Oracle): Instance
    requires id in s.tokens
  {
    var t := s.tokens[id];
    if t.path !in g then s
    else RegisterEach(g, s, id, g[t.path], Boundaries(g[t.path], t.element), o.timerOk)
  }

  /** Registering waits moves no token; at most it parks the registering one on an incident. */
  predicate OnlyParks(s: Instance, s': Instance, id: TokenId) {
    && s'.tokens.Keys == s.tokens.Keys && s'.multi == s.multi && s'.status == s.status
    && s'.suspended == s.suspended && s'.waits == s.waits && s'.cancelled == s.cancelled
    && s'.nextId >= s.nextId
    && (forall u :: u in s.tokens && u != id ==> s'.tokens[u] == s.tokens[u])
    && (id in s.tokens ==> s'.tokens[id] == s.tokens[id] || ParkedSince(s, s', id))
  }

  predicate ParkedSince(s: Instance, s': Instance, id: TokenId)
    requires id in s.tokens && id in s'.tokens
  {
    var t := s'.tokens[id];
    t.ref.RecordRef? && s.nextId <= t.ref.id < s'.nextId && t == s.tokens[id].(state := WaitRetry, ref := t.ref)
  }

  lemma ParksTransitive(s: Instance, s1: Instance, s2: Instance, id: TokenId)
    requires id in s.tokens && OnlyParks(s, s1, id) && OnlyParks(s1, s2, id)
    ensures OnlyParks(s, s2, id)
  {
    assert id in s1.tokens && id in s2.tokens;
  }

  lemma RegisterOneParks(s: Instance, id: TokenId, c: Container, b: ElementId, ok: bool)
    requires id in s.tokens
    ensures OnlyParks(s, RegisterOne(s, id, c, b, ok), id)
  {
    if b in c.elements && c.elements[b].event.Some? {
      var kind := c.elements[b].event.value.kind;
      if !kind.Error? && !kind.Terminate? {
        if kind.Timer? && !ok {
          IncidentParks(s, id);
        } else {
          RecordParks(s, id, if kind.Timer? then TimerJob else SubscriptionRecord, b);
        }
      }
    }
  }

  lemma IncidentParks(s: Instance, id: TokenId)
    requires id in s.tokens
    ensures OnlyParks(s, RaiseIncident(s, id), id)
  {
  }

  lemma RecordParks(s: Instance, id: TokenId, kind: RecordKind, b: ElementId)
    requires id in s.tokens
    ensures OnlyParks(s, Register(s, kind, id, b), id)
  {
  }

  lemma {:induction false} RegisterEachParks(g: Graph, s: Instance, id: TokenId, c: Container, bs: seq<ElementId>, ok: ElementId -> bool)
    requires id in s.tokens
    ensures OnlyParks(s, RegisterEach(g, s, id, c, bs, ok), id)
    decreases bs
  {
    if bs != [] {
      var s1 := RegisterOne(s, id, c, bs[0], ok(bs[0]));
      RegisterOneParks(s, id, c, bs[0], ok(bs[0]));
      RegisterEachParks(g, s1, id, c, bs[1..], ok);
      ParksTransitive(s, s1, RegisterEach(g, s1, id, c, bs[1..], ok), id);
    }
  }

  lemma RegisterBoundariesParks(g: Graph, s: Instance, id: TokenId, o: Oracle)
    requires id in s.tokens
    ensures OnlyParks(s, RegisterBoundaries(g, s, id, o), id)
  {
    var t := s.tokens[id];
    if t.path in g {
      RegisterEachParks(g, s, id, g[t.path], Boundaries(g[t.path], t.element), o.timerOk);
    }
  }

  function RegisterStarts(s: Instance, owner: TokenId, c: Container, starts: seq<ElementId>, o: Oracle): Instance
    decreases starts
  {
    if starts == [] then s
    else
      var ev := if starts[0] in c.elements then c.elements[starts[0]].event else None;
      var s' :=
        if ev.Some? && (ev.value.kind.Message? || ev.value.kind.Signal? || (ev.value.kind.Timer? && o.timerOk(starts[0])))
        then Register(s, if ev.value.kind.Timer? then TimerJob else SubscriptionRecord, owner, starts[0]) else s;
      RegisterStarts(s', owner, c, starts[1..], o)
  }

  function RegisterSubsFrom(g: Graph, s: Instance, path: Path, ids: seq<ElementId>, owner: TokenId, o: Oracle): Instance
    requires path in g
    decreases ids
  {
    if ids == [] then s
    else
      var id := ids[0];
      var s' :=
        if id in g[path].elements && IsEventSub(g[path].elements[id]) && path + [id] in g
        then RegisterStarts(s, owner, g[path + [id]], StartEvents(g[path + [id]]), o) else s;
      RegisterSubsFrom(g, s', path, ids[1..], owner, o)
  }

  /** registerEventSubprocesses. */
  function RegisterEventSubs(g: Graph, s: Instance, path: Path, owner: TokenId, o: Oracle): Instance
    requires path in g
  {
    RegisterSubsFrom(g, s, path, g[path].order, owner, o)
  }

  // ---- completing activities and scopes --------------------------------------------------

  /** consume: removes the token and completes scopes that became empty. */
  function Consume(g: Graph, s: Instance, id: TokenId, o: Oracle): Instance
    requires id in s.tokens
    decreases |s.tokens|, 3, 0
  {
    var t := s.tokens[id];
    if |t.path| != |t.owners| then DeleteToken(s, id)
    else CheckScope(g, DeleteToken(s, id), t.path, t.owners, o)
  }

  predicate ScopeBusy(s: Instance, path: Path, owners: seq<TokenId>) {
    exists u :: u in s.tokens && InScope(s.tokens[u], path, owners)
  }

  /** checkScope. */
  function CheckScope(g: Graph, s: Instance, path: Path, owners: seq<TokenId>, o: Oracle): Instance
    requires |path| == |owners|
    decreases |s.tokens|, 2, |path|
  {
    if ScopeBusy(s, path, owners) then s
    else if path == [] then
      if s.tokens == map[] then CompleteInstance(s) else s
    else
      var n := |path| - 1;
      if path[..n] !in g then s
      else
        var el := ElementAt(g, path[..n], path[n]);
        if el.Some? && el.value.triggeredByEvent then CheckScope(g, s, path[..n], owners[..n], o)
        else if owners[n] != 0 && owners[n] in s.tokens
             && s.tokens[owners[n]].element == path[n] && s.tokens[owners[n]].state.WaitChild?
        then CompleteActivity(g, DropEvents(s, owners[n]), owners[n], o)
        else CheckScope(g, s, path[..n], owners[..n], o)
  }

  /** completeActivity. */
  function CompleteActivity(g: Graph, s: Instance, id: TokenId, o: Oracle): Instance
    requires id in s.tokens
    decreases |s.tokens|, 1, 1
  {
    var t := s.tokens[id];
    if t.parent != 0 && t.parent in s.multi && ElementOf(g, t).Some? && IsMIChild(t)
    then MiChildCompleted(g, s, id, o)
    else
      var s1 := DropEvents(s, id);
      if ElementOf(g, t).None? then
        if |t.path| != |t.owners| then DeleteToken(s1, id)
        else CheckScope(g, DeleteToken(s1, id), t.path, t.owners, o)
      else TakeOutgoing(g, s1, id, o)
  }

  /** miChildCompleted. */
  function MiChildCompleted(g: Graph, s: Instance, id: TokenId, o: Oracle): Instance
    requires id in s.tokens
    decreases |s.tokens|, 1, 0
  {
    var t := s.tokens[id];
    var s1 := DeleteToken(s, id);
    var el := ElementOf(g, t);
    if t.parent !in s.multi || t.parent !in s1.tokens || el.None? || el.value.multi.None? then s1
    else
      var spec := el.value.multi.value;
      if spec.hasOutput && !o.outputOk then RaiseIncident(s1, t.parent)
      else
        var m := s.multi[t.parent].(outputs := s.multi[t.parent].outputs + (if spec.hasOutput then 1 else 0),
                                    completed := s.multi[t.parent].completed + 1);
        DeletedSmaller(s, id);
        AfterCount(g, s1.(multi := s1.multi[t.parent := m]), t.parent, spec, o)
  }

  lemma DeletedSmaller(s: Instance, id: TokenId)
    requires id in s.tokens
    ensures |DeleteToken(s, id).tokens| < |s.tokens|
  {
    var k := (s.tokens - {id}).Keys;
    assert k == s.tokens.Keys - {id};
    assert |s.tokens - {id}| == |k| && |s.tokens| == |s.tokens.Keys|;
  }

  /** Ends the loop, spawns the next sequential iteration, or keeps waiting. */
  function AfterCount(g: Graph, s: Instance, coord: TokenId, spec: MultiSpec, o: Oracle): Instance
    requires coord in s.tokens && coord in s.multi
    decreases |s.tokens|, 3, 0
  {
    var m := s.multi[coord];
    if spec.hasCondition && o.done.Fails? then RaiseIncident(s, coord)
    else if (spec.hasCondition && o.done.Yes?) || m.completed >= m.total then FinishMulti(g, s, coord, o)
    else if spec.sequential && m.nextIndex < m.total then
      SpawnIteration(g, s.(multi := s.multi[coord := m.(nextIndex := m.nextIndex + 1)]), coord, m.nextIndex)
    else s
  }

  /** spawnMIChild. */
  function SpawnIteration(g: Graph, s: Instance, coord: TokenId, index: nat): Instance
    requires coord in s.tokens
  {
    var c := s.tokens[coord];
    Spawn(s, c.element, c.path, c.owners, coord, c.element, index)
  }

  function SpawnIterations(g: Graph, s: Instance, coord: TokenId, index: nat, count: nat): Instance
    requires coord in s.tokens
    decreases count
  {
    if count == 0 then s
    else SpawnIterations(g, SpawnIteration(g, s, coord, index), coord, index + 1, count - 1)
  }

  /** What finishMultiInstance sweeps: the remaining iterations and their scopes. */
  function Stragglers(g: Graph, s: Instance, coord: TokenId): set<TokenId> {
    set u | u in s.tokens && LoopedUnder(g, s, coord, s.tokens[u])
  }

  /** finishMultiInstance. */
  function FinishMulti(g: Graph, s: Instance, coord: TokenId, o: Oracle): Instance
    requires coord in s.tokens
    decreases |s.tokens|, 2, 0
  {
    var s1 := Sweep(s, Stragglers(g, s, coord) - {coord}, Stragglers(g, s, coord) - {coord});
    var s2 := SetToken(s1.(multi := s1.multi - {coord}), coord, s1.tokens[coord].(state := Active, ref := NoRef));
    SweepShrinks(s, Stragglers(g, s, coord) - {coord});
    if !o.outputsOk(coord) then RaiseIncident(s2, coord)
    else CompleteActivity(g, DropEvents(s2, coord), coord, o)
  }

  lemma SweepShrinks(s: Instance, kill: set<TokenId>)
    ensures |(s.tokens - kill).Keys| <= |s.tokens.Keys|
    ensures |s.tokens - kill| <= |s.tokens|
  {
    var k := (s.tokens - kill).Keys;
    assert k <= s.tokens.Keys;
    SubsetSize(k, s.tokens.Keys);
    assert |s.tokens - kill| == |k| && |s.tokens| == |s.tokens.Keys|;
  }

  lemma {:induction false} SubsetSize<T>(a: set<T>, b: set<T>)
    requires a <= b
    ensures |a| <= |b|
    decreases a
  {
    if a != {} {
      var x :| x in a;
      SubsetSize(a - {x}, b - {x});
    }
  }

  // ---- gateways -----------------------------------------------------------------------------

  function Arrive(s: Instance, id: TokenId): Instance
    requires id in s.tokens
  {
    SetToken(s, id, s.tokens[id].(state := TokenState.Joining))
  }

  /** One of each set of tokens with the same flow. */
  ghost function OnePerFlow(s: Instance, candidates: set<TokenId>): (r: set<TokenId>)
    requires candidates <= s.tokens.Keys
    ensures r <= candidates
    ensures forall u, v :: u in r && v in r && s.tokens[u].flow == s.tokens[v].flow ==> u == v
    ensures forall u :: u in candidates ==> exists v :: v in r && s.tokens[v].flow == s.tokens[u].flow
    decreases candidates
  {
    if candidates == {} then {}
    else
      var u :| u in candidates;
      {u} + OnePerFlow(s, set v | v in candidates && s.tokens[v].flow != s.tokens[u].flow)
  }

  function OtherArrivals(s: Instance, id: TokenId): set<TokenId>
    requires id in s.tokens
  {
    set u | u in s.tokens && u != id && JoinsWith(s.tokens[u], s.tokens[id]) && s.tokens[u].flow != s.tokens[id].flow
  }

  /** mergeJoiningTokens: the joining tokens consumed. */
  ghost function Merged(s: Instance, id: TokenId, o: Oracle): (gone: set<TokenId>)
    requires id in s.tokens
    ensures MergeChoice(s, id, gone)
  {
    if MergeChoice(s, id, o.gone) then o.gone else OnePerFlow(s, OtherArrivals(s, id))
  }

  /** Removes merged tokens and reactivates the one that stays. */
  function MergeInto(s: Instance, id: TokenId, gone: set<TokenId>): Instance
    requires id in s.tokens && id !in gone
  {
    SetToken(s.(tokens := s.tokens - gone), id, s.tokens[id].(state := Active))
  }

  ghost function RouteParallel(g: Graph, s: Instance, id: TokenId, el: Element, o: Oracle): Instance
    requires id in s.tokens
  {
    if |el.incoming| <= 1 then ForkAll(g, s, id)
    else
      var s1 := Arrive(s, id);
      if !ParallelJoinReady(s1, s1.tokens[id], el.incoming) then s1
      else ForkAll(g, MergeInto(s1, id, Merged(s1, id, o)), id)
  }

  /** positionInScope: where another token stands as seen from this scope instance. */
  function PositionInScope(t: Token, ref: Token): Option<ElementId> {
    if !(ref.owners <= t.owners) then None
    else if t.path == ref.path then Some(t.element)
    else if ref.path <= t.path && |t.path| > |ref.path| then Some(t.path[|ref.path|])
    else None
  }

  /** inclusiveJoinReady: no other token could still get here. */
  ghost predicate InclusiveJoinReady(g: Graph, s: Instance, id: TokenId)
    requires id in s.tokens && s.tokens[id].path in g
  {
    var t := s.tokens[id];
    forall u :: u in s.tokens && u != id && !JoinsWith(s.tokens[u], t) ==>
      var pos := PositionInScope(s.tokens[u], t);
      pos.None? || !Reaches(g[t.path], pos.value, t.element)
  }

  function JoinedWith(s: Instance, id: TokenId): set<TokenId>
    requires id in s.tokens
  {
    set u | u in s.tokens && u != id && JoinsWith(s.tokens[u], s.tokens[id])
  }

  ghost function RouteInclusive(g: Graph, s: Instance, id: TokenId, el: Element, o: Oracle): Instance
    requires id in s.tokens && s.tokens[id].path in g
  {
    if |el.incoming| <= 1 then TakeOutgoing(g, s, id, o)
    else
      var s1 := Arrive(s, id);
      if !InclusiveJoinReady(g, s1, id) then s1
      else TakeOutgoing(g, MergeInto(s1, id, JoinedWith(s1, id)), id, o)
  }

  function WaitOnTargets(g: Graph, s: Instance, id: TokenId, c: Container, flows: seq<ElementId>, o: Oracle): Instance
    requires id in s.tokens
    decreases flows
  {
    if flows == [] then s
    else
      var target := if flows[0] in c.flows then c.flows[flows[0]].target else 0;
      var s' := if flows[0] in c.flows then RegisterOne(s, id, c, target, o.timerOk(target)) else s;
      WaitOnTargets(g, s', id, c, flows[1..], o)
  }

  function RouteEventBased(g: Graph, s: Instance, id: TokenId, el: Element, o: Oracle): Instance
    requires id in s.tokens && s.tokens[id].path in g
  {
    WaitOnTargets(g, SetToken(s, id, s.tokens[id].(state := WaitEvents, ref := NoRef)), id,
                  g[s.tokens[id].path], el.outgoing, o)
  }

  // ---- errors ---------------------------------------------------------------------------------

  /** miCoordinatorFor: the coordinator if the token is a loop iteration, else 0. */
  function CoordinatorOf(s: Instance, id: TokenId): TokenId {
    if id in s.tokens && s.tokens[id].parent in s.multi && s.tokens[id].parent in s.tokens
    then s.tokens[id].parent else 0
  }

  /** An unhandled error leaves an incident and ends the instance. */
  function Unhandled(s: Instance): Instance {
    TerminateInstance(s.(incidents := s.incidents[s.nextId := 0], nextId := s.nextId + 1))
  }

  /** The enclosing scope's boundary catches: the scope is emptied and one token goes on. */
  function CaughtAtBoundary(g: Graph, s: Instance, path: Path, owners: seq<TokenId>, boundary: ElementId): Instance
    requires |path| == |owners| > 0
  {
    ContinueAt(g, KillScope(s, path, owners, 0), path, owners, boundary)
  }

  /** The loop coordinator goes on if the scope's owner is an iteration, else the owner, or
      a new token where no owner waits. */
  function ContinueAt(g: Graph, s: Instance, path: Path, owners: seq<TokenId>, boundary: ElementId): Instance
    requires |path| == |owners| > 0
  {
    var n := |path| - 1;
    var owner := owners[n];
    var coord := CoordinatorOf(s, owner);
    if coord in s.tokens then
      var s2 := CancelWaits(g, s, coord);
      if coord in s2.tokens then MoveToBoundary(s2, coord, boundary) else s2
    else if owner in s.tokens && s.tokens[owner].element == path[n] then
      SetToken(DropEvents(s, owner), owner,
               s.tokens[owner].(element := boundary, state := Active, ref := NoRef))
    else Spawn(s, boundary, path[..n], owners[..n], 0, 0, 0)
  }

  /** propagateError, walking scopes outward from `path`. */
  function Propagate(g: Graph, s: Instance, path: Path, owners: seq<TokenId>, code: nat): Instance
    requires |path| == |owners|
    decreases |path|
  {
    var handler := if path in g then ErrorSub(g, path, code) else None;
    if handler.Some? then
      Spawn(KillScope(s, path, owners, handler.value.sub), handler.value.start,
            path + [handler.value.sub], owners + [0], 0, 0, 0)
    else if path == [] then Unhandled(s)
    else
      var n := |path| - 1;
      var boundary := if path in g && path[..n] in g then ErrorBoundary(g[path[..n]], path[n], code) else None;
      if boundary.Some? then CaughtAtBoundary(g, s, path, owners, boundary.value)
      else Propagate(g, s, path[..n], owners[..n], code)
  }

  /** throwError: a boundary on the activity wins, then the scopes outward. */
  function ThrowError(g: Graph, s: Instance, id: TokenId, code: nat): Instance
    requires id in s.tokens && s.tokens[id].path in g && |s.tokens[id].path| == |s.tokens[id].owners|
  {
    var t := s.tokens[id];
    var boundary := ErrorBoundary(g[t.path], t.element, code);
    if boundary.Some? then
      var who := if CoordinatorOf(s, id) in s.tokens then CoordinatorOf(s, id) else id;
      var s1 := CancelWaits(g, s, who);
      if who in s1.tokens then MoveToBoundary(s1, who, boundary.value) else s1
    else
      Propagate(g, DeleteToken(CancelWaits(g, s, id), id), t.path, t.owners, code)
  }

  // ---- activities -------------------------------------------------------------------------------

  function FinishSync(g: Graph, s: Instance, id: TokenId, o: Oracle): Instance
    requires id in s.tokens
  {
    if o.outputsOk(id) then CompleteActivity(g, s, id, o) else RaiseIncident(s, id)
  }

  /** handleActivityFailure. */
  function HandleFailure(g: Graph, s: Instance, id: TokenId, outcome: Outcome, o: Oracle): Instance
    requires id in s.tokens && s.tokens[id].path in g && |s.tokens[id].path| == |s.tokens[id].owners|
  {
    match outcome
    case Throws(code) => ThrowError(g, s, id, code)
    case _ => if o.retriesLeft then ParkOnJob(s, id) else RaiseIncident(s, id)
  }

  function Work(g: Graph, s: Instance, id: TokenId, o: Oracle): Instance
    requires id in s.tokens && s.tokens[id].path in g && |s.tokens[id].path| == |s.tokens[id].owners|
  {
    match o.outcome
    case Succeeds => FinishSync(g, s, id, o)
    case Missing => RaiseIncident(s, id)
    case _ => HandleFailure(g, s, id, o.outcome, o)
  }

  /** finishAgent, after the guard's review. */
  function FinishAgent(g: Graph, s: Instance, id: TokenId, spec: AgentSpec, o: Oracle): Instance
    requires id in s.tokens && s.tokens[id].path in g && |s.tokens[id].path| == |s.tokens[id].owners|
  {
    if !o.reviewOk then HandleFailure(g, s, id, FailsPlain, o)
    else if spec.approval then OpenWait(s, id, TaskWait)
    else FinishSync(g, s, id, o)
  }

  function AgentTask(g: Graph, s: Instance, id: TokenId, spec: AgentSpec, o: Oracle): Instance
    requires id in s.tokens && s.tokens[id].path in g && |s.tokens[id].path| == |s.tokens[id].owners|
  {
    if !o.budgetOk then RaiseIncident(s, id)
    else if spec.external then OpenWait(s, id, AgentWait)
    else match o.outcome
      case Succeeds => FinishAgent(g, s, id, spec, o)
      case Missing => RaiseIncident(s, id)
      case _ => HandleFailure(g, s, id, o.outcome, o)
  }

  function EnterSub(g: Graph, s: Instance, id: TokenId, o: Oracle): Instance
    requires id in s.tokens
  {
    var t := s.tokens[id];
    var inner := t.path + [t.element];
    if inner !in g || NoneStartEvent(g[inner]).None? then RaiseIncident(s, id)
    else
      var s1 := SetToken(s, id, t.(state := WaitChild, ref := ScopeRef));
      Spawn(RegisterEventSubs(g, s1, inner, id, o), NoneStartEvent(g[inner]).value, inner, t.owners + [id], 0, 0, 0)
  }

  function EnterCall(s: Instance, id: TokenId, o: Oracle): Instance
    requires id in s.tokens
  {
    if !o.calleeOk then RaiseIncident(s, id)
    else SetToken(s.(nextId := s.nextId + 1), id, s.tokens[id].(state := WaitChild, ref := RecordRef(s.nextId)))
  }

  /** startMultiInstance. */
  function StartMulti(g: Graph, s: Instance, id: TokenId, spec: MultiSpec, o: Oracle): Instance
    requires id in s.tokens
  {
    if o.items.None? then RaiseIncident(s, id)
    else if o.items.value == 0 then CompleteActivity(g, s, id, o)
    else
      var n := o.items.value;
      var first := if spec.sequential then 1 else n;
      var s1 := SetToken(s.(multi := s.multi[id := MultiState(n, 0, first, 0)]), id,
                         s.tokens[id].(state := WaitMulti, ref := NoRef));
      RegisterBoundariesParks(g, s1, id, o);
      SpawnIterations(g, RegisterBoundaries(g, s1, id, o), id, 0, first)
  }

  function CatchEvent(s: Instance, id: TokenId, el: Element, o: Oracle): Instance
    requires id in s.tokens
  {
    var kind := if el.event.Some? then el.event.value.kind else Terminate;
    match kind
    case Timer => Catching(s, id, WaitTimer, kind, o)
    case Message => Catching(s, id, WaitMessage, kind, o)
    case Signal => Catching(s, id, WaitSignal, kind, o)
    case _ => RaiseIncident(s, id)
  }

  function Catching(s: Instance, id: TokenId, state: TokenState, kind: EventKind, o: Oracle): Instance
    requires id in s.tokens
  {
    CreateEventWait(SetToken(s, id, s.tokens[id].(state := state)), id, s.tokens[id].element, kind, true, o.timerOk(s.tokens[id].element))
  }

  /** activity: dispatch, with loops and boundary registrations first. */
  function Activity(g: Graph, s: Instance, id: TokenId, el: Element, o: Oracle): Instance
    requires id in s.tokens && s.tokens[id].path in g && |s.tokens[id].path| == |s.tokens[id].owners|
  {
    if el.multi.Some? && !IsMIChild(s.tokens[id]) then StartMulti(g, s, id, el.multi.value, o)
    else if !o.inputsOk then RaiseIncident(s, id)
    else
      RegisterBoundariesParks(g, s, id, o);
      Dispatch(g, if IsMIChild(s.tokens[id]) then s else RegisterBoundaries(g, s, id, o), id, el, o)
  }

  function Dispatch(g: Graph, s: Instance, id: TokenId, el: Element, o: Oracle): Instance
    requires id in s.tokens && s.tokens[id].path in g && |s.tokens[id].path| == |s.tokens[id].owners|
  {
    match el.etype
    case UserTask => if o.fieldsOk then OpenWait(s, id, TaskWait) else RaiseIncident(s, id)
    case ServiceTask => ServiceLike(g, s, id, el, o)
    case SendTask => ServiceLike(g, s, id, el, o)
    case ScriptTask => Work(g, s, id, o)
    case RuleTask => Work(g, s, id, o)
    case ReceiveTask =>
      Catching(s, id, WaitMessage, if el.event.Some? then el.event.value.kind else Terminate, o)
    case ManualTask => FinishSync(g, s, id, o)
    case PlainTask => FinishSync(g, s, id, o)
    case SubProcess => EnterSub(g, s, id, o)
    case CallActivity => EnterCall(s, id, o)
    case _ => RaiseIncident(s, id)
  }

  function ServiceLike(g: Graph, s: Instance, id: TokenId, el: Element, o: Oracle): Instance
    requires id in s.tokens && s.tokens[id].path in g && |s.tokens[id].path| == |s.tokens[id].owners|
  {
    if el.agent.Some? then AgentTask(g, s, id, el.agent.value, o)
    else if el.topic then OpenWait(s, id, ExternalWait)
    else Work(g, s, id, o)
  }

  // ---- end events and steps -----------------------------------------------------------------------

  function ReachEnd(g: Graph, s: Instance, id: TokenId, el: Element, o: Oracle): Instance
    requires id in s.tokens && |s.tokens[id].path| == |s.tokens[id].owners|
  {
    var t := s.tokens[id];
    if el.event.Some? && el.event.value.kind.Terminate? then
      if t.path == [] then CompleteInstance(s.(tokens := map[]))
      else CheckScope(g, KillScope(s, t.path, t.owners, 0), t.path, t.owners, o)
    else if el.event.Some? && el.event.value.kind.Error? then
      Propagate(g, DeleteToken(s, id), t.path, t.owners, el.event.value.code)
    else Consume(g, s, id, o)
  }

  /** step: one active token executes its element. */
  ghost function Step(g: Graph, s: Instance, id: TokenId, o: Oracle): Instance
    requires id in s.tokens && |s.tokens[id].path| == |s.tokens[id].owners|
  {
    var found := ElementOf(g, s.tokens[id]);
    if found.None? then RaiseIncident(s, id)
    else
      var el := found.value;
      match el.etype
      case StartEvent => TakeOutgoing(g, s, id, o)
      case EndEvent => ReachEnd(g, s, id, el, o)
      case BoundaryEvent => TakeOutgoing(g, s, id, o)
      case IntermediateCatch => CatchEvent(s, id, el, o)
      case IntermediateThrow => TakeOutgoing(g, s, id, o)
      case ExclusiveGateway => RouteExclusive(g, s, id, o)
      case ParallelGateway => RouteParallel(g, s, id, el, o)
      case InclusiveGateway => RouteInclusive(g, s, id, el, o)
      case EventBasedGateway => RouteEventBased(g, s, id, el, o)
      case _ => Activity(g, s, id, el, o)
  }

  // One case of `step` at a time.

  lemma StepIs(g: Graph, s: Instance, id: TokenId, el: Element, o: Oracle)
    requires id in s.tokens && |s.tokens[id].path| == |s.tokens[id].owners| && ElementOf(g, s.tokens[id]) == Some(el)
    ensures el.etype in {StartEvent, BoundaryEvent, IntermediateThrow} ==>
      Step(g, s, id, o) == TakeOutgoing(g, s, id, o)
    ensures el.etype.EndEvent? ==> Step(g, s, id, o) == ReachEnd(g, s, id, el, o)
    ensures el.etype.IntermediateCatch? ==> Step(g, s, id, o) == CatchEvent(s, id, el, o)
    ensures IsActivity(el) ==> Step(g, s, id, o) == Activity(g, s, id, el, o)
  {
    hide TakeOutgoing, ReachEnd, CatchEvent, RouteExclusive, RouteParallel, RouteInclusive, RouteEventBased, Activity;
  }

  lemma ChoiceStepIs(g: Graph, s: Instance, id: TokenId, el: Element, o: Oracle)
    requires id in s.tokens && |s.tokens[id].path| == |s.tokens[id].owners| && ElementOf(g, s.tokens[id]) == Some(el)
    ensures el.etype.ExclusiveGateway? ==> Step(g, s, id, o) == RouteExclusive(g, s, id, o)
    ensures el.etype.EventBasedGateway? ==> Step(g, s, id, o) == RouteEventBased(g, s, id, el, o)
  {
    hide TakeOutgoing, ReachEnd, CatchEvent, RouteExclusive, RouteParallel, RouteInclusive, RouteEventBased, Activity;
  }

  lemma ParallelStepIs(g: Graph, s: Instance, id: TokenId, el: Element, o: Oracle)
    requires id in s.tokens && |s.tokens[id].path| == |s.tokens[id].owners| && ElementOf(g, s.tokens[id]) == Some(el)
    requires el.etype.ParallelGateway?
    ensures Step(g, s, id, o) == RouteParallel(g, s, id, el, o)
  {
    hide TakeOutgoing, ReachEnd, CatchEvent, RouteExclusive, RouteParallel, RouteInclusive, RouteEventBased, Activity;
  }

  lemma InclusiveStepIs(g: Graph, s: Instance, id: TokenId, el: Element, o: Oracle)
    requires id in s.tokens && |s.tokens[id].path| == |s.tokens[id].owners| && ElementOf(g, s.tokens[id]) == Some(el)
    requires el.etype.InclusiveGateway?
    ensures Step(g, s, id, o) == RouteInclusive(g, s, id, el, o)
  {
    hide TakeOutgoing, ReachEnd, CatchEvent, RouteExclusive, RouteParallel, RouteInclusive, RouteEventBased, Activity;
  }
}
