/** The executable graph of one process definition. */
module Bpmn {
  import opened StoreState

  /** Element and flow IDs; 0 is the empty string. */
  type ElementId = nat

  datatype ElementType =
    | StartEvent | EndEvent | BoundaryEvent | IntermediateCatch | IntermediateThrow
    | UserTask | ServiceTask | ScriptTask | RuleTask | SendTask | ReceiveTask | ManualTask | PlainTask
    | SubProcess | CallActivity
    | ExclusiveGateway | ParallelGateway | InclusiveGateway | EventBasedGateway

  datatype EventKind = Timer | Message | Signal | Error | Terminate

  /** Error code 0 catches any error. */
  datatype EventDef = EventDef(kind: EventKind, code: nat)

  /** Loop characteristics: whether an output is collected and a completion condition set. */
  datatype MultiSpec = MultiSpec(sequential: bool, hasOutput: bool, hasCondition: bool)

  datatype AgentSpec = AgentSpec(external: bool, approval: bool)

  /** `topic` routes a service task to external workers; `resumable` is the async flag. */
  datatype Element = Element(
    etype: ElementType, incoming: seq<ElementId>, outgoing: seq<ElementId>, defaultFlow: ElementId,
    event: Option<EventDef>, attachedTo: ElementId, cancelActivity: bool,
    triggeredByEvent: bool, topic: bool, agent: Option<AgentSpec>, multi: Option<MultiSpec>, resumable: bool)

  datatype Flow = Flow(target: ElementId, conditional: bool)

  datatype Container = Container(elements: map<ElementId, Element>, flows: map<ElementId, Flow>, order: seq<ElementId>)

  type Path = seq<ElementId>

  /** The nested containers, indexed by scope path. */
  type Graph = map<Path, Container>

  predicate IsActivity(el: Element) {
    el.etype in {UserTask, ServiceTask, ScriptTask, RuleTask, SendTask, ReceiveTask, ManualTask, PlainTask,
                 SubProcess, CallActivity}
  }

  predicate HasElement(g: Graph, path: Path, id: ElementId) {
    path in g && id in g[path].elements
  }

  function ElementAt(g: Graph, path: Path, id: ElementId): Option<Element> {
    if HasElement(g, path, id) then Some(g[path].elements[id]) else None
  }

  predicate IsEventSub(el: Element) {
    el.etype.SubProcess? && el.triggeredByEvent
  }

  predicate Catches(el: Element, code: nat) {
    el.event.Some? && el.event.value.kind.Error? && (el.event.value.code == 0 || el.event.value.code == code)
  }

  /** Boundary events of an activity, in document order. */
  function BoundariesFrom(c: Container, ids: seq<ElementId>, activity: ElementId): seq<ElementId> {
    if ids == [] then []
    else
      (if ids[0] in c.elements && c.elements[ids[0]].etype.BoundaryEvent? && c.elements[ids[0]].attachedTo == activity
       then [ids[0]] else [])
      + BoundariesFrom(c, ids[1..], activity)
  }

  function Boundaries(c: Container, activity: ElementId): seq<ElementId> {
    BoundariesFrom(c, c.order, activity)
  }

  /** The first of `ids` that catches the error, or 0. */
  function FirstCatching(c: Container, ids: seq<ElementId>, code: nat): Option<ElementId> {
    if ids == [] then None
    else if ids[0] in c.elements && Catches(c.elements[ids[0]], code) then Some(ids[0])
    else FirstCatching(c, ids[1..], code)
  }

  function ErrorBoundary(c: Container, activity: ElementId, code: nat): Option<ElementId> {
    FirstCatching(c, Boundaries(c, activity), code)
  }

  function StartEventsFrom(c: Container, ids: seq<ElementId>): seq<ElementId> {
    if ids == [] then []
    else (if ids[0] in c.elements && c.elements[ids[0]].etype.StartEvent? then [ids[0]] else [])
         + StartEventsFrom(c, ids[1..])
  }

  function StartEvents(c: Container): seq<ElementId> {
    StartEventsFrom(c, c.order)
  }

  function FirstUntyped(c: Container, ids: seq<ElementId>): Option<ElementId> {
    if ids == [] then None
    else if ids[0] in c.elements && c.elements[ids[0]].event.None? then Some(ids[0])
    else FirstUntyped(c, ids[1..])
  }

  function NoneStartEvent(c: Container): Option<ElementId> {
    FirstUntyped(c, StartEvents(c))
  }

  /** An event sub-process and the error start event of it that catches the code. */
  datatype ErrorHandler = ErrorHandler(sub: ElementId, start: ElementId)

  function ErrorSubFrom(g: Graph, path: Path, ids: seq<ElementId>, code: nat): Option<ErrorHandler>
    requires path in g
  {
    if ids == [] then None
    else
      var rest := ErrorSubFrom(g, path, ids[1..], code);
      var id := ids[0];
      if id in g[path].elements && IsEventSub(g[path].elements[id]) && path + [id] in g then
        var start := FirstCatching(g[path + [id]], StartEvents(g[path + [id]]), code);
        if start.Some? then Some(ErrorHandler(id, start.value)) else rest
      else rest
  }

  function ErrorSub(g: Graph, path: Path, code: nat): Option<ErrorHandler>
    requires path in g
  {
    ErrorSubFrom(g, path, g[path].order, code)
  }

  /** Boundary events extend reachability from their host activity. */
  function NextFlows(c: Container, id: ElementId): seq<ElementId> {
    if id !in c.elements then [] else c.elements[id].outgoing + OutgoingOf(c, Boundaries(c, id))
  }

  function OutgoingOf(c: Container, ids: seq<ElementId>): seq<ElementId> {
    if ids == [] then []
    else (if ids[0] in c.elements then c.elements[ids[0]].outgoing else []) + OutgoingOf(c, ids[1..])
  }

  predicate Edge(c: Container, a: ElementId, b: ElementId) {
    exists f :: f in NextFlows(c, a) && f in c.flows && c.flows[f].target == b
  }

  predicate IsWalk(c: Container, walk: seq<ElementId>) {
    forall n :: 0 < n < |walk| ==> Edge(c, walk[n - 1], walk[n])
  }

  /** Some path of flows, extended by those of boundary events on the way, leads there. */
  ghost predicate Reaches(c: Container, a: ElementId, b: ElementId) {
    exists walk :: walk != [] && walk[0] == a && walk[|walk| - 1] == b && IsWalk(c, walk)
  }

  /** The container an element ID belongs to. */
  ghost function Home(g: Graph, id: ElementId): Option<Path> {
    if exists p :: HasElement(g, p, id) then
      var p :| HasElement(g, p, id);
      Some(p)
    else None
  }

  predicate AwaitableTarget(c: Container, id: ElementId) {
    id in c.elements && c.elements[id].etype in {IntermediateCatch, ReceiveTask}
  }

  /** What deployment guarantees: containers nest through sub-process elements, flows join
      elements of one container and never enter an event sub-process, boundary events sit
      on activities, event gateways lead to catch events or receive tasks, and no ID names
      elements of two containers. */
  ghost predicate ValidGraph(g: Graph) {
    && [] in g
    && (forall p: Path, x: ElementId {:trigger GoodElement(g, p, x)} :: HasElement(g, p, x) ==> GoodElement(g, p, x))
    && (forall p: Path {:trigger GoodNesting(g, p)} :: p in g && p != [] ==> GoodNesting(g, p))
    && (forall p: Path, f: ElementId {:trigger GoodFlow(g, p, f)} :: p in g && f in g[p].flows ==> GoodFlow(g, p, f))
    && (forall p: Path, q: Path, x: ElementId :: HasElement(g, p, x) && HasElement(g, q, x) ==> p == q)
  }

  /** Sub-processes have a container, only activities loop, boundary events sit on activities,
      and event gateways lead to catch events or receive tasks. */
  ghost predicate GoodElement(g: Graph, p: Path, x: ElementId)
    requires HasElement(g, p, x)
  {
    var el := g[p].elements[x];
    && x != 0
    && (el.etype.SubProcess? ==> p + [x] in g)
    && (el.multi.Some? ==> IsActivity(el) && !IsEventSub(el))
    && (el.etype.BoundaryEvent? && el.attachedTo in g[p].elements ==> IsActivity(g[p].elements[el.attachedTo]))
    && (el.etype.EventBasedGateway? ==>
          forall f :: f in el.outgoing && f in g[p].flows ==> AwaitableTarget(g[p], g[p].flows[f].target))
  }

  /** Inner containers belong to sub-process elements. */
  ghost predicate GoodNesting(g: Graph, p: Path)
    requires p != []
  {
    HasElement(g, p[..|p| - 1], p[|p| - 1]) && g[p[..|p| - 1]].elements[p[|p| - 1]].etype.SubProcess?
  }

  /** Flows end inside their container, and never at an event sub-process. */
  ghost predicate GoodFlow(g: Graph, p: Path, f: ElementId)
    requires p in g && f in g[p].flows
  {
    f != 0 && g[p].flows[f].target in g[p].elements && !IsEventSub(g[p].elements[g[p].flows[f].target])
  }

  // ---- what deployment checks -----------------------------------------------------------------

  predicate TypedStart(c: Container, id: ElementId) {
    id in c.elements && c.elements[id].etype.StartEvent? && c.elements[id].event.Some?
  }

  /** What validateContainer asks of one element. */
  ghost predicate Deploys(g: Graph, p: Path, x: ElementId)
    requires HasElement(g, p, x)
  {
    var c := g[p];
    var el := c.elements[x];
    && (forall f :: f in el.incoming + el.outgoing ==> f in c.flows)
    && (match el.etype
        case StartEvent => el.incoming == [] && el.outgoing != []
        case EndEvent => el.outgoing == []
        case IntermediateThrow => true
        case BoundaryEvent => el.attachedTo in c.elements && IsActivity(c.elements[el.attachedTo]) && el.outgoing != []
        case EventBasedGateway =>
          |el.outgoing| >= 2 && forall f :: f in el.outgoing && f in c.flows ==> AwaitableTarget(c, c.flows[f].target)
        case SubProcess =>
          && p + [x] in g && g[p + [x]].elements != map[]
          && (if el.triggeredByEvent then exists id :: id in StartEvents(g[p + [x]]) && TypedStart(g[p + [x]], id)
              else NoneStartEvent(g[p + [x]]).Some? && el.outgoing != [])
        case _ =>
          && (el.outgoing != [] || el.triggeredByEvent)
          && (el.etype in {ExclusiveGateway, InclusiveGateway, ParallelGateway} ==> el.outgoing != [])
          && (el.etype in {ExclusiveGateway, InclusiveGateway} && el.defaultFlow != 0 ==> el.defaultFlow in c.flows))
  }

  /** A definition that deployment accepts. */
  ghost predicate Deployable(g: Graph) {
    && [] in g && StartEvents(g[[]]) != []
    && (forall p: Path, x: ElementId {:trigger Deploys(g, p, x)} :: HasElement(g, p, x) ==> Deploys(g, p, x))
    && (forall p: Path, f: ElementId :: p in g && f in g[p].flows ==> g[p].flows[f].target in g[p].elements)
  }

  /** What parsing gives: containers belong to sub-processes, only activities loop, IDs are not empty. */
  ghost predicate Parsed(g: Graph) {
    && (forall p: Path {:trigger GoodNesting(g, p)} :: p in g && p != [] ==> GoodNesting(g, p))
    && (forall p: Path, x: ElementId :: HasElement(g, p, x) ==> x != 0 && (g[p].elements[x].multi.Some? ==> IsActivity(g[p].elements[x])))
    && (forall p: Path, f: ElementId :: p in g && f in g[p].flows ==> f != 0)
  }

  /** What neither checks: no flow enters an event sub-process and none loops, and no ID names
      elements of two containers. */
  ghost predicate Modelled(g: Graph) {
    && (forall p: Path, x: ElementId :: HasElement(g, p, x) && IsEventSub(g[p].elements[x]) ==>
          g[p].elements[x].multi.None? && forall f :: f in g[p].flows ==> g[p].flows[f].target != x)
    && (forall p: Path, q: Path, x: ElementId :: HasElement(g, p, x) && HasElement(g, q, x) ==> p == q)
  }

  /** The graphs of the model are the deployable ones among those that are so modelled. */
  lemma DeployableIsValid(g: Graph)
    requires Parsed(g) && Deployable(g) && Modelled(g)
    ensures ValidGraph(g)
  {
    forall p: Path, x: ElementId | HasElement(g, p, x) ensures GoodElement(g, p, x) {
      assert Deploys(g, p, x);
    }
    forall p: Path, f: ElementId | p in g && f in g[p].flows ensures GoodFlow(g, p, f) {
      assert HasElement(g, p, g[p].flows[f].target);
    }
  }
}
