/** Inputs on which the engine does not keep its invariants: one for each condition that is
    proved exact elsewhere. Each engine state is one that a run of a deployable process leads to. */
module Witnesses {
  import opened StoreState
  import opened Bpmn
  import opened Instances
  import opened Engine
  import opened ScopeTree
  import opened Moves
  import opened Cancellation
  import opened Completion
  import opened Errors
  import opened ErrorEffects
  import opened Activities
  import opened Steps
  import opened Triggers
  import opened Runs
  import opened Migration
  import LogLaws
  import Memory
  import Ordering
  import JournalState

  function Plain(etype: ElementType, incoming: seq<ElementId>, outgoing: seq<ElementId>): Element {
    Element(etype, incoming, outgoing, 0, None, 0, true, false, false, None, None, false)
  }

  /** Every evaluation succeeds; loops run over one item. */
  function Answers(): Oracle {
    Oracle(_ => Yes, true, _ => true, true, Succeeds, false, true, true, true, Some(1), true, No, _ => true, false, {})
  }

  // ---- walking through a process ------------------------------------------------------------

  ghost predicate Steppable(g: Graph, w: World, x: TokenId) {
    && ValidGraph(g) && Reachable(g, w) && w.inst.status.Running? && !w.inst.suspended
    && x in w.inst.tokens && w.inst.tokens[x].state.Active?
  }

  lemma Executes(g: Graph, w: World, x: TokenId, o: Oracle)
    requires Steppable(g, w, x) && StepAnswers(g, w.inst, x, o)
    ensures |w.inst.tokens[x].path| == |w.inst.tokens[x].owners| && Reachable(g, w.(inst := Step(g, w.inst, x, o)))
  {
    ReachableInv(g, w);
    WorkerStands(g, w.inst, x);
    ReachableNext(g, w, Execute(x, o));
  }

  function WalkedOn(g: Graph, s: Instance, x: TokenId, f: ElementId): Instance
    requires x in s.tokens
  {
    SetToken(s, x, s.tokens[x].(element := TargetOf(g, s.tokens[x].path, f), flow := f, state := Active, ref := NoRef))
  }

  /** The element's one flow carries no condition and leads to an element that is not async. */
  ghost predicate Leads(g: Graph, t: Token, f: ElementId) {
    && ElementOf(g, t).Some? && ElementOf(g, t).value.outgoing == [f] && ElementOf(g, t).value.defaultFlow != f
    && f in g[t.path].flows && !g[t.path].flows[f].conditional
    && (HasElement(g, t.path, g[t.path].flows[f].target) ==> !g[t.path].elements[g[t.path].flows[f].target].resumable)
  }

  lemma OneFlow(g: Graph, s: Instance, x: TokenId, f: ElementId, o: Oracle)
    requires x in s.tokens && Leads(g, s.tokens[x], f)
    ensures TakeOutgoing(g, s, x, o) == WalkedOn(g, s, x, f)
  {
    var c := g[s.tokens[x].path];
    assert [f][1..] == [];
    assert SelectFlows(c, [f], c.elements[s.tokens[x].element].defaultFlow, o) == Some([f] + []);
    assert [f] + [] == [f];
    assert MoveOver(g, s, x, [f]) == MaybeAsync(g, WalkedOn(g, s, x, f), x);
  }

  /** A token at a start event walks on. */
  lemma WalksOn(g: Graph, w: World, x: TokenId, f: ElementId)
    requires Steppable(g, w, x) && Leads(g, w.inst.tokens[x], f)
    requires ElementOf(g, w.inst.tokens[x]).value.etype.StartEvent? && ElementOf(g, w.inst.tokens[x]).value.multi.None?
    ensures Reachable(g, w.(inst := WalkedOn(g, w.inst, x, f)))
  {
    Executes(g, w, x, Answers());
    StepIs(g, w.inst, x, ElementOf(g, w.inst.tokens[x]).value, Answers());
    OneFlow(g, w.inst, x, f, Answers());
  }

  /** No start event of an event sub-process among `ids` waits for a job or subscription. */
  ghost predicate Quiet(g: Graph, path: Path, ids: seq<ElementId>)
    requires path in g
  {
    forall id :: id in ids && id in g[path].elements && IsEventSub(g[path].elements[id]) && path + [id] in g ==>
      forall st :: st in StartEvents(g[path + [id]]) ==> NoWait(g[path + [id]], st)
  }

  predicate NoWait(c: Container, st: ElementId) {
    st in c.elements && c.elements[st].event.Some? ==> c.elements[st].event.value.kind.Error?
  }

  lemma {:induction false} QuietStarts(s: Instance, owner: TokenId, c: Container, starts: seq<ElementId>, o: Oracle)
    requires forall st :: st in starts ==> NoWait(c, st)
    ensures RegisterStarts(s, owner, c, starts, o) == s
    decreases starts
  {
    if starts != [] {
      assert NoWait(c, starts[0]);
      QuietStarts(s, owner, c, starts[1..], o);
    }
  }

  lemma {:induction false} QuietSubs(g: Graph, s: Instance, path: Path, ids: seq<ElementId>, owner: TokenId, o: Oracle)
    requires path in g && Quiet(g, path, ids)
    ensures RegisterSubsFrom(g, s, path, ids, owner, o) == s
    decreases ids
  {
    if ids != [] {
      var id := ids[0];
      if id in g[path].elements && IsEventSub(g[path].elements[id]) && path + [id] in g {
        QuietStarts(s, owner, g[path + [id]], StartEvents(g[path + [id]]), o);
      }
      QuietSubs(g, s, path, ids[1..], owner, o);
    }
  }

  lemma {:induction false} NoErrorSubs(g: Graph, path: Path, ids: seq<ElementId>, code: nat)
    requires path in g && forall id :: id in ids && id in g[path].elements ==> !IsEventSub(g[path].elements[id])
    ensures ErrorSubFrom(g, path, ids, code) == None
    decreases ids
  {
    if ids != [] {
      NoErrorSubs(g, path, ids[1..], code);
    }
  }

  // ---- one external task, looping or not ------------------------------------------------------

  function Work(activity: ElementId, multi: Option<MultiSpec>): Element {
    Plain(ServiceTask, [10], [11]).(topic := true, multi := multi)
  }

  /** Start event 1, an external task with timer 3 on its boundary, end event 4. */
  function TaskContainer(activity: ElementId, multi: Option<MultiSpec>): Container {
    Container(map[1 := Plain(StartEvent, [], [10]), activity := Work(activity, multi),
                  3 := Plain(BoundaryEvent, [], [12]).(attachedTo := activity, event := Some(EventDef(Timer, 0))),
                  4 := Plain(EndEvent, [11, 12], [])],
              map[10 := Flow(activity, false), 11 := Flow(4, false), 12 := Flow(4, false)], [1, activity, 3, 4])
  }

  function TaskGraph(activity: ElementId, multi: Option<MultiSpec>): Graph {
    map[[] := TaskContainer(activity, multi)]
  }

  /** A parallel loop that collects an output. */
  function Loop(): Option<MultiSpec> {
    Some(MultiSpec(false, true, false))
  }

  lemma TaskElements(activity: ElementId, multi: Option<MultiSpec>, p: Path, x: ElementId)
    requires activity in {2, 5} && HasElement(TaskGraph(activity, multi), p, x)
    ensures p == [] && x in {1, activity, 3, 4} && Deploys(TaskGraph(activity, multi), p, x)
    ensures TaskGraph(activity, multi)[p].elements[x].multi.Some? ==> x == activity
  {
    assert p == [] && x in {1, activity, 3, 4};
  }

  lemma TaskGraphDeploys(activity: ElementId, multi: Option<MultiSpec>)
    requires activity in {2, 5}
    ensures Deployable(TaskGraph(activity, multi)) && ValidGraph(TaskGraph(activity, multi))
  {
    hide Deploys;
    var g := TaskGraph(activity, multi);
    var c := g[[]];
    assert StartEventsFrom(c, [1, activity, 3, 4]) == [1] + StartEventsFrom(c, [1, activity, 3, 4][1..]);
    forall p: Path, x: ElementId | HasElement(g, p, x)
      ensures Deploys(g, p, x) && p == [] && x != 0
      ensures g[p].elements[x].multi.Some? ==> IsActivity(g[p].elements[x])
      ensures !IsEventSub(g[p].elements[x])
    {
      TaskElements(activity, multi, p, x);
    }
    DeployableIsValid(g);
  }

  /** The token has come to the activity. */
  function AtTask(): Instance {
    Instance.Instance(map[1 := Token(2, Active, [], [], 10, NoRef, 0, 0, 0)], map[], Running, false, map[], map[], map[], {}, 2)
  }

  lemma TaskBorn(multi: Option<MultiSpec>)
    ensures Reachable(TaskGraph(2, multi), World(Born(1), map[]))
  {
    hide Reachable, RegisterSubsFrom;
    QuietSubs(TaskGraph(2, multi), Born(1), [], [1, 2, 3, 4], 0, Answers());
    ReachableFirst(TaskGraph(2, multi), 1, Answers());
  }

  lemma ComesToTask(multi: Option<MultiSpec>)
    ensures Reachable(TaskGraph(2, multi), World(AtTask(), map[]))
  {
    hide Reachable, ValidGraph;
    var g := TaskGraph(2, multi);
    TaskGraphDeploys(2, multi);
    TaskBorn(multi);
    assert ElementOf(g, Born(1).tokens[1]) == Some(Plain(StartEvent, [], [10]));
    WalksOn(g, World(Born(1), map[]), 1, 10);
    assert WalkedOn(g, Born(1), 1, 10).tokens == AtTask().tokens;
  }

  lemma TaskBoundary(multi: Option<MultiSpec>)
    ensures Boundaries(TaskContainer(2, multi), 2) == [3]
  {
    var c := TaskContainer(2, multi);
    assert [1, 2, 3, 4][1..] == [2, 3, 4] && [2, 3, 4][1..] == [3, 4] && [3, 4][1..] == [4] && [4][1..] == [];
    assert BoundariesFrom(c, [4], 2) == [];
    assert BoundariesFrom(c, [3, 4], 2) == [3];
    assert BoundariesFrom(c, [2, 3, 4], 2) == [3];
  }

  /** No timer can be scheduled. */
  function NoTimers(): Oracle {
    Answers().(timerOk := (_: ElementId) => false)
  }

  lemma TimerFails()
    ensures !LoopStarts(TaskGraph(2, Loop()), AtTask().tokens[1], NoTimers())
  {
    var g := TaskGraph(2, Loop());
    TaskBoundary(Loop());
    assert 3 in Boundaries(g[[]], 2) && IsTimer(g[[]], 3) && !NoTimers().timerOk(3);
  }

  lemma AtTaskSteps(multi: Option<MultiSpec>, o: Oracle)
    ensures Step(TaskGraph(2, multi), AtTask(), 1, o) == Activity(TaskGraph(2, multi), AtTask(), 1, Work(2, multi), o)
    ensures multi.Some? ==>
      Step(TaskGraph(2, multi), AtTask(), 1, o) == StartMulti(TaskGraph(2, multi), AtTask(), 1, multi.value, o)
  {
    hide StartMulti, Dispatch, RegisterBoundaries;
    assert ElementOf(TaskGraph(2, multi), AtTask().tokens[1]) == Some(Work(2, multi));
    StepIs(TaskGraph(2, multi), AtTask(), 1, Work(2, multi), o);
  }

  lemma AtTaskReady()
    ensures Inv(TaskGraph(2, Loop()), AtTask()) && Ready(TaskGraph(2, Loop()), AtTask(), 1)
    ensures SpecOf(TaskGraph(2, Loop()), AtTask().tokens[1]) == Loop()
  {
    hide Core, NoStuck, Linked, Routed, Deployable, ValidGraph, Reachable;
    TaskGraphDeploys(2, Loop());
    ComesToTask(Loop());
    ReachableInv(TaskGraph(2, Loop()), World(AtTask(), map[]));
    LeafReady(TaskGraph(2, Loop()), AtTask(), 1);
  }

  /** A boundary timer that cannot be scheduled breaks the loop it belongs to. */
  lemma BadTimerBreaksLoop()
    ensures Deployable(TaskGraph(2, Loop())) && Reachable(TaskGraph(2, Loop()), World(AtTask(), map[]))
    ensures LoopAnswers(NoTimers()) && !Inv(TaskGraph(2, Loop()), Step(TaskGraph(2, Loop()), AtTask(), 1, NoTimers()))
  {
    hide Inv, Ready, StartMulti, Step, LoopStarts, Deployable, ValidGraph, Reachable, TaskGraph;
    TaskGraphDeploys(2, Loop());
    ComesToTask(Loop());
    AtTaskSteps(Loop(), NoTimers());
    TimerFails();
    AtTaskReady();
    StartMultiExactly(TaskGraph(2, Loop()), AtTask(), 1, Loop().value, NoTimers());
  }

  /** The loop has started, its boundary timer set and its one iteration about to work. */
  function InLoop(): Instance {
    Instance.Instance(map[1 := Token(2, WaitMulti, [], [], 10, NoRef, 0, 0, 0), 3 := Token(2, Active, [], [], 0, NoRef, 1, 2, 0)],
                      map[1 := MultiState(1, 0, 1, 0)], Running, false, map[], map[2 := EventRecord(TimerJob, 1, 3)], map[], {}, 4)
  }

  /** The iteration waits for its external task. */
  function LoopWaits(): Instance {
    OpenWait(InLoop(), 3, ExternalWait)
  }

  /** The token waits for its external task, without a loop. */
  function TaskWaits(): Instance {
    Instance.Instance(map[1 := Token(2, WaitExternal, [], [], 10, RecordRef(3), 0, 0, 0)], map[], Running, false,
                      map[3 := WaitRecord(ExternalWait, 1, true)], map[2 := EventRecord(TimerJob, 1, 3)], map[], {}, 4)
  }

  lemma TimerRegistered(multi: Option<MultiSpec>, s: Instance, x: TokenId)
    requires x in s.tokens && s.tokens[x].path == [] && s.tokens[x].element == 2
    ensures RegisterBoundaries(TaskGraph(2, multi), s, x, Answers()) == Register(s, TimerJob, x, 3)
  {
    var g := TaskGraph(2, multi);
    TaskBoundary(multi);
    assert [3][1..] == [];
    assert RegisterEach(g, s, x, g[[]], [3], Answers().timerOk)
        == RegisterEach(g, RegisterOne(s, x, g[[]], 3, true), x, g[[]], [3][1..], Answers().timerOk);
  }

  lemma LoopEnters()
    ensures StartMulti(TaskGraph(2, Loop()), AtTask(), 1, Loop().value, Answers()) == InLoop()
  {
    hide RegisterBoundaries;
    var g := TaskGraph(2, Loop());
    var s1 := Opened(AtTask(), 1, 1, 1);
    StartMultiIs(g, AtTask(), 1, Loop().value, Answers());
    TimerRegistered(Loop(), s1, 1);
    var s2 := Register(s1, TimerJob, 1, 3);
    assert SpawnIterations(g, s2, 1, 0, 1) == SpawnIterations(g, SpawnIteration(g, s2, 1, 0), 1, 1, 0);
    assert SpawnIteration(g, s2, 1, 0) == InLoop();
  }

  lemma LoopReached()
    ensures Reachable(TaskGraph(2, Loop()), World(InLoop(), map[]))
  {
    hide Step, StartMulti, TaskGraph, Reachable, ValidGraph;
    var g := TaskGraph(2, Loop());
    TaskGraphDeploys(2, Loop());
    ComesToTask(Loop());
    AtTaskSteps(Loop(), Answers());
    LoopEnters();
    Executes(g, World(AtTask(), map[]), 1, Answers());
  }

  lemma LoopWaitsReached()
    ensures Reachable(TaskGraph(2, Loop()), World(LoopWaits(), map[]))
  {
    hide Step, Reachable, ValidGraph, Deployable;
    var g, s := TaskGraph(2, Loop()), InLoop();
    TaskGraphDeploys(2, Loop());
    LoopReached();
    assert ElementOf(g, s.tokens[3]) == Some(Work(2, Loop()));
    StepIs(g, s, 3, Work(2, Loop()), Answers());
    assert Activity(g, s, 3, Work(2, Loop()), Answers()) == Dispatch(g, s, 3, Work(2, Loop()), Answers()) == LoopWaits();
    Executes(g, World(s, map[]), 3, Answers());
  }

  /** The output expression fails. */
  function NoOutput(): Oracle {
    Answers().(outputOk := false)
  }

  lemma LoopWaitsReady()
    ensures Answerable(TaskGraph(2, Loop()), LoopWaits(), 4)
    ensures Ready(TaskGraph(2, Loop()), CloseWait(LoopWaits(), 4), 3)
  {
    hide Reachable, ValidGraph, Deployable, Core, NoStuck, Linked, Routed;
    TaskGraphDeploys(2, Loop());
    LoopWaitsReached();
    ReachableInv(TaskGraph(2, Loop()), World(LoopWaits(), map[]));
    ClosedReady(TaskGraph(2, Loop()), LoopWaits(), 4);
  }

  lemma LoopCompletes(o: Oracle)
    requires Answerable(TaskGraph(2, Loop()), LoopWaits(), 4)
    ensures CloseWait(LoopWaits(), 4).tokens[3].parent == 1
    ensures SpecOf(TaskGraph(2, Loop()), CloseWait(LoopWaits(), 4).tokens[3]) == Loop()
    ensures WaitCompleted(TaskGraph(2, Loop()), LoopWaits(), 4, o)
         == MiChildCompleted(TaskGraph(2, Loop()), CloseWait(LoopWaits(), 4), 3, o)
  {
    hide MiChildCompleted;
    assert ElementOf(TaskGraph(2, Loop()), CloseWait(LoopWaits(), 4).tokens[3]) == Some(Work(2, Loop()));
  }

  /** An output expression that fails when the external task is completed breaks the loop: the
      iteration is already gone. */
  lemma BadOutputBreaksLoop()
    ensures Deployable(TaskGraph(2, Loop())) && Reachable(TaskGraph(2, Loop()), World(LoopWaits(), map[]))
    ensures Answerable(TaskGraph(2, Loop()), LoopWaits(), 4)
    ensures !Inv(TaskGraph(2, Loop()), WaitCompleted(TaskGraph(2, Loop()), LoopWaits(), 4, NoOutput()))
  {
    hide Reachable, ValidGraph, Deployable, Inv, Ready, MiChildCompleted, WaitCompleted, TaskGraph, CloseWait;
    TaskGraphDeploys(2, Loop());
    LoopWaitsReached();
    LoopWaitsReady();
    LoopCompletes(NoOutput());
    MiChildCompletedExactly(TaskGraph(2, Loop()), CloseWait(LoopWaits(), 4), 3, NoOutput());
  }

  lemma TaskWaitsReached()
    ensures Reachable(TaskGraph(2, None), World(TaskWaits(), map[]))
  {
    hide Step, Reachable, ValidGraph, RegisterBoundaries, Deployable;
    var g, s := TaskGraph(2, None), AtTask();
    TaskGraphDeploys(2, None);
    ComesToTask(None);
    AtTaskSteps(None, Answers());
    TimerRegistered(None, s, 1);
    var s1 := Register(s, TimerJob, 1, 3);
    assert Activity(g, s, 1, Work(2, None), Answers()) == Dispatch(g, s1, 1, Work(2, None), Answers())
        == OpenWait(s1, 1, ExternalWait) == TaskWaits();
    Executes(g, World(s, map[]), 1, Answers());
  }

  // ---- processes of three nested containers -----------------------------------------------------

  /** Sub-process `x` of `a` holds `b`, whose sub-process `y` holds `c`. */
  function Nest(a: Container, x: ElementId, b: Container, y: ElementId, c: Container): Graph {
    map[[] := a, [x] := b, [x, y] := c]
  }

  lemma NestPaths(a: Container, x: ElementId, b: Container, y: ElementId, c: Container)
    ensures var g := Nest(a, x, b, y, c); g.Keys == {[], [x], [x, y]} && g[[]] == a && g[[x]] == b && g[[x, y]] == c
    ensures [] + [x] == [x] && [x] + [y] == [x, y] && [x][..0] == [] && [x, y][..1] == [x] && [x, y][..0] == []
  {
    assert |[x]| == 1 && |[x, y]| == 2;
  }

  /** No loops, no flow into an event sub-process, no empty ID. */
  predicate Simple(c: Container) {
    && (forall id :: id in c.elements ==> id != 0 && c.elements[id].multi.None?)
    && (forall f :: f in c.flows ==>
          f != 0 && c.flows[f].target in c.elements && !IsEventSub(c.elements[c.flows[f].target]))
  }

  predicate Apart(a: Container, b: Container) {
    forall id :: id in a.elements ==> id !in b.elements
  }

  ghost predicate AllDeploy(g: Graph) {
    forall p: Path, x: ElementId {:trigger Deploys(g, p, x)} :: HasElement(g, p, x) ==> Deploys(g, p, x)
  }

  lemma NestDeploys(a: Container, x: ElementId, b: Container, y: ElementId, c: Container)
    requires Simple(a) && Simple(b) && Simple(c) && StartEvents(a) != []
    requires x in a.elements && a.elements[x].etype.SubProcess? && y in b.elements && b.elements[y].etype.SubProcess?
    requires Apart(a, b) && Apart(a, c) && Apart(b, c) && AllDeploy(Nest(a, x, b, y, c))
    ensures Deployable(Nest(a, x, b, y, c)) && ValidGraph(Nest(a, x, b, y, c))
  {
    NestPaths(a, x, b, y, c);
    hide Nest, Deploys, StartEvents;
    var g := Nest(a, x, b, y, c);
    forall p: Path | p in g && p != [] ensures GoodNesting(g, p) {
      assert p in {[], [x], [x, y]};
    }
    forall p: Path, q: Path, id: ElementId | HasElement(g, p, id) && HasElement(g, q, id) ensures p == q {
      assert p in {[], [x], [x, y]} && q in {[], [x], [x, y]};
    }
    forall p: Path | p in g ensures Simple(g[p]) {
      assert p in {[], [x], [x, y]};
    }
    DeployableIsValid(g);
  }

  // ---- errors -------------------------------------------------------------------------------

  /** Start event 1, service task 2, end event 3, and event sub-process 4, started by error 7. */
  function RootContainer(): Container {
    Container(map[1 := Plain(StartEvent, [], [10]), 2 := Plain(ServiceTask, [10], [11]), 3 := Plain(EndEvent, [11], []),
                  4 := Plain(SubProcess, [], []).(triggeredByEvent := true)],
              map[10 := Flow(2, false), 11 := Flow(3, false)], [1, 2, 3, 4])
  }

  /** Inside 4: error start 5, sub-process 8, end event 6. */
  function HandlerContainer(): Container {
    Container(map[5 := Plain(StartEvent, [], [12]).(event := Some(EventDef(Error, 7))), 8 := Plain(SubProcess, [12], [13]),
                  6 := Plain(EndEvent, [13], [])],
              map[12 := Flow(8, false), 13 := Flow(6, false)], [5, 8, 6])
  }

  /** Inside 8: start event 9 and end event 7, which throws error 7 again. */
  function RethrowContainer(): Container {
    Container(map[9 := Plain(StartEvent, [], [14]), 7 := Plain(EndEvent, [14], []).(event := Some(EventDef(Error, 7)))],
              map[14 := Flow(7, false)], [9, 7])
  }

  function ErrorGraph(): Graph {
    Nest(RootContainer(), 4, HandlerContainer(), 8, RethrowContainer())
  }

  lemma ErrorPaths()
    ensures var g := ErrorGraph();
      g.Keys == {[], [4], [4, 8]} && g[[]] == RootContainer() && g[[4]] == HandlerContainer() && g[[4, 8]] == RethrowContainer()
    ensures [] + [4] == [4] && [4] + [8] == [4, 8] && [4][..0] == [] && [4, 8][..1] == [4] && [4, 8][..0] == []
  {
    NestPaths(RootContainer(), 4, HandlerContainer(), 8, RethrowContainer());
  }

  lemma ErrorStarts()
    ensures StartEvents(RootContainer()) == [1] && StartEvents(HandlerContainer()) == [5] && StartEvents(RethrowContainer()) == [9]
    ensures NoneStartEvent(RethrowContainer()) == Some(9)
  {
    assert [1, 2, 3, 4][1..] == [2, 3, 4] && [2, 3, 4][1..] == [3, 4] && [3, 4][1..] == [4] && [4][1..] == [];
    assert [5, 8, 6][1..] == [8, 6] && [8, 6][1..] == [6] && [6][1..] == [] && [9, 7][1..] == [7] && [7][1..] == [];
    var a, b, c := RootContainer(), HandlerContainer(), RethrowContainer();
    assert StartEventsFrom(a, [4]) == [] && StartEventsFrom(a, [3, 4]) == [] && StartEventsFrom(a, [2, 3, 4]) == [];
    assert StartEventsFrom(b, [6]) == [] && StartEventsFrom(b, [8, 6]) == [] && StartEventsFrom(c, [7]) == [];
  }

  lemma RootDeploys(x: ElementId)
    requires x in {1, 2, 3, 4}
    ensures HasElement(ErrorGraph(), [], x) && Deploys(ErrorGraph(), [], x)
  {
    ErrorPaths();
    ErrorStarts();
    hide ErrorGraph, StartEvents;
    assert TypedStart(HandlerContainer(), 5);
  }

  lemma HandlerDeploys(x: ElementId)
    requires x in {5, 6, 8}
    ensures HasElement(ErrorGraph(), [4], x) && Deploys(ErrorGraph(), [4], x)
  {
    ErrorPaths();
    ErrorStarts();
    hide ErrorGraph, StartEvents;
  }

  lemma RethrowDeploys(x: ElementId)
    requires x in {7, 9}
    ensures HasElement(ErrorGraph(), [4, 8], x) && Deploys(ErrorGraph(), [4, 8], x)
  {
    ErrorPaths();
    hide ErrorGraph, StartEvents;
  }

  lemma ErrorDeploys()
    ensures AllDeploy(ErrorGraph())
  {
    ErrorPaths();
    hide Deploys, ErrorGraph;
    var g := ErrorGraph();
    forall p: Path, x: ElementId | HasElement(g, p, x) ensures Deploys(g, p, x) {
      assert p in g.Keys;
      if p == [] {
        RootDeploys(x);
      } else if p == [4] {
        HandlerDeploys(x);
      } else {
        RethrowDeploys(x);
      }
    }
  }

  lemma ErrorSimple()
    ensures Simple(RootContainer()) && Simple(HandlerContainer()) && Simple(RethrowContainer())
  {
  }

  lemma ErrorApart()
    ensures Apart(RootContainer(), HandlerContainer()) && Apart(RootContainer(), RethrowContainer())
    ensures Apart(HandlerContainer(), RethrowContainer())
  {
  }

  lemma ErrorGraphDeploys()
    ensures Deployable(ErrorGraph()) && ValidGraph(ErrorGraph())
  {
    hide Deployable, ValidGraph, Simple, Apart, AllDeploy, StartEvents, Nest;
    ErrorDeploys();
    ErrorStarts();
    ErrorSimple();
    ErrorApart();
    NestDeploys(RootContainer(), 4, HandlerContainer(), 8, RethrowContainer());
  }

  predicate Bare(c: Container) {
    forall id :: id in c.elements ==> !c.elements[id].etype.BoundaryEvent?
  }

  lemma BareBoundaries(c: Container, x: ElementId)
    requires Bare(c)
    ensures Boundaries(c, x) == []
  {
    BoundariesExactly(c, c.order, x);
    NothingIn(Boundaries(c, x));
  }

  lemma NoBoundaries()
    ensures forall x {:trigger Boundaries(RootContainer(), x)} :: Boundaries(RootContainer(), x) == []
    ensures forall x {:trigger Boundaries(HandlerContainer(), x)} :: Boundaries(HandlerContainer(), x) == []
    ensures forall x {:trigger Boundaries(RethrowContainer(), x)} :: Boundaries(RethrowContainer(), x) == []
  {
    assert Bare(RootContainer()) && Bare(HandlerContainer()) && Bare(RethrowContainer());
    hide Boundaries, Bare, RootContainer, HandlerContainer, RethrowContainer;
    forall x
      ensures Boundaries(RootContainer(), x) == [] && Boundaries(HandlerContainer(), x) == []
      ensures Boundaries(RethrowContainer(), x) == []
    {
      BareBoundaries(RootContainer(), x);
      BareBoundaries(HandlerContainer(), x);
      BareBoundaries(RethrowContainer(), x);
    }
  }

  lemma NothingIn(ids: seq<ElementId>)
    ensures (forall id :: id !in ids) ==> ids == []
  {
    if ids != [] {
      assert ids[0] in ids;
    }
  }

  lemma RootCatches()
    ensures ErrorSub(ErrorGraph(), [], 7) == Some(ErrorHandler(4, 5))
  {
    var g := ErrorGraph();
    ErrorPaths();
    ErrorStarts();
    hide ErrorGraph, StartEvents;
    assert [1, 2, 3, 4][1..] == [2, 3, 4] && [2, 3, 4][1..] == [3, 4] && [3, 4][1..] == [4] && [4][1..] == [];
    assert FirstCatching(g[[4]], [5], 7) == Some(5);
    assert ErrorSubFrom(g, [], [4], 7) == Some(ErrorHandler(4, 5));
    assert ErrorSubFrom(g, [], [2, 3, 4], 7) == ErrorSubFrom(g, [], [3, 4], 7) == Some(ErrorHandler(4, 5));
  }

  lemma Subs()
    ensures ErrorSub(ErrorGraph(), [], 7) == Some(ErrorHandler(4, 5))
    ensures ErrorSub(ErrorGraph(), [4], 7) == None && ErrorSub(ErrorGraph(), [4, 8], 7) == None
  {
    ErrorPaths();
    RootCatches();
    hide ErrorGraph, ErrorSubFrom;
    NoErrorSubs(ErrorGraph(), [4], HandlerContainer().order, 7);
    NoErrorSubs(ErrorGraph(), [4, 8], RethrowContainer().order, 7);
  }

  lemma HandlerIs()
    ensures FindHandler(ErrorGraph(), [4, 8], 7) == Some(BySub(0, 4, 5))
  {
    var g := ErrorGraph();
    ErrorPaths();
    Subs();
    NoBoundaries();
    hide ErrorGraph, ErrorSub;
    assert BoundaryAt(g, [4, 8], 7) == None && BoundaryAt(g, [4], 7) == None;
    assert FindHandler(g, [4, 8], 7) == FindHandler(g, [4], 7) == FindHandler(g, [], 7);
  }

  // The run: element 2 throws error 7, the event sub-process starts, and its sub-process is entered.

  function AtService(): Instance {
    Instance.Instance(map[1 := Token(2, Active, [], [], 10, NoRef, 0, 0, 0)], map[], Running, false, map[], map[], map[], {}, 2)
  }

  function HandlerStarted(): Instance {
    Instance.Instance(map[2 := Token(5, Active, [4], [0], 0, NoRef, 0, 0, 0)], map[], Running, false, map[], map[], map[], {}, 3)
  }

  function AtInner(): Instance {
    Instance.Instance(map[2 := Token(8, Active, [4], [0], 12, NoRef, 0, 0, 0)], map[], Running, false, map[], map[], map[], {}, 3)
  }

  function InnerEntered(): Instance {
    Instance.Instance(map[2 := Token(8, WaitChild, [4], [0], 12, ScopeRef, 0, 0, 0),
                          3 := Token(9, Active, [4, 8], [0, 2], 0, NoRef, 0, 0, 0)],
                      map[], Running, false, map[], map[], map[], {}, 4)
  }

  /** The token in the inner sub-process is about to throw. */
  function AtRethrow(): Instance {
    Instance.Instance(map[2 := Token(8, WaitChild, [4], [0], 12, ScopeRef, 0, 0, 0),
                          3 := Token(7, Active, [4, 8], [0, 2], 14, NoRef, 0, 0, 0)],
                      map[], Running, false, map[], map[], map[], {}, 4)
  }

  lemma ErrorBorn()
    ensures Reachable(ErrorGraph(), World(Born(1), map[]))
  {
    hide Reachable, ErrorGraph, Started;
    ErrorPaths();
    NothingRegistered();
    ReachableFirst(ErrorGraph(), 1, Answers());
  }

  lemma ServiceReached()
    ensures Reachable(ErrorGraph(), World(AtService(), map[]))
  {
    hide Reachable, ValidGraph, ErrorGraph, Deployable;
    var g := ErrorGraph();
    ErrorGraphDeploys();
    ErrorPaths();
    ErrorBorn();
    assert ElementOf(g, Born(1).tokens[1]) == Some(Plain(StartEvent, [], [10]));
    WalksOn(g, World(Born(1), map[]), 1, 10);
    assert WalkedOn(g, Born(1), 1, 10) == AtService();
  }

  /** An error start event waits for no job or subscription. */
  lemma NothingRegistered()
    ensures Started(ErrorGraph(), 1, Answers()) == Born(1)
  {
    ErrorPaths();
    ErrorStarts();
    hide ErrorGraph, RegisterSubsFrom, StartEvents;
    assert NoWait(HandlerContainer(), 5);
    QuietSubs(ErrorGraph(), Born(1), [], [1, 2, 3, 4], 0, Answers());
  }

  function ThrowsSeven(): Oracle {
    Answers().(outcome := Throws(7))
  }

  lemma SevenCaught()
    ensures ThrowError(ErrorGraph(), AtService(), 1, 7) == HandlerStarted()
  {
    var g, s := ErrorGraph(), AtService();
    ErrorPaths();
    Subs();
    NoBoundaries();
    hide ErrorGraph, ErrorSub, Boundaries;
    assert ErrorBoundary(g[[]], 2, 7) == None;
    var s1 := DeleteToken(CancelWaits(g, s, 1), 1);
    assert s1.tokens == map[] && s1.waits == map[] && s1.events == map[] && s1.multi == map[] && s1.cancelled == {};
    var s2 := KillScope(s1, [], [], 4);
    assert s2.tokens == map[] && s2.waits == map[] && s2.events == map[] && s2.multi == map[] && s2.cancelled == {};
    var none: seq<TokenId> := [];
    assert none + [0] == [0];
    assert Propagate(g, s1, [], [], 7) == Spawn(s2, 5, [4], [0], 0, 0, 0);
    assert Spawn(s2, 5, [4], [0], 0, 0, 0).tokens == HandlerStarted().tokens;
  }

  lemma HandlerReached()
    ensures Reachable(ErrorGraph(), World(HandlerStarted(), map[]))
  {
    hide Reachable, ValidGraph, ErrorGraph, ErrorSub, Step, Boundaries, ThrowError;
    var g, s, el := ErrorGraph(), AtService(), Plain(ServiceTask, [10], [11]);
    ErrorGraphDeploys();
    ServiceReached();
    ErrorPaths();
    NoBoundaries();
    SevenCaught();
    assert ElementOf(g, s.tokens[1]) == Some(el);
    StepIs(g, s, 1, el, ThrowsSeven());
    assert RegisterBoundaries(g, s, 1, ThrowsSeven()) == s;
    assert Activity(g, s, 1, el, ThrowsSeven()) == ThrowError(g, s, 1, 7);
    Executes(g, World(s, map[]), 1, ThrowsSeven());
  }

  lemma InnerReached()
    ensures Reachable(ErrorGraph(), World(AtInner(), map[]))
  {
    hide Reachable, ValidGraph, ErrorGraph;
    var g, s := ErrorGraph(), HandlerStarted();
    ErrorGraphDeploys();
    HandlerReached();
    ErrorPaths();
    assert ElementOf(g, s.tokens[2]) == Some(HandlerContainer().elements[5]);
    WalksOn(g, World(s, map[]), 2, 12);
    assert WalkedOn(g, s, 2, 12) == AtInner();
  }

  lemma NoInnerSubs(s: Instance)
    ensures RegisterEventSubs(ErrorGraph(), s, [4, 8], 2, Answers()) == s
  {
    hide ErrorGraph, RegisterSubsFrom;
    ErrorPaths();
    QuietSubs(ErrorGraph(), s, [4, 8], ErrorGraph()[[4, 8]].order, 2, Answers());
  }

  lemma InnerOpens()
    ensures EnterSub(ErrorGraph(), AtInner(), 2, Answers()) == InnerEntered()
  {
    hide ErrorGraph, RegisterEventSubs, NoneStartEvent, StartEvents, RootContainer, HandlerContainer, RethrowContainer;
    var s := AtInner();
    ErrorPaths();
    ErrorStarts();
    NoInnerSubs(SetToken(s, 2, s.tokens[2].(state := WaitChild, ref := ScopeRef)));
    assert [0] + [2] == [0, 2];
  }

  lemma InnerSteps()
    ensures Step(ErrorGraph(), AtInner(), 2, Answers()) == EnterSub(ErrorGraph(), AtInner(), 2, Answers())
  {
    hide ErrorGraph, EnterSub, Step, Boundaries;
    var g, s, el := ErrorGraph(), AtInner(), Plain(SubProcess, [12], [13]);
    ErrorPaths();
    NoBoundaries();
    assert ElementOf(g, s.tokens[2]) == Some(el);
    StepIs(g, s, 2, el, Answers());
    assert RegisterBoundaries(g, s, 2, Answers()) == s;
  }

  lemma EnteredReached()
    ensures Reachable(ErrorGraph(), World(InnerEntered(), map[]))
  {
    hide Reachable, ValidGraph, ErrorGraph, EnterSub, Step, Deployable;
    ErrorGraphDeploys();
    ErrorPaths();
    InnerReached();
    InnerSteps();
    InnerOpens();
    Executes(ErrorGraph(), World(AtInner(), map[]), 2, Answers());
  }

  lemma RethrowReached()
    ensures Reachable(ErrorGraph(), World(AtRethrow(), map[]))
  {
    hide Reachable, ValidGraph, ErrorGraph, Deployable;
    var g := ErrorGraph();
    ErrorGraphDeploys();
    EnteredReached();
    ErrorPaths();
    assert ElementOf(g, InnerEntered().tokens[3]) == Some(RethrowContainer().elements[9]);
    WalksOn(g, World(InnerEntered(), map[]), 3, 14);
    assert WalkedOn(g, InnerEntered(), 3, 14) == AtRethrow();
  }

  lemma RethrowStrands()
    ensures Stranded(ErrorGraph(), DeleteToken(AtRethrow(), 3), [4, 8], [0, 2], 0, 7)
  {
    hide ErrorGraph, FindHandler;
    var s, owners: seq<TokenId> := DeleteToken(AtRethrow(), 3), [0, 2];
    HandlerIs();
    assert owners[..0] == [] && LastOwner(owners) == 2 && LastOwner([]) == 0;
    assert !Occupied(s, 2);
  }

  lemma RethrowSteps()
    ensures Step(ErrorGraph(), AtRethrow(), 3, Answers()) == Propagate(ErrorGraph(), DeleteToken(AtRethrow(), 3), [4, 8], [0, 2], 7)
  {
    hide ErrorGraph, Step, Propagate;
    ErrorPaths();
    assert ElementOf(ErrorGraph(), AtRethrow().tokens[3]) == Some(RethrowContainer().elements[7]);
    StepIs(ErrorGraph(), AtRethrow(), 3, RethrowContainer().elements[7], Answers());
  }

  /** Caught by the event sub-process it was thrown in, the error leaves sub-process 8
      waiting for nothing. */
  lemma ReentryStrands()
    ensures Deployable(ErrorGraph()) && Reachable(ErrorGraph(), World(AtRethrow(), map[]))
    ensures !Inv(ErrorGraph(), Step(ErrorGraph(), AtRethrow(), 3, Answers()))
  {
    hide Reachable, ValidGraph, ErrorGraph, Step, Propagate, Deployable, Cut, Stranded, Ready;
    var g, s := ErrorGraph(), AtRethrow();
    ErrorGraphDeploys();
    RethrowReached();
    ReachableInv(g, World(s, map[]));
    RethrowSteps();
    LeafReady(g, s, 3);
    RemoveCuts(g, s, 3);
    RethrowStrands();
    PropagateExactly(g, DeleteToken(s, 3), [4, 8], [0, 2], 0, 7);
  }

  // ---- a claimed timer ------------------------------------------------------------------------

  /** Start event 1, sub-process 2, user task 3, end event 4. */
  function OuterContainer(): Container {
    Container(map[1 := Plain(StartEvent, [], [10]), 2 := Plain(SubProcess, [10], [11]), 3 := Plain(UserTask, [11], [12]),
                  4 := Plain(EndEvent, [12], [])],
              map[10 := Flow(2, false), 11 := Flow(3, false), 12 := Flow(4, false)], [1, 2, 3, 4])
  }

  /** Inside 2: start event 5, end event 6, event sub-process 7. */
  function TimedContainer(): Container {
    Container(map[5 := Plain(StartEvent, [], [13]), 6 := Plain(EndEvent, [13], []),
                  7 := Plain(SubProcess, [], []).(triggeredByEvent := true)],
              map[13 := Flow(6, false)], [5, 6, 7])
  }

  /** Inside 7: timer start 8, end event 9. */
  function AlarmContainer(): Container {
    Container(map[8 := Plain(StartEvent, [], [14]).(event := Some(EventDef(Timer, 0))), 9 := Plain(EndEvent, [14], [])],
              map[14 := Flow(9, false)], [8, 9])
  }

  function TimerGraph(): Graph {
    Nest(OuterContainer(), 2, TimedContainer(), 7, AlarmContainer())
  }

  lemma TimerPaths()
    ensures var g := TimerGraph();
      g.Keys == {[], [2], [2, 7]} && g[[]] == OuterContainer() && g[[2]] == TimedContainer() && g[[2, 7]] == AlarmContainer()
    ensures [] + [2] == [2] && [2] + [7] == [2, 7] && [2][..0] == [] && [2, 7][..1] == [2]
  {
    NestPaths(OuterContainer(), 2, TimedContainer(), 7, AlarmContainer());
  }

  lemma TimerStarts()
    ensures StartEvents(OuterContainer()) == [1] && StartEvents(TimedContainer()) == [5] && StartEvents(AlarmContainer()) == [8]
    ensures NoneStartEvent(TimedContainer()) == Some(5)
  {
    assert [1, 2, 3, 4][1..] == [2, 3, 4] && [2, 3, 4][1..] == [3, 4] && [3, 4][1..] == [4] && [4][1..] == [];
    assert [5, 6, 7][1..] == [6, 7] && [6, 7][1..] == [7] && [7][1..] == [] && [8, 9][1..] == [9] && [9][1..] == [];
    var a, b, c := OuterContainer(), TimedContainer(), AlarmContainer();
    assert StartEventsFrom(a, [4]) == [] && StartEventsFrom(a, [3, 4]) == [] && StartEventsFrom(a, [2, 3, 4]) == [];
    assert StartEventsFrom(b, [7]) == [] && StartEventsFrom(b, [6, 7]) == [] && StartEventsFrom(c, [9]) == [];
  }

  lemma OuterDeploys(x: ElementId)
    requires x in {1, 2, 3, 4}
    ensures HasElement(TimerGraph(), [], x) && Deploys(TimerGraph(), [], x)
  {
    TimerPaths();
    TimerStarts();
    hide TimerGraph, StartEvents;
  }

  lemma TimedDeploys(x: ElementId)
    requires x in {5, 6, 7}
    ensures HasElement(TimerGraph(), [2], x) && Deploys(TimerGraph(), [2], x)
  {
    TimerPaths();
    TimerStarts();
    hide TimerGraph, StartEvents;
    assert TypedStart(AlarmContainer(), 8);
  }

  lemma AlarmDeploys(x: ElementId)
    requires x in {8, 9}
    ensures HasElement(TimerGraph(), [2, 7], x) && Deploys(TimerGraph(), [2, 7], x)
  {
    TimerPaths();
    hide TimerGraph, StartEvents;
  }

  lemma TimerDeploys()
    ensures AllDeploy(TimerGraph())
  {
    TimerPaths();
    hide Deploys, TimerGraph;
    var g := TimerGraph();
    forall p: Path, x: ElementId | HasElement(g, p, x) ensures Deploys(g, p, x) {
      assert p in g.Keys;
      if p == [] {
        OuterDeploys(x);
      } else if p == [2] {
        TimedDeploys(x);
      } else {
        AlarmDeploys(x);
      }
    }
  }

  lemma TimerSimple()
    ensures Simple(OuterContainer()) && Simple(TimedContainer()) && Simple(AlarmContainer())
  {
  }

  lemma TimerApart()
    ensures Apart(OuterContainer(), TimedContainer()) && Apart(OuterContainer(), AlarmContainer())
    ensures Apart(TimedContainer(), AlarmContainer())
  {
  }

  lemma TimerGraphDeploys()
    ensures Deployable(TimerGraph()) && ValidGraph(TimerGraph())
  {
    hide Deployable, ValidGraph, Simple, Apart, AllDeploy, StartEvents, Nest;
    TimerDeploys();
    TimerStarts();
    TimerSimple();
    TimerApart();
    NestDeploys(OuterContainer(), 2, TimedContainer(), 7, AlarmContainer());
  }

  // The run: the sub-process is entered, its timer is claimed, and its last token ends it.

  function AtSub(): Instance {
    Instance.Instance(map[1 := Token(2, Active, [], [], 10, NoRef, 0, 0, 0)], map[], Running, false, map[], map[], map[], {}, 2)
  }

  function Alarm(): EventRecord {
    EventRecord(TimerJob, 1, 8)
  }

  function SubEntered(): Instance {
    Instance.Instance(map[1 := Token(2, WaitChild, [], [], 10, ScopeRef, 0, 0, 0), 3 := Token(5, Active, [2], [1], 0, NoRef, 0, 0, 0)],
                      map[], Running, false, map[], map[2 := Alarm()], map[], {}, 4)
  }

  function TimerClaimed(): World {
    World(DropEvent(SubEntered(), 2), map[2 := Alarm()])
  }

  function AtSubEnd(): Instance {
    Instance.Instance(map[1 := Token(2, WaitChild, [], [], 10, ScopeRef, 0, 0, 0), 3 := Token(6, Active, [2], [1], 13, NoRef, 0, 0, 0)],
                      map[], Running, false, map[], map[], map[], {}, 4)
  }

  /** The sub-process is over and its owner stands on the user task. */
  function MovedOn(): Instance {
    Instance.Instance(map[1 := Token(3, Active, [], [], 11, NoRef, 0, 0, 0)], map[], Running, false, map[], map[], map[], {}, 4)
  }

  lemma OuterQuiet()
    ensures Started(TimerGraph(), 1, Answers()) == Born(1)
  {
    hide TimerGraph, RegisterSubsFrom, StartEvents;
    TimerPaths();
    QuietSubs(TimerGraph(), Born(1), [], [1, 2, 3, 4], 0, Answers());
  }

  lemma TimerBorn()
    ensures Reachable(TimerGraph(), World(Born(1), map[]))
  {
    hide Reachable, TimerGraph, Started;
    TimerPaths();
    OuterQuiet();
    ReachableFirst(TimerGraph(), 1, Answers());
  }

  lemma SubReached()
    ensures Reachable(TimerGraph(), World(AtSub(), map[]))
  {
    hide Reachable, ValidGraph, TimerGraph, Deployable;
    var g := TimerGraph();
    TimerGraphDeploys();
    TimerPaths();
    TimerBorn();
    assert ElementOf(g, Born(1).tokens[1]) == Some(Plain(StartEvent, [], [10]));
    WalksOn(g, World(Born(1), map[]), 1, 10);
    assert WalkedOn(g, Born(1), 1, 10) == AtSub();
  }

  lemma AlarmRegistered(s: Instance)
    ensures RegisterEventSubs(TimerGraph(), s, [2], 1, Answers()) == Register(s, TimerJob, 1, 8)
  {
    var g := TimerGraph();
    TimerPaths();
    TimerStarts();
    hide TimerGraph;
    assert [5, 6, 7][1..] == [6, 7] && [6, 7][1..] == [7] && [7][1..] == [] && [8][1..] == [];
    assert RegisterStarts(s, 1, g[[2, 7]], [8], Answers())
        == RegisterStarts(Register(s, TimerJob, 1, 8), 1, g[[2, 7]], [8][1..], Answers());
    assert RegisterSubsFrom(g, s, [2], [7], 1, Answers()) == Register(s, TimerJob, 1, 8);
    assert RegisterSubsFrom(g, s, [2], [6, 7], 1, Answers()) == Register(s, TimerJob, 1, 8);
  }

  lemma SubOpens()
    ensures EnterSub(TimerGraph(), AtSub(), 1, Answers()) == SubEntered()
  {
    hide TimerGraph, RegisterEventSubs, NoneStartEvent, StartEvents, OuterContainer, TimedContainer, AlarmContainer;
    var s := AtSub();
    TimerPaths();
    TimerStarts();
    AlarmRegistered(SetToken(s, 1, s.tokens[1].(state := WaitChild, ref := ScopeRef)));
    var none: seq<TokenId> := [];
    assert none + [1] == [1];
  }

  lemma SubSteps()
    ensures Step(TimerGraph(), AtSub(), 1, Answers()) == EnterSub(TimerGraph(), AtSub(), 1, Answers())
  {
    hide TimerGraph, EnterSub, Step, Boundaries;
    var g, s, el := TimerGraph(), AtSub(), Plain(SubProcess, [10], [11]);
    TimerPaths();
    assert ElementOf(g, s.tokens[1]) == Some(el);
    StepIs(g, s, 1, el, Answers());
    BareBoundaries(OuterContainer(), 2);
    assert RegisterBoundaries(g, s, 1, Answers()) == s;
  }

  lemma SubEnteredReached()
    ensures Reachable(TimerGraph(), World(SubEntered(), map[]))
  {
    hide Reachable, ValidGraph, TimerGraph, EnterSub, Step, Deployable;
    TimerGraphDeploys();
    TimerPaths();
    SubReached();
    SubSteps();
    SubOpens();
    Executes(TimerGraph(), World(AtSub(), map[]), 1, Answers());
  }

  lemma ClaimReached()
    ensures Reachable(TimerGraph(), TimerClaimed())
  {
    hide Reachable;
    SubEnteredReached();
    ReachableNext(TimerGraph(), World(SubEntered(), map[]), Action.Claim(2));
  }

  lemma SubEndReached()
    ensures Reachable(TimerGraph(), World(AtSubEnd(), map[2 := Alarm()]))
  {
    hide Reachable, ValidGraph, TimerGraph, Deployable;
    TimerGraphDeploys();
    ClaimReached();
    SubWalk();
    WalksOn(TimerGraph(), TimerClaimed(), 3, 13);
  }

  lemma SubWalk()
    ensures Leads(TimerGraph(), TimerClaimed().inst.tokens[3], 13)
    ensures ElementOf(TimerGraph(), TimerClaimed().inst.tokens[3]) == Some(TimedContainer().elements[5])
    ensures WalkedOn(TimerGraph(), TimerClaimed().inst, 3, 13) == AtSubEnd()
  {
    hide TimerGraph;
    TimerPaths();
    assert TimerClaimed().inst.events == map[];
  }

  lemma SubEnds()
    ensures Consume(TimerGraph(), AtSubEnd(), 3, Answers()) == MovedOn()
  {
    hide TimerGraph, TakeOutgoing;
    var g := TimerGraph();
    TimerPaths();
    var s := DeleteToken(AtSubEnd(), 3);
    var s1 := DropEvents(s, 1);
    assert s.tokens == map[1 := Token(2, WaitChild, [], [], 10, ScopeRef, 0, 0, 0)];
    assert s1 == s && DropEvents(s1, 1) == s1;
    assert !ScopeBusy(s, [2], [1]);
    assert ElementOf(g, s.tokens[1]) == Some(Plain(SubProcess, [10], [11]));
    assert CheckScope(g, s, [2], [1], Answers()) == CompleteActivity(g, s1, 1, Answers()) == TakeOutgoing(g, s1, 1, Answers());
    OneFlow(g, s1, 1, 11, Answers());
    assert WalkedOn(g, s1, 1, 11) == MovedOn();
  }

  lemma MovedOnReached()
    ensures Reachable(TimerGraph(), World(MovedOn(), map[2 := Alarm()]))
  {
    hide Reachable, ValidGraph, TimerGraph, Step, Consume;
    var g, s, el := TimerGraph(), AtSubEnd(), TimedContainer().elements[6];
    TimerGraphDeploys();
    SubEndReached();
    TimerPaths();
    assert ElementOf(g, s.tokens[3]) == Some(el);
    StepIs(g, s, 3, el, Answers());
    SubEnds();
    Executes(g, World(s, map[2 := Alarm()]), 3, Answers());
  }

  /** A timer claimed before its sub-process ended starts an event sub-process nowhere. */
  lemma LateTimerHangs()
    ensures Deployable(TimerGraph()) && Reachable(TimerGraph(), World(MovedOn(), map[2 := Alarm()]))
    ensures !Inv(TimerGraph(), TimerFired(TimerGraph(), MovedOn(), Alarm(), 2, Answers()))
  {
    hide Reachable, ValidGraph, Inv, TimerFired, Deployable, TimerGraph;
    var g, w := TimerGraph(), World(MovedOn(), map[2 := Alarm()]);
    TimerGraphDeploys();
    MovedOnReached();
    ReachableInv(g, w);
    TimerPaths();
    assert ClaimOk(g, w.inst, w.claimed[2]);
    ClaimedTimerExactly(g, MovedOn(), Alarm(), 2, Answers());
    assert HasElement(g, [2, 7], 8) && !Owns(MovedOn(), 1, [2, 7][..1]);
  }

  // ---- migration ----------------------------------------------------------------------------

  function Rename(): Plan {
    Plan.Plan(map[2 := 5], true, false)
  }

  lemma TokenRenames(multi: Option<MultiSpec>, t: Token)
    requires t.element == 2 && t.path == [] && (t.state.WaitExternal? || (t.state.WaitMulti? && multi.Some?))
    ensures Migratable(TaskGraph(2, multi), TaskGraph(5, multi), Rename(), t)
  {
    assert MapPath(Rename(), []) == [];
  }

  lemma LoopMoves()
    ensures Migrate(TaskGraph(2, Loop()), TaskGraph(5, Loop()), Rename(), Persisted(LoopWaits(), map[4 := 2])).0.applied
  {
    hide Migratable, TaskGraph;
    var g, h, p := TaskGraph(2, Loop()), TaskGraph(5, Loop()), Persisted(LoopWaits(), map[4 := 2]);
    TokenRenames(Loop(), p.inst.tokens[1]);
    TokenRenames(Loop(), p.inst.tokens[3]);
    OnlyCleanRunsWrite(g, h, Rename(), p);
  }

  /** Renaming a looping activity leaves its live iteration with the old loop flag. */
  lemma RenamedIterationBreaksTree()
    ensures Deployable(TaskGraph(2, Loop())) && Deployable(TaskGraph(5, Loop()))
    ensures Reachable(TaskGraph(2, Loop()), World(LoopWaits(), map[]))
    ensures var (report, p') := Migrate(TaskGraph(2, Loop()), TaskGraph(5, Loop()), Rename(), Persisted(LoopWaits(), map[4 := 2]));
      report.applied && !Core(TaskGraph(5, Loop()), p'.inst)
  {
    hide Migratable, Core, NoStuck, Linked, Routed, Reachable, Deployable, ValidGraph, TaskGraph, Migrate;
    var g, h, p := TaskGraph(2, Loop()), TaskGraph(5, Loop()), Persisted(LoopWaits(), map[4 := 2]);
    TaskGraphDeploys(2, Loop());
    TaskGraphDeploys(5, Loop());
    LoopWaitsReached();
    ReachableInv(g, World(LoopWaits(), map[]));
    LoopMoves();
    assert !CompatibleToken(g, h, Rename(), p.inst.tokens[3]);
    MigrationKeepsTree(g, h, Rename(), p);
  }

  lemma TaskMoves()
    ensures Migrate(TaskGraph(2, None), TaskGraph(5, None), Rename(), Persisted(TaskWaits(), map[3 := 2])).0.applied
  {
    hide Migratable, TaskGraph;
    var g, h, p := TaskGraph(2, None), TaskGraph(5, None), Persisted(TaskWaits(), map[3 := 2]);
    TokenRenames(None, p.inst.tokens[1]);
    OnlyCleanRunsWrite(g, h, Rename(), p);
  }

  /** An external task keeps the name its element had. */
  lemma RenamedElementLosesExternalTask()
    ensures Deployable(TaskGraph(2, None)) && Deployable(TaskGraph(5, None))
    ensures Reachable(TaskGraph(2, None), World(TaskWaits(), map[]))
    ensures var p := Persisted(TaskWaits(), map[3 := 2]);
      var (report, p') := Migrate(TaskGraph(2, None), TaskGraph(5, None), Rename(), p);
      MadeFor(p, 3) && p.inst.waits[3].open && report.applied && !MadeFor(p', 3)
  {
    hide Migrate, TaskGraph, Reachable, Deployable, ValidGraph;
    TaskGraphDeploys(2, None);
    TaskGraphDeploys(5, None);
    TaskWaitsReached();
    TaskMoves();
    RecordsAgree(TaskGraph(2, None), TaskGraph(5, None), Rename(), Persisted(TaskWaits(), map[3 := 2]), 3);
  }

  // ---- compaction ---------------------------------------------------------------------------

  /** One event, journaled and not yet in a snapshot. */
  function OneEvent(): JournalState.Store {
    JournalState.Store(State(map[], map[1 := [Event(1, 1, 0)]], map[1 := 1]),
                       JournalState.Disk(None, JournalState.File([JournalState.Whole(Append(Event(1, 1, 0)))], false)), 1)
  }

  /** Dying between rename and truncation brings the event back twice. */
  lemma MiddleWindowRepeats()
    ensures JournalState.Durable(OneEvent())
    ensures HistoryOf(JournalState.Recover(JournalState.CompactTrace(OneEvent())[0]), 1) != HistoryOf(OneEvent().mem, 1)
  {
    var st := OneEvent();
    var e := Append(Event(1, 1, 0));
    assert JournalState.Readable(st.disk.journal.lines) == [e] + JournalState.Readable([]);
    var log := JournalState.Readable(st.disk.journal.lines);
    assert log == [e];
    assert Replay(EmptyState, [e]) == Replay(Apply(EmptyState, e), []);
    assert HistoryOf(EmptyState, 1) + [Event(1, 1, 0)] == [Event(1, 1, 0)];
    assert Apply(EmptyState, e) == st.mem;
    assert MaxSeq([]) == 0 && MaxSeq([Event(1, 1, 0)]) == 1;
    JournalState.MiddleWindowExactTrail(st, 1);
    assert log[0].Append? && log[0].event.instance == 1 && !LogLaws.PurgesTrail(log, 1);
  }

  // ---- the journal --------------------------------------------------------------------------

  /** One job, journaled and due. */
  function OneJob(): JournalState.Store {
    JournalState.Store(State(map[Key(JobKind, 1) := Job(1, 0, 0)], map[], map[]),
                       JournalState.Disk(None, JournalState.File([JournalState.Whole(Put(1, Job(1, 0, 0)))], false)), 1)
  }

  /** Dying inside DueJobs can lose the job. */
  lemma CrashLosesJob()
    ensures JournalState.Durable(OneJob())
    ensures var st := OneJob(); var op := Memory.TakeDue(5, 0);
      exists d :: d in JournalState.AppendLinesTrace(st.(mem := Memory.MemStep(st.mem, op)), JournalState.Lines(st.mem, op), 10)
                  && !JournalState.KeepsJobs(d, st.mem)
  {
    var st := OneJob();
    var e := Put(1, Job(1, 0, 0));
    assert JournalState.Readable(st.disk.journal.lines) == [e] + JournalState.Readable([]);
    assert JournalState.Readable(st.disk.journal.lines) == [e];
    assert Replay(EmptyState, [e]) == Replay(Apply(EmptyState, e), []);
    assert Apply(EmptyState, e).records == st.mem.records;
    assert 1 in Memory.DueSet(st.mem, 5);
    assert 1 in Ordering.Elements(Memory.DueList(st.mem, 5, 0));
    JournalState.DueJobsKeepsJobsExactly(st, 5, 0, 10);
  }

  /** A store opened over half a line. */
  function HalfLine(): JournalState.Store {
    JournalState.Store(EmptyState, JournalState.Disk(None, JournalState.File([JournalState.Garbage], true)), 0)
  }

  /** What it writes next is lost. */
  lemma TornTailLosesRecord()
    ensures JournalState.Recover(HalfLine().disk) == HalfLine().mem
    ensures var ops := [Memory.Save(1, Blob(1))];
      JournalState.Recover(JournalState.PerformAll(HalfLine(), ops, 10).disk) != JournalState.MemRun(HalfLine().mem, ops)
  {
    var st, op := HalfLine(), Memory.Save(1, Blob(1));
    var front := st.disk.journal.lines[..0];
    assert [op][1..] == [];
    assert JournalState.LineCount(st.mem, [op]) == 1 + JournalState.LineCount(Memory.MemStep(st.mem, op), []);
    JournalState.TornTailExactly(st, [op], 10);
    assert front == [] && JournalState.Readable([]) == [];
    assert JournalState.Recover(st.disk.(journal := JournalState.File(front, false))) == EmptyState;
    assert JournalState.MemRun(st.mem, [op]) == JournalState.MemRun(Memory.MemStep(st.mem, op), []);
    assert Key(BlobKind, 1) in JournalState.MemRun(st.mem, [op]).records;
  }
}
