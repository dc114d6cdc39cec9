/** Tokens waiting at a join are left alone by everything but arrivals and cancellation. */
module Joiners {
  import opened StoreState
  import opened Bpmn
  import opened Instances
  import opened Engine
  import opened ScopeTree
  import opened Moves
  import opened Cancellation
  import opened Completion
  import opened Errors
  import opened ErrorEffects
  import opened Activities
  import opened Steps
  import opened Triggers
  import opened Runs
  import opened Joins
  import Routing

  /** No token begins to wait at a join, and none that waits there changes, unless it goes. */
  ghost predicate Rests(s: Instance, s': Instance) {
    && (forall u :: u in s'.tokens && s'.tokens[u].state.Joining? ==> u in s.tokens && s'.tokens[u] == s.tokens[u])
    && (forall u :: u in s.tokens && u in s'.tokens && s.tokens[u].state.Joining? ==> s'.tokens[u] == s.tokens[u])
  }

  lemma RestsTransitive(g: Graph, s: Instance, s1: Instance, s2: Instance)
    requires Core(g, s) && Rests(s, s1) && Rests(s1, s2) && Persists(s, s1) && Persists(s1, s2)
    ensures Rests(s, s2)
  {
    forall u | u in s.tokens && u in s2.tokens && s.tokens[u].state.Joining? ensures s2.tokens[u] == s.tokens[u] {
      assert TokenOk(g, s, u);
    }
  }

  /** Only `x` changes, which waits at no join before or after. */
  lemma OneRests(s: Instance, s': Instance, x: TokenId)
    requires forall u :: u in s'.tokens && u != x ==> u in s.tokens && s'.tokens[u] == s.tokens[u]
    requires x in s.tokens ==> !s.tokens[x].state.Joining?
    requires x in s'.tokens ==> !s'.tokens[x].state.Joining?
    ensures Rests(s, s')
  {
  }

  lemma LeavesRest(s: Instance, s': Instance, x: TokenId)
    requires Joins.Leaves(s, s', x) && x in s.tokens && !s.tokens[x].state.Joining?
    ensures Rests(s, s')
  {
  }

  lemma ParksRest(s: Instance, s': Instance, x: TokenId)
    requires OnlyParks(s, s', x) && x in s.tokens && !s.tokens[x].state.Joining?
    ensures Rests(s, s')
  {
  }

  lemma GoesOnRests(s: Instance, s': Instance, c: TokenId, path: Path, b: ElementId, gone: set<TokenId>)
    requires OneGoesOn(s, s', c, path, b, gone) && (c in s.tokens ==> !s.tokens[c].state.Joining?)
    ensures Rests(s, s')
  {
  }

  // ---- moving and completing --------------------------------------------------------------------

  lemma TakeRests(g: Graph, s: Instance, x: TokenId, o: Oracle)
    requires ValidGraph(g) && Stands(g, s, x) && s.tokens[x].parent == 0 && !s.tokens[x].state.Joining?
    ensures Rests(s, TakeOutgoing(g, s, x, o))
  {
    TakeLeaves(g, s, x, o);
    LeavesRest(s, TakeOutgoing(g, s, x, o), x);
  }

  lemma ExclusiveRests(g: Graph, s: Instance, x: TokenId, o: Oracle)
    requires ValidGraph(g) && Stands(g, s, x) && s.tokens[x].parent == 0 && !s.tokens[x].state.Joining?
    ensures Rests(s, RouteExclusive(g, s, x, o))
  {
    var c := g[s.tokens[x].path];
    var el := c.elements[s.tokens[x].element];
    FirstTrueExists(c, el.outgoing, el.defaultFlow, o);
    var chosen := FirstTrue(c, el.outgoing, el.defaultFlow, o);
    if chosen.Some? {
      MoveOrIncidentLeaves(g, s, x, WithDefault(c, el, chosen.value));
      LeavesRest(s, RouteExclusive(g, s, x, o), x);
    }
  }

  lemma PlainRests(g: Graph, s: Instance, x: TokenId, o: Oracle)
    requires ValidGraph(g) && Core(g, s) && x in s.tokens && s.tokens[x].parent == 0 && !s.tokens[x].state.Joining?
    ensures Rests(s, CompleteActivity(g, s, x, o))
  {
    ReadyStands(g, s, x);
    TakeRests(g, DropEvents(s, x), x, o);
  }

  lemma FinishRests(g: Graph, s: Instance, m: TokenId, o: Oracle)
    requires ValidGraph(g) && Looping(g, s, m)
    ensures m in s.tokens && Rests(s, FinishMulti(g, s, m, o))
  {
    hide CompleteActivity, FinishMulti, LoopOver, Persists, Numbers, NoStuck, Linked, Routed, Vacated, ValidGraph, Rests, TokenOk;
    LoopOverReady(g, s, m);
    FinishMultiIs(g, s, m, o);
    LoopOverRests(g, s, m);
    var s1 := LoopOver(g, s, m);
    LoopOverMoves(g, s1, m, o);
    OverRests(g, s1, m, o);
    RestsTransitive(g, s, s1, FinishMulti(g, s, m, o));
  }

  lemma OverRests(g: Graph, s: Instance, m: TokenId, o: Oracle)
    requires ValidGraph(g) && Ready(g, s, m) && s.tokens[m].parent == 0 && !s.tokens[m].state.Joining?
    ensures Rests(s, if o.outputsOk(m) then CompleteActivity(g, DropEvents(s, m), m, o) else RaiseIncident(s, m))
  {
    if o.outputsOk(m) {
      DropEventsReady(g, s, m);
      PlainRests(g, DropEvents(s, m), m, o);
    }
  }

  lemma LoopOverRests(g: Graph, s: Instance, m: TokenId)
    requires Looping(g, s, m)
    ensures m in s.tokens && m in LoopOver(g, s, m).tokens
    ensures Rests(s, LoopOver(g, s, m)) && LoopOver(g, s, m).tokens[m].state.Active?
  {
    assert TokenOk(g, s, m);
  }

  lemma CountRests(g: Graph, s: Instance, m: TokenId, spec: MultiSpec, o: Oracle)
    requires ValidGraph(g) && Looping(g, s, m) && m in s.tokens && SpecAnswers(spec, o)
    ensures Rests(s, AfterCount(g, s, m, spec, o))
  {
    AfterCountIs(g, s, m, spec, o);
    Unused(g, s);
    if LoopEnds(s.multi[m], spec, o) {
      FinishRests(g, s, m, o);
    }
  }

  lemma IterationRests(g: Graph, s: Instance, x: TokenId, o: Oracle)
    requires ValidGraph(g) && Ready(g, s, x) && s.tokens[x].parent != 0 && LoopAnswers(o)
    ensures Rests(s, MiChildCompleted(g, s, x, o))
  {
    hide AfterCount, MiChildCompleted;
    var spec := IterationSpec(g, s, x);
    var s2 := Counted(g, s, x, spec.hasOutput);
    CountedLoops(g, s, x, spec.hasOutput);
    CountedAreBooks(g, s, x, spec);
    MiChildCompletedIs(g, s, x, o);
    CountRests(g, s2, s.tokens[x].parent, spec, o);
    AfterCountKeeps(g, s2, s.tokens[x].parent, spec, o);
    RestsTransitive(g, s, s2, MiChildCompleted(g, s, x, o));
  }

  lemma CompleteRests(g: Graph, s: Instance, x: TokenId, o: Oracle)
    requires ValidGraph(g) && Ready(g, s, x) && LoopAnswers(o) && !s.tokens[x].state.Joining?
    ensures Rests(s, CompleteActivity(g, s, x, o))
  {
    hide CompleteActivity, MiChildCompleted, ValidGraph, Core, Rests;
    if s.tokens[x].parent == 0 {
      PlainRests(g, s, x, o);
    } else {
      IterationRests(g, s, x, o);
      IterationIs(g, s, x, o);
    }
  }

  lemma {:induction false} ScopeRests(g: Graph, s: Instance, path: Path, owners: seq<TokenId>, o: Oracle)
    requires ValidGraph(g) && Cut(g, s, path, owners, 0) && LoopAnswers(o)
    ensures Rests(s, CheckScope(g, s, path, owners, o))
    decreases |path|
  {
    if !ScopeBusy(s, path, owners) {
      CheckScopeIs(g, s, path, owners, o);
      if path != [] {
        LastLevel(g, s, path, owners);
        if owners[|path| - 1] == 0 {
          CutPrefix(g, s, path, owners);
          ScopeRests(g, s, path[..|path| - 1], owners[..|path| - 1], o);
        } else {
          var x := owners[|path| - 1];
          WakeReady(g, s, path, owners);
          CompleteRests(g, DropEvents(s, x), x, o);
        }
      }
    }
  }

  lemma ConsumeRests(g: Graph, s: Instance, x: TokenId, o: Oracle)
    requires ValidGraph(g) && Ready(g, s, x) && s.tokens[x].parent == 0 && LoopAnswers(o)
    ensures Rests(s, Consume(g, s, x, o))
  {
    var t := s.tokens[x];
    assert TokenOk(g, s, x);
    RemoveCuts(g, s, x);
    var s1 := DeleteToken(s, x);
    ScopeRests(g, s1, t.path, t.owners, o);
    CheckScopeKeeps(g, s1, t.path, t.owners, o);
    RestsTransitive(g, s, s1, Consume(g, s, x, o));
  }

  // ---- errors -----------------------------------------------------------------------------------

  lemma PropagateRests(g: Graph, s: Instance, path: Path, owners: seq<TokenId>, code: nat)
    requires ValidGraph(g) && Core(g, s) && ChainOk(g, s, path, owners)
    ensures Rests(s, Propagate(g, s, path, owners, code))
  {
    PropagateHandles(g, s, path, owners, code);
    var h := FindHandler(g, path, code);
    hide Propagate, FindHandler;
    Unused(g, s);
    match h {
      case None =>
      case Some(BySub(l, sub, start)) =>
        SubHandlerEffect(g, s, path, owners, h.value);
        GoesOnRests(s, Propagate(g, s, path, owners, code), s.nextId, path[..l] + [sub], start, ScopeSet(s, path[..l], owners[..l], sub));
      case Some(ByBoundary(l, b)) =>
        ChainPrefix(g, s, path, owners, l);
        BoundaryRests(g, s, path[..l], owners[..l], b);
    }
  }

  lemma BoundaryRests(g: Graph, s: Instance, path: Path, owners: seq<TokenId>, b: ElementId)
    requires ValidGraph(g) && Core(g, s) && ChainOk(g, s, path, owners) && path != []
    ensures Rests(s, CaughtAtBoundary(g, s, path, owners, b))
  {
    BoundaryEffect(g, s, path, owners, b);
    LastLevel(g, s, path, owners);
    Unused(g, s);
    var w := owners[|path| - 1];
    if w != 0 && s.tokens[w].parent != 0 {
      assert TokenOk(g, s, w);
    }
  }

  lemma ThrowRests(g: Graph, s: Instance, x: TokenId, code: nat)
    requires ValidGraph(g) && Ready(g, s, x) && !ScopeWait(s.tokens[x]) && !s.tokens[x].state.Joining?
    requires s.tokens[x].path in g && |s.tokens[x].path| == |s.tokens[x].owners|
    requires !Reenters(g, s.tokens[x].path, code)
    ensures Rests(s, ThrowError(g, s, x, code))
  {
    hide ThrowError, Propagate, Persists;
    var t := s.tokens[x];
    assert TokenOk(g, s, x);
    if ErrorBoundary(g[t.path], t.element, code).Some? {
      ThrowCaughtEffect(g, s, x, code);
      GoesOnRests(s, ThrowError(g, s, x, code), Continuing(s, x), t.path, ErrorBoundary(g[t.path], t.element, code).value,
                  LoopSet(g, s, Continuing(s, x)));
    } else {
      ThrowsOn(g, s, x, code);
      ThrowCuts(g, s, x);
      var s1 := DeleteToken(CancelWaits(g, s, x), x);
      PropagateRests(g, s1, t.path, t.owners, code);
      PropagateKeeps(g, s1, t.path, t.owners, t.parent, code);
      RestsTransitive(g, s, s1, ThrowError(g, s, x, code));
    }
  }

  // ---- activities -------------------------------------------------------------------------------

  /** The token works and waits at no join. */
  ghost predicate Busy(g: Graph, s: Instance, x: TokenId, o: Oracle) {
    Working(g, s, x, o) && !s.tokens[x].state.Joining?
  }

  lemma IncidentRests(s: Instance, x: TokenId)
    requires x in s.tokens && !s.tokens[x].state.Joining?
    ensures Rests(s, RaiseIncident(s, x)) && Rests(s, ParkOnJob(s, x))
  {
  }

  lemma OpenRests(s: Instance, x: TokenId, kind: WaitKind, o: Oracle)
    requires x in s.tokens && !s.tokens[x].state.Joining?
    ensures Rests(s, OpenWait(s, x, kind)) && Rests(s, EnterCall(s, x, o))
  {
  }

  lemma FinishSyncRests(g: Graph, s: Instance, x: TokenId, o: Oracle)
    requires Busy(g, s, x, o)
    ensures Rests(s, FinishSync(g, s, x, o))
  {
    hide CompleteActivity, RaiseIncident, Rests;
    IncidentRests(s, x);
    CompleteRests(g, s, x, o);
  }

  lemma FailureRests(g: Graph, s: Instance, x: TokenId, outcome: Outcome, o: Oracle)
    requires Busy(g, s, x, o) && (outcome == o.outcome || !outcome.Throws?)
    ensures s.tokens[x].path in g && |s.tokens[x].path| == |s.tokens[x].owners|
    ensures Rests(s, HandleFailure(g, s, x, outcome, o))
  {
    hide ThrowError, RaiseIncident, ParkOnJob, Rests;
    WorkerStands(g, s, x);
    IncidentRests(s, x);
    if outcome.Throws? {
      ThrowRests(g, s, x, outcome.code);
    }
  }

  lemma WorkRests(g: Graph, s: Instance, x: TokenId, o: Oracle)
    requires Busy(g, s, x, o)
    ensures s.tokens[x].path in g && |s.tokens[x].path| == |s.tokens[x].owners|
    ensures Rests(s, Work(g, s, x, o))
  {
    hide FinishSync, HandleFailure, RaiseIncident, Rests;
    WorkerStands(g, s, x);
    IncidentRests(s, x);
    match o.outcome {
      case Succeeds => FinishSyncRests(g, s, x, o);
      case Missing =>
      case _ => FailureRests(g, s, x, o.outcome, o);
    }
  }

  lemma FinishAgentRests(g: Graph, s: Instance, x: TokenId, spec: AgentSpec, o: Oracle)
    requires Busy(g, s, x, o)
    ensures s.tokens[x].path in g && |s.tokens[x].path| == |s.tokens[x].owners|
    ensures Rests(s, FinishAgent(g, s, x, spec, o))
  {
    hide FinishSync, HandleFailure, OpenWait, Rests;
    WorkerStands(g, s, x);
    OpenRests(s, x, TaskWait, o);
    FailureRests(g, s, x, FailsPlain, o);
    FinishSyncRests(g, s, x, o);
  }

  lemma AgentRests(g: Graph, s: Instance, x: TokenId, spec: AgentSpec, o: Oracle)
    requires Busy(g, s, x, o)
    ensures s.tokens[x].path in g && |s.tokens[x].path| == |s.tokens[x].owners|
    ensures Rests(s, AgentTask(g, s, x, spec, o))
  {
    hide FinishAgent, HandleFailure, OpenWait, RaiseIncident, Rests;
    WorkerStands(g, s, x);
    IncidentRests(s, x);
    OpenRests(s, x, AgentWait, o);
    if o.budgetOk && !spec.external {
      match o.outcome {
        case Succeeds => FinishAgentRests(g, s, x, spec, o);
        case Missing =>
        case _ => FailureRests(g, s, x, o.outcome, o);
      }
    }
  }

  lemma ServiceRests(g: Graph, s: Instance, x: TokenId, el: Element, o: Oracle)
    requires Busy(g, s, x, o)
    ensures s.tokens[x].path in g && |s.tokens[x].path| == |s.tokens[x].owners|
    ensures Rests(s, ServiceLike(g, s, x, el, o))
  {
    hide AgentTask, Work, OpenWait, Rests;
    WorkerStands(g, s, x);
    OpenRests(s, x, ExternalWait, o);
    if el.agent.Some? {
      AgentRests(g, s, x, el.agent.value, o);
    } else if !el.topic {
      WorkRests(g, s, x, o);
    }
  }

  lemma EnterSubRests(g: Graph, s: Instance, x: TokenId, o: Oracle)
    requires Core(g, s) && x in s.tokens && !s.tokens[x].state.Joining?
    ensures Rests(s, EnterSub(g, s, x, o))
  {
    hide RegisterEventSubs, Rests;
    var t := s.tokens[x];
    var inner := t.path + [t.element];
    ReadyStands(g, s, x);
    IncidentRests(s, x);
    if inner in g && NoneStartEvent(g[inner]).Some? {
      var s1 := Entered(s, x);
      SubsAdd(g, s1, inner, x, o);
      var u := RegisterEventSubs(g, s1, inner, x, o).nextId;
      TwoRest(s, EnterSub(g, s, x, o), x, s1.tokens[x], u,
              Token(NoneStartEvent(g[inner]).value, Active, inner, t.owners + [x], 0, NoRef, 0, 0, 0));
    }
  }

  lemma SubsAdd(g: Graph, s: Instance, path: Path, x: TokenId, o: Oracle)
    requires path in g
    ensures RegisterEventSubs(g, s, path, x, o).tokens == s.tokens && s.nextId <= RegisterEventSubs(g, s, path, x, o).nextId
  {
    Routing.SubsAddNoToken(g, s, path, g[path].order, x, o);
  }

  lemma TwoRest(s: Instance, s': Instance, x: TokenId, t: Token, u: TokenId, v: Token)
    requires x in s.tokens && u !in s.tokens && s'.tokens == s.tokens[x := t][u := v]
    requires !s.tokens[x].state.Joining? && !t.state.Joining? && !v.state.Joining?
    ensures Rests(s, s')
  {
  }

  lemma CatchingRests(s: Instance, x: TokenId, state: TokenState, kind: EventKind, o: Oracle)
    requires x in s.tokens && !s.tokens[x].state.Joining? && state in {WaitTimer, WaitMessage, WaitSignal}
    ensures Rests(s, Catching(s, x, state, kind, o))
  {
    CatchingIs(s, x, state, kind, o);
    hide Catching, Rests;
    OneRests(s, Catching(s, x, state, kind, o), x);
  }

  lemma DispatchRests(g: Graph, s: Instance, x: TokenId, el: Element, o: Oracle)
    requires Busy(g, s, x, o) && IsActivity(el)
    ensures s.tokens[x].path in g && |s.tokens[x].path| == |s.tokens[x].owners|
    ensures Rests(s, Dispatch(g, s, x, el, o))
  {
    hide Dispatch, ServiceLike, Work, FinishSync, EnterSub, Catching, OpenWait, EnterCall, RaiseIncident, Rests, Core, ValidGraph;
    WorkerStands(g, s, x);
    DispatchIs(g, s, x, el, o);
    IncidentRests(s, x);
    OpenRests(s, x, TaskWait, o);
    if el.etype in {ServiceTask, SendTask} {
      ServiceRests(g, s, x, el, o);
    } else if el.etype in {ScriptTask, RuleTask} {
      WorkRests(g, s, x, o);
    } else if el.etype in {ManualTask, PlainTask} {
      FinishSyncRests(g, s, x, o);
    } else if el.etype.ReceiveTask? {
      CatchingRests(s, x, WaitMessage, if el.event.Some? then el.event.value.kind else Terminate, o);
    } else if el.etype.SubProcess? {
      SubProcessRests(g, s, x, o);
    }
  }

  lemma SubProcessRests(g: Graph, s: Instance, x: TokenId, o: Oracle)
    requires Busy(g, s, x, o)
    ensures Rests(s, EnterSub(g, s, x, o))
  {
    EnterSubRests(g, s, x, o);
  }

  lemma {:induction false} SpawnsRest(g: Graph, s: Instance, m: TokenId, index: nat, count: nat)
    requires m in s.tokens && TokensBelow(s)
    ensures Rests(s, SpawnIterations(g, s, m, index, count))
    decreases count
  {
    if count != 0 {
      SpawnsRest(g, SpawnIteration(g, s, m, index), m, index + 1, count - 1);
      SpawnsOwn(g, SpawnIteration(g, s, m, index), m, index + 1, count - 1);
    }
  }

  lemma LoopStartRests(g: Graph, s: Instance, x: TokenId, spec: MultiSpec, o: Oracle)
    requires ValidGraph(g) && Ready(g, s, x) && LoopAnswers(o) && !s.tokens[x].state.Joining?
    ensures Rests(s, StartMulti(g, s, x, spec, o))
  {
    hide CompleteActivity, RegisterBoundaries, SpawnIterations, RaiseIncident, Rests, OnlyParks;
    IncidentRests(s, x);
    if o.items.Some? && o.items.value == 0 {
      CompleteRests(g, s, x, o);
    } else if o.items.Some? {
      ReadyStands(g, s, x);
      OpeningRests(g, s, x, spec, o);
    }
  }

  lemma OpeningRests(g: Graph, s: Instance, x: TokenId, spec: MultiSpec, o: Oracle)
    requires x in s.tokens && TokensBelow(s) && !s.tokens[x].state.Joining? && o.items.Some? && o.items.value != 0
    ensures Rests(s, StartMulti(g, s, x, spec, o))
  {
    hide StartMulti, RegisterBoundaries, SpawnIterations, Rests;
    var n := o.items.value;
    var first := if spec.sequential then 1 else n;
    var s1 := Opened(s, x, n, first);
    StartMultiIs(g, s, x, spec, o);
    RegisterBoundariesParks(g, s1, x, o);
    var s2 := RegisterBoundaries(g, s1, x, o);
    OneRests(s, s2, x);
    SpawnsRest(g, s2, x, 0, first);
    SpawnsOwn(g, s2, x, 0, first);
    AddedRests(s, s2, SpawnIterations(g, s2, x, 0, first));
  }

  lemma AddedRests(s: Instance, s1: Instance, s2: Instance)
    requires Rests(s, s1) && Rests(s1, s2) && s1.tokens.Keys == s.tokens.Keys
    requires forall u :: u in s1.tokens ==> u in s2.tokens && s2.tokens[u] == s1.tokens[u]
    ensures Rests(s, s2)
  {
  }

  lemma ActivityRests(g: Graph, s: Instance, x: TokenId, el: Element, o: Oracle)
    requires Working(g, s, x, o) && ElementOf(g, s.tokens[x]) == Some(el) && IsActivity(el) && s.tokens[x].state.Active?
    ensures s.tokens[x].path in g && |s.tokens[x].path| == |s.tokens[x].owners|
    ensures Rests(s, Activity(g, s, x, el, o))
  {
    hide StartMulti, Dispatch, RegisterBoundaries, RaiseIncident, Rests, Core, ValidGraph;
    WorkerStands(g, s, x);
    NoIterationHere(g, s, x);
    IncidentRests(s, x);
    if el.multi.Some? && !IsMIChild(s.tokens[x]) {
      LoopStartRests(g, s, x, el.multi.value, o);
    } else if o.inputsOk && IsMIChild(s.tokens[x]) {
      DispatchRests(g, s, x, el, o);
    } else if o.inputsOk {
      RegisteredRests(g, s, x, el, o);
    }
  }

  lemma RegisteredRests(g: Graph, s: Instance, x: TokenId, el: Element, o: Oracle)
    requires Working(g, s, x, o) && ElementOf(g, s.tokens[x]) == Some(el) && IsActivity(el)
    requires s.tokens[x].state.Active? && s.tokens[x].parent == 0
    ensures x in RegisterBoundaries(g, s, x, o).tokens
    ensures var t := RegisterBoundaries(g, s, x, o).tokens[x]; t.path in g && |t.path| == |t.owners|
    ensures Rests(s, Dispatch(g, RegisterBoundaries(g, s, x, o), x, el, o))
  {
    hide Dispatch, RegisterBoundaries, Rests;
    var s1 := RegisterBoundaries(g, s, x, o);
    RegisterBoundariesRecords(g, s, x, o);
    RegisterKeeps(g, s, s1, x);
    ParksRest(s, s1, x);
    DispatchRests(g, s1, x, el, o);
    DispatchKeeps(g, s1, x, el, o);
    RestsTransitive(g, s, s1, Dispatch(g, s1, x, el, o));
  }

  lemma EndRests(g: Graph, s: Instance, x: TokenId, el: Element, o: Oracle)
    requires ValidGraph(g) && Inv(g, s) && s.status.Running? && Ready(g, s, x) && LoopAnswers(o)
    requires ElementOf(g, s.tokens[x]) == Some(el) && el.etype.EndEvent?
    requires el.event.Some? && el.event.value.kind.Error? ==> !Reenters(g, s.tokens[x].path, el.event.value.code)
    ensures |s.tokens[x].path| == |s.tokens[x].owners|
    ensures Rests(s, ReachEnd(g, s, x, el, o))
  {
    hide Consume, Propagate, CheckScope, KillScope, Reenters, NoStuck, Linked, Routed, Persists, Numbers;
    var t := s.tokens[x];
    WorkerStands(g, s, x);
    NoIterationHere(g, s, x);
    if el.event.Some? && el.event.value.kind.Terminate? {
      if t.path != [] {
        TerminateScopeRests(g, s, x, o);
      }
    } else if el.event.Some? && el.event.value.kind.Error? {
      RemoveCuts(g, s, x);
      var s1 := DeleteToken(s, x);
      PropagateRests(g, s1, t.path, t.owners, el.event.value.code);
      PropagateKeeps(g, s1, t.path, t.owners, 0, el.event.value.code);
      RestsTransitive(g, s, s1, ReachEnd(g, s, x, el, o));
    } else {
      ConsumeRests(g, s, x, o);
    }
  }

  lemma TerminateScopeRests(g: Graph, s: Instance, x: TokenId, o: Oracle)
    requires ValidGraph(g) && Inv(g, s) && s.status.Running? && x in s.tokens && LoopAnswers(o)
    ensures |s.tokens[x].path| == |s.tokens[x].owners|
    ensures var t := s.tokens[x]; Rests(s, CheckScope(g, KillScope(s, t.path, t.owners, 0), t.path, t.owners, o))
  {
    var t := s.tokens[x];
    assert TokenOk(g, s, x);
    KillScopeCuts(g, s, t.path, t.owners, 0, None, 0);
    var s1 := KillScope(s, t.path, t.owners, 0);
    ScopeRests(g, s1, t.path, t.owners, o);
    CheckScopeKeeps(g, s1, t.path, t.owners, o);
    RestsTransitive(g, s, s1, CheckScope(g, s1, t.path, t.owners, o));
  }

  // ---- gateways and steps -------------------------------------------------------------------------

  predicate IsJoin(el: Element) {
    el.etype.ParallelGateway? || el.etype.InclusiveGateway?
  }

  /** The arriving token consumes others and is free to move again. */
  lemma MergeRests(g: Graph, s: Instance, x: TokenId, gone: set<TokenId>)
    requires ValidGraph(g) && Inv(g, s) && s.status.Running? && x in s.tokens && s.tokens[x].state.Active? && x !in gone
    requires HasElement(g, s.tokens[x].path, s.tokens[x].element) && !IsActivity(g[s.tokens[x].path].elements[s.tokens[x].element])
    requires forall u :: u in gone ==> u in s.tokens && JoinsWith(Arrive(s, x).tokens[u], Arrive(s, x).tokens[x])
    ensures var s2 := MergeInto(Arrive(s, x), x, gone);
      Rests(s, s2) && Ready(g, s2, x) && Persists(s, s2) && s2.tokens[x].parent == 0 && s2.tokens[x].state.Active?
  {
    hide Persists, Numbers;
    var s1 := Arrive(s, x);
    LeafReady(g, s, x);
    NoIterationHere(g, s, x);
    ArriveKeeps(g, s, x);
    JoinersBeside(g, s1, x, gone);
    MergeKeeps(g, s1, x, gone);
    PersistsTransitive(s, s1, MergeInto(s1, x, gone));
  }

  lemma ParallelRests(g: Graph, s: Instance, x: TokenId, el: Element, o: Oracle)
    requires ValidGraph(g) && Inv(g, s) && s.status.Running? && x in s.tokens && s.tokens[x].state.Active?
    requires ElementOf(g, s.tokens[x]) == Some(el) && el.etype.ParallelGateway?
    ensures Rests(s, RouteParallel(g, s, x, el, o)) || RouteParallel(g, s, x, el, o) == Arrive(s, x)
  {
    hide ForkAll, Persists, Ready, Rests, MergeInto;
    NoIterationHere(g, s, x);
    ReadyStands(g, s, x);
    var s1 := Arrive(s, x);
    if |el.incoming| <= 1 {
      ForkRests(g, s, x);
    } else if ParallelJoinReady(s1, s1.tokens[x], el.incoming) {
      var gone := Merged(s1, x, o);
      MergeRests(g, s, x, gone);
      ForkOnRests(g, s, MergeInto(s1, x, gone), x);
    }
  }

  lemma ForkRests(g: Graph, s: Instance, x: TokenId)
    requires ValidGraph(g) && Stands(g, s, x) && s.tokens[x].parent == 0 && !s.tokens[x].state.Joining?
    ensures Rests(s, ForkAll(g, s, x))
  {
    ForkLeaves(g, s, x);
    LeavesRest(s, ForkAll(g, s, x), x);
  }

  lemma ForkOnRests(g: Graph, s: Instance, s2: Instance, x: TokenId)
    requires ValidGraph(g) && Core(g, s) && Rests(s, s2) && Persists(s, s2) && Ready(g, s2, x)
    requires s2.tokens[x].parent == 0 && s2.tokens[x].state.Active?
    ensures Rests(s, ForkAll(g, s2, x))
  {
    ReadyStands(g, s2, x);
    ForkRests(g, s2, x);
    ForkAllKeeps(g, s2, x);
    RestsTransitive(g, s, s2, ForkAll(g, s2, x));
  }

  lemma TakeOnRests(g: Graph, s: Instance, s2: Instance, x: TokenId, o: Oracle)
    requires ValidGraph(g) && Core(g, s) && Rests(s, s2) && Persists(s, s2) && Ready(g, s2, x)
    requires s2.tokens[x].parent == 0 && s2.tokens[x].state.Active?
    ensures Rests(s, TakeOutgoing(g, s2, x, o))
  {
    ReadyStands(g, s2, x);
    TakeRests(g, s2, x, o);
    TakeOutgoingKeeps(g, s2, x, o);
    RestsTransitive(g, s, s2, TakeOutgoing(g, s2, x, o));
  }

  lemma InclusiveRests(g: Graph, s: Instance, x: TokenId, el: Element, o: Oracle)
    requires ValidGraph(g) && Inv(g, s) && s.status.Running? && x in s.tokens && s.tokens[x].state.Active?
    requires ElementOf(g, s.tokens[x]) == Some(el) && el.etype.InclusiveGateway?
    ensures s.tokens[x].path in g
    ensures Rests(s, RouteInclusive(g, s, x, el, o)) || RouteInclusive(g, s, x, el, o) == Arrive(s, x)
  {
    hide TakeOutgoing, Persists, Ready, Rests, MergeInto;
    NoIterationHere(g, s, x);
    ReadyStands(g, s, x);
    var s1 := Arrive(s, x);
    if |el.incoming| <= 1 {
      TakeRests(g, s, x, o);
    } else if InclusiveJoinReady(g, s1, x) {
      var gone := JoinedWith(s1, x);
      MergeRests(g, s, x, gone);
      TakeOnRests(g, s, MergeInto(s1, x, gone), x, o);
    }
  }

  lemma EventBasedRests(g: Graph, s: Instance, x: TokenId, el: Element, o: Oracle)
    requires x in s.tokens && s.tokens[x].path in g && s.tokens[x].state.Active?
    ensures Rests(s, RouteEventBased(g, s, x, el, o))
  {
    var s1 := SetToken(s, x, s.tokens[x].(state := WaitEvents, ref := NoRef));
    var c := g[s.tokens[x].path];
    Routing.TargetsRegister(g, s1, x, c, el.outgoing, o);
    RegisterEachParks(g, s1, x, c, Routing.Targets(c, el.outgoing), o.timerOk);
    ParksRest(s1, RouteEventBased(g, s, x, el, o), x);
  }

  /** A step leaves the tokens waiting at joins alone, apart from those it merges or cancels;
      the stepping token is the only one that may come to wait, at a join gateway. */
  lemma StepRests(g: Graph, s: Instance, x: TokenId, o: Oracle)
    requires ValidGraph(g) && Inv(g, s) && s.status.Running? && x in s.tokens && s.tokens[x].state.Active?
    requires StepAnswers(g, s, x, o)
    ensures |s.tokens[x].path| == |s.tokens[x].owners|
    ensures Rests(s, Step(g, s, x, o))
            || (Step(g, s, x, o) == Arrive(s, x) && ElementOf(g, s.tokens[x]).Some? && IsJoin(ElementOf(g, s.tokens[x]).value))
  {
    hide TakeOutgoing, ReachEnd, CatchEvent, RouteExclusive, RouteParallel, RouteInclusive, RouteEventBased, Activity,
         Reenters, NoStuck, Linked, Routed, Vacated, ChainOk, Rests;
    LeafReady(g, s, x);
    WorkerStands(g, s, x);
    NoIterationHere(g, s, x);
    ReadyStands(g, s, x);
    var el := ElementOf(g, s.tokens[x]).value;
    match el.etype {
      case StartEvent => TakeRests(g, s, x, o);
      case EndEvent => EndRests(g, s, x, el, o);
      case BoundaryEvent => TakeRests(g, s, x, o);
      case IntermediateCatch => CatchRests(s, x, el, o);
      case IntermediateThrow => TakeRests(g, s, x, o);
      case ExclusiveGateway => ExclusiveRests(g, s, x, o);
      case ParallelGateway => ParallelRests(g, s, x, el, o);
      case InclusiveGateway => InclusiveRests(g, s, x, el, o);
      case EventBasedGateway => EventBasedRests(g, s, x, el, o);
      case _ => ActivityRests(g, s, x, el, o);
    }
  }

  lemma CatchRests(s: Instance, x: TokenId, el: Element, o: Oracle)
    requires x in s.tokens && s.tokens[x].state.Active?
    ensures Rests(s, CatchEvent(s, x, el, o))
  {
    hide Catching;
    var kind := if el.event.Some? then el.event.value.kind else Terminate;
    CatchingRests(s, x, WaitTimer, kind, o);
    CatchingRests(s, x, WaitMessage, kind, o);
    CatchingRests(s, x, WaitSignal, kind, o);
  }

  // ---- what the outside world does ----------------------------------------------------------------

  /** Tokens that wait at a join stand on a parallel or inclusive gateway. */
  ghost predicate JoinersStand(g: Graph, s: Instance) {
    forall u :: u in s.tokens && s.tokens[u].state.Joining? ==>
      ElementOf(g, s.tokens[u]).Some? && IsJoin(ElementOf(g, s.tokens[u]).value)
  }

  lemma RestingStand(g: Graph, s: Instance, s': Instance)
    requires JoinersStand(g, s) && Rests(s, s')
    ensures JoinersStand(g, s')
  {
  }

  lemma BoundaryFiredRests(g: Graph, s: Instance, x: TokenId, p: Path, b: ElementId)
    requires ValidGraph(g) && Core(g, s) && JoinersStand(g, s) && HasElement(g, p, b) && g[p].elements[b].etype.BoundaryEvent?
    requires x in s.tokens ==> s.tokens[x].path == p
    ensures BoundaryTriggered(g, s, x, g[p].elements[b], b).Some? ==>
      Rests(s, BoundaryTriggered(g, s, x, g[p].elements[b], b).value)
  {
    Unused(g, s);
    if x in s.tokens && s.tokens[x].element == g[p].elements[b].attachedTo {
      assert TokenOk(g, s, x) && GoodElement(g, p, b);
      assert !s.tokens[x].state.Joining?;
    }
  }

  lemma CaughtRests(g: Graph, s: Instance, r: EventRecord, p: Path, o: Oracle)
    requires ValidGraph(g) && Inv(g, s) && s.status.Running? && RoutesTo(g, s, r, p) && LoopAnswers(o)
    requires g[p].elements[r.element].etype in {IntermediateCatch, ReceiveTask}
    ensures var out := Caught(g, s, r.token, g[p].elements[r.element], r.element, o); out.Some? ==> Rests(s, out.value)
  {
    hide TakeOutgoing, CompleteActivity, RaiseIncident, Persists, Numbers, Vacated;
    var x := r.token;
    if Caught(g, s, x, g[p].elements[r.element], r.element, o).Some? {
      var s1 := SetToken(DropEvents(s, x), x, s.tokens[x].(element := r.element, state := Active, ref := NoRef));
      assert TokenOk(g, s, x);
      NoIterationHere(g, s, x);
      CaughtReady(g, s, x, r.element);
      OneRests(s, s1, x);
      ReadyOnRests(g, s, s1, x, o);
    }
  }

  /** What a token that has become free may do next. */
  lemma ReadyOnRests(g: Graph, s: Instance, s1: Instance, x: TokenId, o: Oracle)
    requires ValidGraph(g) && Core(g, s) && Rests(s, s1) && Persists(s, s1) && Ready(g, s1, x) && LoopAnswers(o)
    requires !s1.tokens[x].state.Joining?
    ensures Rests(s, CompleteActivity(g, s1, x, o)) && Rests(s, RaiseIncident(s1, x))
    ensures s1.tokens[x].parent == 0 && s1.tokens[x].state.Active? ==> Rests(s, TakeOutgoing(g, s1, x, o))
  {
    hide TakeOutgoing, CompleteActivity, RaiseIncident, Persists, Numbers, Rests;
    CompleteRests(g, s1, x, o);
    CompleteActivityKeeps(g, s1, x, o);
    RestsTransitive(g, s, s1, CompleteActivity(g, s1, x, o));
    IncidentRests(s1, x);
    RaiseIncidentKeeps(g, s1, x);
    RestsTransitive(g, s, s1, RaiseIncident(s1, x));
    if s1.tokens[x].parent == 0 && s1.tokens[x].state.Active? {
      TakeOnRests(g, s, s1, x, o);
    }
  }

  lemma EventSubRests(g: Graph, s: Instance, owner: TokenId, sub: ElementId, start: ElementId, interrupting: bool, e: nat)
    requires Core(g, s)
    ensures var out := EventSubTriggered(s, owner, sub, start, interrupting, e); out.Some? ==> Rests(s, out.value)
  {
    Unused(g, s);
  }

  lemma TriggeredRests(g: Graph, s: Instance, r: EventRecord, e: nat, o: Oracle)
    requires ValidGraph(g) && Inv(g, s) && s.status.Running? && RecordOk(g, s, r) && !r.kind.WorkJob? && LoopAnswers(o)
    requires JoinersStand(g, s)
    ensures Triggered(g, s, r, e, o).Some? ==> Rests(s, Triggered(g, s, r, e, o).value)
  {
    hide BoundaryTriggered, EventSubTriggered, Caught, Rests, NoStuck, Linked, Routed;
    var p := HomeIs(g, s, r);
    var el := g[p].elements[r.element];
    if el.etype.BoundaryEvent? {
      BoundaryFiredRests(g, s, r.token, p, r.element);
    } else if el.etype.StartEvent? {
      EventSubRests(g, s, r.token, p[|p| - 1], r.element, el.cancelActivity, e);
    } else {
      CaughtRests(g, s, r, p, o);
    }
  }

  lemma TimerRests(g: Graph, s: Instance, r: EventRecord, e: nat, o: Oracle)
    requires ValidGraph(g) && Inv(g, s) && s.status.Running? && LoopAnswers(o) && JoinersStand(g, s)
    requires RecordOk(g, s, r) && r.token < s.nextId && !r.kind.WorkJob?
    ensures Rests(s, TimerFired(g, s, r, e, o))
  {
    hide Triggered, Home, Core, NoStuck, Linked, Routed, RecordOk;
    if o.repeats && NonInterrupting(g, r.element) {
      var s1 := Register(s, r.kind, r.token, r.element);
      ReschedulesKeep(g, s, r);
      TriggeredRests(g, s1, r, e, o);
    } else {
      TriggeredRests(g, s, r, e, o);
    }
  }

  lemma CompletedRests(g: Graph, s: Instance, w: nat, o: Oracle)
    requires ValidGraph(g) && Inv(g, s) && s.status.Running? && LoopAnswers(o)
    requires o.outcome.Throws? ==> StillWaits(s, w) ==> !Reenters(g, s.tokens[s.waits[w].token].path, o.outcome.code)
    ensures Rests(s, WaitCompleted(g, s, w, o))
  {
    hide FinishAgent, FinishSync, CompleteActivity, NoStuck, Linked, Routed, Reenters, Persists, Numbers, Vacated, Fresh, TokenOk;
    if Answerable(g, s, w) {
      var x := s.waits[w].token;
      var s1 := CloseWait(s, w);
      ClosedReady(g, s, w);
      WorkerStands(g, s, x);
      var el := ElementOf(g, s.tokens[x]);
      if s.waits[w].kind.AgentWait? {
        FinishAgentRests(g, s1, x, el.value.agent.value, o);
      } else if s.waits[w].kind.TaskWait? && el.Some? && el.value.agent.Some? {
        FinishSyncRests(g, s1, x, o);
      } else {
        CompleteRests(g, s1, x, o);
      }
    }
  }

  lemma FailedRests(g: Graph, s: Instance, w: nat, code: nat, o: Oracle)
    requires ValidGraph(g) && Inv(g, s) && s.status.Running?
    requires StillWaits(s, w) ==> !Reenters(g, s.tokens[s.waits[w].token].path, code)
    ensures Rests(s, WaitFailed(g, s, w, code, o))
  {
    hide ThrowError, RaiseIncident, NoStuck, Linked, Routed, Reenters, Persists, Numbers, Vacated, Fresh, TokenOk;
    if StillWaits(s, w) {
      var x := s.waits[w].token;
      ClosedReady(g, s, w);
      WorkerStands(g, s, x);
      IncidentRests(CloseWait(s, w), x);
      if code != 0 {
        ThrowRests(g, CloseWait(s, w), x, code);
      }
    }
  }

  lemma ChildRests(g: Graph, s: Instance, x: TokenId, child: nat, o: Oracle)
    requires ValidGraph(g) && Inv(g, s) && s.status.Running? && LoopAnswers(o)
    ensures Rests(s, ChildEnded(g, s, x, child, o)) && Rests(s, ChildLost(s, x, child))
  {
    hide CompleteActivity, RaiseIncident, NoStuck, Linked, Routed, Vacated, Rests;
    if x in s.tokens && AwaitsChild(s.tokens[x], child) {
      LeafReady(g, s, x);
      IncidentRests(s, x);
      CompleteRests(g, s, x, o);
    } else {
      SelfRests(s);
    }
  }

  lemma SelfRests(s: Instance)
    ensures Rests(s, s)
  {
  }

  // ---- over runs ------------------------------------------------------------------------------------

  /** The action is the arrival of its token at a join gateway, where it stays to wait. */
  ghost predicate WaitsToJoin(g: Graph, w: World, a: Action)
    requires Enabled(g, w, a)
  {
    && a.Execute? && Next(g, w, a).inst == Arrive(w.inst, a.token)
    && ElementOf(g, w.inst.tokens[a.token]).Some? && IsJoin(ElementOf(g, w.inst.tokens[a.token]).value)
  }

  lemma NextRests(g: Graph, w: World, a: Action)
    requires ValidGraph(g) && WorldInv(g, w) && Enabled(g, w, a) && JoinersStand(g, w.inst)
    ensures Rests(w.inst, Next(g, w, a).inst) || WaitsToJoin(g, w, a)
  {
    hide Step, Delivered, TimerFired, WaitCompleted, WaitFailed, ChildEnded, ChildLost, RaiseIncident, Core, NoStuck, Linked, Routed, Rests;
    var s := w.inst;
    match a {
      case Execute(id, o) =>
        StepRests(g, s, id, o);
      case Overrun(id) => IncidentRests(s, id);
      case Deliver(e, o) => DeliveredRests(g, s, e, o);
      case FireTimer(j, o) =>
        ClaimRoutes(g, s, w.claimed[j]);
        TimerRests(g, s, w.claimed[j], j, o);
      case FinishWait(wait, o) => CompletedRests(g, s, wait, o);
      case FailWait(wait, code, o) => FailedRests(g, s, wait, code, o);
      case EndChild(id, child, o) => ChildRests(g, s, id, child, o);
      case LoseChild(id, child) => LostRests(s, id, child);
      case _ => SmallRests(g, w, a);
    }
  }

  lemma LostRests(s: Instance, x: TokenId, child: nat)
    ensures Rests(s, ChildLost(s, x, child))
  {
  }

  lemma DeliveredRests(g: Graph, s: Instance, e: nat, o: Oracle)
    requires ValidGraph(g) && Inv(g, s) && s.status.Running? && LoopAnswers(o) && JoinersStand(g, s)
    requires e in s.events ==> !s.events[e].kind.WorkJob?
    ensures Rests(s, Delivered(g, s, e, o))
  {
    hide Triggered;
    if e in s.events {
      assert RecordOk(g, s, s.events[e]);
      TriggeredRests(g, s, s.events[e], e, o);
    }
  }

  /** Actions that change at most one parked token, or end everything. */
  lemma SmallRests(g: Graph, w: World, a: Action)
    requires Enabled(g, w, a)
    requires a.Claim? || a.RunWork? || a.ResolveIncident? || a.CancelInstance? || a.Suspend? || a.Resume?
    ensures Rests(w.inst, Next(g, w, a).inst)
  {
  }

  /** In every run the tokens waiting at joins stand on join gateways. */
  lemma {:induction false} RunJoinersStand(g: Graph, worlds: seq<World>, actions: seq<Action>, n: nat)
    requires ValidGraph(g) && IsRun(g, worlds, actions) && n < |worlds|
    ensures JoinersStand(g, worlds[n].inst)
    decreases n
  {
    hide Rests;
    if n == 0 {
      FirstStands(g, worlds[0]);
    } else {
      RunKeepsInv(g, worlds, actions, n - 1);
      RunJoinersStand(g, worlds, actions, n - 1);
      HappensAt(g, worlds, actions, n - 1);
      NextRests(g, worlds[n - 1], actions[n - 1]);
      if !WaitsToJoin(g, worlds[n - 1], actions[n - 1]) {
        RestingStand(g, worlds[n - 1].inst, worlds[n].inst);
      }
    }
  }

  lemma FirstStands(g: Graph, w: World)
    requires exists start, o :: HasElement(g, [], start) && g[[]].elements[start].etype.StartEvent?
                                && w == World(Started(g, start, o), map[])
    ensures JoinersStand(g, w.inst)
  {
    var start, o :| HasElement(g, [], start) && g[[]].elements[start].etype.StartEvent? && w == World(Started(g, start, o), map[]);
    Routing.SubsAddNoToken(g, Born(start), [], g[[]].order, 0, o);
  }

  /** Whatever happens that is neither an arrival at the place nor the end of a token waiting
      there is a move elsewhere. */
  lemma OtherwiseElsewhere(g: Graph, at: Place, el: Element, w: World, a: Action)
    requires ValidGraph(g) && WorldInv(g, w) && Enabled(g, w, a) && JoinersStand(g, w.inst)
    requires !(a.Execute? && StandsAt(w.inst.tokens[a.token], at))
    requires forall u :: u in AtJoin(w.inst, at) ==> u in Next(g, w, a).inst.tokens
    ensures MoveOk(g, at, el, w.inst, Elsewhere, Next(g, w, a).inst)
  {
    hide Next, Enabled;
    NextRests(g, w, a);
  }

  /** The token executed stands at the place. */
  ghost predicate ArrivesAt(w: World, a: Action, at: Place) {
    a.Execute? && a.token in w.inst.tokens && StandsAt(w.inst.tokens[a.token], at)
  }

  ghost function MoveFor(w: World, a: Action, at: Place): Move {
    if ArrivesAt(w, a, at) then Arrival(a.token, a.o) else Elsewhere
  }

  ghost function MovesAt(worlds: seq<World>, actions: seq<Action>, at: Place): (moves: seq<Move>)
    requires |worlds| == |actions| + 1
    ensures |moves| == |actions| && forall n :: 0 <= n < |actions| ==> moves[n] == MoveFor(worlds[n], actions[n], at)
  {
    seq(|actions|, n requires 0 <= n < |actions| => MoveFor(worlds[n], actions[n], at))
  }

  function InstancesOf(worlds: seq<World>): (states: seq<Instance>)
    ensures |states| == |worlds| && forall n :: 0 <= n < |worlds| ==> states[n] == worlds[n].inst
  {
    seq(|worlds|, n requires 0 <= n < |worlds| => worlds[n].inst)
  }

  /** Tokens come to the place over its own flows, and none waiting there is taken away by
      anything but an arrival. */
  ghost predicate Unharmed(w: World, a: Action, w': World, at: Place, el: Element) {
    if ArrivesAt(w, a, at) then w.inst.tokens[a.token].flow in el.incoming
    else forall u :: u in AtJoin(w.inst, at) ==> u in w'.inst.tokens
  }

  lemma ArrivalIs(g: Graph, at: Place, el: Element, w: World, a: Action)
    requires ValidGraph(g) && WorldInv(g, w) && Enabled(g, w, a) && ParallelAt(g, at, el)
    requires ArrivesAt(w, a, at) && w.inst.tokens[a.token].flow in el.incoming
    ensures MoveOk(g, at, el, w.inst, Arrival(a.token, a.o), Next(g, w, a).inst)
  {
    hide Step, RouteParallel, Core, NoStuck, Linked, Routed, Reenters, LoopStarts;
    WorkerStands(g, w.inst, a.token);
    ParallelStepIs(g, w.inst, a.token, el, a.o);
  }

  lemma RunMoves(g: Graph, at: Place, el: Element, worlds: seq<World>, actions: seq<Action>, n: nat)
    requires ValidGraph(g) && IsRun(g, worlds, actions) && ParallelAt(g, at, el) && n < |actions|
    requires Unharmed(worlds[n], actions[n], worlds[n + 1], at, el)
    ensures MoveOk(g, at, el, worlds[n].inst, MoveFor(worlds[n], actions[n], at), worlds[n + 1].inst)
  {
    hide MoveOk, Next, Enabled;
    RunKeepsInv(g, worlds, actions, n);
    RunJoinersStand(g, worlds, actions, n);
    HappensAt(g, worlds, actions, n);
    if ArrivesAt(worlds[n], actions[n], at) {
      ArrivalIs(g, at, el, worlds[n], actions[n]);
    } else {
      ExecutesThere(g, worlds[n], actions[n], at);
      OtherwiseElsewhere(g, at, el, worlds[n], actions[n]);
    }
  }

  lemma ExecutesThere(g: Graph, w: World, a: Action, at: Place)
    requires Enabled(g, w, a) && !ArrivesAt(w, a, at)
    ensures !(a.Execute? && StandsAt(w.inst.tokens[a.token], at))
  {
  }

  /** Seen from a parallel join no cancellation strikes, every run of the instance is a run of
      that join. */
  lemma RunIsJoinRun(g: Graph, at: Place, el: Element, worlds: seq<World>, actions: seq<Action>)
    requires ValidGraph(g) && IsRun(g, worlds, actions) && ParallelAt(g, at, el)
    requires forall n {:trigger worlds[n], actions[n]} :: 0 <= n < |actions| ==> Unharmed(worlds[n], actions[n], worlds[n + 1], at, el)
    ensures JoinRun(g, at, el, InstancesOf(worlds), MovesAt(worlds, actions, at))
  {
    hide MoveOk, Unharmed, MoveFor;
    var states, moves := InstancesOf(worlds), MovesAt(worlds, actions, at);
    FirstEmpty(g, worlds[0], at);
    forall n | 0 <= n < |moves| ensures MoveOk(g, at, el, states[n], moves[n], states[n + 1]) {
      RunMoves(g, at, el, worlds, actions, n);
    }
  }

  lemma FirstEmpty(g: Graph, w: World, at: Place)
    requires exists start, o :: HasElement(g, [], start) && g[[]].elements[start].etype.StartEvent?
                                && w == World(Started(g, start, o), map[])
    ensures AtJoin(w.inst, at) == {}
  {
    var start, o :| HasElement(g, [], start) && g[[]].elements[start].etype.StartEvent? && w == World(Started(g, start, o), map[]);
    Routing.SubsAddNoToken(g, Born(start), [], g[[]].order, 0, o);
  }

  /** So in every such run the join fires as often as its scarcest flow has delivered. */
  lemma RunFiringsAreMinimum(g: Graph, at: Place, el: Element, worlds: seq<World>, actions: seq<Action>, n: nat)
    requires ValidGraph(g) && IsRun(g, worlds, actions) && ParallelAt(g, at, el) && n <= |actions|
    requires forall k {:trigger worlds[k], actions[k]} :: 0 <= k < |actions| ==> Unharmed(worlds[k], actions[k], worlds[k + 1], at, el)
    ensures var states, moves := InstancesOf(worlds), MovesAt(worlds, actions, at);
      && (forall f :: f in el.incoming ==> Firings(states, moves, el, n) <= Arrivals(states, moves, f, n))
      && (exists f :: f in el.incoming && Firings(states, moves, el, n) == Arrivals(states, moves, f, n))
  {
    RunIsJoinRun(g, at, el, worlds, actions);
    FiringsAreMinimum(g, at, el, InstancesOf(worlds), MovesAt(worlds, actions, at), n);
  }
}
