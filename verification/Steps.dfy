/** Every step of a token keeps the tree, the loops' books and the wait records in order. */
module Steps {
  import opened StoreState
  import opened Bpmn
  import opened Instances
  import opened Engine
  import opened ScopeTree
  import opened Moves
  import opened Cancellation
  import opened Completion
  import opened Errors
  import opened Activities

  // ---- joins ------------------------------------------------------------------------------

  /** Tokens joining beside `x`. */
  ghost predicate JoinBeside(s: Instance, x: TokenId, gone: set<TokenId>) {
    x in s.tokens && x !in gone && forall u :: u in gone ==>
      u in s.tokens && s.tokens[u].state.Joining? && SameScope(s.tokens[u], s.tokens[x]) && s.tokens[u].parent == 0
  }

  lemma MergeTree(g: Graph, s: Instance, x: TokenId, gone: set<TokenId>)
    requires Core(g, s) && x !in s.multi && Vacated(s, {}, x) && JoinBeside(s, x, gone) && !ScopeWait(s.tokens[x])
    ensures var s' := MergeInto(s, x, gone); var t := s.tokens[x];
      && Core(g, s') && Cuts(s, s', gone, x) && Anchored(s, gone, x, t.path, t.owners)
      && ChainOk(g, s, t.path, t.owners) && OwnersFree(t.owners, gone, x)
  {
    var s' := MergeInto(s, x, gone);
    var t := s.tokens[x];
    NoZero(g, s);
    assert TokenOk(g, s, x);
    forall u | u in s.tokens && u !in gone ensures FreeOf(s.tokens[u], gone, x) {
      assert TokenOk(g, s, u) && FreeOf(s.tokens[u], {}, x);
      forall i | 0 <= i < |s.tokens[u].owners| && s.tokens[u].owners[i] != 0 ensures s.tokens[u].owners[i] !in gone {
        assert LevelOk(g, s, s.tokens[u].path, s.tokens[u].owners, i);
      }
    }
    assert FreeOf(t, gone, x);
    forall m | m in s.multi ensures m !in gone { assert TokenOk(g, s, m); }
    MultiKept(g, s, s', gone, x);
    ChainSurvives(g, s, s', gone, x, t.path, t.owners);
    CoreUpdate(g, s, s', gone, x);
  }

  /** Merging consumes joining tokens and leaves the arriving one free to move. */
  lemma MergeKeeps(g: Graph, s: Instance, x: TokenId, gone: set<TokenId>)
    requires Inv(g, s) && s.status.Running? && JoinBeside(s, x, gone) && s.tokens[x].state.Joining?
    ensures Ready(g, MergeInto(s, x, gone), x) && Advances(s, MergeInto(s, x, gone))
  {
    var s' := MergeInto(s, x, gone);
    NoZero(g, s);
    assert TokenOk(g, s, x);
    LeafVacated(g, s, x);
    MergeTree(g, s, x, gone);
    NoStuckCut(g, s, s', gone, x, s.tokens[x].path, s.tokens[x].owners, None, 0, 0);
    LinkedWithout(s, x);
    LinkedStays(s, s', x);
    RoutedStays(g, s, s', x);
    LeafReady(g, s', x);
  }

  lemma ArriveShape(g: Graph, s: Instance, x: TokenId)
    requires Stands(g, s, x) && !Waiting(s.tokens[x])
    requires s.tokens[x].ref.RecordRef? ==> s.tokens[x].ref.id < s.nextId
    ensures LeafShape(g, s, Arrive(s, x), x)
  {
  }

  lemma ArriveKeeps(g: Graph, s: Instance, x: TokenId)
    requires Ready(g, s, x) && !Waiting(s.tokens[x])
    ensures Keeps(g, s, Arrive(s, x))
  {
    ReadyStands(g, s, x);
    assert TokenOk(g, s, x);
    ArriveShape(g, s, x);
    LeafStep(g, s, Arrive(s, x), x);
  }

  /** Only activities loop. */
  lemma NoIterationHere(g: Graph, s: Instance, x: TokenId)
    requires ValidGraph(g) && Core(g, s) && x in s.tokens
    ensures HasElement(g, s.tokens[x].path, s.tokens[x].element)
    ensures g[s.tokens[x].path].elements[s.tokens[x].element].multi.None? ==> s.tokens[x].parent == 0
    ensures !IsActivity(g[s.tokens[x].path].elements[s.tokens[x].element]) ==> s.tokens[x].parent == 0
    ensures IsMIChild(s.tokens[x]) <==> s.tokens[x].parent != 0
  {
    assert TokenOk(g, s, x) && GoodElement(g, s.tokens[x].path, s.tokens[x].element);
    if s.tokens[x].parent != 0 {
      assert TokenOk(g, s, s.tokens[x].parent);
    }
  }

  lemma IterationIs(g: Graph, s: Instance, x: TokenId, o: Oracle)
    requires ValidGraph(g) && Core(g, s) && x in s.tokens && s.tokens[x].parent != 0
    ensures CompleteActivity(g, s, x, o) == MiChildCompleted(g, s, x, o)
  {
    hide MiChildCompleted, ValidGraph;
    NoIterationHere(g, s, x);
    assert TokenOk(g, s, x);
  }

  lemma JoinersBeside(g: Graph, s: Instance, x: TokenId, gone: set<TokenId>)
    requires ValidGraph(g) && Core(g, s) && x in s.tokens && x !in gone
    requires HasElement(g, s.tokens[x].path, s.tokens[x].element)
    requires !IsActivity(g[s.tokens[x].path].elements[s.tokens[x].element])
    requires forall u :: u in gone ==> u in s.tokens && JoinsWith(s.tokens[u], s.tokens[x])
    ensures JoinBeside(s, x, gone)
  {
    forall u | u in gone ensures s.tokens[u].parent == 0 {
      NoIterationHere(g, s, u);
    }
  }

  lemma RouteParallelKeeps(g: Graph, s: Instance, x: TokenId, el: Element, o: Oracle)
    requires ValidGraph(g) && Ready(g, s, x) && !Waiting(s.tokens[x]) && ElementOf(g, s.tokens[x]) == Some(el) && el.etype.ParallelGateway?
    ensures Keeps(g, s, RouteParallel(g, s, x, el, o))
  {
    NoIterationHere(g, s, x);
    if |el.incoming| <= 1 {
      ForkAllKeeps(g, s, x);
    } else {
      ArriveKeeps(g, s, x);
      var s1 := Arrive(s, x);
      if ParallelJoinReady(s1, s1.tokens[x], el.incoming) {
        var gone := Merged(s1, x, o);
        JoinersBeside(g, s1, x, gone);
        MergeKeeps(g, s1, x, gone);
        var s2 := MergeInto(s1, x, gone);
        ForkAllKeeps(g, s2, x);
        AdvancesTransitive(g, s, s1, s2);
        AdvancesTransitive(g, s, s2, ForkAll(g, s2, x));
      }
    }
  }

  lemma RouteInclusiveKeeps(g: Graph, s: Instance, x: TokenId, el: Element, o: Oracle)
    requires ValidGraph(g) && Ready(g, s, x) && !Waiting(s.tokens[x]) && ElementOf(g, s.tokens[x]) == Some(el) && el.etype.InclusiveGateway?
    ensures s.tokens[x].path in g && Keeps(g, s, RouteInclusive(g, s, x, el, o))
  {
    NoIterationHere(g, s, x);
    if |el.incoming| <= 1 {
      TakeOutgoingKeeps(g, s, x, o);
    } else {
      ArriveKeeps(g, s, x);
      var s1 := Arrive(s, x);
      if InclusiveJoinReady(g, s1, x) {
        var gone := JoinedWith(s1, x);
        JoinersBeside(g, s1, x, gone);
        MergeKeeps(g, s1, x, gone);
        var s2 := MergeInto(s1, x, gone);
        TakeOutgoingKeeps(g, s2, x, o);
        AdvancesTransitive(g, s, s1, s2);
        AdvancesTransitive(g, s, s2, TakeOutgoing(g, s2, x, o));
      }
    }
  }

  // ---- work that may fail --------------------------------------------------------------------

  /** The token does an activity's work: it is free to move, waits on no scope, and no error
      thrown here re-enters the handler it is thrown in. */
  ghost predicate Working(g: Graph, s: Instance, x: TokenId, o: Oracle) {
    && ValidGraph(g) && Ready(g, s, x) && !ScopeWait(s.tokens[x]) && LoopAnswers(o)
    && (o.outcome.Throws? ==> !Reenters(g, s.tokens[x].path, o.outcome.code))
  }

  lemma WorkerStands(g: Graph, s: Instance, x: TokenId)
    requires Core(g, s) && x in s.tokens
    ensures s.tokens[x].path in g && |s.tokens[x].path| == |s.tokens[x].owners|
  {
    assert TokenOk(g, s, x);
  }

  lemma FinishSyncKeeps(g: Graph, s: Instance, x: TokenId, o: Oracle)
    requires Working(g, s, x, o)
    ensures Keeps(g, s, FinishSync(g, s, x, o))
  {
    if o.outputsOk(x) {
      CompleteActivityKeeps(g, s, x, o);
    } else {
      RaiseIncidentKeeps(g, s, x);
    }
  }

  lemma HandleFailureKeeps(g: Graph, s: Instance, x: TokenId, outcome: Outcome, o: Oracle)
    requires Working(g, s, x, o) && (outcome == o.outcome || !outcome.Throws?)
    ensures s.tokens[x].path in g && |s.tokens[x].path| == |s.tokens[x].owners|
    ensures Keeps(g, s, HandleFailure(g, s, x, outcome, o))
  {
    WorkerStands(g, s, x);
    if outcome.Throws? {
      ThrowErrorKeeps(g, s, x, outcome.code);
    } else if o.retriesLeft {
      ParkOnJobKeeps(g, s, x);
    } else {
      RaiseIncidentKeeps(g, s, x);
    }
  }

  lemma WorkKeeps(g: Graph, s: Instance, x: TokenId, o: Oracle)
    requires Working(g, s, x, o)
    ensures s.tokens[x].path in g && |s.tokens[x].path| == |s.tokens[x].owners|
    ensures Keeps(g, s, Work(g, s, x, o))
  {
    WorkerStands(g, s, x);
    match o.outcome {
      case Succeeds => FinishSyncKeeps(g, s, x, o);
      case Missing => RaiseIncidentKeeps(g, s, x);
      case _ => HandleFailureKeeps(g, s, x, o.outcome, o);
    }
  }

  lemma FinishAgentKeeps(g: Graph, s: Instance, x: TokenId, spec: AgentSpec, o: Oracle)
    requires Working(g, s, x, o)
    ensures s.tokens[x].path in g && |s.tokens[x].path| == |s.tokens[x].owners|
    ensures Keeps(g, s, FinishAgent(g, s, x, spec, o))
  {
    WorkerStands(g, s, x);
    if !o.reviewOk {
      HandleFailureKeeps(g, s, x, FailsPlain, o);
    } else if spec.approval {
      OpenWaitKeeps(g, s, x, TaskWait);
    } else {
      FinishSyncKeeps(g, s, x, o);
    }
  }

  lemma AgentTaskKeeps(g: Graph, s: Instance, x: TokenId, spec: AgentSpec, o: Oracle)
    requires Working(g, s, x, o)
    ensures s.tokens[x].path in g && |s.tokens[x].path| == |s.tokens[x].owners|
    ensures Keeps(g, s, AgentTask(g, s, x, spec, o))
  {
    WorkerStands(g, s, x);
    if !o.budgetOk {
      RaiseIncidentKeeps(g, s, x);
    } else if spec.external {
      OpenWaitKeeps(g, s, x, AgentWait);
    } else {
      match o.outcome {
        case Succeeds => FinishAgentKeeps(g, s, x, spec, o);
        case Missing => RaiseIncidentKeeps(g, s, x);
        case _ => HandleFailureKeeps(g, s, x, o.outcome, o);
      }
    }
  }

  lemma ServiceLikeKeeps(g: Graph, s: Instance, x: TokenId, el: Element, o: Oracle)
    requires Working(g, s, x, o)
    ensures s.tokens[x].path in g && |s.tokens[x].path| == |s.tokens[x].owners|
    ensures Keeps(g, s, ServiceLike(g, s, x, el, o))
  {
    WorkerStands(g, s, x);
    if el.agent.Some? {
      AgentTaskKeeps(g, s, x, el.agent.value, o);
    } else if el.topic {
      OpenWaitKeeps(g, s, x, ExternalWait);
    } else {
      WorkKeeps(g, s, x, o);
    }
  }

  // ---- activities -------------------------------------------------------------------------------

  lemma UserTaskKeeps(g: Graph, s: Instance, x: TokenId, o: Oracle)
    requires Working(g, s, x, o)
    ensures Keeps(g, s, if o.fieldsOk then OpenWait(s, x, TaskWait) else RaiseIncident(s, x))
  {
    if o.fieldsOk {
      OpenWaitKeeps(g, s, x, TaskWait);
    } else {
      RaiseIncidentKeeps(g, s, x);
    }
  }

  lemma ReceiveTaskKeeps(g: Graph, s: Instance, x: TokenId, el: Element, o: Oracle)
    requires Working(g, s, x, o) && ElementOf(g, s.tokens[x]) == Some(el) && el.etype.ReceiveTask?
    ensures Keeps(g, s, Catching(s, x, WaitMessage, if el.event.Some? then el.event.value.kind else Terminate, o))
  {
    assert TokenOk(g, s, x);
    CatchingKeeps(g, s, x, WaitMessage, if el.event.Some? then el.event.value.kind else Terminate, o);
  }

  lemma DispatchIs(g: Graph, s: Instance, x: TokenId, el: Element, o: Oracle)
    requires x in s.tokens && s.tokens[x].path in g && |s.tokens[x].path| == |s.tokens[x].owners|
    ensures el.etype.UserTask? ==>
      Dispatch(g, s, x, el, o) == if o.fieldsOk then OpenWait(s, x, TaskWait) else RaiseIncident(s, x)
    ensures el.etype in {ServiceTask, SendTask} ==> Dispatch(g, s, x, el, o) == ServiceLike(g, s, x, el, o)
    ensures el.etype in {ScriptTask, RuleTask} ==> Dispatch(g, s, x, el, o) == Work(g, s, x, o)
    ensures el.etype in {ManualTask, PlainTask} ==> Dispatch(g, s, x, el, o) == FinishSync(g, s, x, o)
    ensures el.etype.ReceiveTask? ==>
      Dispatch(g, s, x, el, o) == Catching(s, x, WaitMessage, if el.event.Some? then el.event.value.kind else Terminate, o)
    ensures el.etype.SubProcess? ==> Dispatch(g, s, x, el, o) == EnterSub(g, s, x, o)
    ensures el.etype.CallActivity? ==> Dispatch(g, s, x, el, o) == EnterCall(s, x, o)
  {
  }

  lemma DispatchKeeps(g: Graph, s: Instance, x: TokenId, el: Element, o: Oracle)
    requires Working(g, s, x, o) && ElementOf(g, s.tokens[x]) == Some(el) && IsActivity(el)
    ensures s.tokens[x].path in g && |s.tokens[x].path| == |s.tokens[x].owners|
    ensures Keeps(g, s, Dispatch(g, s, x, el, o))
  {
    WorkerStands(g, s, x);
    DispatchIs(g, s, x, el, o);
    if el.etype.UserTask? {
      UserTaskKeeps(g, s, x, o);
    } else if el.etype in {ServiceTask, SendTask} {
      ServiceLikeKeeps(g, s, x, el, o);
    } else if el.etype in {ScriptTask, RuleTask} {
      WorkKeeps(g, s, x, o);
    } else if el.etype in {ManualTask, PlainTask} {
      FinishSyncKeeps(g, s, x, o);
    } else if el.etype.ReceiveTask? {
      ReceiveTaskKeeps(g, s, x, el, o);
    } else if el.etype.SubProcess? {
      EnterSubKeeps(g, s, x, o);
    } else {
      EnterCallKeeps(g, s, x, o);
    }
  }

  lemma ActivityKeeps(g: Graph, s: Instance, x: TokenId, el: Element, o: Oracle)
    requires Working(g, s, x, o) && ElementOf(g, s.tokens[x]) == Some(el) && IsActivity(el) && s.tokens[x].state.Active?
    requires el.multi.Some? && s.tokens[x].parent == 0 ==> LoopStarts(g, s.tokens[x], o)
    ensures s.tokens[x].path in g && |s.tokens[x].path| == |s.tokens[x].owners|
    ensures Continues(g, s, Activity(g, s, x, el, o))
  {
    WorkerStands(g, s, x);
    NoIterationHere(g, s, x);
    if el.multi.Some? && !IsMIChild(s.tokens[x]) {
      StartMultiKeeps(g, s, x, el.multi.value, o);
    } else if !o.inputsOk {
      RaiseIncidentKeeps(g, s, x);
    } else if IsMIChild(s.tokens[x]) {
      DispatchKeeps(g, s, x, el, o);
    } else {
      var s1 := RegisterBoundaries(g, s, x, o);
      RegisterBoundariesRecords(g, s, x, o);
      RegisterKeeps(g, s, s1, x);
      DispatchKeeps(g, s1, x, el, o);
      AdvancesTransitive(g, s, s1, Dispatch(g, s1, x, el, o));
    }
  }

  // ---- end events -------------------------------------------------------------------------------

  lemma ReachEndKeeps(g: Graph, s: Instance, x: TokenId, el: Element, o: Oracle)
    requires ValidGraph(g) && Inv(g, s) && s.status.Running? && Ready(g, s, x) && LoopAnswers(o)
    requires ElementOf(g, s.tokens[x]) == Some(el) && el.etype.EndEvent?
    requires el.event.Some? && el.event.value.kind.Error? ==> !Reenters(g, s.tokens[x].path, el.event.value.code)
    ensures |s.tokens[x].path| == |s.tokens[x].owners|
    ensures Keeps(g, s, ReachEnd(g, s, x, el, o))
  {
    var t := s.tokens[x];
    WorkerStands(g, s, x);
    NoIterationHere(g, s, x);
    hide Consume, Propagate, CheckScope, KillScope, Reenters, NoStuck, Linked, Routed, Persists, Numbers;
    if el.event.Some? && el.event.value.kind.Terminate? {
      if t.path == [] {
        AllEnd(g, s);
      } else {
        TerminateScopeKeeps(g, s, x, o);
      }
    } else if el.event.Some? && el.event.value.kind.Error? {
      RemoveCuts(g, s, x);
      PropagateKeeps(g, DeleteToken(s, x), t.path, t.owners, 0, el.event.value.code);
      AdvancesTransitive(g, s, DeleteToken(s, x), ReachEnd(g, s, x, el, o));
    } else {
      ConsumeKeeps(g, s, x, o);
    }
  }

  lemma AllEnd(g: Graph, s: Instance)
    requires s.status.Running? && Fresh(s)
    ensures Keeps(g, s, CompleteInstance(s.(tokens := map[])))
  {
  }

  lemma TerminateScopeKeeps(g: Graph, s: Instance, x: TokenId, o: Oracle)
    requires ValidGraph(g) && Inv(g, s) && s.status.Running? && x in s.tokens && LoopAnswers(o)
    ensures |s.tokens[x].path| == |s.tokens[x].owners|
    ensures var t := s.tokens[x]; Keeps(g, s, CheckScope(g, KillScope(s, t.path, t.owners, 0), t.path, t.owners, o))
  {
    var t := s.tokens[x];
    assert TokenOk(g, s, x);
    KillScopeCuts(g, s, t.path, t.owners, 0, None, 0);
    var s1 := KillScope(s, t.path, t.owners, 0);
    CheckScopeKeeps(g, s1, t.path, t.owners, o);
    AdvancesTransitive(g, s, s1, CheckScope(g, s1, t.path, t.owners, o));
  }

  // ---- steps ------------------------------------------------------------------------------------

  /** What a step needs of its evaluations: loop outputs and completion conditions succeed,
      a loop's boundary timers can be scheduled, and no error thrown inside an error event
      sub-process matches its own start. */
  ghost predicate StepAnswers(g: Graph, s: Instance, x: TokenId, o: Oracle)
    requires x in s.tokens
  {
    var t := s.tokens[x];
    && LoopAnswers(o)
    && (o.outcome.Throws? ==> !Reenters(g, t.path, o.outcome.code))
    && (ElementOf(g, t).Some? ==>
          var el := ElementOf(g, t).value;
          && (el.multi.Some? && t.parent == 0 ==> LoopStarts(g, t, o))
          && (el.etype.EndEvent? && el.event.Some? && el.event.value.kind.Error? ==>
                !Reenters(g, t.path, el.event.value.code)))
  }

  /** The scope tree, the loops' books, the absence of stuck scopes and the wait records
      survive every step. */
  lemma StepKeeps(g: Graph, s: Instance, x: TokenId, o: Oracle)
    requires ValidGraph(g) && Inv(g, s) && s.status.Running? && x in s.tokens && s.tokens[x].state.Active?
    requires StepAnswers(g, s, x, o)
    ensures |s.tokens[x].path| == |s.tokens[x].owners|
    ensures Continues(g, s, Step(g, s, x, o))
  {
    hide TakeOutgoing, ReachEnd, CatchEvent, RouteExclusive, RouteParallel, RouteInclusive, RouteEventBased, Activity,
         Reenters, NoStuck, Linked, Routed, Persists, Numbers, Vacated, ChainOk;
    LeafReady(g, s, x);
    WorkerStands(g, s, x);
    NoIterationHere(g, s, x);
    assert TokenOk(g, s, x);
    var el := ElementOf(g, s.tokens[x]).value;
    match el.etype {
      case StartEvent => TakeOutgoingKeeps(g, s, x, o);
      case EndEvent => ReachEndKeeps(g, s, x, el, o);
      case BoundaryEvent => TakeOutgoingKeeps(g, s, x, o);
      case IntermediateCatch => CatchEventKeeps(g, s, x, el, o);
      case IntermediateThrow => TakeOutgoingKeeps(g, s, x, o);
      case ExclusiveGateway => RouteExclusiveKeeps(g, s, x, o);
      case ParallelGateway => RouteParallelKeeps(g, s, x, el, o);
      case InclusiveGateway => RouteInclusiveKeeps(g, s, x, el, o);
      case EventBasedGateway => RouteEventBasedKeeps(g, s, x, el, o);
      case _ => ActivityKeeps(g, s, x, el, o);
    }
  }
}
