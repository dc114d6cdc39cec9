/** What one step of an active token leaves, for every kind of element. */
module StepEffects {
  import opened StoreState
  import opened Bpmn
  import opened Instances
  import opened Engine
  import opened ScopeTree
  import opened Moves
  import opened Cancellation
  import opened Completion
  import opened Activities
  import opened Steps
  import opened ErrorEffects
  import Joins
  import opened Routing
  import opened Outcomes

  // ---- waiting --------------------------------------------------------------------------------

  /** The token waits on a new open record of its own; nothing else changes. */
  predicate HandsOut(s: Instance, s': Instance, id: TokenId, kind: WaitKind, state: TokenState)
    requires id in s.tokens
  {
    s' == s.(tokens := s.tokens[id := s.tokens[id].(state := state, ref := RecordRef(s.nextId))],
             waits := s.waits[s.nextId := WaitRecord(kind, id, true)], nextId := s.nextId + 1)
  }

  /** The token waits on a new job or subscription for its element; nothing else changes. */
  predicate Awaiting(s: Instance, s': Instance, id: TokenId, kind: RecordKind, state: TokenState)
    requires id in s.tokens
  {
    s' == s.(tokens := s.tokens[id := s.tokens[id].(state := state, ref := RecordRef(s.nextId))],
             events := s.events[s.nextId := EventRecord(kind, id, s.tokens[id].element)], nextId := s.nextId + 1)
  }

  /** A catch event waits for its timer, message or signal; a timer that cannot be scheduled, or
      an event there is nothing to wait for, is an incident. */
  predicate CatchesEvent(s: Instance, s': Instance, id: TokenId, el: Element, o: Oracle)
    requires id in s.tokens
  {
    if el.event.None? then OnIncident(s, s', id)
    else match el.event.value.kind
      case Timer => if o.timerOk(s.tokens[id].element) then Awaiting(s, s', id, TimerJob, WaitTimer) else OnIncident(s, s', id)
      case Message => Awaiting(s, s', id, SubscriptionRecord, WaitMessage)
      case Signal => Awaiting(s, s', id, SubscriptionRecord, WaitSignal)
      case _ => OnIncident(s, s', id)
  }

  /** A receive task waits for its message, by a subscription if there is an event to subscribe to. */
  predicate Receives(s: Instance, s': Instance, id: TokenId, el: Element, o: Oracle)
    requires id in s.tokens
  {
    if el.event.None? || el.event.value.kind.Error? || el.event.value.kind.Terminate? then
      s' == s.(tokens := s.tokens[id := s.tokens[id].(state := WaitMessage)])
    else if !el.event.value.kind.Timer? then Awaiting(s, s', id, SubscriptionRecord, WaitMessage)
    else if o.timerOk(s.tokens[id].element) then Awaiting(s, s', id, TimerJob, WaitMessage)
    else OnIncident(s, s', id)
  }

  /** A call activity waits for a child instance under a new ID. */
  predicate Calls(s: Instance, s': Instance, id: TokenId, o: Oracle)
    requires id in s.tokens
  {
    if o.calleeOk then
      s' == s.(tokens := s.tokens[id := s.tokens[id].(state := WaitChild, ref := RecordRef(s.nextId))], nextId := s.nextId + 1)
    else OnIncident(s, s', id)
  }

  // ---- working --------------------------------------------------------------------------------

  /** A plain failure is retried by a job of the token while attempts are left, and is an incident
      after that. */
  predicate RetriesOrStops(s: Instance, s': Instance, id: TokenId, o: Oracle)
    requires id in s.tokens
  {
    if o.retriesLeft then OnJob(s, s', id) else OnIncident(s, s', id)
  }

  ghost predicate Placed(g: Graph, s: Instance, id: TokenId, el: Element) {
    On(g, s, id, el) && |s.tokens[id].path| == |s.tokens[id].owners|
  }

  /** Scripts, rules and plain services. */
  ghost predicate Works(g: Graph, s: Instance, s': Instance, id: TokenId, el: Element, o: Oracle)
    requires Placed(g, s, id, el)
  {
    match o.outcome
    case Succeeds => Finishes(g, s, s', id, el, o)
    case FailsPlain => RetriesOrStops(s, s', id, o)
    case Throws(code) => ErrorThrown(g, s, s', id, code)
    case Missing => OnIncident(s, s', id)
  }

  /** After an agent's answer: a failed review counts as a failure of the work, a good one that
      needs approval becomes a user task, and otherwise the activity finishes. */
  ghost predicate Reviewed(g: Graph, s: Instance, s': Instance, id: TokenId, el: Element, o: Oracle)
    requires On(g, s, id, el) && el.agent.Some?
  {
    if !o.reviewOk then RetriesOrStops(s, s', id, o)
    else if el.agent.value.approval then HandsOut(s, s', id, TaskWait, WaitTask)
    else Finishes(g, s, s', id, el, o)
  }

  /** An agent task stops on an exhausted budget, goes to the job queue if it is external, and is
      worked on in place otherwise. */
  ghost predicate Consults(g: Graph, s: Instance, s': Instance, id: TokenId, el: Element, o: Oracle)
    requires Placed(g, s, id, el) && el.agent.Some?
  {
    if !o.budgetOk then OnIncident(s, s', id)
    else if el.agent.value.external then HandsOut(s, s', id, AgentWait, WaitAgent)
    else match o.outcome
      case Succeeds => Reviewed(g, s, s', id, el, o)
      case FailsPlain => RetriesOrStops(s, s', id, o)
      case Throws(code) => ErrorThrown(g, s, s', id, code)
      case Missing => OnIncident(s, s', id)
  }

  /** The work of each kind of activity. */
  ghost predicate Performs(g: Graph, s: Instance, s': Instance, id: TokenId, el: Element, o: Oracle)
    requires Placed(g, s, id, el)
  {
    match el.etype
    case UserTask => if o.fieldsOk then HandsOut(s, s', id, TaskWait, WaitTask) else OnIncident(s, s', id)
    case ServiceTask => ServiceDone(g, s, s', id, el, o)
    case SendTask => ServiceDone(g, s, s', id, el, o)
    case ScriptTask => Works(g, s, s', id, el, o)
    case RuleTask => Works(g, s, s', id, el, o)
    case ReceiveTask => Receives(s, s', id, el, o)
    case ManualTask => Finishes(g, s, s', id, el, o)
    case PlainTask => Finishes(g, s, s', id, el, o)
    case SubProcess => Enters(g, s, s', id, o)
    case CallActivity => Calls(s, s', id, o)
    case _ => false
  }

  ghost predicate ServiceDone(g: Graph, s: Instance, s': Instance, id: TokenId, el: Element, o: Oracle)
    requires Placed(g, s, id, el)
  {
    if el.agent.Some? then Consults(g, s, s', id, el, o)
    else if el.topic then HandsOut(s, s', id, ExternalWait, WaitExternal)
    else Works(g, s, s', id, el, o)
  }

  lemma WorksIs(g: Graph, s: Instance, x: TokenId, el: Element, o: Oracle)
    requires ValidGraph(g) && Ready(g, s, x) && !ScopeWait(s.tokens[x]) && Placed(g, s, x, el)
    ensures Works(g, s, Work(g, s, x, o), x, el, o)
  {
    hide Finishes, ErrorThrown, FinishSync, ThrowError, Ready, ValidGraph;
    FinishesIs(g, s, x, el, o);
    if o.outcome.Throws? {
      ErrorThrownIs(g, s, x, o.outcome.code);
    }
  }

  lemma ConsultsIs(g: Graph, s: Instance, x: TokenId, el: Element, o: Oracle)
    requires ValidGraph(g) && Ready(g, s, x) && !ScopeWait(s.tokens[x]) && Placed(g, s, x, el) && el.agent.Some?
    ensures Consults(g, s, AgentTask(g, s, x, el.agent.value, o), x, el, o)
  {
    hide Finishes, ErrorThrown, FinishSync, ThrowError, Ready, ValidGraph;
    FinishesIs(g, s, x, el, o);
    if o.outcome.Throws? {
      ErrorThrownIs(g, s, x, o.outcome.code);
    }
  }

  lemma CatchingAwaits(s: Instance, x: TokenId, state: TokenState, kind: EventKind, o: Oracle)
    requires x in s.tokens && !kind.Error? && !kind.Terminate?
    ensures if kind.Timer? && !o.timerOk(s.tokens[x].element) then OnIncident(s, Catching(s, x, state, kind, o), x)
            else Awaiting(s, Catching(s, x, state, kind, o), x, if kind.Timer? then TimerJob else SubscriptionRecord, state)
  {
    var s1 := SetToken(s, x, s.tokens[x].(state := state));
    if kind.Timer? && !o.timerOk(s.tokens[x].element) {
      assert Catching(s, x, state, kind, o) == RaiseIncident(s1, x);
      hide Catching;
    } else {
      var s2 := Register(s1, if kind.Timer? then TimerJob else SubscriptionRecord, x, s.tokens[x].element);
      assert Catching(s, x, state, kind, o) == SetToken(s2, x, s2.tokens[x].(ref := RecordRef(s.nextId)));
      hide Catching;
    }
  }

  lemma ReceivesIs(s: Instance, x: TokenId, el: Element, o: Oracle)
    requires x in s.tokens
    ensures Receives(s, Catching(s, x, WaitMessage, if el.event.Some? then el.event.value.kind else Terminate, o), x, el, o)
  {
    if el.event.Some? && !el.event.value.kind.Error? && !el.event.value.kind.Terminate? {
      CatchingAwaits(s, x, WaitMessage, el.event.value.kind, o);
      hide Catching, Awaiting, OnIncident;
    }
  }

  lemma CatchesEventIs(s: Instance, x: TokenId, el: Element, o: Oracle)
    requires x in s.tokens
    ensures CatchesEvent(s, CatchEvent(s, x, el, o), x, el, o)
  {
    if el.event.Some? {
      var kind := el.event.value.kind;
      if kind.Timer? {
        CatchingAwaits(s, x, WaitTimer, kind, o);
      } else if kind.Message? {
        CatchingAwaits(s, x, WaitMessage, kind, o);
      } else if kind.Signal? {
        CatchingAwaits(s, x, WaitSignal, kind, o);
      }
    }
    hide Catching, Awaiting;
  }

  lemma ServiceDoneIs(g: Graph, s: Instance, x: TokenId, el: Element, o: Oracle)
    requires ValidGraph(g) && Ready(g, s, x) && !ScopeWait(s.tokens[x]) && Placed(g, s, x, el)
    ensures ServiceDone(g, s, ServiceLike(g, s, x, el, o), x, el, o)
  {
    hide Works, Consults, Work, AgentTask, Ready, ValidGraph;
    WorksIs(g, s, x, el, o);
    if el.agent.Some? {
      ConsultsIs(g, s, x, el, o);
    }
  }

  lemma UserOrCallIs(s: Instance, x: TokenId, o: Oracle)
    requires x in s.tokens
    ensures HandsOut(s, OpenWait(s, x, TaskWait), x, TaskWait, WaitTask)
    ensures OnIncident(s, RaiseIncident(s, x), x) && Calls(s, EnterCall(s, x, o), x, o)
  {
  }

  lemma WaitPerforms(g: Graph, s: Instance, x: TokenId, el: Element, o: Oracle)
    requires Ready(g, s, x) && Placed(g, s, x, el) && el.etype in {UserTask, ReceiveTask, SubProcess, CallActivity}
    ensures Performs(g, s, Dispatch(g, s, x, el, o), x, el, o)
  {
    hide Enters, Receives, EnterSub, Catching, Dispatch, Ready, HandsOut, OpenWait, Calls, EnterCall, OnIncident, RaiseIncident;
    DispatchIs(g, s, x, el, o);
    UserOrCallIs(s, x, o);
    ReceivesIs(s, x, el, o);
    ReadyCounted(g, s, x);
    EnterSubEffect(g, s, x, o);
  }

  lemma WorkPerforms(g: Graph, s: Instance, x: TokenId, el: Element, o: Oracle)
    requires ValidGraph(g) && Ready(g, s, x) && !ScopeWait(s.tokens[x]) && Placed(g, s, x, el)
    requires el.etype in {ServiceTask, SendTask, ScriptTask, RuleTask, ManualTask, PlainTask}
    ensures Performs(g, s, Dispatch(g, s, x, el, o), x, el, o)
  {
    hide Finishes, Works, ServiceDone, FinishSync, Work, ServiceLike, Dispatch, Ready, ValidGraph;
    DispatchIs(g, s, x, el, o);
    FinishesIs(g, s, x, el, o);
    WorksIs(g, s, x, el, o);
    ServiceDoneIs(g, s, x, el, o);
  }

  lemma PerformsIs(g: Graph, s: Instance, x: TokenId, el: Element, o: Oracle)
    requires ValidGraph(g) && Ready(g, s, x) && !ScopeWait(s.tokens[x]) && Placed(g, s, x, el) && IsActivity(el)
    ensures Performs(g, s, Dispatch(g, s, x, el, o), x, el, o)
  {
    hide Performs, Dispatch, Ready, ValidGraph;
    if el.etype in {UserTask, ReceiveTask, SubProcess, CallActivity} {
      WaitPerforms(g, s, x, el, o);
    } else {
      WorkPerforms(g, s, x, el, o);
    }
  }

  lemma ReadyCounted(g: Graph, s: Instance, x: TokenId)
    requires Ready(g, s, x)
    ensures Routing.Counted(s)
  {
    Joins.CoreCounted(g, s);
  }

  // ---- loops ----------------------------------------------------------------------------------

  /** New iterations numbered from 0 stand beside the coordinator; nothing else changes. */
  ghost predicate Iterations(s: Instance, s': Instance, m: TokenId, from: nat, n: nat)
    requires m in s.tokens
  {
    var t := s.tokens[m];
    && s'.nextId == s.nextId + n
    && (forall u :: u in s'.tokens <==> u in s.tokens || s.nextId <= u < s.nextId + n)
    && (forall u :: u in s.tokens ==> s'.tokens[u] == s.tokens[u])
    && (forall u :: s.nextId <= u < s.nextId + n ==>
          s'.tokens[u] == Token(t.element, Active, t.path, t.owners, 0, NoRef, m, t.element, from + (u - s.nextId)))
    && s'.events == s.events && SameBooks(s, s')
  }

  lemma {:induction false} IterationsSpawned(g: Graph, s: Instance, m: TokenId, from: nat, n: nat)
    requires m in s.tokens && TokensBelow(s)
    ensures Iterations(s, SpawnIterations(g, s, m, from, n), m, from, n)
    decreases n
  {
    if n > 0 {
      IterationsSpawned(g, SpawnIteration(g, s, m, from), m, from + 1, n - 1);
    }
  }

  /** A loop over nothing is over at once. Otherwise the token becomes the coordinator, the
      boundary events are registered for it, and the first iteration of a sequential loop, or all
      of a parallel one, start. A collection that does not evaluate is an incident. */
  ghost predicate StartsLoop(g: Graph, s: Instance, s': Instance, id: TokenId, el: Element, o: Oracle)
    requires On(g, s, id, el) && el.multi.Some?
  {
    if o.items.None? then OnIncident(s, s', id)
    else if o.items.value == 0 then Completes(g, s, s', id, el, o)
    else
      var first := if el.multi.value.sequential then 1 else o.items.value;
      var s1 := s.(tokens := s.tokens[id := s.tokens[id].(state := WaitMulti, ref := NoRef)],
                   multi := s.multi[id := MultiState(o.items.value, 0, first, 0)]);
      Begins(g, s1, s', id, first, o)
  }

  /** The boundary events are registered for the coordinator, then its first iterations stand there. */
  ghost predicate Begins(g: Graph, s: Instance, s': Instance, m: TokenId, n: nat, o: Oracle)
    requires m in s.tokens && s.tokens[m].path in g
  {
    exists s1 :: BoundariesTaken(g, s, s1, m, o) && m in s1.tokens && Iterations(s1, s', m, 0, n)
  }

  lemma StartsLoopIs(g: Graph, s: Instance, x: TokenId, el: Element, o: Oracle)
    requires ValidGraph(g) && Ready(g, s, x) && On(g, s, x, el) && el.multi.Some?
    ensures StartsLoop(g, s, StartMulti(g, s, x, el.multi.value, o), x, el, o)
  {
    CompletesIs(g, s, x, el, o);
    if o.items.Some? && o.items.value != 0 {
      OpenedIs(s, x, o.items.value, if el.multi.value.sequential then 1 else o.items.value);
      hide Completes, CompleteActivity, StartMulti, Ready, ValidGraph, Begins, Opened;
      LoopBegins(g, s, x, el, o);
    }
  }

  lemma OpenedCounted(g: Graph, s: Instance, x: TokenId, n: nat, first: nat)
    requires Routing.Counted(s) && x in s.tokens && s.tokens[x].path in g
    ensures var s1 := Opened(s, x, n, first); Routing.Counted(s1) && x in s1.tokens && s1.tokens[x].path in g
  {
  }

  lemma OpenedIs(s: Instance, x: TokenId, n: nat, first: nat)
    requires x in s.tokens
    ensures Opened(s, x, n, first) == s.(tokens := s.tokens[x := s.tokens[x].(state := WaitMulti, ref := NoRef)],
                                         multi := s.multi[x := MultiState(n, 0, first, 0)])
  {
  }

  lemma LoopBegins(g: Graph, s: Instance, x: TokenId, el: Element, o: Oracle)
    requires Ready(g, s, x) && On(g, s, x, el) && el.multi.Some? && o.items.Some? && o.items.value != 0
    ensures var first := if el.multi.value.sequential then 1 else o.items.value;
      Begins(g, Opened(s, x, o.items.value, first), StartMulti(g, s, x, el.multi.value, o), x, first, o)
  {
    var first := if el.multi.value.sequential then 1 else o.items.value;
    ReadyCounted(g, s, x);
    OpenedCounted(g, s, x, o.items.value, first);
    hide Ready, StartMulti, RegisterBoundaries, SpawnIterations, Begins, Opened, Routing.Counted, ElementOf;
    StartMultiIs(g, s, x, el.multi.value, o);
    BeginsIs(g, Opened(s, x, o.items.value, first), x, first, o);
  }

  lemma BeginsIs(g: Graph, s: Instance, x: TokenId, n: nat, o: Oracle)
    requires x in s.tokens && s.tokens[x].path in g && Routing.Counted(s)
    ensures x in RegisterBoundaries(g, s, x, o).tokens
    ensures Begins(g, s, SpawnIterations(g, RegisterBoundaries(g, s, x, o), x, 0, n), x, n, o)
  {
    var s1 := RegisterBoundaries(g, s, x, o);
    hide RegisterBoundaries, Iterations, SpawnIterations;
    BoundariesRegistered(g, s, x, o);
    RegisteredBelow(g, s, s1, x, o);
    IterationsSpawned(g, s1, x, 0, n);
  }

  lemma RegisteredBelow(g: Graph, s: Instance, s': Instance, x: TokenId, o: Oracle)
    requires x in s.tokens && s.tokens[x].path in g && TokensBelow(s) && BoundariesTaken(g, s, s', x, o)
    ensures TokensBelow(s')
  {
  }

  // ---- activities -----------------------------------------------------------------------------

  /** The activity's boundary events are registered first, unless the token is an iteration: its
      coordinator has done so. */
  ghost predicate Prepares(g: Graph, s: Instance, s1: Instance, id: TokenId, o: Oracle)
    requires id in s.tokens && s.tokens[id].path in g
  {
    if s.tokens[id].parent != 0 then s1 == s else BoundariesTaken(g, s, s1, id, o)
  }

  /** A looping activity starts its loop, inputs that do not evaluate are an incident, and anything
      else is prepared and worked on. */
  ghost predicate Acts(g: Graph, s: Instance, s': Instance, id: TokenId, el: Element, o: Oracle)
    requires Placed(g, s, id, el)
  {
    if el.multi.Some? && s.tokens[id].parent == 0 then StartsLoop(g, s, s', id, el, o)
    else if !o.inputsOk then OnIncident(s, s', id)
    else exists s1 :: Prepares(g, s, s1, id, o) && Placed(g, s1, id, el) && Performs(g, s1, s', id, el, o)
  }

  lemma ActsIs(g: Graph, s: Instance, x: TokenId, el: Element, o: Oracle)
    requires ValidGraph(g) && Ready(g, s, x) && s.tokens[x].state.Active? && Placed(g, s, x, el) && IsActivity(el)
    ensures Acts(g, s, Activity(g, s, x, el, o), x, el, o)
  {
    NoIterationHere(g, s, x);
    hide StartsLoop, Performs, Dispatch, StartMulti, ValidGraph, RegisterBoundaries;
    if el.multi.Some? && s.tokens[x].parent == 0 {
      StartsLoopIs(g, s, x, el, o);
    } else if o.inputsOk {
      if s.tokens[x].parent != 0 {
        PerformsIs(g, s, x, el, o);
        assert Prepares(g, s, s, x, o);
      } else {
        var s1 := RegisterBoundaries(g, s, x, o);
        PreparedPerforms(g, s, x, el, o);
        assert Prepares(g, s, s1, x, o) && Placed(g, s1, x, el) && Performs(g, s1, Activity(g, s, x, el, o), x, el, o);
      }
    }
  }

  lemma PreparedPerforms(g: Graph, s: Instance, x: TokenId, el: Element, o: Oracle)
    requires ValidGraph(g) && Ready(g, s, x) && s.tokens[x].state.Active? && Placed(g, s, x, el) && IsActivity(el)
    requires s.tokens[x].parent == 0
    ensures var s1 := RegisterBoundaries(g, s, x, o);
      Prepares(g, s, s1, x, o) && Placed(g, s1, x, el) && Performs(g, s1, Dispatch(g, s1, x, el, o), x, el, o)
  {
    var s1 := RegisterBoundaries(g, s, x, o);
    ReadyCounted(g, s, x);
    BoundariesRegistered(g, s, x, o);
    RegisterBoundariesRecords(g, s, x, o);
    RegisterKeeps(g, s, s1, x);
    hide Performs, Dispatch, RegisterBoundaries, Ready, ValidGraph;
    PerformsIs(g, s1, x, el, o);
  }

  // ---- ends -----------------------------------------------------------------------------------

  /** A terminate end ends the process, or empties the scope it stands in; an error end throws; any
      other end consumes its token. Then the scope may be over. */
  ghost predicate Ends(g: Graph, s: Instance, s': Instance, id: TokenId, el: Element, o: Oracle)
    requires Placed(g, s, id, el)
  {
    var t := s.tokens[id];
    var gone := s.(tokens := s.tokens - {id});
    if el.event.None? then ScopeOver(g, gone, s', t.path, t.owners, o)
    else match el.event.value.kind
      case Terminate =>
        if t.path == [] then ProcessOver(s, s')
        else exists s1 :: Cleared(s, s1, Within(s, t.path, t.owners)) && ScopeOver(g, s1, s', t.path, t.owners, o)
      case Error => Escapes(g, gone, s', t.path, t.owners, el.event.value.code)
      case _ => ScopeOver(g, gone, s', t.path, t.owners, o)
  }

  lemma EndsIs(g: Graph, s: Instance, x: TokenId, el: Element, o: Oracle)
    requires ValidGraph(g) && Inv(g, s) && s.status.Running? && Ready(g, s, x) && Placed(g, s, x, el) && el.etype.EndEvent?
    ensures Ends(g, s, ReachEnd(g, s, x, el, o), x, el, o)
  {
    var t := s.tokens[x];
    NoIterationHere(g, s, x);
    RemoveCuts(g, s, x);
    hide Ends, ReachEnd, Cut, Inv, Ready, ValidGraph, Advances, Core;
    if el.event.Some? && el.event.value.kind.Terminate? {
      TerminateEnds(g, s, x, el, o);
    } else {
      OtherEnds(g, s, x, el, o);
    }
  }

  lemma OtherEnds(g: Graph, s: Instance, x: TokenId, el: Element, o: Oracle)
    requires ValidGraph(g) && Placed(g, s, x, el) && !(el.event.Some? && el.event.value.kind.Terminate?)
    requires Cut(g, DeleteToken(s, x), s.tokens[x].path, s.tokens[x].owners, 0)
    ensures Ends(g, s, ReachEnd(g, s, x, el, o), x, el, o)
  {
    var t := s.tokens[x];
    hide ScopeOver, Escapes, CheckScope, Propagate, ValidGraph, Core;
    if el.event.Some? && el.event.value.kind.Error? {
      EscapesIs(g, DeleteToken(s, x), t.path, t.owners, el.event.value.code);
    } else {
      ScopeOverIs(g, DeleteToken(s, x), t.path, t.owners, o);
    }
  }

  lemma TerminateEnds(g: Graph, s: Instance, x: TokenId, el: Element, o: Oracle)
    requires ValidGraph(g) && Inv(g, s) && s.status.Running? && Placed(g, s, x, el)
    requires el.event.Some? && el.event.value.kind.Terminate?
    ensures Ends(g, s, ReachEnd(g, s, x, el, o), x, el, o)
  {
    hide ScopeOver, CheckScope, Inv, ValidGraph;
    if s.tokens[x].path != [] {
      TerminateEmpties(g, s, x, o);
    }
  }

  lemma TerminateEmpties(g: Graph, s: Instance, x: TokenId, o: Oracle)
    requires ValidGraph(g) && Inv(g, s) && s.status.Running? && x in s.tokens && |s.tokens[x].path| == |s.tokens[x].owners|
    ensures var t := s.tokens[x]; var s' := CheckScope(g, KillScope(s, t.path, t.owners, 0), t.path, t.owners, o);
      exists s1 :: Cleared(s, s1, Within(s, t.path, t.owners)) && ScopeOver(g, s1, s', t.path, t.owners, o)
  {
    var t := s.tokens[x];
    var s1 := KillScope(s, t.path, t.owners, 0);
    assert TokenOk(g, s, x);
    ScopeSetIs(s, t.path, t.owners, 0);
    hide Cleared, ScopeOver, CheckScope, ValidGraph, Advances, NoStuck, Routed, Within;
    KillScopeCuts(g, s, t.path, t.owners, 0, None, 0);
    SweepClears(g, s, Within(s, t.path, t.owners), 0);
    ScopeOverIs(g, s1, t.path, t.owners, o);
  }

  // ---- gateways -------------------------------------------------------------------------------

  /** A parallel gateway with one way in forks; one with several waits until every other way in has
      a token, then consumes one of each and forks. */
  ghost predicate Synchronizes(g: Graph, s: Instance, s': Instance, id: TokenId, el: Element)
    requires Placed(g, s, id, el)
  {
    var t := s.tokens[id];
    var at := Joins.Place(t.element, t.path, t.owners);
    if |el.incoming| <= 1 then Leaves(g, s, s', id, Filter(el.outgoing, AnyFlow(g[t.path])))
    else if Joins.Complete(s, at, id, el.incoming) then Joins.ForksOn(g, s, s', at, id, el)
    else s' == s.(tokens := s.tokens[id := t.(state := TokenState.Joining)])
  }

  lemma SynchronizesIs(g: Graph, s: Instance, x: TokenId, el: Element, o: Oracle)
    requires Core(g, s) && Placed(g, s, x, el) && s.tokens[x].state.Active?
    ensures Synchronizes(g, s, RouteParallel(g, s, x, el, o), x, el)
  {
    var t := s.tokens[x];
    var at := Joins.Place(t.element, t.path, t.owners);
    Joins.CoreCounted(g, s);
    hide Core, Leaves, ForkAll, Joins.Complete, Joins.ForksOn, MergeChoice;
    if |el.incoming| <= 1 {
      ForkEffect(g, s, x, el);
    } else {
      Joins.FiresWhen(s, x, at, el);
      if Joins.Complete(s, at, x, el.incoming) {
        Joins.FiringForks(g, s, x, at, el, Merged(Arrive(s, x), x, o));
      }
    }
  }

  /** An inclusive gateway with several ways in waits while another token can still reach it, then
      consumes all that wait; the token leaves over its open flows. */
  ghost predicate Gathers(g: Graph, s: Instance, s': Instance, id: TokenId, el: Element, o: Oracle)
    requires Placed(g, s, id, el)
  {
    var t := s.tokens[id];
    var at := Joins.Place(t.element, t.path, t.owners);
    if |el.incoming| <= 1 then LeavesOver(g, s, s', id, el, o)
    else if Joins.Unreachable(g[t.path], s, id, at) then
      id !in Joins.AtJoin(s, at) && LeavesOver(g, s.(tokens := s.tokens - Joins.AtJoin(s, at)), s', id, el, o)
    else s' == s.(tokens := s.tokens[id := t.(state := TokenState.Joining)])
  }

  lemma GathersIs(g: Graph, s: Instance, x: TokenId, el: Element, o: Oracle)
    requires ValidGraph(g) && Inv(g, s) && s.status.Running? && Placed(g, s, x, el) && s.tokens[x].state.Active?
    requires el.etype.InclusiveGateway?
    ensures Gathers(g, s, RouteInclusive(g, s, x, el, o), x, el, o)
  {
    if |el.incoming| <= 1 {
      Joins.CoreCounted(g, s);
      hide LeavesOver, Inv, ValidGraph, TakeOutgoing, Joins.Unreachable;
      TakeOutgoingEffect(g, s, x, el, o);
    } else {
      hide LeavesOver, Inv, ValidGraph, RouteInclusive, Joins.Unreachable;
      Joins.InclusiveEffect(g, s, x, el, o);
    }
  }

  // ---- any step -------------------------------------------------------------------------------

  /** What a step makes of an instance, by the kind of element the token stands on. */
  ghost predicate StepsTo(g: Graph, s: Instance, s': Instance, id: TokenId, el: Element, o: Oracle)
    requires Placed(g, s, id, el)
  {
    match el.etype
    case StartEvent => LeavesOver(g, s, s', id, el, o)
    case BoundaryEvent => LeavesOver(g, s, s', id, el, o)
    case IntermediateThrow => LeavesOver(g, s, s', id, el, o)
    case EndEvent => Ends(g, s, s', id, el, o)
    case IntermediateCatch => CatchesEvent(s, s', id, el, o)
    case ExclusiveGateway => Chooses(g, s, s', id, el, o)
    case ParallelGateway => Synchronizes(g, s, s', id, el)
    case InclusiveGateway => Gathers(g, s, s', id, el, o)
    case EventBasedGateway => AwaitsTargets(g, s, s', id, el, o)
    case _ => Acts(g, s, s', id, el, o)
  }

  lemma FlowSteps(g: Graph, s: Instance, x: TokenId, el: Element, o: Oracle)
    requires ValidGraph(g) && Inv(g, s) && s.status.Running? && Placed(g, s, x, el) && s.tokens[x].state.Active?
    requires el.etype in {StartEvent, BoundaryEvent, IntermediateThrow, IntermediateCatch, EndEvent}
    ensures StepsTo(g, s, Step(g, s, x, o), x, el, o)
  {
    hide LeavesOver, Ends, CatchesEvent, Step, TakeOutgoing, ReachEnd, CatchEvent, Inv, Ready, ValidGraph;
    StepIs(g, s, x, el, o);
    LeafReady(g, s, x);
    ReadyCounted(g, s, x);
    TakeOutgoingEffect(g, s, x, el, o);
    CatchesEventIs(s, x, el, o);
    if el.etype.EndEvent? {
      EndsIs(g, s, x, el, o);
    }
  }

  lemma GatewaySteps(g: Graph, s: Instance, x: TokenId, el: Element, o: Oracle)
    requires ValidGraph(g) && Inv(g, s) && s.status.Running? && Placed(g, s, x, el) && s.tokens[x].state.Active?
    requires el.etype in {ExclusiveGateway, ParallelGateway, InclusiveGateway, EventBasedGateway}
    ensures StepsTo(g, s, Step(g, s, x, o), x, el, o)
  {
    ReadyCore(g, s, x);
    hide StepsTo, Step, Inv, Ready, ValidGraph, Core;
    if el.etype in {ParallelGateway, InclusiveGateway} {
      JoinSteps(g, s, x, el, o);
    } else {
      ReadyCounted(g, s, x);
      ChoiceSteps(g, s, x, el, o);
    }
  }

  lemma ChoiceSteps(g: Graph, s: Instance, x: TokenId, el: Element, o: Oracle)
    requires Routing.Counted(s) && Placed(g, s, x, el) && el.etype in {ExclusiveGateway, EventBasedGateway}
    ensures StepsTo(g, s, Step(g, s, x, o), x, el, o)
  {
    hide Chooses, AwaitsTargets, Step, RouteExclusive, RouteEventBased;
    ChoiceStepIs(g, s, x, el, o);
    if el.etype.ExclusiveGateway? {
      ExclusiveEffect(g, s, x, el, o);
    } else {
      EventBasedEffect(g, s, x, el, o);
    }
  }

  lemma JoinSteps(g: Graph, s: Instance, x: TokenId, el: Element, o: Oracle)
    requires ValidGraph(g) && Inv(g, s) && Core(g, s) && s.status.Running? && Placed(g, s, x, el) && s.tokens[x].state.Active?
    requires el.etype in {ParallelGateway, InclusiveGateway}
    ensures StepsTo(g, s, Step(g, s, x, o), x, el, o)
  {
    hide Synchronizes, Gathers, Step, RouteParallel, RouteInclusive, Inv, ValidGraph, Core;
    if el.etype.ParallelGateway? {
      ParallelStepIs(g, s, x, el, o);
      SynchronizesIs(g, s, x, el, o);
    } else {
      InclusiveStepIs(g, s, x, el, o);
      GathersIs(g, s, x, el, o);
    }
  }

  lemma ReadyCore(g: Graph, s: Instance, x: TokenId)
    requires Inv(g, s) && s.status.Running? && x in s.tokens && s.tokens[x].state.Active?
    ensures Core(g, s) && Ready(g, s, x)
  {
    LeafReady(g, s, x);
  }

  /** Every step of an active token in a sound instance does what its element says. */
  lemma StepEffect(g: Graph, s: Instance, x: TokenId, el: Element, o: Oracle)
    requires ValidGraph(g) && Inv(g, s) && s.status.Running? && x in s.tokens && s.tokens[x].state.Active?
    requires ElementOf(g, s.tokens[x]) == Some(el)
    ensures Placed(g, s, x, el) && StepsTo(g, s, Step(g, s, x, o), x, el, o)
  {
    ReadyCore(g, s, x);
    WorkerStands(g, s, x);
    hide StepsTo, Step, Acts, Activity, Inv, Ready, ValidGraph, Core;
    if IsActivity(el) {
      ActivitySteps(g, s, x, el, o);
    } else if el.etype in {ExclusiveGateway, ParallelGateway, InclusiveGateway, EventBasedGateway} {
      GatewaySteps(g, s, x, el, o);
    } else {
      OtherTypes(el.etype);
      FlowSteps(g, s, x, el, o);
    }
  }

  lemma OtherTypes(etype: ElementType)
    ensures || etype in {StartEvent, BoundaryEvent, IntermediateThrow, IntermediateCatch, EndEvent}
            || etype in {ExclusiveGateway, ParallelGateway, InclusiveGateway, EventBasedGateway}
            || etype in {UserTask, ServiceTask, ScriptTask, RuleTask, SendTask, ReceiveTask, ManualTask, PlainTask,
                         SubProcess, CallActivity}
  {
    match etype {
      case _ =>
    }
  }

  lemma ActivitySteps(g: Graph, s: Instance, x: TokenId, el: Element, o: Oracle)
    requires ValidGraph(g) && Ready(g, s, x) && Placed(g, s, x, el) && s.tokens[x].state.Active? && IsActivity(el)
    ensures StepsTo(g, s, Step(g, s, x, o), x, el, o)
  {
    hide Step, Acts, Activity, Ready, ValidGraph;
    StepIs(g, s, x, el, o);
    ActsIs(g, s, x, el, o);
  }

  /** A script, a rule or a plain service at work: its boundaries registered, it finishes, is retried
      by a job of its token, stops on an incident, or throws, as its work comes out. */
  lemma WorkEffect(g: Graph, s: Instance, x: TokenId, el: Element, o: Oracle)
    requires ValidGraph(g) && Inv(g, s) && s.status.Running? && x in s.tokens && s.tokens[x].state.Active?
    requires ElementOf(g, s.tokens[x]) == Some(el) && o.inputsOk && (el.multi.Some? ==> s.tokens[x].parent != 0)
    requires el.etype in {ScriptTask, RuleTask} || (el.etype in {ServiceTask, SendTask} && el.agent.None? && !el.topic)
    ensures |s.tokens[x].path| == |s.tokens[x].owners|
    ensures exists s1 :: Prepares(g, s, s1, x, o) && Placed(g, s1, x, el) && Works(g, s1, Step(g, s, x, o), x, el, o)
  {
    WorkerStands(g, s, x);
    hide StepsTo, Step, Prepares, Works, Inv, ValidGraph, Performs;
    StepEffect(g, s, x, el, o);
    var s1 := WorkStep(g, s, Step(g, s, x, o), x, el, o);
  }

  lemma WorkStep(g: Graph, s: Instance, s': Instance, x: TokenId, el: Element, o: Oracle) returns (s1: Instance)
    requires Placed(g, s, x, el) && StepsTo(g, s, s', x, el, o) && o.inputsOk && (el.multi.Some? ==> s.tokens[x].parent != 0)
    requires el.etype in {ScriptTask, RuleTask} || (el.etype in {ServiceTask, SendTask} && el.agent.None? && !el.topic)
    ensures Prepares(g, s, s1, x, o) && Placed(g, s1, x, el) && Works(g, s1, s', x, el, o)
  {
    hide Prepares, Works, StartsLoop, Consults;
    s1 :| Prepares(g, s, s1, x, o) && Placed(g, s1, x, el) && Performs(g, s1, s', x, el, o);
  }
}
