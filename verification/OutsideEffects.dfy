/** What calls from outside leave: finished and failed work, ended child instances, resolved
    incidents, fired timers, delivered messages and signals. */
module OutsideEffects {
  import opened StoreState
  import opened Bpmn
  import opened Instances
  import opened Engine
  import opened ScopeTree
  import opened Moves
  import opened Cancellation
  import opened Completion
  import opened Steps
  import opened Triggers
  import opened Effects
  import opened Runs
  import Joins
  import opened Routing
  import opened Outcomes
  import opened StepEffects

  // ---- finished work -----------------------------------------------------------------------

  /** The token the record names is still parked on it. */
  predicate ParkedOn(s: Instance, w: nat) {
    w in s.waits && s.waits[w].token in s.tokens
    && var t := s.tokens[s.waits[w].token];
       && t.ref == RecordRef(w)
       && (match s.waits[w].kind
           case TaskWait => t.state.WaitTask?
           case ExternalWait => t.state.WaitExternal?
           case AgentWait => t.state.WaitAgent?)
  }

  function ClosedAt(s: Instance, w: nat): Instance
    requires w in s.waits
  {
    s.(waits := s.waits[w := s.waits[w].(open := false)])
  }

  /** A completed user or external task completes its activity; the approval of an agent's answer
      finishes it; an agent job's answer is reviewed. */
  ghost predicate Answered(g: Graph, s: Instance, s': Instance, w: nat, el: Element, o: Oracle)
    requires w in s.waits && On(g, s, s.waits[w].token, el) && (s.waits[w].kind.AgentWait? ==> el.agent.Some?)
  {
    var id := s.waits[w].token;
    var s1 := ClosedAt(s, w);
    match s.waits[w].kind
    case ExternalWait => Completes(g, s1, s', id, el, o)
    case TaskWait => if el.agent.Some? then Finishes(g, s1, s', id, el, o) else Completes(g, s1, s', id, el, o)
    case AgentWait => Reviewed(g, s1, s', id, el, o)
  }

  /** A completion finds the token still parked on the record, and for an agent job its agent, and
      then has its whole effect; otherwise it has none. */
  lemma WaitCompletedEffect(g: Graph, s: Instance, w: nat, el: Element, o: Oracle)
    requires ValidGraph(g) && Inv(g, s) && s.status.Running?
    requires w in s.waits && s.waits[w].token in s.tokens ==> ElementOf(g, s.tokens[s.waits[w].token]) == Some(el)
    ensures var s' := WaitCompleted(g, s, w, o);
      if ParkedOn(s, w) && (s.waits[w].kind.AgentWait? ==> el.agent.Some?) then Answered(g, s, s', w, el, o) else s' == s
  {
    if ParkedOn(s, w) {
      WorkerStands(g, s, s.waits[w].token);
      ClosedReady(g, s, w);
      hide Answered, WaitCompleted, Ready, Inv, ValidGraph, Core, Advances;
      if Answerable(g, s, w) {
        AnsweredIs(g, s, w, el, o);
      } else {
        StaleCompletion(g, s, w, o);
      }
    } else {
      StaleCompletion(g, s, w, o);
    }
  }

  lemma StaleCompletion(g: Graph, s: Instance, w: nat, o: Oracle)
    requires !Answerable(g, s, w)
    ensures WaitCompleted(g, s, w, o) == s
  {
  }

  lemma AnsweredIs(g: Graph, s: Instance, w: nat, el: Element, o: Oracle)
    requires ValidGraph(g) && Answerable(g, s, w) && On(g, s, s.waits[w].token, el)
    requires Ready(g, CloseWait(s, w), s.waits[w].token) && |s.tokens[s.waits[w].token].path| == |s.tokens[s.waits[w].token].owners|
    ensures Answered(g, s, WaitCompleted(g, s, w, o), w, el, o)
  {
    var x := s.waits[w].token;
    var s1 := CloseWait(s, w);
    assert s1 == ClosedAt(s, w);
    hide Completes, Finishes, Reviewed, CompleteActivity, FinishSync, FinishAgent, Ready, ValidGraph;
    if s.waits[w].kind.AgentWait? {
      ReviewedIs(g, s1, x, el, o);
    } else {
      CompletesIs(g, s1, x, el, o);
      FinishesIs(g, s1, x, el, o);
    }
  }

  lemma ReviewedIs(g: Graph, s: Instance, x: TokenId, el: Element, o: Oracle)
    requires ValidGraph(g) && Ready(g, s, x) && Placed(g, s, x, el) && el.agent.Some?
    ensures Reviewed(g, s, FinishAgent(g, s, x, el.agent.value, o), x, el, o)
  {
    UserOrCallIs(s, x, o);
    hide Finishes, FinishSync, Ready, ValidGraph, HandsOut, OpenWait;
    FinishesIs(g, s, x, el, o);
  }

  // ---- failed work ----------------------------------------------------------------------------

  /** A failure with an error code throws it; one without leaves the record open while attempts are
      left and is an incident after that. */
  ghost predicate Failed(g: Graph, s: Instance, s': Instance, w: nat, code: nat, o: Oracle)
    requires w in s.waits && s.waits[w].token in s.tokens
    requires var t := s.tokens[s.waits[w].token]; t.path in g && |t.path| == |t.owners|
  {
    var id := s.waits[w].token;
    if code != 0 then ErrorThrown(g, ClosedAt(s, w), s', id, code)
    else if o.retriesLeft then s' == s
    else OnIncident(ClosedAt(s, w), s', id)
  }

  lemma WaitFailedEffect(g: Graph, s: Instance, w: nat, code: nat, o: Oracle)
    requires ValidGraph(g) && Inv(g, s) && s.status.Running?
    ensures var s' := WaitFailed(g, s, w, code, o);
      if ParkedOn(s, w) then
        && s.tokens[s.waits[w].token].path in g && |s.tokens[s.waits[w].token].path| == |s.tokens[s.waits[w].token].owners|
        && Failed(g, s, s', w, code, o)
      else s' == s
  {
    if ParkedOn(s, w) {
      WorkerStands(g, s, s.waits[w].token);
      ClosedReady(g, s, w);
      hide ErrorThrown, ThrowError, Ready, Inv, ValidGraph, Core, Advances;
      if code != 0 {
        ErrorThrownIs(g, CloseWait(s, w), s.waits[w].token, code);
      }
    }
  }

  // ---- child instances, incidents, jobs -----------------------------------------------------------

  predicate AwaitsCall(s: Instance, x: TokenId, child: nat) {
    x in s.tokens && s.tokens[x].state.WaitChild? && s.tokens[x].ref == RecordRef(child)
  }

  /** A child's end finishes the call activity that waits for it, and does nothing to any other. */
  lemma ChildEndedEffect(g: Graph, s: Instance, x: TokenId, child: nat, el: Element, o: Oracle)
    requires ValidGraph(g) && Inv(g, s) && s.status.Running? && (x in s.tokens ==> ElementOf(g, s.tokens[x]) == Some(el))
    ensures var s' := ChildEnded(g, s, x, child, o); if AwaitsCall(s, x, child) then Finishes(g, s, s', x, el, o) else s' == s
  {
    if AwaitsCall(s, x, child) {
      LeafReady(g, s, x);
      hide Completes, CompleteActivity, Ready, Inv, ValidGraph, Core, OnIncident, RaiseIncident, ElementOf;
      UserOrCallIs(s, x, o);
      CompletesIs(g, s, x, el, o);
    }
  }

  /** A child that could not be started is an incident of the call activity that waits for it. */
  lemma ChildLostEffect(s: Instance, x: TokenId, child: nat)
    ensures var s' := ChildLost(s, x, child); if AwaitsCall(s, x, child) then OnIncident(s, s', x) else s' == s
  {
  }

  /** The token goes on where it stands; nothing else changes. */
  predicate Resumes(s: Instance, s': Instance, id: TokenId)
    requires id in s.tokens
  {
    s' == s.(tokens := s.tokens[id := s.tokens[id].(state := Active, ref := NoRef)])
  }

  /** A job resumes its token if it still waits for that job; resolving an incident resumes the
      token it names if that is still parked. Neither does anything else. */
  lemma ResumedEffect(s: Instance, x: TokenId, e: nat, i: nat)
    ensures var s' := WorkResumed(s, x, e);
      if x in s.tokens && s.tokens[x].state.WaitRetry? && s.tokens[x].ref == RecordRef(e) then Resumes(s, s', x) else s' == s
    ensures var s' := Resolved(s, i);
      if i in s.incidents && s.incidents[i] in s.tokens && s.tokens[s.incidents[i]].state.WaitRetry?
      then Resumes(s, s', s.incidents[i]) else s' == s
  {
  }

  // ---- events ------------------------------------------------------------------------------------

  /** An interrupting boundary event interrupts its activity, another one adds a token beside it. */
  ghost predicate BoundaryGoes(s: Instance, s': Instance, id: TokenId, el: Element, b: ElementId)
    requires id in s.tokens
  {
    if el.cancelActivity then Interrupted(s, s', id, b) else Appears(s, s', b, s.tokens[id].path, s.tokens[id].owners)
  }

  lemma BoundaryEffects(g: Graph, s: Instance, id: TokenId, el: Element, b: ElementId)
    requires Core(g, s) && Linked(s, 0)
    ensures var out := BoundaryTriggered(g, s, id, el, b);
      if id in s.tokens && s.tokens[id].element == el.attachedTo then out.Some? && BoundaryGoes(s, out.value, id, el, b) else out.None?
  {
    if id in s.tokens && s.tokens[id].element == el.attachedTo && el.cancelActivity {
      HangingIs(g, s, id);
      SubtreeNotSelf(g, s, id);
      InterruptedIs(g, s, id, b, 0);
      assert CancelActivity(g, s, id) == Sweep(s, {id} + Hanging(s, id), Hanging(s, id));
    }
  }

  /** An interrupting event sub-process empties the scope around it, but for what runs inside it
      already, and drops the record that fired; then one token stands at its start. */
  ghost predicate EventSubGoes(s: Instance, s': Instance, path: Path, owners: seq<TokenId>, sub: ElementId, start: ElementId,
                               interrupting: bool, e: nat) {
    if !interrupting then Appears(s, s', start, path + [sub], owners + [0])
    else exists s1 :: Cleared(s, s1, WithinBut(s, path, owners, sub))
                      && Appears(s1.(events := s1.events - {e}), s', start, path + [sub], owners + [0])
  }

  lemma EventSubEffects(g: Graph, s: Instance, owner: TokenId, sub: ElementId, start: ElementId, interrupting: bool, e: nat)
    requires Core(g, s) && Linked(s, 0) && sub != 0
    ensures var out := EventSubTriggered(s, owner, sub, start, interrupting, e);
      if owner == 0 then out.Some? && EventSubGoes(s, out.value, [], [], sub, start, interrupting, e)
      else if owner in s.tokens then
        out.Some? && EventSubGoes(s, out.value, s.tokens[owner].path + [s.tokens[owner].element], s.tokens[owner].owners + [owner],
                                  sub, start, interrupting, e)
      else out.None?
  {
    if interrupting && (owner == 0 || owner in s.tokens) {
      var path := if owner == 0 then [] else s.tokens[owner].path + [s.tokens[owner].element];
      var owners := if owner == 0 then [] else s.tokens[owner].owners + [owner];
      ScopeSetIs(s, path, owners, sub);
      SweepClears(g, s, WithinBut(s, path, owners, sub), 0);
      hide Cleared, WithinBut;
      var s1 := KillScope(s, path, owners, sub);
      assert Appears(s1.(events := s1.events - {e}), EventSubTriggered(s, owner, sub, start, interrupting, e).value,
                     start, path + [sub], owners + [0]);
    }
  }

  /** The token, its registrations gone, stands active on the event that came. */
  ghost predicate Advanced(s: Instance, s': Instance, id: TokenId, element: ElementId)
    requires id in s.tokens
  {
    exists s1 :: Released(s, s1, id) && s' == s1.(tokens := s1.tokens[
      id := s.tokens[id].(element := element, state := Active, ref := NoRef)])
  }

  /** The event a token waited for: a receive task finishes, and from anything else, after an
      event gateway too, the token leaves over its open flows. */
  ghost predicate GoesOnFrom(g: Graph, s: Instance, s': Instance, id: TokenId, el: Element, element: ElementId, o: Oracle)
    requires id in s.tokens
  {
    exists s1 :: Advanced(s, s1, id, element) && On(g, s1, id, el)
      && if s.tokens[id].state.WaitEvents? || !el.etype.ReceiveTask? then LeavesOver(g, s1, s', id, el, o)
         else Finishes(g, s1, s', id, el, o)
  }

  /** Does the token wait for this element's event? */
  predicate WaitsFor(t: Token, element: ElementId) {
    t.state.WaitEvents? || (t.element == element && (t.state.WaitMessage? || t.state.WaitSignal? || t.state.WaitTimer?))
  }

  lemma CaughtEffect(g: Graph, s: Instance, x: TokenId, el: Element, element: ElementId, o: Oracle)
    requires ValidGraph(g) && Inv(g, s) && s.status.Running?
    requires x in s.tokens && WaitsFor(s.tokens[x], element) ==>
      && HasElement(g, s.tokens[x].path, element) && g[s.tokens[x].path].elements[element] == el
      && el.etype in {IntermediateCatch, ReceiveTask}
    ensures var out := Caught(g, s, x, el, element, o);
      if x in s.tokens && WaitsFor(s.tokens[x], element) then out.Some? && GoesOnFrom(g, s, out.value, x, el, element, o) else out.None?
  {
    if x in s.tokens && WaitsFor(s.tokens[x], element) {
      assert TokenOk(g, s, x);
      CaughtReady(g, s, x, element);
      hide Inv, ValidGraph, Ready, Core, Advances;
      CaughtGoesOn(g, s, x, el, element, o);
    }
  }

  lemma CaughtGoesOn(g: Graph, s: Instance, x: TokenId, el: Element, element: ElementId, o: Oracle)
    requires ValidGraph(g) && x in s.tokens && WaitsFor(s.tokens[x], element)
    requires var s1 := SetToken(DropEvents(s, x), x, s.tokens[x].(element := element, state := Active, ref := NoRef));
      Ready(g, s1, x) && On(g, s1, x, el)
    ensures Caught(g, s, x, el, element, o).Some? && GoesOnFrom(g, s, Caught(g, s, x, el, element, o).value, x, el, element, o)
  {
    var s1 := SetToken(DropEvents(s, x), x, s.tokens[x].(element := element, state := Active, ref := NoRef));
    DropReleases(s, x);
    assert Advanced(s, s1, x, element);
    hide LeavesOver, Completes, TakeOutgoing, CompleteActivity, Ready, ValidGraph, Advanced, ElementOf;
    if s.tokens[x].state.WaitEvents? || !el.etype.ReceiveTask? {
      ReadyCounted(g, s1, x);
      TakeOutgoingEffect(g, s1, x, el, o);
    } else {
      CompletesIs(g, s1, x, el, o);
    }
  }

  /** What a fired record does: the boundary event, event sub-process start or catch event it names
      takes it; it is rejected where that finds nobody waiting. */
  ghost predicate EventTakes(g: Graph, s: Instance, out: Option<Instance>, r: EventRecord, p: Path, e: nat, o: Oracle)
    requires HasElement(g, p, r.element)
  {
    var el := g[p].elements[r.element];
    if el.etype.BoundaryEvent? then
      if r.token in s.tokens && s.tokens[r.token].element == el.attachedTo
      then out.Some? && BoundaryGoes(s, out.value, r.token, el, r.element) else out.None?
    else if el.etype.StartEvent? then
      if r.token == 0 then out.Some? && |p| == 1 && EventSubGoes(s, out.value, [], [], p[0], r.element, el.cancelActivity, e)
      else if r.token in s.tokens then
        var t := s.tokens[r.token];
        && out.Some? && p != [] && t.path + [t.element] == p[..|p| - 1]
        && EventSubGoes(s, out.value, p[..|p| - 1], t.owners + [r.token], p[|p| - 1], r.element, el.cancelActivity, e)
      else out.None?
    else
      if r.token in s.tokens && WaitsFor(s.tokens[r.token], r.element)
      then out.Some? && GoesOnFrom(g, s, out.value, r.token, el, r.element, o) else out.None?
  }

  lemma TriggeredEffect(g: Graph, s: Instance, r: EventRecord, p: Path, e: nat, o: Oracle)
    requires ValidGraph(g) && Inv(g, s) && s.status.Running? && RoutesTo(g, s, r, p)
    ensures EventTakes(g, s, Triggered(g, s, r, e, o), r, p, e, o)
  {
    var el := g[p].elements[r.element];
    HomeOf(g, r.element, p);
    if el.etype.BoundaryEvent? {
      BoundaryEffects(g, s, r.token, el, r.element);
    } else if el.etype.StartEvent? {
      assert EventLevel(g, p, |p| - 1) && GoodElement(g, p[..|p| - 1], p[|p| - 1]);
      assert p == p[..|p| - 1] + [p[|p| - 1]];
      EventSubEffects(g, s, r.token, p[|p| - 1], r.element, el.cancelActivity, e);
    } else {
      CaughtEffect(g, s, r.token, el, r.element, o);
    }
  }

  function OrElse(out: Option<Instance>, s: Instance): Instance {
    if out.Some? then out.value else s
  }

  /** A delivery does what its subscription says, and drops it if nobody waits any more. */
  lemma DeliveredEffect(g: Graph, s: Instance, e: nat, p: Path, o: Oracle)
    requires ValidGraph(g) && Inv(g, s) && s.status.Running? && e in s.events && RoutesTo(g, s, s.events[e], p)
    ensures exists out: Option<Instance> ::
      EventTakes(g, s, out, s.events[e], p, e, o) && Delivered(g, s, e, o) == OrElse(out, s.(events := s.events - {e}))
  {
    TriggeredEffect(g, s, s.events[e], p, e, o);
  }

  /** A fired timer that repeats and does not interrupt is scheduled again first. */
  ghost predicate TakesTimer(g: Graph, s: Instance, s': Instance, r: EventRecord, p: Path, e: nat, o: Oracle)
    requires HasElement(g, p, r.element)
  {
    var el := g[p].elements[r.element];
    var again := o.repeats && (el.etype.BoundaryEvent? || el.etype.StartEvent?) && !el.cancelActivity;
    var s1 := if again then s.(events := s.events[s.nextId := r], nextId := s.nextId + 1) else s;
    exists out: Option<Instance> :: EventTakes(g, s1, out, r, p, e, o) && s' == OrElse(out, s1)
  }

  lemma TimerFiredEffect(g: Graph, s: Instance, r: EventRecord, p: Path, e: nat, o: Oracle)
    requires ValidGraph(g) && Inv(g, s) && s.status.Running? && RoutesTo(g, s, r, p) && r.token < s.nextId && !r.kind.WorkJob?
    ensures TakesTimer(g, s, TimerFired(g, s, r, e, o), r, p, e, o)
  {
    HomeOf(g, r.element, p);
    hide EventTakes, Triggered, Inv, ValidGraph;
    if o.repeats && NonInterrupting(g, r.element) {
      ScheduledAgain(g, s, r, p);
      TriggeredEffect(g, Register(s, r.kind, r.token, r.element), r, p, e, o);
    } else {
      TriggeredEffect(g, s, r, p, e, o);
    }
  }

  lemma ScheduledAgain(g: Graph, s: Instance, r: EventRecord, p: Path)
    requires Inv(g, s) && s.status.Running? && RoutesTo(g, s, r, p) && r.token < s.nextId && !r.kind.WorkJob?
    ensures var s1 := Register(s, r.kind, r.token, r.element);
      && Inv(g, s1) && s1.status.Running? && RoutesTo(g, s1, r, p)
      && s1 == s.(events := s.events[s.nextId := r], nextId := s.nextId + 1)
  {
    assert RecordOk(g, s, r);
    hide Inv, Advances;
    ReschedulesKeep(g, s, r);
  }

  // ---- start and end -------------------------------------------------------------------------------

  /** An instance starts with one token at its start event and the registrations of the process's
      event sub-processes. */
  lemma StartedEffect(g: Graph, start: ElementId, o: Oracle)
    requires [] in g
    ensures var s := Instance.Instance(map[1 := NewToken(start, [], [])], map[], Running, false, map[], map[], map[], {}, 2);
      Appended(s, Started(g, start, o), ScopeRecords(g, [], g[[]].order, 0, o.timerOk))
  {
    SubsAppended(g, Born(start), [], g[[]].order, 0, o);
  }

  /** No tokens, open wait records, jobs or subscriptions are left. */
  predicate Terminates(s: Instance, s': Instance) {
    && s'.status.Terminated? && s'.tokens == map[] && s'.events == map[] && s'.waits.Keys == s.waits.Keys
    && (forall w :: w in s.waits ==> s'.waits[w] == s.waits[w].(open := false))
    && s' == s.(status := Terminated, tokens := map[], events := map[], waits := s'.waits)
  }

  lemma TerminatedEffect(s: Instance)
    ensures Terminates(s, TerminateInstance(s))
  {
  }
}
