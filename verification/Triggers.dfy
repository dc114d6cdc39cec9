/** What the outside world does to a running instance: fired timers, delivered messages and
    signals, finished work, resolved incidents. */
module Triggers {
  import opened StoreState
  import opened Bpmn
  import opened Instances
  import opened Engine
  import opened ScopeTree
  import opened Moves
  import opened Cancellation
  import opened Completion
  import opened Errors
  import opened Activities
  import opened Steps

  // ---- events -----------------------------------------------------------------------------

  function DropEvent(s: Instance, e: nat): Instance {
    s.(events := s.events - {e})
  }

  /** boundaryTriggered; None when the token is no longer on the activity. */
  function BoundaryTriggered(g: Graph, s: Instance, id: TokenId, el: Element, b: ElementId): Option<Instance> {
    if id !in s.tokens || s.tokens[id].element != el.attachedTo then None
    else if el.cancelActivity then
      var s1 := CancelActivity(g, s, id);
      Some(if id in s1.tokens then MoveToBoundary(s1, id, b) else s1)
    else Some(Spawn(s, b, s.tokens[id].path, s.tokens[id].owners, 0, 0, 0))
  }

  /** eventSubprocessTriggered: `sub` is the event sub-process, `owner` the token owning the
      enclosing scope (0: the process) and `e` the record that fired. */
  function EventSubTriggered(s: Instance, owner: TokenId, sub: ElementId, start: ElementId, interrupting: bool, e: nat): Option<Instance> {
    if owner != 0 && owner !in s.tokens then None
    else
      var path := if owner == 0 then [] else s.tokens[owner].path + [s.tokens[owner].element];
      var owners := if owner == 0 then [] else s.tokens[owner].owners + [owner];
      var s1 := if interrupting then DropEvent(KillScope(s, path, owners, sub), e) else s;
      Some(Spawn(s1, start, path + [sub], owners + [0], 0, 0, 0))
  }

  /** The wait of a catch event, receive task or event gateway is over. */
  function Caught(g: Graph, s: Instance, id: TokenId, el: Element, element: ElementId, o: Oracle): Option<Instance> {
    if id !in s.tokens then None
    else
      var t := s.tokens[id];
      var s1 := SetToken(DropEvents(s, id), id, t.(element := element, state := Active, ref := NoRef));
      if t.state.WaitEvents? then Some(TakeOutgoing(g, s1, id, o))
      else if t.element != element then None
      else if t.state in {WaitMessage, WaitSignal, WaitTimer} then
        Some(if !el.etype.ReceiveTask? then TakeOutgoing(g, s1, id, o)
             else if !o.outputsOk(id) then RaiseIncident(s1, id)
             else CompleteActivity(g, s1, id, o))
      else None
  }

  /** eventTriggered. */
  ghost function Triggered(g: Graph, s: Instance, r: EventRecord, e: nat, o: Oracle): Option<Instance> {
    var home := Home(g, r.element);
    if home.None? then None
    else
      var p := home.value;
      if !HasElement(g, p, r.element) then None
      else
        var el := g[p].elements[r.element];
        if el.etype.BoundaryEvent? then BoundaryTriggered(g, s, r.token, el, r.element)
        else if el.etype.StartEvent? then
          if p == [] || !EventLevel(g, p, |p| - 1) then None
          else EventSubTriggered(s, r.token, p[|p| - 1], r.element, el.cancelActivity, e)
        else Caught(g, s, r.token, el, r.element, o)
  }

  lemma HomeIs(g: Graph, s: Instance, r: EventRecord) returns (p: Path)
    requires ValidGraph(g) && RecordOk(g, s, r) && !r.kind.WorkJob?
    ensures Home(g, r.element) == Some(p) && RoutesTo(g, s, r, p)
  {
    var q :| RoutesTo(g, s, r, q);
    assert HasElement(g, q, r.element);
    p := Home(g, r.element).value;
    assert HasElement(g, p, r.element);
  }

  // ---- boundary events ----------------------------------------------------------------------

  lemma CancelFrees(g: Graph, s: Instance, x: TokenId, b: ElementId)
    requires Core(g, s) && x in s.tokens && x != 0 && s.tokens[x].parent == 0
    requires HasElement(g, s.tokens[x].path, b) && !IsEventSub(g[s.tokens[x].path].elements[b])
    ensures x in CancelActivity(g, s, x).tokens
    ensures Frees(g, s, MoveToBoundary(CancelActivity(g, s, x), x, b), x, {x} + ActivitySet(g, s, x))
  {
    assert TokenOk(g, s, x);
    SubtreeNotSelf(g, s, x);
    var kill := ActivitySet(g, s, x);
    var s' := MoveToBoundary(CancelActivity(g, s, x), x, b);
    assert s.multi - ({x} + kill) == s.multi - kill - {x};
    SweepLeaves(s, s', {x} + kill, kill, x,
                s.tokens[x].(element := b, state := Active, ref := NoRef, miChild := 0, loop := 0));
  }

  lemma InvCuts(g: Graph, s: Instance, path: Path, owners: seq<TokenId>)
    requires Inv(g, s) && s.status.Running? && ChainOk(g, s, path, owners)
    ensures Cut(g, s, path, owners, 0)
  {
  }

  /** A boundary event cancels exactly its activity, or adds one token beside it. */
  lemma BoundaryTriggeredKeeps(g: Graph, s: Instance, x: TokenId, b: ElementId)
    requires ValidGraph(g) && Inv(g, s) && s.status.Running?
    requires x in s.tokens ==> s.tokens[x].parent == 0 && HasElement(g, s.tokens[x].path, b)
                               && g[s.tokens[x].path].elements[b].etype.BoundaryEvent?
    ensures forall el :: BoundaryTriggered(g, s, x, el, b).Some? ==>
      Keeps(g, s, BoundaryTriggered(g, s, x, el, b).value)
  {
    forall el | BoundaryTriggered(g, s, x, el, b).Some? ensures Keeps(g, s, BoundaryTriggered(g, s, x, el, b).value) {
      NoZero(g, s);
      if el.cancelActivity {
        CancelFrees(g, s, x, b);
        FreedReady(g, s, MoveToBoundary(CancelActivity(g, s, x), x, b), x, {x} + ActivitySet(g, s, x), 0, None, 0);
      } else {
        var t := s.tokens[x];
        assert TokenOk(g, s, x);
        InvCuts(g, s, t.path, t.owners);
        SpawnFills(g, s, t.path, t.owners, b, t.path, t.owners);
      }
    }
  }

  // ---- event sub-processes --------------------------------------------------------------------

  lemma DropEventCut(g: Graph, s: Instance, path: Path, owners: seq<TokenId>, e: nat)
    requires Cut(g, s, path, owners, 0)
    ensures Cut(g, DropEvent(s, e), path, owners, 0) && Advances(s, DropEvent(s, e))
  {
    var s' := DropEvent(s, e);
    NoZero(g, s);
    SameTree(g, s, s');
    SpawnChain(g, s, s', path, owners);
    forall m | m in s'.multi ensures m in s'.tokens && m != 0 {
      assert TokenOk(g, s, m);
    }
    NoStuckStays(g, s, s', 0, Some(LastOwner(owners)), 0, Some(LastOwner(owners)), 0);
    LinkedStays(s, s', 0);
    RoutedStays(g, s, s', 0);
  }

  /** An event sub-process starts in the scope its owner waits on, alone if it interrupts. */
  lemma EventSubStarts(g: Graph, s: Instance, path: Path, owners: seq<TokenId>, sub: ElementId, start: ElementId,
                       interrupting: bool, e: nat)
    requires ValidGraph(g) && Inv(g, s) && s.status.Running? && ChainOk(g, s, path, owners)
    requires HasElement(g, path, sub) && IsEventSub(g[path].elements[sub])
    requires HasElement(g, path + [sub], start) && g[path + [sub]].elements[start].etype.StartEvent?
    ensures var s1 := if interrupting then DropEvent(KillScope(s, path, owners, sub), e) else s;
      Keeps(g, s, Spawn(s1, start, path + [sub], owners + [0], 0, 0, 0))
  {
    InvCuts(g, s, path, owners);
    if interrupting {
      var s0 := KillScope(s, path, owners, sub);
      KillScopeCuts(g, s, path, owners, sub, None, 0);
      DropEventCut(g, s0, path, owners, e);
      var s1 := DropEvent(s0, e);
      AdvancesTransitive(g, s, s0, s1);
      EventChain(g, s1, path, owners, sub);
      SpawnFills(g, s1, path, owners, start, path + [sub], owners + [0]);
      AdvancesTransitive(g, s, s1, Spawn(s1, start, path + [sub], owners + [0], 0, 0, 0));
    } else {
      EventChain(g, s, path, owners, sub);
      SpawnFills(g, s, path, owners, start, path + [sub], owners + [0]);
    }
  }

  lemma EventSubTriggeredKeeps(g: Graph, s: Instance, r: EventRecord, p: Path, interrupting: bool, e: nat)
    requires ValidGraph(g) && Inv(g, s) && s.status.Running? && RoutesTo(g, s, r, p)
    requires g[p].elements[r.element].etype.StartEvent?
    ensures p != []
    ensures var out := EventSubTriggered(s, r.token, p[|p| - 1], r.element, interrupting, e);
      out.Some? ==> Keeps(g, s, out.value)
  {
    var n := |p| - 1;
    assert EventLevel(g, p, n);
    assert p == p[..n] + [p[n]];
    if r.token == 0 {
      assert p[..n] == [];
      assert ChainOk(g, s, [], []);
      EventSubStarts(g, s, [], [], p[n], r.element, interrupting, e);
    } else if r.token in s.tokens {
      var t := s.tokens[r.token];
      assert TokenOk(g, s, r.token);
      EnteredChain(g, s, r.token);
      EventSubStarts(g, s, t.path + [t.element], t.owners + [r.token], p[n], r.element, interrupting, e);
    }
  }

  /** The token a claimed event sub-process trigger names still waits on the enclosing scope. */
  predicate Owns(s: Instance, owner: TokenId, scope: Path) {
    owner in s.tokens && ScopeWait(s.tokens[owner]) && s.tokens[owner].path + [s.tokens[owner].element] == scope
  }

  /** A token started in an event sub-process hangs from the owner its trigger names. */
  lemma StartNeedsOwner(g: Graph, s: Instance, owner: TokenId, p: Path, start: ElementId, interrupting: bool, e: nat)
    requires ValidGraph(g) && Core(g, s) && owner in s.tokens && owner != 0 && p != [] && HasElement(g, p, start)
    requires Core(g, EventSubTriggered(s, owner, p[|p| - 1], start, interrupting, e).value)
    ensures Owns(s, owner, p[..|p| - 1])
  {
    var t := s.tokens[owner];
    var s' := EventSubTriggered(s, owner, p[|p| - 1], start, interrupting, e).value;
    var path, owners := t.path + [t.element] + [p[|p| - 1]], t.owners + [owner] + [0];
    assert s'.tokens[s.nextId].path == path && s'.tokens[s.nextId].owners == owners;
    assert TokenOk(g, s', s.nextId) && TokenOk(g, s, owner);
    assert path == p && path[..|path| - 1] == t.path + [t.element];
    assert LevelOk(g, s', path, owners, |t.path|);
    assert owners[|t.path|] == owner;
  }

  /** A start under an owner that has moved on hangs from nothing. */
  lemma MovedOwnerBreaks(g: Graph, s: Instance, owner: TokenId, p: Path, start: ElementId, interrupting: bool, e: nat)
    requires ValidGraph(g) && Core(g, s) && owner in s.tokens && p != [] && HasElement(g, p, start)
    requires !Owns(s, owner, p[..|p| - 1])
    ensures var out := EventSubTriggered(s, owner, p[|p| - 1], start, interrupting, e);
      out.Some? && out.value.status == s.status && !Core(g, out.value)
  {
    NoZero(g, s);
    hide Core, ValidGraph;
    if Core(g, EventSubTriggered(s, owner, p[|p| - 1], start, interrupting, e).value) {
      StartNeedsOwner(g, s, owner, p, start, interrupting, e);
    }
  }

  /** A claimed trigger of an event sub-process whose owner is still there leaves the instance
      in order exactly when that owner still waits on the enclosing sub-process. */
  lemma OwnerStandsExactly(g: Graph, s: Instance, r: EventRecord, p: Path, interrupting: bool, e: nat)
    requires ValidGraph(g) && Inv(g, s) && s.status.Running? && r.token in s.tokens
    requires HasElement(g, p, r.element) && g[p].elements[r.element].etype.StartEvent?
    requires p != [] && EventLevel(g, p, |p| - 1)
    ensures var out := EventSubTriggered(s, r.token, p[|p| - 1], r.element, interrupting, e);
      out.Some? && (Inv(g, out.value) <==> Owns(s, r.token, p[..|p| - 1]))
  {
    NoZero(g, s);
    if Owns(s, r.token, p[..|p| - 1]) {
      assert RoutesTo(g, s, r, p);
      EventSubTriggeredKeeps(g, s, r, p, interrupting, e);
    } else {
      MovedOwnerBreaks(g, s, r.token, p, r.element, interrupting, e);
    }
  }

  // ---- catch events -----------------------------------------------------------------------------

  lemma CaughtShape(g: Graph, s: Instance, x: TokenId, element: ElementId)
    requires Stands(g, s, x) && HasElement(g, s.tokens[x].path, element) && !IsEventSub(g[s.tokens[x].path].elements[element])
    requires s.tokens[x].parent == 0 || element == s.tokens[x].element
    ensures LeafShape(g, s, SetToken(s, x, s.tokens[x].(element := element, state := Active, ref := NoRef)), x)
  {
  }

  /** A waiting token, its registrations dropped, stands free on the triggered element. */
  lemma CaughtReady(g: Graph, s: Instance, x: TokenId, element: ElementId)
    requires Inv(g, s) && s.status.Running? && x in s.tokens
    requires s.tokens[x].state in {WaitEvents, WaitMessage, WaitSignal, WaitTimer}
    requires HasElement(g, s.tokens[x].path, element) && !IsEventSub(g[s.tokens[x].path].elements[element])
    requires s.tokens[x].parent == 0 || element == s.tokens[x].element
    ensures var s1 := SetToken(DropEvents(s, x), x, s.tokens[x].(element := element, state := Active, ref := NoRef));
      Ready(g, s1, x) && Advances(s, s1)
  {
    LeafReady(g, s, x);
    DropEventsReady(g, s, x);
    var s0 := DropEvents(s, x);
    var s1 := SetToken(s0, x, s.tokens[x].(element := element, state := Active, ref := NoRef));
    ReadyStands(g, s0, x);
    CaughtShape(g, s0, x, element);
    LeafStep(g, s0, s1, x);
    LeafReady(g, s1, x);
    AdvancesTransitive(g, s, s0, s1);
  }

  lemma CaughtKeeps(g: Graph, s: Instance, r: EventRecord, p: Path, o: Oracle)
    requires ValidGraph(g) && Inv(g, s) && s.status.Running? && RoutesTo(g, s, r, p) && LoopAnswers(o)
    requires g[p].elements[r.element].etype in {IntermediateCatch, ReceiveTask}
    ensures var out := Caught(g, s, r.token, g[p].elements[r.element], r.element, o);
      out.Some? ==> Keeps(g, s, out.value)
  {
    var el := g[p].elements[r.element];
    var x := r.token;
    if Caught(g, s, x, el, r.element, o).Some? {
      var t := s.tokens[x];
      var s1 := SetToken(DropEvents(s, x), x, t.(element := r.element, state := Active, ref := NoRef));
      assert TokenOk(g, s, x);
      NoIterationHere(g, s, x);
      CaughtReady(g, s, x, r.element);
      if t.state.WaitEvents? || !el.etype.ReceiveTask? {
        TakeOutgoingKeeps(g, s1, x, o);
        AdvancesTransitive(g, s, s1, TakeOutgoing(g, s1, x, o));
      } else if o.outputsOk(x) {
        CompleteActivityKeeps(g, s1, x, o);
        AdvancesTransitive(g, s, s1, CompleteActivity(g, s1, x, o));
      } else {
        RaiseIncidentKeeps(g, s1, x);
        AdvancesTransitive(g, s, s1, RaiseIncident(s1, x));
      }
    }
  }

  /** Whatever fires, the instance stays in order. */
  lemma TriggeredKeeps(g: Graph, s: Instance, r: EventRecord, e: nat, o: Oracle)
    requires ValidGraph(g) && Inv(g, s) && s.status.Running? && RecordOk(g, s, r) && !r.kind.WorkJob? && LoopAnswers(o)
    ensures Triggered(g, s, r, e, o).Some? ==> Keeps(g, s, Triggered(g, s, r, e, o).value)
  {
    var p := HomeIs(g, s, r);
    var el := g[p].elements[r.element];
    if el.etype.BoundaryEvent? {
      BoundaryTriggeredKeeps(g, s, r.token, r.element);
    } else if el.etype.StartEvent? {
      EventSubTriggeredKeeps(g, s, r, p, el.cancelActivity, e);
    } else {
      CaughtKeeps(g, s, r, p, o);
    }
  }

  // ---- subscriptions and timers -------------------------------------------------------------------

  /** triggerSubscription: an orphaned subscription is removed. */
  ghost function Delivered(g: Graph, s: Instance, e: nat, o: Oracle): Instance {
    if e !in s.events then s
    else
      var out := Triggered(g, s, s.events[e], e, o);
      if out.Some? then out.value else DropEvent(s, e)
  }

  lemma DropEventKeeps(g: Graph, s: Instance, e: nat)
    requires Inv(g, s) && s.status.Running?
    ensures Keeps(g, s, DropEvent(s, e))
  {
    var s' := DropEvent(s, e);
    NoZero(g, s);
    SameTree(g, s, s');
    forall m | m in s'.multi ensures m in s'.tokens && m != 0 {
      assert TokenOk(g, s, m);
    }
    NoStuckStays(g, s, s', 0, None, 0, None, 0);
    LinkedStays(s, s', 0);
    RoutedStays(g, s, s', 0);
  }

  lemma DeliveredKeeps(g: Graph, s: Instance, e: nat, o: Oracle)
    requires ValidGraph(g) && Inv(g, s) && s.status.Running? && LoopAnswers(o)
    requires e in s.events ==> !s.events[e].kind.WorkJob?
    ensures Keeps(g, s, Delivered(g, s, e, o))
  {
    if e in s.events {
      assert RecordOk(g, s, s.events[e]);
      TriggeredKeeps(g, s, s.events[e], e, o);
      DropEventKeeps(g, s, e);
    }
  }

  /** timerFired: a repeating timer that does not interrupt is rescheduled first. */
  ghost function TimerFired(g: Graph, s: Instance, r: EventRecord, e: nat, o: Oracle): Instance {
    var s1 := if o.repeats && NonInterrupting(g, r.element) then Register(s, r.kind, r.token, r.element) else s;
    var out := Triggered(g, s1, r, e, o);
    if out.Some? then out.value else s1
  }

  ghost predicate NonInterrupting(g: Graph, id: ElementId) {
    var home := Home(g, id);
    home.Some? && HasElement(g, home.value, id)
    && g[home.value].elements[id].etype in {BoundaryEvent, StartEvent} && !g[home.value].elements[id].cancelActivity
  }

  lemma ReschedulesKeep(g: Graph, s: Instance, r: EventRecord)
    requires Inv(g, s) && s.status.Running? && RecordOk(g, s, r) && r.token < s.nextId && !r.kind.WorkJob?
    ensures Keeps(g, s, Register(s, r.kind, r.token, r.element)) && RecordOk(g, Register(s, r.kind, r.token, r.element), r)
  {
    var s' := Register(s, r.kind, r.token, r.element);
    var p :| RoutesTo(g, s, r, p);
    assert RoutesTo(g, s', r, p) && RoutesTo(g, s', EventRecord(r.kind, r.token, r.element), p);
    NoZero(g, s);
    SameTree(g, s, s');
    forall m | m in s'.multi ensures m in s'.tokens && m != 0 {
      assert TokenOk(g, s, m);
    }
    NoStuckStays(g, s, s', 0, None, 0, None, 0);
    LinkedStays(s, s', 0);
    RoutedStays(g, s, s', 0);
  }

  lemma TimerFiredKeeps(g: Graph, s: Instance, r: EventRecord, e: nat, o: Oracle)
    requires ValidGraph(g) && Inv(g, s) && s.status.Running? && LoopAnswers(o)
    requires RecordOk(g, s, r) && r.token < s.nextId && !r.kind.WorkJob?
    ensures Keeps(g, s, TimerFired(g, s, r, e, o))
  {
    if o.repeats && NonInterrupting(g, r.element) {
      var s1 := Register(s, r.kind, r.token, r.element);
      ReschedulesKeep(g, s, r);
      TriggeredKeeps(g, s1, r, e, o);
      if Triggered(g, s1, r, e, o).Some? {
        AdvancesTransitive(g, s, s1, Triggered(g, s1, r, e, o).value);
      }
    } else {
      TriggeredKeeps(g, s, r, e, o);
    }
  }

  /** An async continuation or retry reactivates the token still parked on it. */
  function WorkResumed(s: Instance, token: TokenId, e: nat): Instance {
    if token in s.tokens && s.tokens[token].state.WaitRetry? && s.tokens[token].ref == RecordRef(e)
    then Reactivated(s, token) else s
  }

  function Reactivated(s: Instance, token: TokenId): Instance
    requires token in s.tokens
  {
    SetToken(s, token, s.tokens[token].(state := Active, ref := NoRef))
  }

  lemma ReactivatedKeeps(g: Graph, s: Instance, x: TokenId)
    requires Inv(g, s) && s.status.Running? && x in s.tokens && s.tokens[x].state in {WaitRetry, WaitTimer}
    ensures Keeps(g, s, Reactivated(s, x))
  {
    LeafReady(g, s, x);
    ReadyStands(g, s, x);
    var s' := Reactivated(s, x);
    assert LeafShape(g, s, s', x);
    LeafStep(g, s, s', x);
  }

  // ---- finished work ---------------------------------------------------------------------------

  /** Is the token still parked on this wait record? Checked under the instance lock. */
  predicate StillWaits(s: Instance, w: nat) {
    w in s.waits && s.waits[w].token in s.tokens && Awaits(s.tokens[s.waits[w].token], s.waits[w].kind, w)
  }

  /** The call will find everything it needs: an agent job's element still has its agent. */
  predicate Answerable(g: Graph, s: Instance, w: nat) {
    StillWaits(s, w) &&
    (s.waits[w].kind.AgentWait? ==>
       var t := s.tokens[s.waits[w].token];
       && t.path in g && |t.path| == |t.owners|
       && ElementOf(g, t).Some? && ElementOf(g, t).value.agent.Some?)
  }

  /** CompleteTask, CompleteExternalTask and CompleteAgentJob. */
  function WaitCompleted(g: Graph, s: Instance, w: nat, o: Oracle): Instance {
    if !Answerable(g, s, w) then s
    else
      var id := s.waits[w].token;
      var s1 := CloseWait(s, w);
      var el := ElementOf(g, s.tokens[id]);
      match s.waits[w].kind
      case ExternalWait => CompleteActivity(g, s1, id, o)
      case TaskWait =>
        if el.Some? && el.value.agent.Some? then FinishSync(g, s1, id, o) else CompleteActivity(g, s1, id, o)
      case AgentWait => FinishAgent(g, s1, id, el.value.agent.value, o)
  }

  /** FailExternalTask and FailAgentJob; `code` 0 is no error code. */
  function WaitFailed(g: Graph, s: Instance, w: nat, code: nat, o: Oracle): Instance {
    if !StillWaits(s, w) then s
    else
      var id := s.waits[w].token;
      if code != 0 then
        if s.tokens[id].path in g && |s.tokens[id].path| == |s.tokens[id].owners|
        then ThrowError(g, CloseWait(s, w), id, code) else s
      else if o.retriesLeft then s
      else RaiseIncident(CloseWait(s, w), id)
  }

  /** With its record closed, the waiting token is free to move. */
  lemma ClosedReady(g: Graph, s: Instance, w: nat)
    requires Inv(g, s) && s.status.Running? && StillWaits(s, w)
    ensures s.waits[w].open && !ScopeWait(s.tokens[s.waits[w].token])
    ensures Ready(g, CloseWait(s, w), s.waits[w].token) && Advances(s, CloseWait(s, w))
  {
    var x := s.waits[w].token;
    var s' := CloseWait(s, w);
    NoZero(g, s);
    assert TokenOk(g, s, x) && Held(s, x);
    SameTree(g, s, s');
    forall m | m in s'.multi ensures m in s'.tokens && m != 0 {
      assert TokenOk(g, s, m);
    }
    NoStuckStays(g, s, s', 0, None, 0, None, 0);
    LeafVacated(g, s', x);
    ClosedLinked(g, s, w);
    RoutedStays(g, s, s', 0);
  }

  lemma ClosedLinked(g: Graph, s: Instance, w: nat)
    requires 0 !in s.tokens && Linked(s, 0) && StillWaits(s, w)
    ensures Linked(CloseWait(s, w), s.waits[w].token)
  {
    var x := s.waits[w].token;
    var s' := CloseWait(s, w);
    assert Held(s, x);
    forall u | u in s'.tokens && u != x ensures Held(s', u) {
      assert Held(s, u);
    }
    forall v | v in s'.waits ensures Backed(s', v, x) {
      assert Backed(s, v, 0);
    }
  }

  lemma NothingKeeps(g: Graph, s: Instance)
    requires Inv(g, s) && s.status.Running?
    ensures Keeps(g, s, s)
  {
  }

  lemma WaitCompletedKeeps(g: Graph, s: Instance, w: nat, o: Oracle)
    requires ValidGraph(g) && Inv(g, s) && s.status.Running? && LoopAnswers(o)
    requires o.outcome.Throws? ==> StillWaits(s, w) ==> !Reenters(g, s.tokens[s.waits[w].token].path, o.outcome.code)
    ensures Keeps(g, s, WaitCompleted(g, s, w, o))
    ensures Answerable(g, s, w) ==> Closed(WaitCompleted(g, s, w, o), w)
  {
    hide FinishAgent, FinishSync, CompleteActivity, NoStuck, Linked, Routed, Reenters, Persists, Numbers, Vacated, Fresh, TokenOk;
    NothingKeeps(g, s);
    if Answerable(g, s, w) {
      var x := s.waits[w].token;
      var s1 := CloseWait(s, w);
      ClosedReady(g, s, w);
      WorkerStands(g, s, x);
      var s' := WaitCompleted(g, s, w, o);
      var el := ElementOf(g, s.tokens[x]);
      if s.waits[w].kind.AgentWait? {
        FinishAgentKeeps(g, s1, x, el.value.agent.value, o);
      } else if s.waits[w].kind.TaskWait? && el.Some? && el.value.agent.Some? {
        FinishSyncKeeps(g, s1, x, o);
      } else {
        CompleteActivityKeeps(g, s1, x, o);
      }
      AdvancesTransitive(g, s, s1, s');
      StaysClosed(s1, s', w);
    }
  }

  predicate Closed(s: Instance, w: nat) {
    w in s.waits && !s.waits[w].open
  }

  lemma StaysClosed(s: Instance, s': Instance, w: nat)
    requires Closed(s, w) && Persists(s, s')
    ensures Closed(s', w)
  {
  }

  lemma WaitFailedKeeps(g: Graph, s: Instance, w: nat, code: nat, o: Oracle)
    requires ValidGraph(g) && Inv(g, s) && s.status.Running?
    requires StillWaits(s, w) ==> !Reenters(g, s.tokens[s.waits[w].token].path, code)
    ensures Keeps(g, s, WaitFailed(g, s, w, code, o))
    ensures StillWaits(s, w) && (code != 0 || !o.retriesLeft) ==> Closed(WaitFailed(g, s, w, code, o), w)
  {
    if StillWaits(s, w) {
      var x := s.waits[w].token;
      var s1 := CloseWait(s, w);
      ClosedReady(g, s, w);
      WorkerStands(g, s, x);
      if code != 0 {
        ThrowErrorKeeps(g, s1, x, code);
        AdvancesTransitive(g, s, s1, ThrowError(g, s1, x, code));
        StaysClosed(s1, ThrowError(g, s1, x, code), w);
      } else if !o.retriesLeft {
        RaiseIncidentKeeps(g, s1, x);
        AdvancesTransitive(g, s, s1, RaiseIncident(s1, x));
        StaysClosed(s1, RaiseIncident(s1, x), w);
      }
    }
  }

  // ---- incidents, child instances, cancellation ------------------------------------------------

  /** ResolveIncident. */
  function Resolved(s: Instance, i: nat): Instance {
    if i in s.incidents && s.incidents[i] in s.tokens && s.tokens[s.incidents[i]].state.WaitRetry?
    then Reactivated(s, s.incidents[i]) else s
  }

  /** The child instance of a call activity ended: notifyParent. */
  function ChildEnded(g: Graph, s: Instance, token: TokenId, child: nat, o: Oracle): Instance {
    if token !in s.tokens || !AwaitsChild(s.tokens[token], child) then s
    else if !o.outputsOk(token) then RaiseIncident(s, token)
    else CompleteActivity(g, s, token, o)
  }

  /** The child instance could not be started. */
  function ChildLost(s: Instance, token: TokenId, child: nat): Instance {
    if token !in s.tokens || !AwaitsChild(s.tokens[token], child) then s else RaiseIncident(s, token)
  }

  lemma ChildEndedKeeps(g: Graph, s: Instance, x: TokenId, child: nat, o: Oracle)
    requires ValidGraph(g) && Inv(g, s) && s.status.Running? && LoopAnswers(o)
    ensures Keeps(g, s, ChildEnded(g, s, x, child, o))
  {
    if x in s.tokens && AwaitsChild(s.tokens[x], child) {
      LeafReady(g, s, x);
      RaiseIncidentKeeps(g, s, x);
      CompleteActivityKeeps(g, s, x, o);
    }
  }

  lemma ChildLostKeeps(g: Graph, s: Instance, x: TokenId, child: nat)
    requires Inv(g, s) && s.status.Running?
    ensures Keeps(g, s, ChildLost(s, x, child))
  {
    if x in s.tokens && AwaitsChild(s.tokens[x], child) {
      LeafReady(g, s, x);
      RaiseIncidentKeeps(g, s, x);
    }
  }

  lemma TerminateKeeps(g: Graph, s: Instance)
    requires Inv(g, s)
    ensures Keeps(g, s, TerminateInstance(s))
  {
  }

  // ---- starting an instance ------------------------------------------------------------------------

  /** startInstance: one token at the start event and the process-level registrations. */
  function Started(g: Graph, start: ElementId, o: Oracle): Instance
    requires [] in g
  {
    RegisterEventSubs(g, Born(start), [], 0, o)
  }

  lemma StartedInv(g: Graph, start: ElementId, o: Oracle)
    requires ValidGraph(g) && HasElement(g, [], start) && g[[]].elements[start].etype.StartEvent?
    ensures Inv(g, Started(g, start, o)) && Started(g, start, o).status.Running?
  {
    var s0 := Born(start);
    assert ChainOk(g, s0, [], []);
    assert TokenOk(g, s0, 1);
    assert Cut(g, s0, [], [], 0);
    RegisterSubsAre(g, s0, [], g[[]].order, 0, o);
    SubsRegistered(g, s0, Started(g, start, o), [], [], 0);
    assert InScope(Started(g, start, o).tokens[1], [], []);
    CutFilled(g, Started(g, start, o), [], [], 0, 1);
  }
}
