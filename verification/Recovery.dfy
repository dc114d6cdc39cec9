/** The drain after a repair pass: whatever its steps do, no token ends up waiting on something
    that will never happen. */
module Recovery {
  import opened StoreState
  import opened Bpmn
  import opened Instances
  import opened Engine
  import opened ScopeTree
  import opened Moves
  import opened Sweeps
  import opened Errors
  import opened Reconcile
  import Activities
  import Completion
  import Routing
  import Runtime
  import Steps

  /** The token waits on nothing reconcile would repair; a call it waits for was made since `n`. */
  predicate Fine(s: Instance, t: Token, n: nat) {
    match t.state
    case WaitChild => t.ref.RecordRef? ==> n <= t.ref.id
    case WaitTask => t.ref.RecordRef? && t.ref.id in s.waits && s.waits[t.ref.id].kind.TaskWait? ==> s.waits[t.ref.id].open
    case WaitTimer => t.ref.RecordRef? ==> t.ref.id in s.incidents || t.ref.id in s.events
    case WaitRetry => t.ref.RecordRef? ==> t.ref.id in s.incidents || t.ref.id in s.events
    case _ => true
  }

  /** What the token waits for is still there, as it was. */
  predicate Kept(s: Instance, s': Instance, t: Token) {
    t.ref.RecordRef? ==>
      && (t.ref.id in s.incidents ==> t.ref.id in s'.incidents)
      && (t.state in {WaitTimer, WaitRetry} && t.ref.id in s.events ==> t.ref.id in s'.events)
      && (t.state.WaitTask? && t.ref.id in s'.waits ==>
            t.ref.id in s.waits && s'.waits[t.ref.id].kind == s.waits[t.ref.id].kind
            && (s.waits[t.ref.id].kind.TaskWait? ==> s'.waits[t.ref.id] == s.waits[t.ref.id]))
  }

  /** Each token is as it was with its wait, or its wait is fine; while the instance runs, all
      stays tidy, and once it ends no token is left. */
  ghost predicate Eases(g: Graph, s: Instance, s': Instance) {
    && s.nextId <= s'.nextId
    && (if s'.status.Running? then Tidy(g, s') else s'.tokens == map[])
    && forall u {:trigger s'.tokens[u]} :: u in s'.tokens ==>
         (u in s.tokens || s.nextId <= u)
         && (Fine(s', s'.tokens[u], s.nextId) || (u in s.tokens && s'.tokens[u] == s.tokens[u] && Kept(s, s', s.tokens[u])))
  }

  lemma EasesTransitive(g: Graph, s: Instance, s1: Instance, s2: Instance)
    requires Eases(g, s, s1) && Eases(g, s1, s2) && s1.status.Running?
    ensures Eases(g, s, s2)
  {
    hide Tidy;
    forall u | u in s2.tokens
      ensures (u in s.tokens || s.nextId <= u)
              && (Fine(s2, s2.tokens[u], s.nextId) || (u in s.tokens && s2.tokens[u] == s.tokens[u] && Kept(s, s2, s.tokens[u])))
    {
      if u in s1.tokens {
        assert s1.tokens[u] == s1.tokens[u];
      }
    }
  }

  lemma HealsEases(g: Graph, s: Instance, s': Instance, touched: set<TokenId>)
    requires Tidy(g, s) && Heals(g, s, s', touched) && touched <= s.tokens.Keys
    ensures Eases(g, s, s')
  {
    forall u | u in s'.tokens
      ensures (u in s.tokens || s.nextId <= u)
              && (Fine(s', s'.tokens[u], s.nextId) || (u in s.tokens && s'.tokens[u] == s.tokens[u] && Kept(s, s', s.tokens[u])))
    {
      assert Sound(s', u) || (u in s.tokens && s'.tokens[u] == s.tokens[u]);
      if u in s.tokens && u !in touched {
        UntouchedKept(g, s, s', touched, u);
      }
    }
  }

  lemma UntouchedKept(g: Graph, s: Instance, s': Instance, touched: set<TokenId>, u: TokenId)
    requires Tidy(g, s) && Calm(s, s', touched) && u in s.tokens && u !in touched && u in s'.tokens
    ensures s'.tokens[u] == s.tokens[u] && Kept(s, s', s.tokens[u])
  {
    var t := s.tokens[u];
    assert OwnedBy(s, u) && Spared(s, s', touched, u);
    assert Sound(s', u) || s'.tokens[u] == t;
    if t.ref.RecordRef? && t.state in {WaitTimer, WaitRetry} && t.ref.id in s.events {
      assert AwaitsEvent(t, t.ref.id);
    }
    if t.ref.RecordRef? && t.state.WaitTask? && t.ref.id in s.waits && s.waits[t.ref.id].kind.TaskWait? {
      assert Awaits(t, s.waits[t.ref.id].kind, t.ref.id);
    }
  }

  // ---- one token changes ------------------------------------------------------------------------

  /** Records only grow, by records of `x`. */
  ghost predicate Adds(s: Instance, s': Instance, x: TokenId) {
    && s.nextId <= s'.nextId
    && (forall e :: e in s.events ==> e in s'.events && s'.events[e] == s.events[e])
    && (forall e :: e in s'.events && e !in s.events ==> s.nextId <= e < s'.nextId && s'.events[e].token == x)
    && (forall w :: w in s.waits ==> w in s'.waits && s'.waits[w] == s.waits[w])
    && (forall w :: w in s'.waits && w !in s.waits ==> s.nextId <= w < s'.nextId && s'.waits[w].token == x)
    && (forall i :: i in s.incidents ==> i in s'.incidents)
    && (forall i :: i in s'.incidents && i !in s.incidents ==> s.nextId <= i < s'.nextId)
  }

  lemma OneEases(g: Graph, s: Instance, s': Instance, x: TokenId)
    requires Tidy(g, s) && x in s.tokens && x in s'.tokens && s'.tokens == s.tokens[x := s'.tokens[x]]
    requires Placed(s.tokens[x], s'.tokens[x]) && s'.status.Running? && Adds(s, s', x)
    requires forall m :: m in s'.multi ==> m in s.multi || (m == x && s.tokens[x].parent == 0)
    requires Fine(s', s'.tokens[x], s.nextId) && OwnedBy(s', x)
    ensures Eases(g, s, s')
  {
    OneTidy(g, s, s', x);
    forall u | u in s'.tokens && u != x ensures Kept(s, s', s.tokens[u]) {
      assert OwnedBy(s, u);
    }
  }

  lemma OneTidy(g: Graph, s: Instance, s': Instance, x: TokenId)
    requires Tidy(g, s) && x in s.tokens && x in s'.tokens && s'.tokens == s.tokens[x := s'.tokens[x]]
    requires Placed(s.tokens[x], s'.tokens[x]) && s'.status.Running? && Adds(s, s', x)
    requires forall m :: m in s'.multi ==> m in s.multi || (m == x && s.tokens[x].parent == 0)
    requires OwnedBy(s', x)
    ensures Tidy(g, s')
  {
    assert OwnedBy(s, x) && FlatToken(g, s, x);
    forall u | u in s'.tokens ensures OwnedBy(s', u) {
      if u != x {
        OthersOwn(s, s', x, u);
      }
    }
    forall u | u in s'.tokens ensures FlatToken(g, s', u) {
      assert FlatToken(g, s, u);
    }
  }

  lemma OthersOwn(s: Instance, s': Instance, x: TokenId, u: TokenId)
    requires u in s.tokens && u != x && OwnedBy(s, u) && Adds(s, s', x)
    requires x in s.tokens && x in s'.tokens && s'.tokens == s.tokens[x := s'.tokens[x]] && s'.tokens[x].path == s.tokens[x].path
    ensures OwnedBy(s', u)
  {
  }

  /** The token is free to start any wait: it waits on nothing, or is parked. */
  predicate Loose(t: Token) {
    t.ref.NoRef? || t.state.WaitRetry?
  }

  lemma ArriveEases(g: Graph, s: Instance, x: TokenId)
    requires Tidy(g, s) && x in s.tokens && s.tokens[x].state.Active?
    ensures Eases(g, s, Arrive(s, x))
  {
    assert OwnedBy(s, x);
    OneEases(g, s, Arrive(s, x), x);
  }

  lemma OpenEases(g: Graph, s: Instance, x: TokenId, kind: WaitKind)
    requires Tidy(g, s) && x in s.tokens
    ensures Eases(g, s, OpenWait(s, x, kind))
  {
    assert OwnedBy(s, x);
    OneEases(g, s, OpenWait(s, x, kind), x);
  }

  lemma IncidentEases(g: Graph, s: Instance, x: TokenId)
    requires Tidy(g, s) && x in s.tokens
    ensures Eases(g, s, RaiseIncident(s, x))
  {
    IncidentHeals(g, s, x);
    HealsEases(g, s, RaiseIncident(s, x), {x});
  }

  lemma CallEases(g: Graph, s: Instance, x: TokenId, o: Oracle)
    requires Tidy(g, s) && x in s.tokens
    ensures Eases(g, s, EnterCall(s, x, o))
  {
    IncidentEases(g, s, x);
    assert OwnedBy(s, x);
    if o.calleeOk {
      OneEases(g, s, EnterCall(s, x, o), x);
    }
  }

  lemma RegisterEases(g: Graph, s: Instance, x: TokenId, kind: RecordKind, b: ElementId)
    requires Tidy(g, s) && x in s.tokens && Loose(s.tokens[x])
    ensures Eases(g, s, Register(s, kind, x, b))
  {
    var s' := Register(s, kind, x, b);
    assert OwnedBy(s, x);
    if s.tokens[x].ref.RecordRef? {
      assert s.tokens[x].ref.id in s.events ==> AwaitsEvent(s.tokens[x], s.tokens[x].ref.id);
    }
    OthersTidy(g, s, s', x);
    forall u | u in s'.tokens ensures Kept(s, s', s.tokens[u]) {
      assert OwnedBy(s, u);
    }
  }

  /** New records of `x` leave everything tidy. */
  lemma OthersTidy(g: Graph, s: Instance, s': Instance, x: TokenId)
    requires Tidy(g, s) && s'.tokens == s.tokens && s'.multi == s.multi && s'.status.Running? && Adds(s, s', x) && x < s'.nextId
    ensures Tidy(g, s')
  {
    FlatShrinks(g, s, s');
    forall u | u in s'.tokens ensures OwnedBy(s', u) {
      assert OwnedBy(s, u);
    }
  }

  lemma CatchingEases(g: Graph, s: Instance, x: TokenId, state: TokenState, kind: EventKind, o: Oracle)
    requires Tidy(g, s) && x in s.tokens && Loose(s.tokens[x])
    requires state in {WaitMessage, WaitSignal} || (state.WaitTimer? && kind.Timer?)
    ensures Eases(g, s, Catching(s, x, state, kind, o))
  {
    assert OwnedBy(s, x);
    var s1 := SetToken(s, x, s.tokens[x].(state := state));
    CatchingIs(s, x, state, kind, o);
    if kind.Error? || kind.Terminate? {
      UnregisteredEases(g, s, x, state);
    } else if kind.Timer? && !o.timerOk(s.tokens[x].element) {
      FailedTimerEases(g, s, x, state);
    } else {
      AwaitingEases(g, s, x, state, if kind.Timer? then TimerJob else SubscriptionRecord);
    }
  }

  lemma UnregisteredEases(g: Graph, s: Instance, x: TokenId, state: TokenState)
    requires Tidy(g, s) && x in s.tokens && Loose(s.tokens[x]) && state in {WaitMessage, WaitSignal}
    ensures Eases(g, s, SetToken(s, x, s.tokens[x].(state := state)))
  {
    assert OwnedBy(s, x);
    UnregisteredOwn(s, x, state);
    hide OwnedBy;
    OneEases(g, s, SetToken(s, x, s.tokens[x].(state := state)), x);
  }

  lemma UnregisteredOwn(s: Instance, x: TokenId, state: TokenState)
    requires x in s.tokens && OwnedBy(s, x) && Loose(s.tokens[x]) && state in {WaitMessage, WaitSignal}
    ensures OwnedBy(SetToken(s, x, s.tokens[x].(state := state)), x)
  {
    if s.tokens[x].ref.RecordRef? {
      assert s.tokens[x].ref.id in s.events ==> AwaitsEvent(s.tokens[x], s.tokens[x].ref.id);
    }
  }

  lemma FailedTimerEases(g: Graph, s: Instance, x: TokenId, state: TokenState)
    requires Tidy(g, s) && x in s.tokens
    ensures Eases(g, s, RaiseIncident(SetToken(s, x, s.tokens[x].(state := state)), x))
  {
    assert OwnedBy(s, x);
    OneEases(g, s, RaiseIncident(SetToken(s, x, s.tokens[x].(state := state)), x), x);
  }

  lemma AwaitingEases(g: Graph, s: Instance, x: TokenId, state: TokenState, kind: RecordKind)
    requires Tidy(g, s) && x in s.tokens && state in {WaitMessage, WaitSignal, WaitTimer}
    ensures Eases(g, s, Awaiting(s, x, state, kind))
  {
    assert OwnedBy(s, x);
    OneEases(g, s, Awaiting(s, x, state, kind), x);
  }

  // ---- moving, completing, spawning ---------------------------------------------------------------

  lemma MoveOrIncidentEases(g: Graph, s: Instance, x: TokenId, flows: seq<ElementId>)
    requires ValidGraph(g) && Tidy(g, s) && x in s.tokens && GoodFlows(g, s.tokens[x].path, flows)
    ensures Eases(g, s, if flows == [] then RaiseIncident(s, x) else MoveOver(g, s, x, flows))
  {
    IncidentEases(g, s, x);
    if flows != [] {
      MoveHeals(g, s, x, flows);
      HealsEases(g, s, MoveOver(g, s, x, flows), {x});
    }
  }

  lemma TakeEases(g: Graph, s: Instance, x: TokenId, o: Oracle)
    requires ValidGraph(g) && Tidy(g, s) && x in s.tokens
    ensures Eases(g, s, TakeOutgoing(g, s, x, o))
  {
    OutgoingHeals(g, s, x, o);
    HealsEases(g, s, TakeOutgoing(g, s, x, o), {x});
  }

  lemma ExclusiveEases(g: Graph, s: Instance, x: TokenId, o: Oracle)
    requires ValidGraph(g) && Tidy(g, s) && x in s.tokens
    ensures Eases(g, s, RouteExclusive(g, s, x, o))
  {
    hide Eases, MoveOver;
    assert FlatToken(g, s, x);
    var c := g[s.tokens[x].path];
    var el := c.elements[s.tokens[x].element];
    FirstTrueExists(c, el.outgoing, el.defaultFlow, o);
    IncidentEases(g, s, x);
    var chosen := FirstTrue(c, el.outgoing, el.defaultFlow, o);
    if chosen.Some? {
      MoveOrIncidentEases(g, s, x, WithDefault(c, el, chosen.value));
    }
  }

  lemma ForkEases(g: Graph, s: Instance, x: TokenId)
    requires ValidGraph(g) && Tidy(g, s) && x in s.tokens
    ensures Eases(g, s, ForkAll(g, s, x))
  {
    hide Eases, MoveOver;
    assert FlatToken(g, s, x);
    var c := g[s.tokens[x].path];
    ExistingExist(c, c.elements[s.tokens[x].element].outgoing);
    MoveOrIncidentEases(g, s, x, ExistingFlows(c, c.elements[s.tokens[x].element].outgoing));
  }

  lemma CompleteEases(g: Graph, s: Instance, x: TokenId, o: Oracle)
    requires ValidGraph(g) && Tidy(g, s) && x in s.tokens
    ensures Eases(g, s, CompleteActivity(g, s, x, o))
  {
    hide CompleteActivity, Eases, Heals;
    if CompletesIteration(s, s.tokens[x]) {
      var touched := IterationHeals(g, s, x, o);
      HealsEases(g, s, CompleteActivity(g, s, x, o), touched);
    } else {
      PlainHeals(g, s, x, o);
      HealsEases(g, s, CompleteActivity(g, s, x, o), {x});
    }
  }

  lemma SpawnEases(g: Graph, s: Instance, element: ElementId, path: Path, owners: seq<TokenId>, parent: TokenId, mi: ElementId, index: nat)
    requires Tidy(g, s) && GoodPlace(g, s, Token(element, Active, path, owners, 0, NoRef, parent, mi, index), element) && parent < s.nextId
    ensures Eases(g, s, Spawn(s, element, path, owners, parent, mi, index))
  {
    NewTokenHeals(g, s, Token(element, Active, path, owners, 0, NoRef, parent, mi, index));
    HealsEases(g, s, Spawn(s, element, path, owners, parent, mi, index), {});
  }

  /** Dropping a token's own registrations before it goes on. */
  lemma DropThenEases(g: Graph, s: Instance, x: TokenId, o: Oracle)
    requires ValidGraph(g) && Tidy(g, s) && x in s.tokens
    ensures Eases(g, s, CompleteActivity(g, DropEvents(s, x), x, o))
  {
    hide CompleteActivity, Heals;
    DropTidy(g, s, x);
    var s1 := DropEvents(s, x);
    var s' := CompleteActivity(g, s1, x, o);
    if CompletesIteration(s, s.tokens[x]) {
      var touched := IterationHeals(g, s1, x, o);
      HealsEases(g, s1, s', touched);
      DroppedEases(g, s, s', x);
    } else {
      PlainHeals(g, s1, x, o);
      DropThenHeals(g, s, s', x);
      HealsEases(g, s, s', {x});
    }
  }

  lemma DroppedEases(g: Graph, s: Instance, s': Instance, x: TokenId)
    requires Tidy(g, s) && x in s.tokens && x !in s'.tokens && Eases(g, DropEvents(s, x), s')
    ensures Eases(g, s, s')
  {
    var s1 := DropEvents(s, x);
    forall u | u in s'.tokens && u in s.tokens && s'.tokens[u] == s.tokens[u] && Kept(s1, s', s.tokens[u])
      ensures Kept(s, s', s.tokens[u])
    {
      assert OwnedBy(s, u);
      if s.tokens[u].ref.RecordRef? && s.tokens[u].state in {WaitTimer, WaitRetry} && s.tokens[u].ref.id in s.events {
        assert AwaitsEvent(s.tokens[u], s.tokens[u].ref.id);
      }
    }
  }

  // ---- removing tokens ------------------------------------------------------------------------------

  lemma SweepEases(g: Graph, s: Instance, kill: set<TokenId>)
    requires Tidy(g, s) && kill <= s.tokens.Keys
    ensures Eases(g, s, Sweep(s, kill, kill))
  {
    SweptTidy(g, s, kill, kill);
    forall u | u in s.tokens && u !in kill ensures Kept(s, Sweep(s, kill, kill), s.tokens[u]) {
      SweptKept(g, s, kill, kill, u);
    }
  }

  /** What another token waits for is not released. */
  lemma SweptKept(g: Graph, s: Instance, close: set<TokenId>, kill: set<TokenId>, u: TokenId)
    requires Tidy(g, s) && close <= s.tokens.Keys && u in s.tokens && u !in close
    ensures Kept(s, Sweep(s, close, kill), s.tokens[u])
  {
    var t := s.tokens[u];
    assert OwnedBy(s, u);
    if t.ref.RecordRef? && t.state in {WaitTimer, WaitRetry} && t.ref.id in s.events {
      assert AwaitsEvent(t, t.ref.id);
      forall k | k in close ensures !AwaitsEvent(s.tokens[k], t.ref.id) {
        assert OwnedBy(s, k);
      }
    }
    if t.ref.RecordRef? && t.state.WaitTask? && t.ref.id in s.waits && s.waits[t.ref.id].kind.TaskWait? {
      assert Awaits(t, s.waits[t.ref.id].kind, t.ref.id);
      forall k | k in close ensures !Awaits(s.tokens[k], s.waits[t.ref.id].kind, t.ref.id) {
        assert OwnedBy(s, k);
      }
    }
  }

  /** A token whose wait is cancelled with what it coordinates moves to a boundary event. */
  lemma LeavesEases(g: Graph, s: Instance, x: TokenId, b: ElementId)
    requires Tidy(g, s) && x in s.tokens
    requires HasElement(g, s.tokens[x].path, b) && !IsEventSub(g[s.tokens[x].path].elements[b])
    ensures var s1 := CancelWaits(g, s, x); Eases(g, s, if x in s1.tokens then MoveToBoundary(s1, x, b) else s1)
  {
    hide LoopSet;
    var kill := LoopSet(g, s, x);
    LoopSetIn(g, s, x);
    var s1 := CancelWaits(g, s, x);
    SweptTidy(g, s, {x} + kill, kill);
    var s' := if x in s1.tokens then MoveToBoundary(s1, x, b) else s1;
    if x in s1.tokens {
      MovedTidy(g, s1, x, b);
    }
    forall u | u in s'.tokens && u != x ensures Kept(s, s', s.tokens[u]) {
      SweptKept(g, s, {x} + kill, kill, u);
    }
  }

  lemma LoopSetIn(g: Graph, s: Instance, x: TokenId)
    ensures LoopSet(g, s, x) <= s.tokens.Keys
  {
  }

  lemma MovedTidy(g: Graph, s: Instance, x: TokenId, b: ElementId)
    requires Tidy(g, s) && x in s.tokens
    requires HasElement(g, s.tokens[x].path, b) && !IsEventSub(g[s.tokens[x].path].elements[b])
    ensures Tidy(g, MoveToBoundary(s, x, b))
  {
    var s' := MoveToBoundary(s, x, b);
    assert OwnedBy(s, x) && FlatToken(g, s, x);
    forall u | u in s'.tokens ensures OwnedBy(s', u) && FlatToken(g, s', u) {
      assert OwnedBy(s, u) && FlatToken(g, s, u);
    }
  }

  // ---- scopes ---------------------------------------------------------------------------------------

  lemma {:induction false} ScopeEases(g: Graph, s: Instance, path: Path, owners: seq<TokenId>, o: Oracle)
    requires ValidGraph(g) && Tidy(g, s) && |path| == |owners|
    ensures Eases(g, s, CheckScope(g, s, path, owners, o))
    decreases |path|
  {
    hide Eases, Tidy, CompleteActivity, ValidGraph, ScopeBusy;
    SelfEases(g, s);
    if !ScopeBusy(s, path, owners) {
      if path == [] {
        EndedEases(g, s);
      } else {
        var n := |path| - 1;
        ScopeEases(g, s, path[..n], owners[..n], o);
        if owners[n] in s.tokens {
          DropThenEases(g, s, owners[n], o);
        }
      }
    }
  }

  lemma SelfEases(g: Graph, s: Instance)
    requires Tidy(g, s)
    ensures Eases(g, s, s)
  {
  }

  lemma EndedEases(g: Graph, s: Instance)
    requires Tidy(g, s)
    ensures s.tokens == map[] ==> Eases(g, s, CompleteInstance(s))
  {
  }

  lemma DeleteEases(g: Graph, s: Instance, x: TokenId)
    requires Tidy(g, s)
    ensures Eases(g, s, DeleteToken(s, x))
  {
    var s' := DeleteToken(s, x);
    FlatShrinks(g, s, s');
    forall u | u in s'.tokens ensures OwnedBy(s', u) {
      assert OwnedBy(s, u);
    }
  }

  lemma ConsumeEases(g: Graph, s: Instance, x: TokenId, o: Oracle)
    requires ValidGraph(g) && Tidy(g, s) && x in s.tokens
    ensures Eases(g, s, Consume(g, s, x, o))
  {
    hide Eases, CheckScope;
    var t := s.tokens[x];
    var s1 := DeleteToken(s, x);
    DeleteEases(g, s, x);
    EasedTidy(g, s, s1);
    if |t.path| == |t.owners| {
      ScopeEases(g, s1, t.path, t.owners, o);
      EasesTransitive(g, s, s1, Consume(g, s, x, o));
    }
  }

  lemma EasedTidy(g: Graph, s: Instance, s1: Instance)
    requires Eases(g, s, s1) && s1.status.Running?
    ensures Tidy(g, s1)
  {
  }

  // ---- errors -----------------------------------------------------------------------------------------

  lemma KinShrinks(s: Instance, s': Instance, path: Path, owners: seq<TokenId>)
    requires Kin(s, path, owners) && s.nextId <= s'.nextId
    requires forall u :: u in s'.tokens ==> u in s.tokens && s'.tokens[u] == s.tokens[u]
    ensures Kin(s', path, owners)
  {
  }

  lemma KinPrefix(s: Instance, path: Path, owners: seq<TokenId>, l: nat)
    requires Kin(s, path, owners) && l <= |path|
    ensures Kin(s, path[..l], owners[..l])
  {
    forall i | 0 <= i < l ensures owners[..l][i] == owners[i] && path[..l][..i] == path[..i] { }
  }

  lemma KillEases(g: Graph, s: Instance, path: Path, owners: seq<TokenId>, exclude: ElementId)
    requires Tidy(g, s) && Kin(s, path, owners)
    ensures var s1 := KillScope(s, path, owners, exclude);
      Eases(g, s, s1) && Tidy(g, s1) && s1.status.Running? && Kin(s1, path, owners)
  {
    var kill := ScopeSet(s, path, owners, exclude);
    SweepEases(g, s, kill);
    KinShrinks(s, Sweep(s, kill, kill), path, owners);
  }

  lemma SubHandlerEases(g: Graph, s: Instance, path: Path, owners: seq<TokenId>, code: nat, sub: ElementId, start: ElementId)
    requires ValidGraph(g) && Tidy(g, s) && Kin(s, path, owners) && SubCatches(g, path, code, sub, start)
    ensures Eases(g, s, Spawn(KillScope(s, path, owners, sub), start, path + [sub], owners + [0], 0, 0, 0))
  {
    hide KillScope, Eases;
    var s1 := KillScope(s, path, owners, sub);
    KillEases(g, s, path, owners, sub);
    assert 0 in s1.tokens ==> !FlatToken(g, s1, 0);
    var p: Path, w: seq<TokenId> := path + [sub], owners + [0];
    forall i | 0 <= i < |w| ensures w[i] < s1.nextId && (w[i] in s1.tokens ==> s1.tokens[w[i]].path == p[..i]) {
      if i < |owners| {
        assert w[i] == owners[i] && p[..i] == path[..i];
      }
    }
    SpawnEases(g, s1, start, p, w, 0, 0, 0);
    EasesTransitive(g, s, s1, Spawn(s1, start, p, w, 0, 0, 0));
  }

  lemma DropKept(g: Graph, s: Instance, x: TokenId, u: TokenId)
    requires Tidy(g, s) && u in s.tokens && u != x
    ensures Kept(s, DropEvents(s, x), s.tokens[u])
  {
    assert OwnedBy(s, u);
    if s.tokens[u].ref.RecordRef? && s.tokens[u].state in {WaitTimer, WaitRetry} && s.tokens[u].ref.id in s.events {
      assert AwaitsEvent(s.tokens[u], s.tokens[u].ref.id);
    }
  }

  lemma FreshPlaceTidy(g: Graph, s: Instance, x: TokenId, b: ElementId)
    requires Tidy(g, s) && x in s.tokens
    requires HasElement(g, s.tokens[x].path, b) && !IsEventSub(g[s.tokens[x].path].elements[b])
    ensures Tidy(g, SetToken(s, x, s.tokens[x].(element := b, state := Active, ref := NoRef)))
  {
    var s' := SetToken(s, x, s.tokens[x].(element := b, state := Active, ref := NoRef));
    assert OwnedBy(s, x) && FlatToken(g, s, x);
    forall u | u in s'.tokens ensures OwnedBy(s', u) && FlatToken(g, s', u) {
      assert OwnedBy(s, u) && FlatToken(g, s, u);
    }
  }

  /** A token dropped from its registrations moves to a boundary event. */
  lemma OwnerMovesEases(g: Graph, s: Instance, x: TokenId, b: ElementId)
    requires Tidy(g, s) && x in s.tokens
    requires HasElement(g, s.tokens[x].path, b) && !IsEventSub(g[s.tokens[x].path].elements[b])
    ensures Eases(g, s, SetToken(DropEvents(s, x), x, s.tokens[x].(element := b, state := Active, ref := NoRef)))
  {
    var s1 := DropEvents(s, x);
    var s' := SetToken(s1, x, s.tokens[x].(element := b, state := Active, ref := NoRef));
    DropTidy(g, s, x);
    FreshPlaceTidy(g, s1, x, b);
    hide Tidy;
    forall u | u in s'.tokens && u != x ensures Kept(s, s', s.tokens[u]) {
      DropKept(g, s, x, u);
    }
  }

  lemma ContinueEases(g: Graph, s: Instance, path: Path, owners: seq<TokenId>, code: nat, b: ElementId)
    requires ValidGraph(g) && Tidy(g, s) && Kin(s, path, owners) && path != [] && BoundaryCatches(g, path, code, b)
    ensures Eases(g, s, ContinueAt(g, s, path, owners, b))
  {
    hide Eases, CancelWaits, MoveToBoundary, DropEvents, Spawn;
    var n := |path| - 1;
    var owner := owners[n];
    assert 0 in s.tokens ==> !FlatToken(g, s, 0);
    var coord := CoordinatorOf(s, owner);
    if coord in s.tokens {
      assert FlatToken(g, s, owner);
      LeavesEases(g, s, coord, b);
    } else if owner in s.tokens && s.tokens[owner].element == path[n] {
      OwnerMovesEases(g, s, owner, b);
    } else {
      KinPrefix(s, path, owners, n);
      SpawnEases(g, s, b, path[..n], owners[..n], 0, 0, 0);
    }
  }

  lemma PropagateEases(g: Graph, s: Instance, path: Path, owners: seq<TokenId>, code: nat)
    requires ValidGraph(g) && Tidy(g, s) && Kin(s, path, owners)
    ensures Eases(g, s, Propagate(g, s, path, owners, code))
  {
    PropagateHandles(g, s, path, owners, code);
    HandlerIsInnermost(g, path, code);
    var h := FindHandler(g, path, code);
    hide Propagate, FindHandler, KillScope, ContinueAt, Kin, Tidy;
    match h {
      case None => UnhandledEases(g, s);
      case Some(BySub(l, sub, start)) =>
        KinPrefix(s, path, owners, l);
        SubHandlerEases(g, s, path[..l], owners[..l], code, sub, start);
      case Some(ByBoundary(l, b)) =>
        KinPrefix(s, path, owners, l);
        CaughtEases(g, s, path[..l], owners[..l], code, b);
    }
  }

  lemma UnhandledEases(g: Graph, s: Instance)
    ensures Eases(g, s, Unhandled(s))
  {
  }

  lemma CaughtEases(g: Graph, s: Instance, path: Path, owners: seq<TokenId>, code: nat, b: ElementId)
    requires ValidGraph(g) && Tidy(g, s) && Kin(s, path, owners) && path != [] && BoundaryCatches(g, path, code, b)
    ensures |path| == |owners| && Eases(g, s, CaughtAtBoundary(g, s, path, owners, b))
  {
    hide KillScope, ContinueAt, Eases;
    KillEases(g, s, path, owners, 0);
    ContinueEases(g, KillScope(s, path, owners, 0), path, owners, code, b);
    EasesTransitive(g, s, KillScope(s, path, owners, 0), CaughtAtBoundary(g, s, path, owners, b));
  }

  lemma RemovedEases(g: Graph, s: Instance, x: TokenId)
    requires Tidy(g, s) && x in s.tokens
    ensures var s1 := DeleteToken(CancelWaits(g, s, x), x);
      Eases(g, s, s1) && Tidy(g, s1) && s1.status.Running? && Kin(s1, s.tokens[x].path, s.tokens[x].owners)
  {
    hide LoopSet;
    var kill := LoopSet(g, s, x);
    LoopSetIn(g, s, x);
    var s0 := CancelWaits(g, s, x);
    SweptTidy(g, s, {x} + kill, kill);
    DeleteEases(g, s0, x);
    var s1 := DeleteToken(s0, x);
    assert OwnedBy(s, x);
    KinShrinks(s, s1, s.tokens[x].path, s.tokens[x].owners);
    forall u | u in s1.tokens ensures Kept(s, s1, s.tokens[u]) {
      SweptKept(g, s, {x} + kill, kill, u);
    }
  }

  lemma ThrowEases(g: Graph, s: Instance, x: TokenId, code: nat)
    requires ValidGraph(g) && Tidy(g, s) && x in s.tokens
    ensures s.tokens[x].path in g && |s.tokens[x].path| == |s.tokens[x].owners|
    ensures Eases(g, s, ThrowError(g, s, x, code))
  {
    hide Eases, CancelWaits, MoveToBoundary, Propagate, OwnedBy;
    var t := s.tokens[x];
    assert FlatToken(g, s, x);
    assert 0 in s.tokens ==> !FlatToken(g, s, 0);
    var boundary := ErrorBoundary(g[t.path], t.element, code);
    if boundary.Some? {
      BoundariesExactly(g[t.path], g[t.path].order, t.element);
      FirstCatchingIs(g[t.path], Boundaries(g[t.path], t.element), code);
      LeavesEases(g, s, if CoordinatorOf(s, x) in s.tokens then CoordinatorOf(s, x) else x, boundary.value);
    } else {
      var s1 := DeleteToken(CancelWaits(g, s, x), x);
      RemovedEases(g, s, x);
      PropagateEases(g, s1, t.path, t.owners, code);
      EasesTransitive(g, s, s1, ThrowError(g, s, x, code));
    }
  }

  // ---- activities -------------------------------------------------------------------------------------

  lemma FinishSyncEases(g: Graph, s: Instance, x: TokenId, o: Oracle)
    requires ValidGraph(g) && Tidy(g, s) && x in s.tokens
    ensures Eases(g, s, FinishSync(g, s, x, o))
  {
    hide Eases, CompleteActivity;
    CompleteEases(g, s, x, o);
    IncidentEases(g, s, x);
  }

  lemma FailureEases(g: Graph, s: Instance, x: TokenId, outcome: Outcome, o: Oracle)
    requires ValidGraph(g) && Tidy(g, s) && x in s.tokens
    ensures s.tokens[x].path in g && |s.tokens[x].path| == |s.tokens[x].owners|
    ensures Eases(g, s, HandleFailure(g, s, x, outcome, o))
  {
    hide Eases, ThrowError;
    ThrowEases(g, s, x, if outcome.Throws? then outcome.code else 0);
    IncidentEases(g, s, x);
    ParkHeals(g, s, x);
    HealsEases(g, s, ParkOnJob(s, x), {x});
  }

  lemma WorkEases(g: Graph, s: Instance, x: TokenId, o: Oracle)
    requires ValidGraph(g) && Tidy(g, s) && x in s.tokens
    ensures s.tokens[x].path in g && |s.tokens[x].path| == |s.tokens[x].owners|
    ensures Eases(g, s, Work(g, s, x, o))
  {
    hide Eases, FinishSync, HandleFailure;
    FinishSyncEases(g, s, x, o);
    FailureEases(g, s, x, o.outcome, o);
    IncidentEases(g, s, x);
  }

  lemma ServiceEases(g: Graph, s: Instance, x: TokenId, el: Element, o: Oracle)
    requires ValidGraph(g) && Tidy(g, s) && x in s.tokens
    ensures s.tokens[x].path in g && |s.tokens[x].path| == |s.tokens[x].owners|
    ensures Eases(g, s, ServiceLike(g, s, x, el, o))
  {
    hide Eases, FinishSync, HandleFailure, Work, OpenWait;
    WorkEases(g, s, x, o);
    FinishSyncEases(g, s, x, o);
    FailureEases(g, s, x, o.outcome, o);
    FailureEases(g, s, x, FailsPlain, o);
    OpenEases(g, s, x, TaskWait);
    OpenEases(g, s, x, AgentWait);
    OpenEases(g, s, x, ExternalWait);
    IncidentEases(g, s, x);
  }

  lemma AddsTransitive(s: Instance, s1: Instance, s2: Instance, x: TokenId)
    requires Adds(s, s1, x) && Adds(s1, s2, x)
    ensures Adds(s, s2, x)
  {
  }

  predicate EventsBelow(s: Instance) {
    forall e :: e in s.events ==> e < s.nextId
  }

  lemma RegisterAdds(s: Instance, owner: TokenId, kind: RecordKind, b: ElementId)
    requires EventsBelow(s)
    ensures var s' := Register(s, kind, owner, b); Adds(s, s', owner) && EventsBelow(s') && Adds(s, s, owner)
  {
  }

  lemma {:induction false} StartsAdd(s: Instance, owner: TokenId, c: Container, starts: seq<ElementId>, o: Oracle)
    requires EventsBelow(s)
    ensures var s' := RegisterStarts(s, owner, c, starts, o);
      Adds(s, s', owner) && EventsBelow(s') && s'.tokens == s.tokens && s'.multi == s.multi && s'.status == s.status
    decreases starts
  {
    hide Adds, EventsBelow;
    RegisterAdds(s, owner, TimerJob, 0);
    if starts != [] {
      var ev := if starts[0] in c.elements then c.elements[starts[0]].event else None;
      var kind := if ev.Some? && ev.value.kind.Timer? then TimerJob else SubscriptionRecord;
      var waits := ev.Some? && (ev.value.kind.Message? || ev.value.kind.Signal? || (ev.value.kind.Timer? && o.timerOk(starts[0])));
      var s1 := if waits then Register(s, kind, owner, starts[0]) else s;
      RegisterAdds(s, owner, kind, starts[0]);
      StartsAdd(s1, owner, c, starts[1..], o);
      AddsTransitive(s, s1, RegisterStarts(s1, owner, c, starts[1..], o), owner);
    }
  }

  lemma {:induction false} SubsAdd(g: Graph, s: Instance, path: Path, ids: seq<ElementId>, owner: TokenId, o: Oracle)
    requires path in g && EventsBelow(s)
    ensures var s' := RegisterSubsFrom(g, s, path, ids, owner, o);
      Adds(s, s', owner) && EventsBelow(s') && s'.tokens == s.tokens && s'.multi == s.multi && s'.status == s.status
    decreases ids
  {
    if ids != [] {
      var id := ids[0];
      if id in g[path].elements && IsEventSub(g[path].elements[id]) && path + [id] in g {
        var c := g[path + [id]];
        var s1 := RegisterStarts(s, owner, c, StartEvents(c), o);
        StartsAdd(s, owner, c, StartEvents(c), o);
        SubsAdd(g, s1, path, ids[1..], owner, o);
        AddsTransitive(s, s1, RegisterSubsFrom(g, s1, path, ids[1..], owner, o), owner);
      } else {
        SubsAdd(g, s, path, ids[1..], owner, o);
      }
    }
  }

  lemma EnteredEases(g: Graph, s: Instance, x: TokenId, o: Oracle)
    requires Tidy(g, s) && x in s.tokens && s.tokens[x].path + [s.tokens[x].element] in g
    ensures var t := s.tokens[x]; var s' := RegisterEventSubs(g, Activities.Entered(s, x), t.path + [t.element], x, o);
      Eases(g, s, s') && Tidy(g, s') && s'.status.Running? && s'.tokens == Activities.Entered(s, x).tokens && s.nextId <= s'.nextId
  {
    hide RegisterSubsFrom;
    var t := s.tokens[x];
    var s1 := Activities.Entered(s, x);
    assert OwnedBy(s, x);
    SubsAdd(g, s1, t.path + [t.element], g[t.path + [t.element]].order, x, o);
    var s' := RegisterEventSubs(g, s1, t.path + [t.element], x, o);
    OneEases(g, s, s', x);
  }

  lemma EnterSubEases(g: Graph, s: Instance, x: TokenId, o: Oracle)
    requires ValidGraph(g) && Tidy(g, s) && x in s.tokens
    ensures Eases(g, s, EnterSub(g, s, x, o))
  {
    hide Eases, Tidy, RegisterEventSubs;
    var t := s.tokens[x];
    var inner := t.path + [t.element];
    IncidentEases(g, s, x);
    if inner in g && NoneStartEvent(g[inner]).Some? {
      var s1 := RegisterEventSubs(g, Activities.Entered(s, x), inner, x, o);
      EnteredEases(g, s, x, o);
      Activities.NoneStartIs(g[inner]);
      InnerKin(g, s1, x, t.path, t.owners, t.element);
      SpawnEases(g, s1, NoneStartEvent(g[inner]).value, inner, t.owners + [x], 0, 0, 0);
      EasesTransitive(g, s, s1, EnterSub(g, s, x, o));
    }
  }

  lemma InnerKin(g: Graph, s: Instance, x: TokenId, path: Path, owners: seq<TokenId>, element: ElementId)
    requires Tidy(g, s) && x in s.tokens && s.tokens[x].path == path && s.tokens[x].owners == owners
    ensures Kin(s, path + [element], owners + [x]) && s.nextId > 0
  {
    assert OwnedBy(s, x);
    var p: Path, w: seq<TokenId> := path + [element], owners + [x];
    forall i | 0 <= i < |w| ensures w[i] < s.nextId && (w[i] in s.tokens ==> s.tokens[w[i]].path == p[..i]) {
      if i < |owners| {
        assert w[i] == owners[i] && p[..i] == path[..i];
      } else {
        assert p[..i] == path;
      }
    }
  }

  lemma DispatchEases(g: Graph, s: Instance, x: TokenId, el: Element, o: Oracle)
    requires ValidGraph(g) && Tidy(g, s) && x in s.tokens && Loose(s.tokens[x])
    ensures s.tokens[x].path in g && |s.tokens[x].path| == |s.tokens[x].owners|
    ensures Eases(g, s, Dispatch(g, s, x, el, o))
  {
    hide Eases, ServiceLike, Work, FinishSync, EnterSub, EnterCall, Catching, OpenWait;
    ServiceEases(g, s, x, el, o);
    WorkEases(g, s, x, o);
    FinishSyncEases(g, s, x, o);
    CatchingEases(g, s, x, WaitMessage, if el.event.Some? then el.event.value.kind else Terminate, o);
    EnterSubEases(g, s, x, o);
    CallEases(g, s, x, o);
    OpenEases(g, s, x, TaskWait);
    IncidentEases(g, s, x);
  }

  lemma RegisterOneEases(g: Graph, s: Instance, x: TokenId, c: Container, b: ElementId, ok: bool)
    requires Tidy(g, s) && x in s.tokens && Loose(s.tokens[x])
    ensures var s' := RegisterOne(s, x, c, b, ok);
      Eases(g, s, s') && x in s'.tokens && Loose(s'.tokens[x]) && Tidy(g, s') && s'.status.Running?
  {
    SelfEases(g, s);
    IncidentEases(g, s, x);
    RegisterEases(g, s, x, TimerJob, b);
    RegisterEases(g, s, x, SubscriptionRecord, b);
    hide Tidy;
  }

  lemma {:induction false} RegisterEachEases(g: Graph, s: Instance, x: TokenId, c: Container, bs: seq<ElementId>, ok: ElementId -> bool)
    requires Tidy(g, s) && x in s.tokens && Loose(s.tokens[x])
    ensures var s' := RegisterEach(g, s, x, c, bs, ok);
      Eases(g, s, s') && x in s'.tokens && Loose(s'.tokens[x]) && Tidy(g, s') && s'.status.Running?
    decreases bs
  {
    hide Eases, Tidy, RegisterOne;
    SelfEases(g, s);
    if bs != [] {
      var s1 := RegisterOne(s, x, c, bs[0], ok(bs[0]));
      RegisterOneEases(g, s, x, c, bs[0], ok(bs[0]));
      RegisterEachEases(g, s1, x, c, bs[1..], ok);
      EasesTransitive(g, s, s1, RegisterEach(g, s1, x, c, bs[1..], ok));
    } else {
      RunsTidy(g, s);
    }
  }

  lemma RunsTidy(g: Graph, s: Instance)
    requires Tidy(g, s)
    ensures s.status.Running?
  {
  }

  lemma BoundariesEase(g: Graph, s: Instance, x: TokenId, o: Oracle)
    requires Tidy(g, s) && x in s.tokens && Loose(s.tokens[x])
    ensures var s' := RegisterBoundaries(g, s, x, o);
      Eases(g, s, s') && x in s'.tokens && Loose(s'.tokens[x]) && Tidy(g, s') && s'.status.Running?
  {
    hide Eases, Tidy, RegisterEach;
    SelfEases(g, s);
    RunsTidy(g, s);
    var t := s.tokens[x];
    if t.path in g {
      RegisterEachEases(g, s, x, g[t.path], Boundaries(g[t.path], t.element), o.timerOk);
    }
  }

  lemma {:induction false} SpawnsEase(g: Graph, s: Instance, m: TokenId, index: nat, count: nat)
    requires Tidy(g, s) && m in s.tokens
    ensures Eases(g, s, SpawnIterations(g, s, m, index, count))
    decreases count
  {
    hide Eases;
    SelfEases(g, s);
    if count != 0 {
      var s1 := SpawnIteration(g, s, m, index);
      assert OwnedBy(s, m) && FlatToken(g, s, m);
      var c := s.tokens[m];
      SpawnEases(g, s, c.element, c.path, c.owners, m, c.element, index);
      EasedTidy(g, s, s1);
      SpawnsEase(g, s1, m, index + 1, count - 1);
      EasesTransitive(g, s, s1, SpawnIterations(g, s1, m, index + 1, count - 1));
    }
  }

  lemma LoopStartEases(g: Graph, s: Instance, x: TokenId, spec: MultiSpec, o: Oracle)
    requires ValidGraph(g) && Tidy(g, s) && x in s.tokens && s.tokens[x].parent == 0
    ensures Eases(g, s, StartMulti(g, s, x, spec, o))
  {
    hide Eases, Tidy, CompleteActivity, SpawnIterations, RegisterBoundaries;
    IncidentEases(g, s, x);
    CompleteEases(g, s, x, o);
    if o.items.Some? && o.items.value != 0 {
      var n := o.items.value;
      var first := if spec.sequential then 1 else n;
      var s1 := Activities.Opened(s, x, n, first);
      Activities.StartMultiIs(g, s, x, spec, o);
      OpenedEases(g, s, x, n, first);
      var s2 := RegisterBoundaries(g, s1, x, o);
      BoundariesEase(g, s1, x, o);
      EasesTransitive(g, s, s1, s2);
      SpawnsEase(g, s2, x, 0, first);
      EasesTransitive(g, s, s2, StartMulti(g, s, x, spec, o));
    }
  }

  lemma OpenedEases(g: Graph, s: Instance, x: TokenId, n: nat, first: nat)
    requires Tidy(g, s) && x in s.tokens && s.tokens[x].parent == 0
    ensures var s1 := Activities.Opened(s, x, n, first);
      Eases(g, s, s1) && Tidy(g, s1) && s1.status.Running? && Loose(s1.tokens[x])
  {
    assert OwnedBy(s, x);
    OneEases(g, s, Activities.Opened(s, x, n, first), x);
  }

  /** A token with a coordinator does not start a loop of its own; true wherever the scope tree holds. */
  predicate OwnLoop(t: Token, el: Element) {
    el.multi.Some? && !IsMIChild(t) ==> t.parent == 0
  }

  lemma ActivityEases(g: Graph, s: Instance, x: TokenId, el: Element, o: Oracle)
    requires ValidGraph(g) && Tidy(g, s) && x in s.tokens && Loose(s.tokens[x]) && OwnLoop(s.tokens[x], el)
    ensures s.tokens[x].path in g && |s.tokens[x].path| == |s.tokens[x].owners|
    ensures Eases(g, s, Activity(g, s, x, el, o))
  {
    hide Eases, Tidy, StartMulti, Dispatch, RegisterBoundaries;
    DispatchEases(g, s, x, el, o);
    IncidentEases(g, s, x);
    if el.multi.Some? && !IsMIChild(s.tokens[x]) {
      LoopStartEases(g, s, x, el.multi.value, o);
    } else if o.inputsOk && !IsMIChild(s.tokens[x]) {
      var s1 := RegisterBoundaries(g, s, x, o);
      BoundariesEase(g, s, x, o);
      DispatchEases(g, s1, x, el, o);
      EasesTransitive(g, s, s1, Dispatch(g, s1, x, el, o));
    }
  }

  // ---- steps ------------------------------------------------------------------------------------------

  lemma EndEases(g: Graph, s: Instance, x: TokenId, el: Element, o: Oracle)
    requires ValidGraph(g) && Tidy(g, s) && x in s.tokens
    ensures |s.tokens[x].path| == |s.tokens[x].owners| && Eases(g, s, ReachEnd(g, s, x, el, o))
  {
    hide Eases, Consume, CheckScope, KillScope, Propagate;
    var t := s.tokens[x];
    assert OwnedBy(s, x);
    ConsumeEases(g, s, x, o);
    AllEndEases(g, s);
    if el.event.Some? && el.event.value.kind.Terminate? {
      var s1 := KillScope(s, t.path, t.owners, 0);
      KillEases(g, s, t.path, t.owners, 0);
      ScopeEases(g, s1, t.path, t.owners, o);
      EasesTransitive(g, s, s1, CheckScope(g, s1, t.path, t.owners, o));
    } else if el.event.Some? && el.event.value.kind.Error? {
      var s1 := DeleteToken(s, x);
      DeleteEases(g, s, x);
      EasedTidy(g, s, s1);
      KinShrinks(s, s1, t.path, t.owners);
      PropagateEases(g, s1, t.path, t.owners, el.event.value.code);
      EasesTransitive(g, s, s1, ReachEnd(g, s, x, el, o));
    }
  }

  lemma AllEndEases(g: Graph, s: Instance)
    ensures Eases(g, s, CompleteInstance(s.(tokens := map[])))
  {
  }

  lemma MergeEases(g: Graph, s: Instance, x: TokenId, gone: set<TokenId>)
    requires Tidy(g, s) && x in s.tokens && s.tokens[x].state.Active? && x !in gone
    ensures var s1 := MergeInto(Arrive(s, x), x, gone); Eases(g, s, s1) && Tidy(g, s1) && s1.status.Running? && x in s1.tokens
  {
    var s1 := MergeInto(Arrive(s, x), x, gone);
    assert s1.tokens == s.tokens - gone;
    FlatShrinks(g, s, s1);
    forall u | u in s1.tokens ensures OwnedBy(s1, u) {
      assert OwnedBy(s, u);
    }
  }

  lemma ParallelEases(g: Graph, s: Instance, x: TokenId, el: Element, o: Oracle)
    requires ValidGraph(g) && Tidy(g, s) && x in s.tokens && s.tokens[x].state.Active?
    ensures Eases(g, s, RouteParallel(g, s, x, el, o))
  {
    hide Eases, Tidy, ForkAll, MergeInto;
    ForkEases(g, s, x);
    ArriveEases(g, s, x);
    var s1 := Arrive(s, x);
    if |el.incoming| > 1 && ParallelJoinReady(s1, s1.tokens[x], el.incoming) {
      var s2 := MergeInto(s1, x, Merged(s1, x, o));
      MergeEases(g, s, x, Merged(s1, x, o));
      ForkEases(g, s2, x);
      EasesTransitive(g, s, s2, ForkAll(g, s2, x));
    }
  }

  lemma InclusiveEases(g: Graph, s: Instance, x: TokenId, el: Element, o: Oracle)
    requires ValidGraph(g) && Tidy(g, s) && x in s.tokens && s.tokens[x].state.Active? && s.tokens[x].path in g
    ensures Eases(g, s, RouteInclusive(g, s, x, el, o))
  {
    hide Eases, Tidy, TakeOutgoing, MergeInto;
    TakeEases(g, s, x, o);
    ArriveEases(g, s, x);
    var s1 := Arrive(s, x);
    if |el.incoming| > 1 && InclusiveJoinReady(g, s1, x) {
      var s2 := MergeInto(s1, x, JoinedWith(s1, x));
      MergeEases(g, s, x, JoinedWith(s1, x));
      TakeEases(g, s2, x, o);
      EasesTransitive(g, s, s2, TakeOutgoing(g, s2, x, o));
    }
  }

  lemma EventBasedEases(g: Graph, s: Instance, x: TokenId, el: Element, o: Oracle)
    requires Tidy(g, s) && x in s.tokens && s.tokens[x].path in g
    ensures Eases(g, s, RouteEventBased(g, s, x, el, o))
  {
    var s1 := SetToken(s, x, s.tokens[x].(state := WaitEvents, ref := NoRef));
    var c := g[s.tokens[x].path];
    assert OwnedBy(s, x);
    OneEases(g, s, s1, x);
    EasedTidy(g, s, s1);
    Routing.TargetsRegister(g, s1, x, c, el.outgoing, o);
    RegisterEachEases(g, s1, x, c, Routing.Targets(c, el.outgoing), o.timerOk);
    EasesTransitive(g, s, s1, RouteEventBased(g, s, x, el, o));
  }

  lemma CatchEases(g: Graph, s: Instance, x: TokenId, el: Element, o: Oracle)
    requires Tidy(g, s) && x in s.tokens && Loose(s.tokens[x])
    ensures Eases(g, s, CatchEvent(s, x, el, o))
  {
    hide Eases, Catching;
    var kind := if el.event.Some? then el.event.value.kind else Terminate;
    IncidentEases(g, s, x);
    match kind {
      case Timer => CatchingEases(g, s, x, WaitTimer, kind, o);
      case Message => CatchingEases(g, s, x, WaitMessage, kind, o);
      case Signal => CatchingEases(g, s, x, WaitSignal, kind, o);
      case _ =>
    }
  }

  /** Whatever a step's evaluations answer, it leaves no token waiting on something that will
      never happen, but for those that were before. */
  lemma StepEases(g: Graph, s: Instance, x: TokenId, o: Oracle)
    requires ValidGraph(g) && Tidy(g, s) && x in s.tokens && s.tokens[x].state.Active?
    requires ElementOf(g, s.tokens[x]).Some? ==> OwnLoop(s.tokens[x], ElementOf(g, s.tokens[x]).value)
    ensures |s.tokens[x].path| == |s.tokens[x].owners| && Eases(g, s, Step(g, s, x, o))
  {
    hide TakeOutgoing, ReachEnd, CatchEvent, RouteExclusive, RouteParallel, RouteInclusive, RouteEventBased, Activity, Eases;
    assert FlatToken(g, s, x) && OwnedBy(s, x);
    hide Tidy;
    var el := ElementOf(g, s.tokens[x]).value;
    match el.etype {
      case StartEvent => TakeEases(g, s, x, o);
      case EndEvent => EndEases(g, s, x, el, o);
      case BoundaryEvent => TakeEases(g, s, x, o);
      case IntermediateCatch => CatchEases(g, s, x, el, o);
      case IntermediateThrow => TakeEases(g, s, x, o);
      case ExclusiveGateway => ExclusiveEases(g, s, x, o);
      case ParallelGateway => ParallelEases(g, s, x, el, o);
      case InclusiveGateway => InclusiveEases(g, s, x, el, o);
      case EventBasedGateway => EventBasedEases(g, s, x, el, o);
      case _ => ActivityEases(g, s, x, el, o);
    }
  }

  // ---- the drain ----------------------------------------------------------------------------------------

  /** Not broken, or waiting for a call made since `n`, whose child starts once the drain is saved. */
  predicate Well(s: Instance, children: ChildStates, n: nat, t: Token) {
    !Broken(s, children, t) || (t.state.WaitChild? && t.ref.RecordRef? && n <= t.ref.id)
  }

  ghost predicate AllWell(s: Instance, children: ChildStates, n: nat) {
    n <= s.nextId && forall u :: u in s.tokens ==> Well(s, children, n, s.tokens[u])
  }

  lemma StaysWell(g: Graph, s: Instance, s': Instance, children: ChildStates, n: nat)
    requires Eases(g, s, s') && AllWell(s, children, n)
    ensures AllWell(s', children, n)
  {
    forall u | u in s'.tokens ensures Well(s', children, n, s'.tokens[u]) {
      assert s'.tokens[u] == s'.tokens[u];
    }
  }

  /** An instance between two steps of a drain. */
  ghost predicate Draining(g: Graph, s: Instance, children: ChildStates, n: nat) {
    AllWell(s, children, n) && (if s.status.Running? then Inv(g, s) && Tidy(g, s) else s.tokens == map[])
  }

  lemma DrainStepWell(g: Graph, s: Instance, s': Instance, o: Oracle, children: ChildStates, n: nat)
    requires ValidGraph(g) && Draining(g, s, children, n) && Runtime.DrainStep(g, s, s', o) && Runtime.AnsweredWell(g, s, o)
    ensures Draining(g, s', children, n)
  {
    hide Step, Eases, Tidy, Core, NoStuck, Linked, Routed, AllWell;
    var x := Runtime.Lowest(s).value;
    var gone :| s' == Step(g, s, x, o.(gone := gone));
    Steps.NoIterationHere(g, s, x);
    Steps.StepKeeps(g, s, x, o.(gone := gone));
    StepEases(g, s, x, o.(gone := gone));
    StaysWell(g, s, s', children, n);
    EasedEnds(g, s, s');
  }

  lemma EasedEnds(g: Graph, s: Instance, s': Instance)
    requires Eases(g, s, s')
    ensures if s'.status.Running? then Tidy(g, s') else s'.tokens == map[]
  {
  }

  lemma {:induction false} DrainWell(g: Graph, s: Instance, t: seq<Instance>, k: nat, answers: nat -> Oracle, children: ChildStates, n: nat)
    requires ValidGraph(g) && Draining(g, s, children, n) && Runtime.IsDrain(g, s, t, answers) && k < |t|
    requires forall p: seq<Instance> :: Runtime.IsDrain(g, s, p, answers) ==> Runtime.AnsweredWell(g, p[|p| - 1], answers(|p| - 1))
    ensures Draining(g, t[k], children, n)
    decreases k
  {
    hide Draining, Runtime.DrainStep, Runtime.AnsweredWell;
    if k > 0 {
      DrainWell(g, s, t, k - 1, answers, children, n);
      var p := t[..k];
      forall i | 0 <= i < |p| - 1 ensures Runtime.DrainStep(g, p[i], p[i + 1], answers(i)) {
        assert Runtime.DrainStep(g, t[i], t[i + 1], answers(i));
      }
      assert Runtime.IsDrain(g, s, p, answers) && p[|p| - 1] == t[k - 1];
      assert Runtime.DrainStep(g, t[k - 1], t[k - 1 + 1], answers(k - 1));
      DrainStepWell(g, t[k - 1], t[k], answers(k - 1), children, n);
    }
  }

  /** The drain after a repair pass: from an instance in order none of whose tokens is broken,
      none is when it stops, but for calls it made itself. */
  method DrainRepaired(run: Runtime.Run, children: ChildStates, answers: nat -> Oracle)
    requires ValidGraph(run.g) && Inv(run.g, run.View()) && Tidy(run.g, run.View())
    requires forall u :: u in run.tokens ==> !Broken(run.View(), children, run.tokens[u])
    requires forall t: seq<Instance> :: Runtime.IsDrain(run.g, run.View(), t, answers) ==>
      Runtime.AnsweredWell(run.g, t[|t| - 1], answers(|t| - 1))
    modifies run
    ensures Inv(run.g, run.View())
    ensures forall u :: u in run.tokens ==> Well(run.View(), children, old(run.nextId), run.tokens[u])
  {
    ghost var s := run.View();
    ghost var trace := run.Drain(answers);
    DrainWell(run.g, s, trace, |trace| - 1, answers, children, s.nextId);
    ghost var last := trace[|trace| - 1];
    if !s.suspended && last.status.Running? && Runtime.Lowest(last).Some? {
      IncidentEases(run.g, last, Runtime.Lowest(last).value);
      StaysWell(run.g, last, run.View(), children, s.nextId);
    }
  }

  /** reconcile on one instance, the drain included: the repairs, then, if there were any, the
      steps they enable. From an instance in order, whatever jobs, calls and call results a crash
      lost, no token is left waiting on something that will never happen. */
  method ReconcileInstance(run: Runtime.Run, children: ChildStates, repairs: TokenId -> Oracle, answers: nat -> Oracle)
    requires ValidGraph(run.g) && Inv(run.g, run.View()) && Tidy(run.g, run.View())
    requires forall u :: Completion.LoopAnswers(repairs(u))
    requires forall s: Instance, t: seq<Instance> :: Runtime.IsDrain(run.g, s, t, answers) ==>
      Runtime.AnsweredWell(run.g, t[|t| - 1], answers(|t| - 1))
    modifies run
    ensures Inv(run.g, run.View())
    ensures forall u :: u in run.tokens ==> Well(run.View(), children, old(run.nextId), run.tokens[u])
  {
    var changed := RepairPass(run, children, repairs);
    if changed {
      DrainRepaired(run, children, answers);
    }
  }
}
