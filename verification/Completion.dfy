/** Completing activities, loops and scopes: the token removed last wakes exactly the
    token waiting around it. */
module Completion {
  import opened StoreState
  import opened Bpmn
  import opened Instances
  import opened Engine
  import opened ScopeTree
  import opened Moves
  import opened Cancellation

  // ---- removing a token -------------------------------------------------------------------

  /** Removing a free token leaves a cut at its scope, and its loop one iteration short. */
  lemma RemoveCuts(g: Graph, s: Instance, x: TokenId)
    requires Ready(g, s, x)
    ensures var t := s.tokens[x]; Cut(g, DeleteToken(s, x), t.path, t.owners, t.parent)
    ensures Advances(s, DeleteToken(s, x))
  {
    var t := s.tokens[x];
    var s' := DeleteToken(s, x);
    assert TokenOk(g, s, x) && FreeOf(t, {}, x);
    RemoveTree(g, s, x);
    assert Anchored(s, {x}, 0, t.path, t.owners);
    NoStuckCut(g, s, s', {x}, 0, t.path, t.owners, Some(x), 0, t.parent);
    NoZero(g, s);
    LinkedStays(s, s', x);
    RoutedStays(g, s, s', x);
  }

  lemma RemoveTree(g: Graph, s: Instance, x: TokenId)
    requires Core(g, s) && x in s.tokens && x !in s.multi && Vacated(s, {}, x)
    ensures Core(g, DeleteToken(s, x)) && Cuts(s, DeleteToken(s, x), {x}, 0)
    ensures var t := s.tokens[x]; ChainOk(g, DeleteToken(s, x), t.path, t.owners) && OwnersFree(t.owners, {x}, 0)
  {
    var t := s.tokens[x];
    var s' := DeleteToken(s, x);
    NoZero(g, s);
    assert TokenOk(g, s, x) && FreeOf(t, {}, x);
    forall u | u in s.tokens && u !in {x} ensures FreeOf(s.tokens[u], {x}, 0) {
      assert TokenOk(g, s, u) && FreeOf(s.tokens[u], {}, x);
    }
    MultiKept(g, s, s', {x}, 0);
    CoreUpdate(g, s, s', {x}, 0);
    ChainSurvives(g, s, s', {x}, 0, t.path, t.owners);
  }

  /** A token inside the scope fills the cut. */
  lemma CutFilled(g: Graph, s: Instance, path: Path, owners: seq<TokenId>, mhole: TokenId, u: TokenId)
    requires Cut(g, s, path, owners, mhole) && u in s.tokens && InScope(s.tokens[u], path, owners)
    ensures NoStuck(g, s, None, mhole)
  {
    forall o | o in s.tokens && ScopeWait(s.tokens[o]) ensures Occupied(s, o) {
      if o == LastOwner(owners) {
        NoZero(g, s);
        LastOwnerIn(owners);
        var k :| 0 <= k < |owners| && owners[k] == o;
        assert LevelOk(g, s, path, owners, k);
        assert path[..k] + [path[k]] == path[..k + 1] && owners[..k] + [o] == owners[..k + 1];
        assert path[..k + 1] <= path && owners[..k + 1] <= owners;
        assert Inside(s.tokens[u], s.tokens[o], o);
      } else {
        assert Occupied(s, o);
      }
    }
  }

  lemma BusyFills(g: Graph, s: Instance, path: Path, owners: seq<TokenId>)
    requires Cut(g, s, path, owners, 0) && ScopeBusy(s, path, owners)
    ensures Inv(g, s)
  {
    var u :| u in s.tokens && InScope(s.tokens[u], path, owners);
    CutFilled(g, s, path, owners, 0, u);
  }

  // ---- spawning into a scope --------------------------------------------------------------

  lemma SpawnTree(g: Graph, s: Instance, element: ElementId, path: Path, owners: seq<TokenId>)
    requires Core(g, s) && ChainOk(g, s, path, owners)
    requires HasElement(g, path, element) && !IsEventSub(g[path].elements[element])
    ensures Core(g, Spawn(s, element, path, owners, 0, 0, 0))
  {
    var s' := Spawn(s, element, path, owners, 0, 0, 0);
    Unused(g, s);
    forall u | u in s.tokens ensures FreeOf(s.tokens[u], {}, s.nextId) {
      assert TokenOk(g, s, u);
      forall i | 0 <= i < |s.tokens[u].owners| && s.tokens[u].owners[i] != 0 ensures s.tokens[u].owners[i] != s.nextId {
        assert LevelOk(g, s, s.tokens[u].path, s.tokens[u].owners, i);
      }
    }
    forall i | 0 <= i < |owners| && owners[i] != 0 ensures owners[i] != s.nextId {
      assert LevelOk(g, s, path, owners, i);
    }
    ChainSurvives(g, s, s', {}, s.nextId, path, owners);
    CoreUpdate(g, s, s', {}, s.nextId);
  }

  lemma Unused(g: Graph, s: Instance)
    requires Core(g, s)
    ensures s.nextId !in s.tokens && s.nextId !in s.multi
  {
    assert s.nextId in s.tokens ==> !TokenOk(g, s, s.nextId);
  }

  /** One new token in the scope mends a cut. */
  lemma SpawnFills(g: Graph, s: Instance, path: Path, owners: seq<TokenId>, element: ElementId,
                   inner: Path, innerOwners: seq<TokenId>)
    requires Cut(g, s, path, owners, 0) && ChainOk(g, s, inner, innerOwners)
    requires path <= inner && owners <= innerOwners
    requires HasElement(g, inner, element) && !IsEventSub(g[inner].elements[element])
    ensures Keeps(g, s, Spawn(s, element, inner, innerOwners, 0, 0, 0))
  {
    var s' := Spawn(s, element, inner, innerOwners, 0, 0, 0);
    Unused(g, s);
    SpawnTree(g, s, element, inner, innerOwners);
    SpawnRecords(g, s, s');
    forall m | m in s'.multi ensures m in s'.tokens && m != 0 {
      assert TokenOk(g, s, m);
    }
    NoStuckStays(g, s, s', 0, Some(LastOwner(owners)), 0, Some(LastOwner(owners)), 0);
    SpawnChain(g, s, s', path, owners);
    CutFilled(g, s', path, owners, 0, s.nextId);
  }

  lemma SpawnChain(g: Graph, s: Instance, s': Instance, path: Path, owners: seq<TokenId>)
    requires ChainOk(g, s, path, owners)
    requires forall u :: u in s.tokens ==> u in s'.tokens && s'.tokens[u] == s.tokens[u]
    ensures ChainOk(g, s', path, owners)
  {
    forall i | 0 <= i < |path| ensures LevelOk(g, s', path, owners, i) {
      assert LevelOk(g, s, path, owners, i);
    }
  }

  lemma SpawnRecords(g: Graph, s: Instance, s': Instance)
    requires Core(g, s) && Linked(s, 0) && Routed(g, s)
    requires s.nextId in s'.tokens && s'.tokens == s.tokens[s.nextId := s'.tokens[s.nextId]] && s.nextId !in s.tokens
    requires !Waiting(s'.tokens[s.nextId]) && s'.waits == s.waits && s'.events == s.events
    ensures Linked(s', 0) && Routed(g, s')
  {
    NoZero(g, s);
    forall u | u in s.tokens ensures u < s.nextId {
      assert TokenOk(g, s, u);
    }
    LinkedStays(s, s', 0);
    RoutedStays(g, s, s', 0);
  }

  // ---- dropping a token's jobs and subscriptions -------------------------------------------

  lemma DropEventsReady(g: Graph, s: Instance, x: TokenId)
    requires x in s.tokens
    requires Ready(g, s, x) || (Cut(g, s, s.tokens[x].path + [s.tokens[x].element], s.tokens[x].owners + [x], 0)
                                && ScopeWait(s.tokens[x]) && !Occupied(s, x) && x !in s.multi)
    ensures Ready(g, DropEvents(s, x), x) && Advances(s, DropEvents(s, x))
  {
    var s' := DropEvents(s, x);
    if !Ready(g, s, x) {
      EmptyOwnerVacated(g, s, x);
      assert TokenOk(g, s, x);
      assert Settled(s, x);
    }
    DroppedTree(g, s, s', x);
    forall u | u in s'.tokens && u != x ensures Held(s', u) {
      assert TokenOk(g, s, u) && Held(s, u);
    }
    forall w | w in s'.waits ensures Backed(s', w, x) {
      if Ready(g, s, x) {
        assert Backed(s, w, x);
      } else {
        assert Backed(s, w, 0);
      }
    }
    RoutedStays(g, s, s', x);
  }

  /** The tree does not depend on jobs and subscriptions. */
  lemma DroppedTree(g: Graph, s: Instance, s': Instance, x: TokenId)
    requires Core(g, s) && s' == DropEvents(s, x) && NoStuck(g, s, Some(x), 0)
    ensures Core(g, s') && NoStuck(g, s', Some(x), 0)
    ensures Vacated(s, {}, x) ==> Vacated(s', {}, x)
  {
    forall u | u in s'.tokens ensures TokenOk(g, s', u) {
      assert TokenOk(g, s, u);
      SpawnChain(g, s, s', s.tokens[u].path, s.tokens[u].owners);
    }
    forall m | m in s'.multi ensures m in s'.tokens && m != 0 {
      assert TokenOk(g, s, m);
    }
    NoStuckStays(g, s, s', 0, Some(x), 0, Some(x), 0);
    if Vacated(s, {}, x) {
      DroppedVacated(s, x);
    }
  }

  lemma DroppedVacated(s: Instance, x: TokenId)
    requires Vacated(s, {}, x)
    ensures Vacated(DropEvents(s, x), {}, x)
  {
    forall u | u in s.tokens ensures FreeOf(DropEvents(s, x).tokens[u], {}, x) {
      assert FreeOf(s.tokens[u], {}, x);
    }
  }

  // ---- loops --------------------------------------------------------------------------------

  /** Between two iterations: all is well except that loop `m` must settle its books. */
  ghost predicate Looping(g: Graph, s: Instance, m: TokenId) {
    && s.status.Running? && Core(g, s) && NoStuck(g, s, None, m) && Linked(s, 0) && Routed(g, s) && m in s.multi
  }

  /** The engine evaluates loop outputs and completion conditions after the iteration is
      gone, so these have to succeed. */
  predicate LoopAnswers(o: Oracle) {
    o.outputOk && !o.done.Fails?
  }

  lemma {:induction false} SiblingsLoops(g: Graph, s: Instance, t: Token, flows: seq<ElementId>)
    ensures SpawnSiblings(g, s, t, flows).multi == s.multi
    decreases flows
  {
    if flows != [] {
      SiblingsLoops(g, OneSibling(g, s, t, flows[0]), t, flows[1..]);
    }
  }

  lemma TakeOutgoingLoops(g: Graph, s: Instance, x: TokenId, o: Oracle)
    requires x in s.tokens
    ensures TakeOutgoing(g, s, x, o).multi == s.multi
  {
    if ElementOf(g, s.tokens[x]).Some? {
      var c := g[s.tokens[x].path];
      var el := c.elements[s.tokens[x].element];
      var chosen := SelectFlows(c, el.outgoing, el.defaultFlow, o);
      if chosen.Some? && WithDefault(c, el, chosen.value) != [] {
        SiblingsLoops(g, s, s.tokens[x], WithDefault(c, el, chosen.value)[1..]);
      }
    }
  }

  /** The answers one loop asks for. */
  predicate SpecAnswers(spec: MultiSpec, o: Oracle) {
    (spec.hasOutput ==> o.outputOk) && (spec.hasCondition ==> !o.done.Fails?)
  }

  /** An activity that is no iteration takes its flows. */
  lemma CompletePlainKeeps(g: Graph, s: Instance, x: TokenId, o: Oracle)
    requires ValidGraph(g) && Ready(g, s, x) && s.tokens[x].parent == 0
    ensures Keeps(g, s, CompleteActivity(g, s, x, o))
    ensures CompleteActivity(g, s, x, o).multi == s.multi
  {
    ReadyStands(g, s, x);
    DropEventsReady(g, s, x);
    var s1 := DropEvents(s, x);
    TakeOutgoingKeeps(g, s1, x, o);
    TakeOutgoingLoops(g, s1, x, o);
    AdvancesTransitive(g, s, s1, TakeOutgoing(g, s1, x, o));
  }

  lemma StragglersAre(g: Graph, s: Instance, m: TokenId)
    requires Core(g, s) && m in s.multi
    ensures m in s.tokens && Stragglers(g, s, m) == LoopSet(g, s, m) == ActivitySet(g, s, m)
    ensures m !in Stragglers(g, s, m)
  {
    assert TokenOk(g, s, m);
    SubtreeNotSelf(g, s, m);
    var t := s.tokens[m];
    forall u | u in ScopeSet(s, t.path + [t.element], t.owners + [m], 0) ensures false {
      assert s.tokens[u].owners[|t.owners|] == m;
      NoZero(g, s);
      HangsOwner(g, s, u, m);
    }
  }

  /** The coordinator once the loop is over. */
  function LoopOver(g: Graph, s: Instance, m: TokenId): Instance
    requires m in s.tokens
  {
    var s1 := Sweep(s, Stragglers(g, s, m) - {m}, Stragglers(g, s, m) - {m});
    SetToken(s1.(multi := s1.multi - {m}), m, s1.tokens[m].(state := Active, ref := NoRef))
  }

  lemma LoopOverFrees(g: Graph, s: Instance, m: TokenId)
    requires Core(g, s) && m in s.multi && m in s.tokens && m !in Stragglers(g, s, m)
    requires Stragglers(g, s, m) == ActivitySet(g, s, m)
    ensures Frees(g, s, LoopOver(g, s, m), m, ActivitySet(g, s, m))
  {
    assert TokenOk(g, s, m);
    var kill := ActivitySet(g, s, m);
    assert Stragglers(g, s, m) - {m} == kill;
    SweepLeaves(s, LoopOver(g, s, m), kill, kill, m, s.tokens[m].(state := Active, ref := NoRef));
  }

  lemma LoopOverReady(g: Graph, s: Instance, m: TokenId)
    requires Looping(g, s, m)
    ensures m in s.tokens && Ready(g, LoopOver(g, s, m), m) && Advances(s, LoopOver(g, s, m))
    ensures LoopOver(g, s, m).tokens[m].parent == 0 && LoopOver(g, s, m).multi == s.multi - ActivitySet(g, s, m) - {m}
  {
    hide LoopOver, Frees;
    StragglersAre(g, s, m);
    assert TokenOk(g, s, m);
    LoopOverFrees(g, s, m);
    LoopOverIs(g, s, m);
    FreedReady(g, s, LoopOver(g, s, m), m, ActivitySet(g, s, m), 0, None, m);
    LeafReady(g, LoopOver(g, s, m), m);
  }

  lemma LoopOverIs(g: Graph, s: Instance, m: TokenId)
    requires m in s.tokens && m in s.multi && Stragglers(g, s, m) == ActivitySet(g, s, m) && m !in Stragglers(g, s, m)
    ensures m in LoopOver(g, s, m).tokens && LoopOver(g, s, m).tokens[m] == s.tokens[m].(state := Active, ref := NoRef)
    ensures LoopOver(g, s, m).multi == s.multi - ActivitySet(g, s, m) - {m}
  {
    assert Stragglers(g, s, m) - {m} == Stragglers(g, s, m);
  }

  /** No loop entry and no iteration is left. */
  ghost predicate LoopGone(s: Instance, m: TokenId) {
    m !in s.multi && forall u :: u in s.tokens ==> s.tokens[u].parent != m
  }

  lemma FinishMultiIs(g: Graph, s: Instance, m: TokenId, o: Oracle)
    requires m in s.tokens
    ensures FinishMulti(g, s, m, o) ==
      if o.outputsOk(m) then CompleteActivity(g, DropEvents(LoopOver(g, s, m), m), m, o) else RaiseIncident(LoopOver(g, s, m), m)
  {
  }

  /** finishMultiInstance: every iteration goes and the coordinator moves on, once. */
  lemma FinishMultiKeeps(g: Graph, s: Instance, m: TokenId, o: Oracle)
    requires ValidGraph(g) && Looping(g, s, m)
    ensures m in s.tokens && Keeps(g, s, FinishMulti(g, s, m, o))
    ensures LoopGone(FinishMulti(g, s, m, o), m)
  {
    LoopOverReady(g, s, m);
    FinishMultiIs(g, s, m, o);
    var s2 := LoopOver(g, s, m);
    LoopOverMoves(g, s2, m, o);
    var s' := if o.outputsOk(m) then CompleteActivity(g, DropEvents(s2, m), m, o) else RaiseIncident(s2, m);
    AdvancesTransitive(g, s, s2, s');
    NoIterations(g, s', m);
  }

  lemma LoopOverMoves(g: Graph, s: Instance, m: TokenId, o: Oracle)
    requires ValidGraph(g) && Ready(g, s, m) && s.tokens[m].parent == 0
    ensures m != 0
    ensures var s' := if o.outputsOk(m) then CompleteActivity(g, DropEvents(s, m), m, o) else RaiseIncident(s, m);
      Keeps(g, s, s') && s'.multi == s.multi
  {
    ReadyStands(g, s, m);
    if o.outputsOk(m) {
      DropEventsReady(g, s, m);
      var s3 := DropEvents(s, m);
      CompletePlainKeeps(g, s3, m, o);
      AdvancesTransitive(g, s, s3, CompleteActivity(g, s3, m, o));
    } else {
      RaiseIncidentKeeps(g, s, m);
    }
  }

  lemma NoIterations(g: Graph, s: Instance, m: TokenId)
    requires Inv(g, s) && m !in s.multi && m != 0
    ensures LoopGone(s, m)
  {
    forall u | u in s.tokens ensures s.tokens[u].parent != m {
      assert TokenOk(g, s, u);
    }
  }

  // ---- iterations ------------------------------------------------------------------------------

  lemma SpawnIterationTree(g: Graph, s: Instance, m: TokenId, index: nat)
    requires Core(g, s) && m in s.multi && m in s.tokens
    ensures Core(g, SpawnIteration(g, s, m, index))
  {
    var t := s.tokens[m];
    var s' := SpawnIteration(g, s, m, index);
    Unused(g, s);
    assert TokenOk(g, s, m);
    forall u | u in s.tokens ensures FreeOf(s.tokens[u], {}, s.nextId) {
      assert TokenOk(g, s, u);
      forall i | 0 <= i < |s.tokens[u].owners| && s.tokens[u].owners[i] != 0 ensures s.tokens[u].owners[i] != s.nextId {
        assert LevelOk(g, s, s.tokens[u].path, s.tokens[u].owners, i);
      }
    }
    assert FreeOf(t, {}, s.nextId);
    ChainSurvives(g, s, s', {}, s.nextId, t.path, t.owners);
    CoreUpdate(g, s, s', {}, s.nextId);
  }

  lemma SpawnIterationBooks(g: Graph, s: Instance, m: TokenId, index: nat)
    requires m in s.tokens && s.nextId !in s.tokens && m != 0
    ensures var s' := SpawnIteration(g, s, m, index);
      Children(s', m) == Children(s, m) + {s.nextId} && s'.tokens[s.nextId].loop == index
    ensures SpawnedUpTo(s, m, index) ==> SpawnedUpTo(SpawnIteration(g, s, m, index), m, index + 1)
  {
    var s' := SpawnIteration(g, s, m, index);
    if SpawnedUpTo(s, m, index) {
      SpawnedNext(s, s', m, index);
    }
  }

  lemma SpawnIterationKeeps(g: Graph, s: Instance, m: TokenId, index: nat)
    requires Looping(g, s, m)
    ensures m in s.tokens && Looping(g, SpawnIteration(g, s, m, index), m)
    ensures Persists(s, SpawnIteration(g, s, m, index))
  {
    assert TokenOk(g, s, m);
    var s' := SpawnIteration(g, s, m, index);
    Unused(g, s);
    SpawnIterationTree(g, s, m, index);
    SpawnRecords(g, s, s');
    forall n | n in s'.multi ensures n in s'.tokens && n != 0 {
      assert TokenOk(g, s, n);
    }
    NoStuckStays(g, s, s', 0, None, m, None, m);
  }

  /** The books of a parallel loop whose first `n` iterations are spawned. */
  ghost predicate SpawnedUpTo(s: Instance, m: TokenId, n: nat) {
    && |Children(s, m)| == n
    && (forall c :: c in Children(s, m) ==> s.tokens[c].loop < n)
    && (forall c, d :: c in Children(s, m) && d in Children(s, m) && s.tokens[c].loop == s.tokens[d].loop ==> c == d)
  }

  lemma SpawnedNext(s: Instance, s1: Instance, m: TokenId, n: nat)
    requires SpawnedUpTo(s, m, n) && s.nextId !in Children(s, m)
    requires Children(s1, m) == Children(s, m) + {s.nextId} && s1.tokens[s.nextId].loop == n
    requires forall u :: u in s.tokens ==> u in s1.tokens && (u != s.nextId ==> s1.tokens[u] == s.tokens[u])
    ensures SpawnedUpTo(s1, m, n + 1)
  {
    forall c | c in Children(s1, m) ensures s1.tokens[c].loop < n + 1 && (s1.tokens[c].loop == n <==> c == s.nextId) {
      assert c != s.nextId ==> c in Children(s, m);
    }
    forall c, d | c in Children(s1, m) && d in Children(s1, m) && s1.tokens[c].loop == s1.tokens[d].loop ensures c == d {
      assert c != s.nextId ==> c in Children(s, m) && d in Children(s, m);
    }
  }

  lemma {:induction false} SpawnIterationsBooks(g: Graph, s: Instance, m: TokenId, index: nat, count: nat)
    requires m in s.tokens && SpawnedUpTo(s, m, index) && m != 0 && forall u :: u in s.tokens ==> u < s.nextId
    ensures SpawnedUpTo(SpawnIterations(g, s, m, index, count), m, index + count)
    ensures SpawnIterations(g, s, m, index, count).multi == s.multi
    ensures m in SpawnIterations(g, s, m, index, count).tokens
    ensures SpawnIterations(g, s, m, index, count).tokens[m] == s.tokens[m]
    decreases count
  {
    hide SpawnedUpTo, Children;
    if count != 0 {
      SpawnIterationBooks(g, s, m, index);
      SpawnIterationsBooks(g, SpawnIteration(g, s, m, index), m, index + 1, count - 1);
    }
  }

  lemma {:induction false} SpawnIterationsKeep(g: Graph, s: Instance, m: TokenId, index: nat, count: nat)
    requires Looping(g, s, m)
    ensures m in s.tokens
    ensures Looping(g, SpawnIterations(g, s, m, index, count), m)
    ensures Persists(s, SpawnIterations(g, s, m, index, count))
    decreases count
  {
    assert TokenOk(g, s, m);
    if count != 0 {
      var s1 := SpawnIteration(g, s, m, index);
      SpawnIterationKeeps(g, s, m, index);
      SpawnIterationsKeep(g, s1, m, index + 1, count - 1);
      PersistsTransitive(s, s1, SpawnIterations(g, s1, m, index + 1, count - 1));
    }
  }

  lemma Settle(g: Graph, s: Instance, m: TokenId)
    requires Looping(g, s, m) && m in s.tokens && Accounted(g, s, m)
    ensures Inv(g, s)
  {
  }

  lemma RebookTree(g: Graph, s: Instance, m: TokenId, ms: MultiState)
    requires Core(g, s) && m in s.multi
    ensures Core(g, s.(multi := s.multi[m := ms]))
  {
    var s' := s.(multi := s.multi[m := ms]);
    forall u | u in s'.tokens ensures TokenOk(g, s', u) {
      assert TokenOk(g, s, u);
      SpawnChain(g, s, s', s.tokens[u].path, s.tokens[u].owners);
    }
  }

  lemma RebookKeeps(g: Graph, s: Instance, m: TokenId, ms: MultiState)
    requires Looping(g, s, m) && s.multi[m].nextIndex <= ms.nextIndex
    ensures Looping(g, s.(multi := s.multi[m := ms]), m) && Advances(s, s.(multi := s.multi[m := ms]))
  {
    RebookTree(g, s, m, ms);
    var s' := s.(multi := s.multi[m := ms]);
    NoZero(g, s);
    NoStuckStays(g, s, s', 0, None, m, None, m);
    LinkedStays(s, s', 0);
    RoutedStays(g, s, s', 0);
  }

  lemma FewerIterations(g: Graph, s: Instance, x: TokenId, m: TokenId)
    requires x in Children(s, m) && m in s.multi && m in s.tokens && m != x && Accounted(g, s, m)
    ensures Children(DeleteToken(s, x), m) == Children(s, m) - {x}
    ensures SpecOf(g, s.tokens[m]).Some?
    ensures SpecOf(g, s.tokens[m]).value.sequential ==> Children(DeleteToken(s, x), m) == {}
    ensures !SpecOf(g, s.tokens[m]).value.sequential ==>
      |Children(DeleteToken(s, x), m)| == s.multi[m].total - s.multi[m].completed - 1
  {
    assert Children(DeleteToken(s, x), m) == Children(s, m) - {x};
  }

  /** The state after an iteration is taken off and counted. */
  function Counted(g: Graph, s: Instance, x: TokenId, hasOutput: bool): Instance
    requires x in s.tokens && s.tokens[x].parent in s.multi
  {
    var p := s.tokens[x].parent;
    DeleteToken(s, x).(multi := s.multi[p := s.multi[p].(
      outputs := s.multi[p].outputs + (if hasOutput then 1 else 0), completed := s.multi[p].completed + 1)])
  }

  lemma CountedLoops(g: Graph, s: Instance, x: TokenId, hasOutput: bool)
    requires Ready(g, s, x) && s.tokens[x].parent != 0
    ensures var p := s.tokens[x].parent;
      && p in s.multi && p in s.tokens && p != x && p != 0 && Accounted(g, s, p) && x in Children(s, p)
      && SpecOf(g, s.tokens[p]) == SpecOf(g, s.tokens[x])
      && Looping(g, Counted(g, s, x, hasOutput), p) && Advances(s, Counted(g, s, x, hasOutput))
  {
    var t := s.tokens[x];
    var p := t.parent;
    assert TokenOk(g, s, x) && TokenOk(g, s, p) && Accounted(g, s, p);
    RemoveCuts(g, s, x);
    var s1 := DeleteToken(s, x);
    CutFilled(g, s1, t.path, t.owners, p, p);
    assert Looping(g, s1, p);
    RebookKeeps(g, s1, p, Counted(g, s, x, hasOutput).multi[p]);
    AdvancesTransitive(g, s, s1, Counted(g, s, x, hasOutput));
  }

  lemma MiChildCompletedIs(g: Graph, s: Instance, x: TokenId, o: Oracle)
    requires x in s.tokens && s.tokens[x].parent in s.multi && s.tokens[x].parent in s.tokens && s.tokens[x].parent != x
    requires SpecOf(g, s.tokens[x]).Some? && SpecAnswers(SpecOf(g, s.tokens[x]).value, o)
    ensures var spec := SpecOf(g, s.tokens[x]).value;
      MiChildCompleted(g, s, x, o) == AfterCount(g, Counted(g, s, x, spec.hasOutput), s.tokens[x].parent, spec, o)
  {
  }

  /** The next iteration of a sequential loop is the one after those completed. */
  lemma NextIterationKeeps(g: Graph, s: Instance, m: TokenId, ms: MultiState, spec: MultiSpec)
    requires Looping(g, s, m) && m in s.tokens && s.multi[m] == ms && SpecOf(g, s.tokens[m]) == Some(spec) && spec.sequential
    requires Children(s, m) == {} && ms.nextIndex == ms.completed < ms.total
    requires ms.outputs == (if spec.hasOutput then ms.completed else 0)
    ensures Keeps(g, s, SpawnIteration(g, s.(multi := s.multi[m := ms.(nextIndex := ms.nextIndex + 1)]), m, ms.nextIndex))
  {
    hide Linked, Routed, Fresh, TokenOk;
    var s1 := s.(multi := s.multi[m := ms.(nextIndex := ms.nextIndex + 1)]);
    RebookKeeps(g, s, m, ms.(nextIndex := ms.nextIndex + 1));
    var s2 := SpawnIteration(g, s1, m, ms.nextIndex);
    SpawnIterationKeeps(g, s1, m, ms.nextIndex);
    NoZero(g, s);
    Unused(g, s);
    SpawnIterationBooks(g, s1, m, ms.nextIndex);
    assert Children(s1, m) == Children(s, m);
    assert Children(s2, m) == {s1.nextId};
    PersistsTransitive(s, s1, s2);
    Settle(g, s2, m);
  }

  /** The books right after an iteration was counted. */
  ghost predicate CountedBooks(g: Graph, s: Instance, m: TokenId, spec: MultiSpec)
    requires m in s.multi && m in s.tokens
  {
    var ms := s.multi[m];
    && SpecOf(g, s.tokens[m]) == Some(spec)
    && (ms.completed < ms.total && !spec.sequential ==> Accounted(g, s, m))
    && (ms.completed < ms.total && spec.sequential ==>
          Children(s, m) == {} && ms.nextIndex == ms.completed && ms.outputs == (if spec.hasOutput then ms.completed else 0))
  }

  predicate LoopEnds(ms: MultiState, spec: MultiSpec, o: Oracle) {
    (spec.hasCondition && o.done.Yes?) || ms.completed >= ms.total
  }

  lemma AfterCountIs(g: Graph, s: Instance, m: TokenId, spec: MultiSpec, o: Oracle)
    requires m in s.tokens && m in s.multi && SpecAnswers(spec, o)
    ensures var ms := s.multi[m];
      AfterCount(g, s, m, spec, o) ==
        if LoopEnds(ms, spec, o) then FinishMulti(g, s, m, o)
        else if spec.sequential && ms.nextIndex < ms.total
             then SpawnIteration(g, s.(multi := s.multi[m := ms.(nextIndex := ms.nextIndex + 1)]), m, ms.nextIndex)
        else s
  {
  }

  /** After counting: the loop ends, or its books are settled again. */
  lemma AfterCountKeeps(g: Graph, s: Instance, m: TokenId, spec: MultiSpec, o: Oracle)
    requires ValidGraph(g) && Looping(g, s, m) && m in s.tokens && CountedBooks(g, s, m, spec) && SpecAnswers(spec, o)
    ensures Keeps(g, s, AfterCount(g, s, m, spec, o))
  {
    AfterCountIs(g, s, m, spec, o);
    if LoopEnds(s.multi[m], spec, o) {
      FinishMultiKeeps(g, s, m, o);
    } else if spec.sequential {
      BooksNext(g, s, m, spec);
    } else {
      BooksSettle(g, s, m, spec);
    }
  }

  lemma BooksNext(g: Graph, s: Instance, m: TokenId, spec: MultiSpec)
    requires Looping(g, s, m) && m in s.tokens && CountedBooks(g, s, m, spec)
    requires s.multi[m].completed < s.multi[m].total && spec.sequential
    ensures var ms := s.multi[m];
      ms.nextIndex < ms.total
      && Keeps(g, s, SpawnIteration(g, s.(multi := s.multi[m := ms.(nextIndex := ms.nextIndex + 1)]), m, ms.nextIndex))
  {
    hide Keeps, SpawnIteration, Children, Accounted, Core, NoStuck, Linked, Routed;
    NextIterationKeeps(g, s, m, s.multi[m], spec);
  }

  lemma BooksSettle(g: Graph, s: Instance, m: TokenId, spec: MultiSpec)
    requires Looping(g, s, m) && m in s.tokens && CountedBooks(g, s, m, spec)
    requires s.multi[m].completed < s.multi[m].total && !spec.sequential
    ensures Keeps(g, s, s)
  {
    Settle(g, s, m);
  }

  lemma CountedAreBooks(g: Graph, s: Instance, x: TokenId, spec: MultiSpec)
    requires x in s.tokens && s.tokens[x].parent in s.multi
    requires var p := s.tokens[x].parent;
      p in s.tokens && p != x && x in Children(s, p) && Accounted(g, s, p) && SpecOf(g, s.tokens[p]) == Some(spec)
    ensures CountedBooks(g, Counted(g, s, x, spec.hasOutput), s.tokens[x].parent, spec)
  {
    var p := s.tokens[x].parent;
    var s2 := Counted(g, s, x, spec.hasOutput);
    FewerIterations(g, s, x, p);
    assert Children(s2, p) == Children(DeleteToken(s, x), p);
    if s2.multi[p].completed < s2.multi[p].total && !spec.sequential {
      ParallelBooks(g, s, s2, x, p, spec);
    }
  }

  /** miChildCompleted keeps the loop's books, spawns the next iteration or ends the loop. */
  lemma MiChildCompletedKeeps(g: Graph, s: Instance, x: TokenId, o: Oracle)
    requires ValidGraph(g) && Ready(g, s, x) && s.tokens[x].parent != 0
    requires SpecOf(g, s.tokens[x]).Some? ==> SpecAnswers(SpecOf(g, s.tokens[x]).value, o)
    ensures Keeps(g, s, MiChildCompleted(g, s, x, o))
  {
    var spec := IterationSpec(g, s, x);
    var s2 := Counted(g, s, x, spec.hasOutput);
    CountedLoops(g, s, x, spec.hasOutput);
    CountedAreBooks(g, s, x, spec);
    AfterCountKeeps(g, s2, s.tokens[x].parent, spec, o);
    AdvancesTransitive(g, s, s2, AfterCount(g, s2, s.tokens[x].parent, spec, o));
    MiChildCompletedIs(g, s, x, o);
  }

  /** Counting an iteration keeps the invariant exactly when the expressions the loop asks
      for succeed: a failure parks the coordinator of a loop that is still running. */
  lemma MiChildCompletedExactly(g: Graph, s: Instance, x: TokenId, o: Oracle)
    requires ValidGraph(g) && Ready(g, s, x) && s.tokens[x].parent != 0
    ensures SpecOf(g, s.tokens[x]).Some?
    ensures Inv(g, MiChildCompleted(g, s, x, o)) <==> SpecAnswers(SpecOf(g, s.tokens[x]).value, o)
  {
    var spec := IterationSpec(g, s, x);
    if SpecAnswers(spec, o) {
      MiChildCompletedKeeps(g, s, x, o);
    } else {
      CountedLoops(g, s, x, spec.hasOutput);
      ParkedCoordinator(g, s, x, spec, o);
    }
  }

  lemma ParkedCoordinator(g: Graph, s: Instance, x: TokenId, spec: MultiSpec, o: Oracle)
    requires x in s.tokens && SpecOf(g, s.tokens[x]) == Some(spec) && !SpecAnswers(spec, o) && s.status.Running?
    requires s.tokens[x].parent in s.multi && s.tokens[x].parent in s.tokens && s.tokens[x].parent != x
    ensures !Inv(g, MiChildCompleted(g, s, x, o))
  {
    var p := s.tokens[x].parent;
    MiChildFails(g, s, x, spec, o);
    assert p in MiChildCompleted(g, s, x, o).multi;
  }

  lemma MiChildFails(g: Graph, s: Instance, x: TokenId, spec: MultiSpec, o: Oracle)
    requires x in s.tokens && SpecOf(g, s.tokens[x]) == Some(spec) && !SpecAnswers(spec, o)
    requires s.tokens[x].parent in s.multi && s.tokens[x].parent in s.tokens && s.tokens[x].parent != x
    ensures MiChildCompleted(g, s, x, o) == RaiseIncident(
      if spec.hasOutput && !o.outputOk then DeleteToken(s, x) else Counted(g, s, x, spec.hasOutput), s.tokens[x].parent)
  {
    if !(spec.hasOutput && !o.outputOk) {
      assert MiChildCompleted(g, s, x, o) == AfterCount(g, Counted(g, s, x, spec.hasOutput), s.tokens[x].parent, spec, o);
    }
  }

  lemma IterationSpec(g: Graph, s: Instance, x: TokenId) returns (spec: MultiSpec)
    requires Ready(g, s, x) && s.tokens[x].parent != 0
    ensures SpecOf(g, s.tokens[x]) == Some(spec) && s.tokens[x].parent in s.multi
  {
    var p := s.tokens[x].parent;
    assert TokenOk(g, s, x) && TokenOk(g, s, p);
    spec := SpecOf(g, s.tokens[x]).value;
  }

  lemma ParallelBooks(g: Graph, s: Instance, s2: Instance, x: TokenId, p: TokenId, spec: MultiSpec)
    requires p in s.multi && p in s.tokens && p != x && Accounted(g, s, p) && x in Children(s, p)
    requires SpecOf(g, s.tokens[p]) == Some(spec) && !spec.sequential && s.tokens[x].parent == p
    requires s2 == Counted(g, s, x, spec.hasOutput) && s2.multi[p].completed < s2.multi[p].total
    ensures Accounted(g, s2, p)
  {
    FewerIterations(g, s, x, p);
    assert Children(s2, p) == Children(DeleteToken(s, x), p);
  }

  /** completeActivity, for iterations and others alike. */
  lemma CompleteActivityKeeps(g: Graph, s: Instance, x: TokenId, o: Oracle)
    requires ValidGraph(g) && Ready(g, s, x) && LoopAnswers(o)
    ensures Keeps(g, s, CompleteActivity(g, s, x, o))
  {
    if s.tokens[x].parent == 0 {
      CompletePlainKeeps(g, s, x, o);
    } else {
      assert TokenOk(g, s, x) && GoodElement(g, s.tokens[x].path, s.tokens[x].element);
      MiChildCompletedKeeps(g, s, x, o);
    }
  }

  // ---- scopes -------------------------------------------------------------------------------------

  lemma ChainPrefix(g: Graph, s: Instance, path: Path, owners: seq<TokenId>, n: nat)
    requires ValidGraph(g) && ChainOk(g, s, path, owners) && n <= |path|
    ensures ChainOk(g, s, path[..n], owners[..n])
    decreases |path| - n
  {
    forall i | 0 <= i < n ensures LevelOk(g, s, path[..n], owners[..n], i) {
      assert LevelOk(g, s, path, owners, i);
      assert path[..n][..i] == path[..i] && owners[..n][..i] == owners[..i];
    }
    PathPrefix(g, path, n);
  }

  lemma {:induction false} PathPrefix(g: Graph, path: Path, n: nat)
    requires ValidGraph(g) && path in g && n <= |path|
    ensures path[..n] in g
    decreases |path| - n
  {
    if n < |path| {
      PathPrefix(g, path, n + 1);
      var p := path[..n + 1];
      assert p[..|p| - 1] == path[..n];
      assert GoodNesting(g, p);
    } else {
      assert path[..n] == path;
    }
  }

  lemma LastLevel(g: Graph, s: Instance, path: Path, owners: seq<TokenId>)
    requires ValidGraph(g) && ChainOk(g, s, path, owners) && path != []
    ensures var n := |path| - 1;
      && HasElement(g, path[..n], path[n]) && g[path[..n]].elements[path[n]].etype.SubProcess?
      && (g[path[..n]].elements[path[n]].triggeredByEvent <==> owners[n] == 0)
      && (owners[n] != 0 ==> IsOwner(s, owners[n], path, owners, n))
  {
    assert LevelOk(g, s, path, owners, |path| - 1);
    assert GoodNesting(g, path);
  }

  lemma CheckScopeIs(g: Graph, s: Instance, path: Path, owners: seq<TokenId>, o: Oracle)
    requires |path| == |owners| && !ScopeBusy(s, path, owners)
    ensures path == [] ==> CheckScope(g, s, path, owners, o) == if s.tokens == map[] then CompleteInstance(s) else s
    ensures path != [] ==>
      var n := |path| - 1;
      HasElement(g, path[..n], path[n]) ==>
        CheckScope(g, s, path, owners, o) ==
          if g[path[..n]].elements[path[n]].triggeredByEvent then CheckScope(g, s, path[..n], owners[..n], o)
          else if owners[n] != 0 && owners[n] in s.tokens
               && s.tokens[owners[n]].element == path[n] && s.tokens[owners[n]].state.WaitChild?
          then CompleteActivity(g, DropEvents(s, owners[n]), owners[n], o)
          else CheckScope(g, s, path[..n], owners[..n], o)
  {
  }

  /** checkScope mends a cut: it finds the scope busy, wakes its owner, walks outward
      through event sub-processes, or ends the instance. */
  lemma {:induction false} CheckScopeKeeps(g: Graph, s: Instance, path: Path, owners: seq<TokenId>, o: Oracle)
    requires ValidGraph(g) && Cut(g, s, path, owners, 0) && LoopAnswers(o)
    ensures Keeps(g, s, CheckScope(g, s, path, owners, o))
    decreases |path|
  {
    if ScopeBusy(s, path, owners) {
      BusyFills(g, s, path, owners);
    } else {
      CheckScopeIs(g, s, path, owners, o);
      if path == [] {
        NobodyLeft(s);
      } else {
        LastLevel(g, s, path, owners);
        if owners[|path| - 1] == 0 {
          CutPrefix(g, s, path, owners);
          CheckScopeKeeps(g, s, path[..|path| - 1], owners[..|path| - 1], o);
        } else {
          WakeKeeps(g, s, path, owners, o);
        }
      }
    }
  }

  lemma CutPrefix(g: Graph, s: Instance, path: Path, owners: seq<TokenId>)
    requires ValidGraph(g) && Cut(g, s, path, owners, 0) && path != [] && owners[|path| - 1] == 0
    ensures Cut(g, s, path[..|path| - 1], owners[..|path| - 1], 0)
  {
    ChainPrefix(g, s, path, owners, |path| - 1);
  }

  lemma NobodyLeft(s: Instance)
    requires Fresh(s) && s.status.Running? && !ScopeBusy(s, [], [])
    ensures s.tokens == map[] && Ended(CompleteInstance(s)) && Advances(s, CompleteInstance(s))
  {
    forall u | u in s.tokens ensures false {
      assert InScope(s.tokens[u], [], []);
    }
  }

  lemma WakeReady(g: Graph, s: Instance, path: Path, owners: seq<TokenId>)
    requires Cut(g, s, path, owners, 0) && !ScopeBusy(s, path, owners)
    requires path != [] && owners[|path| - 1] != 0 && IsOwner(s, owners[|path| - 1], path, owners, |path| - 1)
    ensures var x := owners[|path| - 1]; Ready(g, DropEvents(s, x), x) && Advances(s, DropEvents(s, x))
  {
    var n := |path| - 1;
    var x := owners[n];
    assert path[..n] + [path[n]] == path && owners[..n] + [x] == owners;
    forall u | u in s.tokens ensures !Inside(s.tokens[u], s.tokens[x], x) {
      assert !InScope(s.tokens[u], path, owners);
    }
    DropEventsReady(g, s, x);
  }

  lemma WakeKeeps(g: Graph, s: Instance, path: Path, owners: seq<TokenId>, o: Oracle)
    requires ValidGraph(g) && Cut(g, s, path, owners, 0) && LoopAnswers(o) && !ScopeBusy(s, path, owners)
    requires path != [] && owners[|path| - 1] != 0 && IsOwner(s, owners[|path| - 1], path, owners, |path| - 1)
    ensures var x := owners[|path| - 1]; Keeps(g, s, CompleteActivity(g, DropEvents(s, x), x, o))
  {
    var x := owners[|path| - 1];
    WakeReady(g, s, path, owners);
    CompleteActivityKeeps(g, DropEvents(s, x), x, o);
    AdvancesTransitive(g, s, DropEvents(s, x), CompleteActivity(g, DropEvents(s, x), x, o));
  }

  /** consume. */
  lemma ConsumeKeeps(g: Graph, s: Instance, x: TokenId, o: Oracle)
    requires ValidGraph(g) && Ready(g, s, x) && s.tokens[x].parent == 0 && LoopAnswers(o)
    ensures Keeps(g, s, Consume(g, s, x, o))
  {
    var t := s.tokens[x];
    assert TokenOk(g, s, x);
    RemoveCuts(g, s, x);
    CheckScopeKeeps(g, DeleteToken(s, x), t.path, t.owners, o);
    AdvancesTransitive(g, s, DeleteToken(s, x), Consume(g, s, x, o));
  }
}
