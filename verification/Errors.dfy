/** BPMN error propagation: the innermost handler catches, its scope is emptied, and one
    token goes on. */
module Errors {
  import opened StoreState
  import opened Bpmn
  import opened Instances
  import opened Engine
  import opened ScopeTree
  import opened Moves
  import opened Cancellation
  import opened Completion

  // ---- which handler catches ---------------------------------------------------------------

  /** `level` is the length of the scope path the handler belongs to: an error event
      sub-process inside that scope, or a boundary event on the scope's element. */
  datatype Catch = BySub(level: nat, sub: ElementId, start: ElementId) | ByBoundary(level: nat, boundary: ElementId)

  function FindHandler(g: Graph, path: Path, code: nat): Option<Catch>
    decreases |path|
  {
    if path in g && ErrorSub(g, path, code).Some? then
      Some(BySub(|path|, ErrorSub(g, path, code).value.sub, ErrorSub(g, path, code).value.start))
    else if path == [] then None
    else if BoundaryAt(g, path, code).Some? then Some(ByBoundary(|path|, BoundaryAt(g, path, code).value))
    else FindHandler(g, path[..|path| - 1], code)
  }

  function BoundaryAt(g: Graph, path: Path, code: nat): Option<ElementId>
    requires path != []
  {
    var n := |path| - 1;
    if path in g && path[..n] in g then ErrorBoundary(g[path[..n]], path[n], code) else None
  }

  /** An event sub-process of the scope has a start event for the error. */
  ghost predicate SubCatches(g: Graph, path: Path, code: nat, sub: ElementId, start: ElementId) {
    && path in g && sub in g[path].order && HasElement(g, path, sub) && IsEventSub(g[path].elements[sub])
    && path + [sub] in g && HasElement(g, path + [sub], start)
    && g[path + [sub]].elements[start].etype.StartEvent? && Catches(g[path + [sub]].elements[start], code)
    && start in g[path + [sub]].order
  }

  /** A boundary event on the scope's element catches the error. */
  ghost predicate BoundaryCatches(g: Graph, path: Path, code: nat, b: ElementId) {
    && path in g && path != [] && path[..|path| - 1] in g
    && var c := g[path[..|path| - 1]];
       b in c.order && b in c.elements && c.elements[b].etype.BoundaryEvent?
       && c.elements[b].attachedTo == path[|path| - 1] && Catches(c.elements[b], code)
  }

  lemma {:induction false} FirstCatchingIs(c: Container, ids: seq<ElementId>, code: nat)
    ensures var r := FirstCatching(c, ids, code);
      if r.Some? then r.value in ids && r.value in c.elements && Catches(c.elements[r.value], code)
      else forall id :: id in ids && id in c.elements ==> !Catches(c.elements[id], code)
    decreases ids
  {
    if ids != [] {
      FirstCatchingIs(c, ids[1..], code);
    }
  }

  lemma {:induction false} StartsAre(c: Container, ids: seq<ElementId>)
    ensures forall id :: id in StartEventsFrom(c, ids) <==> id in ids && id in c.elements && c.elements[id].etype.StartEvent?
    decreases ids
  {
    if ids != [] {
      StartsAre(c, ids[1..]);
    }
  }

  lemma {:induction false} BoundariesExactly(c: Container, ids: seq<ElementId>, activity: ElementId)
    ensures forall b :: b in BoundariesFrom(c, ids, activity) <==>
      b in ids && b in c.elements && c.elements[b].etype.BoundaryEvent? && c.elements[b].attachedTo == activity
    decreases ids
  {
    if ids != [] {
      BoundariesExactly(c, ids[1..], activity);
    }
  }

  lemma {:induction false} ErrorSubIs(g: Graph, path: Path, ids: seq<ElementId>, code: nat)
    requires path in g && forall id :: id in ids ==> id in g[path].order
    ensures var r := ErrorSubFrom(g, path, ids, code);
      if r.Some? then r.value.sub in ids && SubCatches(g, path, code, r.value.sub, r.value.start)
      else forall sub, start :: sub in ids ==> !SubCatches(g, path, code, sub, start)
    decreases ids
  {
    if ids != [] {
      ErrorSubIs(g, path, ids[1..], code);
      var inner := path + [ids[0]];
      if inner in g {
        StartsAre(g[inner], g[inner].order);
        FirstCatchingIs(g[inner], StartEvents(g[inner]), code);
      }
    }
  }

  lemma BoundaryAtIs(g: Graph, path: Path, code: nat)
    requires path != []
    ensures var r := BoundaryAt(g, path, code);
      if r.Some? then BoundaryCatches(g, path, code, r.value) else forall b :: !BoundaryCatches(g, path, code, b)
  {
    var n := |path| - 1;
    if path in g && path[..n] in g {
      BoundariesExactly(g[path[..n]], g[path[..n]].order, path[n]);
      FirstCatchingIs(g[path[..n]], Boundaries(g[path[..n]], path[n]), code);
    }
  }

  ghost predicate ScopeCatches(g: Graph, path: Path, code: nat) {
    (exists sub, start :: SubCatches(g, path, code, sub, start)) || (exists b :: BoundaryCatches(g, path, code, b))
  }

  /** The handler found is the innermost: no deeper scope catches the error, an event
      sub-process wins over a boundary of the same scope, and none is missed. */
  lemma {:induction false} HandlerIsInnermost(g: Graph, path: Path, code: nat)
    ensures var h := FindHandler(g, path, code);
      match h
      case None => forall n :: 0 <= n <= |path| ==> !ScopeCatches(g, path[..n], code)
      case Some(c) =>
        && c.level <= |path| && (forall n :: c.level < n <= |path| ==> !ScopeCatches(g, path[..n], code))
        && (match c
            case BySub(l, sub, start) => SubCatches(g, path[..l], code, sub, start)
            case ByBoundary(l, b) =>
              BoundaryCatches(g, path[..l], code, b) && forall sub, start :: !SubCatches(g, path[..l], code, sub, start))
    decreases |path|
  {
    assert path[..|path|] == path;
    if path in g {
      ErrorSubIs(g, path, g[path].order, code);
    }
    if path != [] {
      BoundaryAtIs(g, path, code);
      if !(path in g && ErrorSub(g, path, code).Some?) && BoundaryAt(g, path, code).None? {
        var outer := path[..|path| - 1];
        HandlerIsInnermost(g, outer, code);
        assert !ScopeCatches(g, path, code);
        forall n | 0 <= n < |path| ensures path[..n] == outer[..n] { }
      }
    }
  }

  // ---- what propagation does -----------------------------------------------------------------

  /** propagateError in one step: the state the handler leaves. */
  function Handled(g: Graph, s: Instance, path: Path, owners: seq<TokenId>, h: Option<Catch>): Instance
    requires |path| == |owners| && (h.Some? ==> h.value.level <= |path|)
    requires h.Some? && h.value.ByBoundary? ==> h.value.level > 0
  {
    match h
    case None => Unhandled(s)
    case Some(BySub(l, sub, start)) =>
      Spawn(KillScope(s, path[..l], owners[..l], sub), start, path[..l] + [sub], owners[..l] + [0], 0, 0, 0)
    case Some(ByBoundary(l, b)) => CaughtAtBoundary(g, s, path[..l], owners[..l], b)
  }

  lemma {:induction false} PropagateHandles(g: Graph, s: Instance, path: Path, owners: seq<TokenId>, code: nat)
    requires |path| == |owners|
    ensures var h := FindHandler(g, path, code);
      && (h.Some? ==> h.value.level <= |path|) && (h.Some? && h.value.ByBoundary? ==> h.value.level > 0)
      && Propagate(g, s, path, owners, code) == Handled(g, s, path, owners, h)
    decreases |path|
  {
    assert path[..|path|] == path && owners[..|path|] == owners;
    if path != [] && !(path in g && ErrorSub(g, path, code).Some?) && BoundaryAt(g, path, code).None? {
      var n := |path| - 1;
      PropagateHandles(g, s, path[..n], owners[..n], code);
      var h := FindHandler(g, path[..n], code);
      if h.Some? {
        assert path[..n][..h.value.level] == path[..h.value.level];
        assert owners[..n][..h.value.level] == owners[..h.value.level];
      }
    }
  }

  /** The error event sub-process that would catch is one the error was thrown inside. */
  predicate Reenters(g: Graph, path: Path, code: nat) {
    var h := FindHandler(g, path, code);
    h.Some? && h.value.BySub? && h.value.level < |path| && path[h.value.level] == h.value.sub
  }

  /** Where the error was thrown: a cut, possibly with its loop one iteration short. */
  ghost predicate Thrown(g: Graph, s: Instance, path: Path, owners: seq<TokenId>, mhole: TokenId) {
    Cut(g, s, path, owners, mhole)
    && (mhole != 0 ==> mhole in s.tokens && s.tokens[mhole].path == path && s.tokens[mhole].owners == owners)
  }

  lemma LastOwnerOuter(owners: seq<TokenId>, l: nat)
    requires l <= |owners|
    ensures LastOwner(owners) == LastOwner(owners[..l])
            || exists k :: l <= k < |owners| && owners[k] == LastOwner(owners) && owners[k] != 0
    decreases |owners|
  {
    if l == |owners| {
      assert owners[..l] == owners;
    } else if owners[|owners| - 1] == 0 {
      var rest := owners[..|owners| - 1];
      LastOwnerOuter(rest, l);
      assert rest[..l] == owners[..l];
      if LastOwner(rest) != LastOwner(rest[..l]) {
        var k :| l <= k < |rest| && rest[k] == LastOwner(rest) && rest[k] != 0;
        assert owners[k] == LastOwner(owners);
      }
    }
  }

  /** Emptying a scope around the throw takes the broken scope and loop with it. */
  lemma EmptiedCuts(g: Graph, s: Instance, path: Path, owners: seq<TokenId>, mhole: TokenId, l: nat, exclude: ElementId)
    requires ValidGraph(g) && Thrown(g, s, path, owners, mhole) && l <= |path| && Spares(g, path[..l], exclude)
    requires exclude != 0 && l < |path| ==> path[l] != exclude
    ensures Cut(g, KillScope(s, path[..l], owners[..l], exclude), path[..l], owners[..l], 0)
    ensures Advances(s, KillScope(s, path[..l], owners[..l], exclude))
  {
    ChainPrefix(g, s, path, owners, l);
    LastOwnerOuter(owners, l);
    var lo := LastOwner(owners);
    if lo != LastOwner(owners[..l]) {
      var k :| l <= k < |owners| && owners[k] == lo && owners[k] != 0;
      assert LevelOk(g, s, path, owners, k);
      assert path[..l] <= path[..k] && owners[..l] <= owners[..k];
      assert Doomed(s.tokens[lo], path[..l], owners[..l], exclude);
    }
    if mhole != 0 {
      assert Doomed(s.tokens[mhole], path[..l], owners[..l], exclude);
    }
    KillScopeCuts(g, s, path[..l], owners[..l], exclude, Some(lo), mhole);
  }

  lemma SubHandlerKeeps(g: Graph, s: Instance, path: Path, owners: seq<TokenId>, mhole: TokenId, h: Catch, code: nat)
    requires ValidGraph(g) && Thrown(g, s, path, owners, mhole) && h.BySub? && h.level <= |path|
    requires SubCatches(g, path[..h.level], code, h.sub, h.start)
    requires h.level < |path| ==> path[h.level] != h.sub
    ensures Keeps(g, s, Handled(g, s, path, owners, Some(h)))
  {
    var l := h.level;
    EmptiedCuts(g, s, path, owners, mhole, l, h.sub);
    var s1 := KillScope(s, path[..l], owners[..l], h.sub);
    EventChain(g, s1, path[..l], owners[..l], h.sub);
    SpawnFills(g, s1, path[..l], owners[..l], h.start, path[..l] + [h.sub], owners[..l] + [0]);
    AdvancesTransitive(g, s, s1, Handled(g, s, path, owners, Some(h)));
  }

  /** An event sub-process scope extends its parent's chain without an owner. */
  lemma EventChain(g: Graph, s: Instance, path: Path, owners: seq<TokenId>, sub: ElementId)
    requires ValidGraph(g) && ChainOk(g, s, path, owners) && HasElement(g, path, sub) && IsEventSub(g[path].elements[sub])
    ensures ChainOk(g, s, path + [sub], owners + [0])
  {
    var p, w := path + [sub], owners + [0];
    assert GoodElement(g, path, sub);
    forall i | 0 <= i < |p| ensures LevelOk(g, s, p, w, i) {
      assert p[..i] == path[..i] && w[..i] == owners[..i];
      if i < |path| {
        assert LevelOk(g, s, path, owners, i);
      }
    }
  }

  // ---- caught at a boundary ---------------------------------------------------------------------

  lemma OwnerMovesKeeps(g: Graph, s: Instance, path: Path, owners: seq<TokenId>, b: ElementId)
    requires ValidGraph(g) && Cut(g, s, path, owners, 0) && path != [] && !ScopeBusy(s, path, owners)
    requires HasElement(g, path[..|path| - 1], b) && !IsEventSub(g[path[..|path| - 1]].elements[b])
    requires owners[|path| - 1] != 0 && IsOwner(s, owners[|path| - 1], path, owners, |path| - 1)
    requires s.tokens[owners[|path| - 1]].parent == 0
    ensures var x := owners[|path| - 1];
      Keeps(g, s, SetToken(DropEvents(s, x), x, s.tokens[x].(element := b, state := Active, ref := NoRef)))
  {
    var x := owners[|path| - 1];
    WakeReady(g, s, path, owners);
    var s1 := DropEvents(s, x);
    var s2 := SetToken(s1, x, s.tokens[x].(element := b, state := Active, ref := NoRef));
    ReadyStands(g, s1, x);
    assert LeafShape(g, s1, s2, x);
    LeafStep(g, s1, s2, x);
    AdvancesTransitive(g, s, s1, s2);
  }

  /** Cancelling a loop and moving its coordinator to a boundary event. */
  lemma LoopLeavesKeeps(g: Graph, s: Instance, m: TokenId, b: ElementId, e: TokenId, hole: Option<TokenId>)
    requires s.status.Running? && Core(g, s) && NoStuck(g, s, hole, 0) && Linked(s, e) && Routed(g, s) && m in s.multi && m in s.tokens
    requires e == 0 || (e in s.tokens && s.tokens[e].parent == m)
    requires hole.None? || (hole.value in s.tokens && s.tokens[hole.value].parent == m)
    requires HasElement(g, s.tokens[m].path, b) && !IsEventSub(g[s.tokens[m].path].elements[b])
    ensures m in CancelWaits(g, s, m).tokens
    ensures Keeps(g, s, MoveToBoundary(CancelWaits(g, s, m), m, b))
  {
    StragglersAre(g, s, m);
    assert TokenOk(g, s, m);
    var kill := ActivitySet(g, s, m);
    var s' := MoveToBoundary(CancelWaits(g, s, m), m, b);
    assert hole.Some? ==> LoopedUnder(g, s, m, s.tokens[hole.value]);
    assert e != 0 ==> LoopedUnder(g, s, m, s.tokens[e]);
    LeavesFrees(g, s, m, b);
    FreedReady(g, s, s', m, {m} + kill, e, hole, 0);
  }

  lemma LeavesFrees(g: Graph, s: Instance, x: TokenId, b: ElementId)
    requires Core(g, s) && x in s.tokens && x != 0 && x !in ActivitySet(g, s, x) && LoopSet(g, s, x) == ActivitySet(g, s, x)
    requires s.tokens[x].parent == 0
    requires HasElement(g, s.tokens[x].path, b) && !IsEventSub(g[s.tokens[x].path].elements[b])
    ensures x in CancelWaits(g, s, x).tokens
    ensures Frees(g, s, MoveToBoundary(CancelWaits(g, s, x), x, b), x, {x} + ActivitySet(g, s, x))
  {
    assert TokenOk(g, s, x);
    var kill := ActivitySet(g, s, x);
    var s' := MoveToBoundary(CancelWaits(g, s, x), x, b);
    assert s.multi - ({x} + kill) == s.multi - kill - {x};
    SweepLeaves(s, s', {x} + kill, kill, x,
                s.tokens[x].(element := b, state := Active, ref := NoRef, miChild := 0, loop := 0));
  }

  /** The enclosing scope's boundary event catches. */
  lemma CaughtKeeps(g: Graph, s: Instance, path: Path, owners: seq<TokenId>, mhole: TokenId, h: Catch, code: nat)
    requires ValidGraph(g) && Thrown(g, s, path, owners, mhole) && h.ByBoundary? && 0 < h.level <= |path|
    requires BoundaryCatches(g, path[..h.level], code, h.boundary)
    ensures Keeps(g, s, Handled(g, s, path, owners, Some(h)))
  {
    var l := h.level;
    var p, w := path[..l], owners[..l];
    EmptiedCuts(g, s, path, owners, mhole, l, 0);
    var s1 := KillScope(s, p, w, 0);
    Emptied(s, p, w);
    BoundaryContinues(g, s1, p, w, h.boundary);
    AdvancesTransitive(g, s, s1, CaughtAtBoundary(g, s, p, w, h.boundary));
  }

  lemma Emptied(s: Instance, path: Path, owners: seq<TokenId>)
    ensures !ScopeBusy(KillScope(s, path, owners, 0), path, owners)
  {
  }

  lemma ContinueAtIs(g: Graph, s: Instance, path: Path, owners: seq<TokenId>, b: ElementId)
    requires |path| == |owners| > 0 && 0 !in s.tokens
    ensures var n := |path| - 1; var owner := owners[n];
      ContinueAt(g, s, path, owners, b) ==
        if owner !in s.tokens then Spawn(s, b, path[..n], owners[..n], 0, 0, 0)
        else if s.tokens[owner].parent in s.multi && s.tokens[owner].parent in s.tokens then
          var s2 := CancelWaits(g, s, s.tokens[owner].parent);
          if s.tokens[owner].parent in s2.tokens then MoveToBoundary(s2, s.tokens[owner].parent, b) else s2
        else if s.tokens[owner].element == path[n] then
          SetToken(DropEvents(s, owner), owner, s.tokens[owner].(element := b, state := Active, ref := NoRef))
        else Spawn(s, b, path[..n], owners[..n], 0, 0, 0)
  {
  }

  lemma BoundaryContinues(g: Graph, s: Instance, path: Path, owners: seq<TokenId>, b: ElementId)
    requires ValidGraph(g) && Cut(g, s, path, owners, 0) && path != [] && !ScopeBusy(s, path, owners)
    requires HasElement(g, path[..|path| - 1], b) && !IsEventSub(g[path[..|path| - 1]].elements[b])
    ensures Keeps(g, s, ContinueAt(g, s, path, owners, b))
  {
    var n := |path| - 1;
    var owner := owners[n];
    LastLevel(g, s, path, owners);
    NoZero(g, s);
    ContinueAtIs(g, s, path, owners, b);
    if owner == 0 {
      CutPrefix(g, s, path, owners);
      SpawnFills(g, s, path[..n], owners[..n], b, path[..n], owners[..n]);
    } else {
      OwnerContinues(g, s, path, owners, b);
    }
  }

  lemma OwnerContinues(g: Graph, s: Instance, path: Path, owners: seq<TokenId>, b: ElementId)
    requires ValidGraph(g) && Cut(g, s, path, owners, 0) && path != [] && !ScopeBusy(s, path, owners)
    requires HasElement(g, path[..|path| - 1], b) && !IsEventSub(g[path[..|path| - 1]].elements[b])
    requires owners[|path| - 1] != 0 && IsOwner(s, owners[|path| - 1], path, owners, |path| - 1)
    ensures var x := owners[|path| - 1]; var m := s.tokens[x].parent;
      if m != 0 then m in s.multi && m in s.tokens && m in CancelWaits(g, s, m).tokens
                     && Keeps(g, s, MoveToBoundary(CancelWaits(g, s, m), m, b))
      else m !in s.tokens
           && Keeps(g, s, SetToken(DropEvents(s, x), x, s.tokens[x].(element := b, state := Active, ref := NoRef)))
  {
    var x := owners[|path| - 1];
    NoZero(g, s);
    assert TokenOk(g, s, x);
    if s.tokens[x].parent == 0 {
      OwnerMovesKeeps(g, s, path, owners, b);
    } else {
      LoopLeavesKeeps(g, s, s.tokens[x].parent, b, 0, Some(x));
    }
  }

  lemma UnhandledKeeps(g: Graph, s: Instance)
    requires Fresh(s)
    ensures Keeps(g, s, Unhandled(s)) && Unhandled(s).status.Terminated?
  {
  }

  /** propagateError keeps the tree, unless an error event sub-process would catch an error
      thrown inside itself. */
  lemma PropagateKeeps(g: Graph, s: Instance, path: Path, owners: seq<TokenId>, mhole: TokenId, code: nat)
    requires ValidGraph(g) && Thrown(g, s, path, owners, mhole) && !Reenters(g, path, code)
    ensures Keeps(g, s, Propagate(g, s, path, owners, code))
  {
    PropagateHandles(g, s, path, owners, code);
    HandlerIsInnermost(g, path, code);
    var h := FindHandler(g, path, code);
    match h {
      case None => UnhandledKeeps(g, s);
      case Some(BySub(_, _, _)) => SubHandlerKeeps(g, s, path, owners, mhole, h.value, code);
      case Some(ByBoundary(_, _)) => CaughtKeeps(g, s, path, owners, mhole, h.value, code);
    }
  }

  // ---- throwing from an activity ---------------------------------------------------------------

  /** throwError takes the failing token's wait and the token away. */
  lemma ThrowCuts(g: Graph, s: Instance, x: TokenId)
    requires Ready(g, s, x) && !ScopeWait(s.tokens[x])
    ensures var t := s.tokens[x]; var s' := DeleteToken(CancelWaits(g, s, x), x);
      Thrown(g, s', t.path, t.owners, t.parent) && Advances(s, s')
  {
    var t := s.tokens[x];
    var s' := DeleteToken(CancelWaits(g, s, x), x);
    ThrowTree(g, s, x);
    assert TokenOk(g, s, x);
    assert Anchored(s, {x}, 0, t.path, t.owners);
    NoStuckCut(g, s, s', {x}, 0, t.path, t.owners, Some(x), 0, t.parent);
    SweepLinked(g, s, s', {x}, {x}, 0, x);
    SweepRouted(g, s, s', {x}, {x}, 0);
  }

  lemma ThrowTree(g: Graph, s: Instance, x: TokenId)
    requires Core(g, s) && x in s.tokens && x !in s.multi && Vacated(s, {}, x)
    ensures var s' := DeleteToken(CancelWaits(g, s, x), x); var t := s.tokens[x];
      && Core(g, s') && Cuts(s, s', {x}, 0) && Swept(s, s', {x}, {x}) && Advances(s, s')
      && ChainOk(g, s', t.path, t.owners) && OwnersFree(t.owners, {x}, 0) && ChainOk(g, s, t.path, t.owners)
      && (t.parent != 0 ==> t.parent in s'.tokens && s'.tokens[t.parent].path == t.path && s'.tokens[t.parent].owners == t.owners)
  {
    var t := s.tokens[x];
    var s' := Sweep(s, {x}, {x});
    ThrowSweeps(g, s, x);
    SweepCuts(s, {x});
    SweepFresh(s, {x}, {x});
    SweepAdvances(s, {x}, {x});
    NoZero(g, s);
    assert TokenOk(g, s, x) && FreeOf(t, {}, x);
    forall u | u in s.tokens && u !in {x} ensures FreeOf(s.tokens[u], {x}, 0) {
      assert TokenOk(g, s, u) && FreeOf(s.tokens[u], {}, x);
    }
    MultiKept(g, s, s', {x}, 0);
    CoreUpdate(g, s, s', {x}, 0);
    ChainSurvives(g, s, s', {x}, 0, t.path, t.owners);
  }

  lemma ThrowSweeps(g: Graph, s: Instance, x: TokenId)
    requires x in s.tokens && x !in s.multi
    ensures DeleteToken(CancelWaits(g, s, x), x) == Sweep(s, {x}, {x})
  {
    assert {x} + LoopSet(g, s, x) == {x};
    assert s.tokens - LoopSet(g, s, x) - {x} == s.tokens - {x};
  }

  lemma LeafAlone(g: Graph, s: Instance, x: TokenId)
    requires Core(g, s) && x in s.tokens && !ScopeWait(s.tokens[x]) && x !in s.multi
    ensures LoopSet(g, s, x) == ActivitySet(g, s, x) == {} && x != 0
  {
    NoZero(g, s);
    var t := s.tokens[x];
    forall u | u in s.tokens ensures !Doomed(s.tokens[u], t.path + [t.element], t.owners + [x], 0) {
      if Doomed(s.tokens[u], t.path + [t.element], t.owners + [x], 0) {
        assert s.tokens[u].owners[|t.owners|] == x;
        HangsOwner(g, s, u, x);
      }
    }
  }

  /** throwError keeps the tree: a boundary event on the activity catches first (for an
      iteration, the whole loop leaves), then the scopes outward. */
  lemma ThrowErrorKeeps(g: Graph, s: Instance, x: TokenId, code: nat)
    requires ValidGraph(g) && Ready(g, s, x) && !ScopeWait(s.tokens[x])
    requires s.tokens[x].path in g && |s.tokens[x].path| == |s.tokens[x].owners|
    requires !Reenters(g, s.tokens[x].path, code)
    ensures Keeps(g, s, ThrowError(g, s, x, code))
  {
    var t := s.tokens[x];
    assert TokenOk(g, s, x);
    NoZero(g, s);
    var boundary := ErrorBoundary(g[t.path], t.element, code);
    if boundary.Some? {
      BoundariesExactly(g[t.path], g[t.path].order, t.element);
      FirstCatchingIs(g[t.path], Boundaries(g[t.path], t.element), code);
      if t.parent != 0 {
        assert TokenOk(g, s, t.parent);
        LoopLeavesKeeps(g, s, t.parent, boundary.value, x, Some(x));
      } else {
        LeafAlone(g, s, x);
        LeavesFrees(g, s, x, boundary.value);
        FreedReady(g, s, MoveToBoundary(CancelWaits(g, s, x), x, boundary.value), x, {x} + ActivitySet(g, s, x), x, Some(x), 0);
      }
    } else {
      ThrowCuts(g, s, x);
      var s1 := DeleteToken(CancelWaits(g, s, x), x);
      PropagateKeeps(g, s1, t.path, t.owners, t.parent, code);
      AdvancesTransitive(g, s, s1, Propagate(g, s1, t.path, t.owners, code));
    }
  }
}
