/** What an error leaves behind: who goes, who stays, and the one token that goes on. */
module ErrorEffects {
  import opened StoreState
  import opened Bpmn
  import opened Instances
  import opened Engine
  import opened ScopeTree
  import opened Moves
  import opened Cancellation
  import opened Completion
  import opened Errors
  import opened Steps

  /** Token `c` goes on from element `b`, every token of the set `gone` is gone, and every
      other token is untouched. */
  ghost predicate OneGoesOn(s: Instance, s': Instance, c: TokenId, path: Path, b: ElementId, gone: set<TokenId>) {
    && c in s'.tokens && s'.tokens[c].state.Active? && s'.tokens[c].path == path && s'.tokens[c].element == b
    && (forall u :: u in s'.tokens && u != c ==> u in s.tokens && u !in gone && s'.tokens[u] == s.tokens[u])
    && (forall u :: u in s.tokens && u !in gone ==> u in s'.tokens)
  }

  /** Caught by an event sub-process: everything in the scope goes, except what already
      runs inside that event sub-process. */
  lemma SubHandlerEffect(g: Graph, s: Instance, path: Path, owners: seq<TokenId>, h: Catch)
    requires |path| == |owners| && h.BySub? && h.level <= |path| && s.nextId !in s.tokens
    ensures OneGoesOn(s, Handled(g, s, path, owners, Some(h)), s.nextId, path[..h.level] + [h.sub], h.start,
                      ScopeSet(s, path[..h.level], owners[..h.level], h.sub))
  {
  }

  ghost predicate BoundaryOutcome(g: Graph, s: Instance, s': Instance, path: Path, owners: seq<TokenId>, b: ElementId)
    requires |path| == |owners| > 0
  {
    var n := |path| - 1;
    var w := owners[n];
    var scope := ScopeSet(s, path, owners, 0);
    if w == 0 then OneGoesOn(s, s', s.nextId, path[..n], b, scope)
    else if w !in s.tokens then false
    else if s.tokens[w].parent == 0 then OneGoesOn(s, s', w, path[..n], b, scope)
    else
      var m := s.tokens[w].parent;
      LoopGone(s', m) && OneGoesOn(s, s', m, path[..n], b, scope + LoopSet(g, KillScope(s, path, owners, 0), m))
  }

  /** Caught at a boundary: the scope is emptied. Its owner goes on from the boundary; if the
      owner is an iteration, all iterations go and the coordinator goes on in its place; an
      event sub-process has no owner, and a new token goes on. */
  lemma BoundaryEffect(g: Graph, s: Instance, path: Path, owners: seq<TokenId>, b: ElementId)
    requires ValidGraph(g) && Core(g, s) && ChainOk(g, s, path, owners) && path != []
    ensures !ScopeBusy(CaughtAtBoundary(g, s, path, owners, b), path, owners)
    ensures BoundaryOutcome(g, s, CaughtAtBoundary(g, s, path, owners, b), path, owners, b)
  {
    var s1 := KillScope(s, path, owners, 0);
    NoZero(g, s);
    Unused(g, s);
    LastLevel(g, s, path, owners);
    KillScopeTree(g, s, path, owners, 0);
    Emptied(s, path, owners);
    ContinueEffect(g, s1, path, owners, b);
    OwnerSpared(g, s, path, owners);
  }

  lemma OwnerSpared(g: Graph, s: Instance, path: Path, owners: seq<TokenId>)
    requires Core(g, s) && ChainOk(g, s, path, owners) && path != []
    ensures var w := owners[|path| - 1]; w != 0 ==> w in s.tokens && w !in ScopeSet(s, path, owners, 0)
  {
    assert LevelOk(g, s, path, owners, |path| - 1);
  }

  /** Going on from a boundary of a scope that is already empty. */
  lemma ContinueEffect(g: Graph, s: Instance, path: Path, owners: seq<TokenId>, b: ElementId)
    requires ValidGraph(g) && Core(g, s) && ChainOk(g, s, path, owners) && path != [] && !ScopeBusy(s, path, owners)
    ensures var n := |path| - 1; var w := owners[n]; var s' := ContinueAt(g, s, path, owners, b);
      && !ScopeBusy(s', path, owners)
      && (w == 0 ==> OneGoesOn(s, s', s.nextId, path[..n], b, {}))
      && (w != 0 ==> w in s.tokens && (s.tokens[w].parent == 0 ==> OneGoesOn(s, s', w, path[..n], b, {})))
      && (w != 0 && s.tokens[w].parent != 0 ==>
            LoopGone(s', s.tokens[w].parent) && OneGoesOn(s, s', s.tokens[w].parent, path[..n], b, LoopSet(g, s, s.tokens[w].parent)))
  {
    var w := owners[|path| - 1];
    NoZero(g, s);
    Unused(g, s);
    LastLevel(g, s, path, owners);
    ContinueAtIs(g, s, path, owners, b);
    if w == 0 {
      SpawnGoesOn(s, path, owners, b);
    } else {
      assert TokenOk(g, s, w);
      if s.tokens[w].parent != 0 {
        CoordinatorGoesOn(g, s, w, path, owners, b);
      } else {
        OwnerGoesOn(s, w, path, owners, b);
      }
    }
  }

  lemma SpawnGoesOn(s: Instance, path: Path, owners: seq<TokenId>, b: ElementId)
    requires |path| == |owners| > 0 && !ScopeBusy(s, path, owners) && s.nextId !in s.tokens
    ensures var n := |path| - 1; var s' := Spawn(s, b, path[..n], owners[..n], 0, 0, 0);
      !ScopeBusy(s', path, owners) && OneGoesOn(s, s', s.nextId, path[..n], b, {})
  {
    var n := |path| - 1;
    var s' := Spawn(s, b, path[..n], owners[..n], 0, 0, 0);
    forall u | u in s'.tokens ensures !InScope(s'.tokens[u], path, owners) {
      if u != s.nextId {
        assert !InScope(s.tokens[u], path, owners);
      }
    }
  }

  lemma OwnerGoesOn(s: Instance, w: TokenId, path: Path, owners: seq<TokenId>, b: ElementId)
    requires |path| == |owners| > 0 && !ScopeBusy(s, path, owners) && w in s.tokens && s.tokens[w].path == path[..|path| - 1]
    ensures var s' := SetToken(DropEvents(s, w), w, s.tokens[w].(element := b, state := Active, ref := NoRef));
      !ScopeBusy(s', path, owners) && OneGoesOn(s, s', w, path[..|path| - 1], b, {})
  {
    var s' := SetToken(DropEvents(s, w), w, s.tokens[w].(element := b, state := Active, ref := NoRef));
    forall u | u in s'.tokens ensures !InScope(s'.tokens[u], path, owners) {
      assert !InScope(s.tokens[u], path, owners);
    }
  }

  lemma CoordinatorGoesOn(g: Graph, s: Instance, w: TokenId, path: Path, owners: seq<TokenId>, b: ElementId)
    requires Core(g, s) && w in s.tokens && s.tokens[w].parent != 0 && !ScopeBusy(s, path, owners)
    requires |path| == |owners| > 0 && s.tokens[w].path == path[..|path| - 1]
    ensures var m := s.tokens[w].parent; m in s.multi && m in s.tokens && m in CancelWaits(g, s, m).tokens
    ensures var m := s.tokens[w].parent; var s' := MoveToBoundary(CancelWaits(g, s, m), m, b);
      LoopGone(s', m) && !ScopeBusy(s', path, owners) && OneGoesOn(s, s', m, path[..|path| - 1], b, LoopSet(g, s, m))
  {
    var m := s.tokens[w].parent;
    assert TokenOk(g, s, w) && TokenOk(g, s, m);
    StragglersAre(g, s, m);
    var s' := MoveToBoundary(CancelWaits(g, s, m), m, b);
    forall u | u in s.tokens && s.tokens[u].parent == m ensures u in LoopSet(g, s, m) {
      assert LoopedUnder(g, s, m, s.tokens[u]);
    }
    forall u | u in s'.tokens ensures !InScope(s'.tokens[u], path, owners) {
      assert !InScope(s.tokens[u], path, owners);
    }
  }

  /** No handler: the instance ends, with one more incident. */
  lemma UnhandledEffect(g: Graph, s: Instance, path: Path, owners: seq<TokenId>)
    requires |path| == |owners| && s.nextId !in s.incidents
    ensures var s' := Handled(g, s, path, owners, None);
      s'.tokens == map[] && s'.status.Terminated? && s'.incidents == s.incidents[s.nextId := 0]
  {
  }

  /** Outside the scope that catches, and, where a boundary catches, neither the token that
      goes on nor part of the loop that leaves with it. */
  ghost predicate Beyond(g: Graph, s: Instance, path: Path, owners: seq<TokenId>, h: Catch, u: TokenId)
    requires |path| == |owners| && h.level <= |path| && u in s.tokens
  {
    && !InScope(s.tokens[u], path[..h.level], owners[..h.level])
    && (h.ByBoundary? && h.level > 0 ==>
          var w := owners[h.level - 1];
          u != w && (w in s.tokens && s.tokens[w].parent != 0 ==>
            u != s.tokens[w].parent && u !in LoopSet(g, KillScope(s, path[..h.level], owners[..h.level], 0), s.tokens[w].parent)))
  }

  /** Tokens of other scopes and other loop iterations are never touched by an error. */
  lemma OutsideUntouched(g: Graph, s: Instance, path: Path, owners: seq<TokenId>, code: nat, u: TokenId)
    requires ValidGraph(g) && Core(g, s) && ChainOk(g, s, path, owners) && u in s.tokens
    requires FindHandler(g, path, code).Some?
    ensures FindHandler(g, path, code).value.level <= |path|
    ensures var s' := Propagate(g, s, path, owners, code);
      Beyond(g, s, path, owners, FindHandler(g, path, code).value, u) ==> u in s'.tokens && s'.tokens[u] == s.tokens[u]
  {
    PropagateHandles(g, s, path, owners, code);
    HandlerIsInnermost(g, path, code);
    var h := FindHandler(g, path, code).value;
    var l := h.level;
    Unused(g, s);
    ChainPrefix(g, s, path, owners, l);
    hide Propagate, FindHandler, ValidGraph, Core;
    if h.BySub? {
      SubHandlerEffect(g, s, path, owners, h);
    } else {
      LastLevel(g, s, path[..l], owners[..l]);
      BoundaryEffect(g, s, path[..l], owners[..l], h.boundary);
    }
  }

  // ---- thrown by an activity ------------------------------------------------------------------

  /** The token a boundary event of the failing activity takes on: the coordinator for a loop
      iteration, else the failing token. */
  function Continuing(s: Instance, x: TokenId): TokenId
    requires x in s.tokens
  {
    if s.tokens[x].parent != 0 then s.tokens[x].parent else x
  }

  /** Caught at the activity's own boundary: the first boundary event in document order that
      catches the code goes on with one token; if the failing one is an iteration, the loop is
      gone with all its iterations; every other token is untouched. */
  lemma ThrowCaughtEffect(g: Graph, s: Instance, x: TokenId, code: nat)
    requires Core(g, s) && x in s.tokens && !ScopeWait(s.tokens[x]) && x !in s.multi
    requires s.tokens[x].path in g && |s.tokens[x].path| == |s.tokens[x].owners|
    requires ErrorBoundary(g[s.tokens[x].path], s.tokens[x].element, code).Some?
    ensures var t := s.tokens[x]; var who := Continuing(s, x);
      OneGoesOn(s, ThrowError(g, s, x, code), who, t.path, ErrorBoundary(g[t.path], t.element, code).value, LoopSet(g, s, who))
    ensures s.tokens[x].parent == 0 ==> LoopSet(g, s, x) == {}
    ensures s.tokens[x].parent != 0 ==>
      x in LoopSet(g, s, s.tokens[x].parent) && LoopGone(ThrowError(g, s, x, code), s.tokens[x].parent)
  {
    assert TokenOk(g, s, x);
    NoZero(g, s);
    LeafAlone(g, s, x);
    var m := s.tokens[x].parent;
    if m != 0 {
      assert TokenOk(g, s, m);
      StragglersAre(g, s, m);
      forall u | u in s.tokens && s.tokens[u].parent == m ensures u in LoopSet(g, s, m) {
        assert LoopedUnder(g, s, m, s.tokens[u]);
      }
    }
  }

  lemma ThrowsOn(g: Graph, s: Instance, x: TokenId, code: nat)
    requires x in s.tokens && s.tokens[x].path in g && |s.tokens[x].path| == |s.tokens[x].owners|
    requires ErrorBoundary(g[s.tokens[x].path], s.tokens[x].element, code).None?
    ensures var t := s.tokens[x];
      ThrowError(g, s, x, code) == Propagate(g, DeleteToken(CancelWaits(g, s, x), x), t.path, t.owners, code)
  {
  }

  /** Wherever an activity's error is caught, tokens outside the catching scope and outside the
      loop that leaves are the same before and after. */
  lemma ThrowOutsideUntouched(g: Graph, s: Instance, x: TokenId, code: nat, u: TokenId)
    requires ValidGraph(g) && Ready(g, s, x) && !ScopeWait(s.tokens[x]) && u in s.tokens && u != x
    requires s.tokens[x].path in g && |s.tokens[x].path| == |s.tokens[x].owners|
    ensures var t := s.tokens[x]; var s1 := DeleteToken(CancelWaits(g, s, x), x); var s' := ThrowError(g, s, x, code);
      var h := FindHandler(g, t.path, code);
      u in s1.tokens && (h.Some? ==> h.value.level <= |t.path|) &&
      ((if ErrorBoundary(g[t.path], t.element, code).Some? then u != Continuing(s, x) && u !in LoopSet(g, s, Continuing(s, x))
        else h.Some? && Beyond(g, s1, t.path, t.owners, h.value, u))
       ==> u in s'.tokens && s'.tokens[u] == s.tokens[u])
  {
    var t := s.tokens[x];
    HandlerIsInnermost(g, t.path, code);
    ThrowTree(g, s, x);
    hide Propagate, FindHandler, ValidGraph, Beyond, ThrowError;
    if ErrorBoundary(g[t.path], t.element, code).Some? {
      ThrowCaughtEffect(g, s, x, code);
    } else {
      ThrowsOn(g, s, x, code);
      if FindHandler(g, t.path, code).Some? {
        OutsideUntouched(g, DeleteToken(CancelWaits(g, s, x), x), t.path, t.owners, code, u);
      }
    }
  }

  // ---- an error event sub-process that catches its own errors ---------------------------------

  /** The handler spares the scope the error was thrown in, which nothing inside keeps alive. */
  ghost predicate Stranded(g: Graph, s: Instance, path: Path, owners: seq<TokenId>, mhole: TokenId, code: nat)
    requires |path| == |owners|
  {
    var h := FindHandler(g, path, code);
    && Reenters(g, path, code)
    && (mhole != 0 || (LastOwner(owners) != LastOwner(owners[..h.value.level])
                       && LastOwner(owners) in s.tokens && !Occupied(s, LastOwner(owners))))
  }

  lemma SparedOwnerStays(g: Graph, s: Instance, path: Path, owners: seq<TokenId>, code: nat)
    requires ValidGraph(g) && Core(g, s) && ChainOk(g, s, path, owners) && Reenters(g, path, code)
    ensures var h := FindHandler(g, path, code).value; var lo := LastOwner(owners);
      h.level <= |owners| && h.sub != 0 && (lo != LastOwner(owners[..h.level]) ==>
        && lo in s.tokens && ScopeWait(s.tokens[lo]) && |s.tokens[lo].owners| > h.level
        && lo !in ScopeSet(s, path[..h.level], owners[..h.level], h.sub))
  {
    var h := FindHandler(g, path, code).value;
    var l := h.level;
    HandlerIsInnermost(g, path, code);
    assert SubCatches(g, path[..l], code, h.sub, h.start) && GoodElement(g, path[..l], h.sub);
    LastOwnerOuter(owners, l);
    if LastOwner(owners) != LastOwner(owners[..l]) {
      var k :| l <= k < |owners| && owners[k] == LastOwner(owners) && owners[k] != 0;
      assert LevelOk(g, s, path, owners, k) && LevelOk(g, s, path, owners, l);
      assert EventLevel(g, path, l);
      assert k > l && s.tokens[owners[k]].path[l] == path[l];
    }
  }

  /** A stranded scope or loop stays stuck. */
  lemma StrandedStuck(g: Graph, s: Instance, path: Path, owners: seq<TokenId>, mhole: TokenId, code: nat)
    requires ValidGraph(g) && Thrown(g, s, path, owners, mhole) && Stranded(g, s, path, owners, mhole, code)
    requires mhole != 0 ==> mhole in s.multi && !Accounted(g, s, mhole)
    ensures !Inv(g, Propagate(g, s, path, owners, code))
  {
    PropagateHandles(g, s, path, owners, code);
    var h := FindHandler(g, path, code).value;
    var l := h.level;
    var s' := Propagate(g, s, path, owners, code);
    Unused(g, s);
    SubHandlerEffect(g, s, path, owners, h);
    SparedOwnerStays(g, s, path, owners, code);
    if mhole != 0 {
      LoopStaysShort(g, s, s', path, owners, mhole, h);
    } else {
      var lo := LastOwner(owners);
      forall u | u in s'.tokens ensures !Inside(s'.tokens[u], s'.tokens[lo], lo) {
        if u != s.nextId {
          assert !Inside(s.tokens[u], s.tokens[lo], lo);
        }
      }
      assert !Occupied(s', lo);
    }
  }

  lemma LoopStaysShort(g: Graph, s: Instance, s': Instance, path: Path, owners: seq<TokenId>, m: TokenId, h: Catch)
    requires Thrown(g, s, path, owners, m) && m != 0 && m in s.multi && !Accounted(g, s, m)
    requires h.BySub? && h.level < |path| && path[h.level] == h.sub != 0
    requires s' == Handled(g, s, path, owners, Some(h))
    ensures !Inv(g, s')
  {
    var l := h.level;
    var kill := ScopeSet(s, path[..l], owners[..l], h.sub);
    Unused(g, s);
    forall u | u in s.tokens && s.tokens[u].parent == m ensures u !in kill {
      assert TokenOk(g, s, u);
    }
    assert m !in kill;
    assert Children(s', m) == Children(s, m);
    assert s'.multi[m] == s.multi[m] && SpecOf(g, s'.tokens[m]) == SpecOf(g, s.tokens[m]);
    assert !Accounted(g, s', m);
  }

  /** Propagation keeps the instance in order exactly when no error event sub-process
      catches an error from a scope or loop of its own that is thereby left empty. */
  lemma PropagateExactly(g: Graph, s: Instance, path: Path, owners: seq<TokenId>, mhole: TokenId, code: nat)
    requires ValidGraph(g) && Thrown(g, s, path, owners, mhole)
    requires mhole != 0 ==> mhole in s.multi && !Accounted(g, s, mhole)
    ensures Inv(g, Propagate(g, s, path, owners, code)) <==> !Stranded(g, s, path, owners, mhole, code)
  {
    if Stranded(g, s, path, owners, mhole, code) {
      StrandedStuck(g, s, path, owners, mhole, code);
    } else if !Reenters(g, path, code) {
      PropagateKeeps(g, s, path, owners, mhole, code);
    } else {
      SparedKeeps(g, s, path, owners, code);
    }
  }

  lemma SparedKeeps(g: Graph, s: Instance, path: Path, owners: seq<TokenId>, code: nat)
    requires ValidGraph(g) && Thrown(g, s, path, owners, 0) && Reenters(g, path, code)
    requires !Stranded(g, s, path, owners, 0, code)
    ensures Inv(g, Propagate(g, s, path, owners, code))
  {
    PropagateHandles(g, s, path, owners, code);
    HandlerIsInnermost(g, path, code);
    var h := FindHandler(g, path, code).value;
    var l := h.level;
    var p, w := path[..l], owners[..l];
    ChainPrefix(g, s, path, owners, l);
    SparedOwnerStays(g, s, path, owners, code);
    SparedNoStuck(g, s, path, owners, l);
    KillScopeCuts(g, s, p, w, h.sub, Some(LastOwner(w)), 0);
    var s1 := KillScope(s, p, w, h.sub);
    EventChain(g, s1, p, w, h.sub);
    SpawnFills(g, s1, p, w, h.start, p + [h.sub], w + [0]);
  }

  lemma SparedNoStuck(g: Graph, s: Instance, path: Path, owners: seq<TokenId>, l: nat)
    requires Cut(g, s, path, owners, 0) && l <= |owners|
    requires LastOwner(owners) != LastOwner(owners[..l]) ==> LastOwner(owners) in s.tokens && Occupied(s, LastOwner(owners))
    ensures NoStuck(g, s, Some(LastOwner(owners[..l])), 0)
  {
    var lo := LastOwner(owners);
    if lo != LastOwner(owners[..l]) {
      forall o | o in s.tokens && ScopeWait(s.tokens[o]) && o != LastOwner(owners[..l]) ensures Occupied(s, o) {
        assert o != lo ==> Occupied(s, o);
      }
    }
  }

  /** An iteration taken away without being counted leaves its loop short. */
  lemma ThrowLeavesShort(g: Graph, s: Instance, x: TokenId)
    requires Ready(g, s, x) && !ScopeWait(s.tokens[x]) && s.tokens[x].parent != 0
    ensures var s' := DeleteToken(CancelWaits(g, s, x), x); var m := s.tokens[x].parent;
      m in s'.multi && m in s'.tokens && !Accounted(g, s', m)
  {
    var m := s.tokens[x].parent;
    var s' := DeleteToken(CancelWaits(g, s, x), x);
    assert TokenOk(g, s, x) && TokenOk(g, s, m) && Accounted(g, s, m);
    LeafAlone(g, s, x);
    hide Core, NoStuck, Linked, Routed, Vacated;
    assert x in Children(s, m) && Children(s', m) == Children(s, m) - {x};
    assert SpecOf(g, s'.tokens[m]) == SpecOf(g, s.tokens[m]);
  }
}
