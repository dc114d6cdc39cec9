/** Cancelling removes exactly a subtree of the ownership tree and closes exactly what
    its tokens wait for. */
module Cancellation {
  import opened StoreState
  import opened Bpmn
  import opened Instances
  import opened ScopeTree

  // ---- what is removed ------------------------------------------------------------------

  /** `v` is the loop coordinator of `u` or owns a scope around it. */
  ghost predicate Hangs(s: Instance, u: TokenId, v: TokenId) {
    u in s.tokens && v != 0 && (s.tokens[u].parent == v || v in s.tokens[u].owners)
  }

  ghost predicate IsChain(s: Instance, chain: seq<TokenId>) {
    forall n :: 0 < n < |chain| ==> Hangs(s, chain[n - 1], chain[n])
  }

  /** `u` hangs from `id` at some depth. */
  ghost predicate Below(s: Instance, u: TokenId, id: TokenId) {
    exists chain :: |chain| >= 2 && chain[0] == u && chain[|chain| - 1] == id && IsChain(s, chain)
  }

  lemma HangsOwner(g: Graph, s: Instance, u: TokenId, v: TokenId)
    requires Core(g, s) && u in s.tokens && v != 0 && v in s.tokens[u].owners
    ensures v in s.tokens && ScopeWait(s.tokens[v]) && StandsOnSub(g, s.tokens[v]) && Inside(s.tokens[u], s.tokens[v], v)
  {
    assert TokenOk(g, s, u);
    var i :| 0 <= i < |s.tokens[u].owners| && s.tokens[u].owners[i] == v;
    assert LevelOk(g, s, s.tokens[u].path, s.tokens[u].owners, i);
    OwnerContains(g, s, s.tokens[u], i);
    assert TokenOk(g, s, v);
  }

  lemma DirectlyBelow(g: Graph, s: Instance, id: TokenId, u: TokenId)
    requires Core(g, s) && id in s.tokens && Hangs(s, u, id)
    ensures u in ActivitySet(g, s, id)
  {
    assert TokenOk(g, s, u);
    if s.tokens[u].parent == id {
      assert LoopedUnder(g, s, id, s.tokens[u]);
    } else {
      HangsOwner(g, s, u, id);
      assert Doomed(s.tokens[u], s.tokens[id].path + [s.tokens[id].element], s.tokens[id].owners + [id], 0);
    }
  }

  lemma ScopeExtends(g: Graph, s: Instance, u: TokenId, v: TokenId, path: Path, owners: seq<TokenId>)
    requires Core(g, s) && v in s.tokens && InScope(s.tokens[v], path, owners) && Hangs(s, u, v)
    ensures InScope(s.tokens[u], path, owners)
  {
    assert TokenOk(g, s, u);
    if s.tokens[u].parent != v {
      HangsOwner(g, s, u, v);
    }
  }

  /** Whatever hangs from a removed token is removed too. */
  lemma SubtreeClosed(g: Graph, s: Instance, id: TokenId, u: TokenId, v: TokenId)
    requires Core(g, s) && id in s.tokens && v in ActivitySet(g, s, id) && Hangs(s, u, v)
    ensures u in ActivitySet(g, s, id)
  {
    var t := s.tokens[id];
    assert TokenOk(g, s, u) && TokenOk(g, s, v);
    if v in LoopSet(g, s, id) {
      if s.tokens[v].parent == id {
        assert TokenOk(g, s, id);
        assert s.tokens[u].parent != v;
        HangsOwner(g, s, u, v);
        assert InIteration(g, s, v, s.tokens[u]);
      } else {
        var child :| child in s.tokens && s.tokens[child].parent == id && InIteration(g, s, child, s.tokens[v]);
        ScopeExtends(g, s, u, v, s.tokens[child].path + [s.tokens[child].element], s.tokens[child].owners + [child]);
        assert InIteration(g, s, child, s.tokens[u]);
      }
      assert LoopedUnder(g, s, id, s.tokens[u]);
    } else {
      ScopeExtends(g, s, u, v, t.path + [t.element], t.owners + [id]);
      assert Doomed(s.tokens[u], t.path + [t.element], t.owners + [id], 0);
    }
  }

  lemma {:induction false} ChainRemoved(g: Graph, s: Instance, id: TokenId, chain: seq<TokenId>)
    requires Core(g, s) && id in s.tokens && |chain| >= 2 && chain[|chain| - 1] == id && IsChain(s, chain)
    ensures chain[0] in ActivitySet(g, s, id)
    decreases |chain|
  {
    assert Hangs(s, chain[1 - 1], chain[1]);
    if |chain| == 2 {
      DirectlyBelow(g, s, id, chain[0]);
    } else {
      var rest := chain[1..];
      forall n | 0 < n < |rest| ensures Hangs(s, rest[n - 1], rest[n]) {
        assert Hangs(s, chain[n + 1 - 1], chain[n + 1]);
      }
      ChainRemoved(g, s, id, rest);
      SubtreeClosed(g, s, id, chain[0], chain[1]);
    }
  }

  lemma RemovedIsBelow(g: Graph, s: Instance, id: TokenId, u: TokenId)
    requires Core(g, s) && id in s.tokens && u in ActivitySet(g, s, id)
    ensures Below(s, u, id)
  {
    assert TokenOk(g, s, id);
    var t := s.tokens[u];
    if t.parent == id {
      assert IsChain(s, [u, id]);
    } else if u in LoopSet(g, s, id) {
      var child :| child in s.tokens && s.tokens[child].parent == id && InIteration(g, s, child, t);
      assert TokenOk(g, s, child);
      assert t.owners[|s.tokens[child].owners|] == child;
      assert IsChain(s, [u, child, id]);
    } else {
      assert t.owners[|s.tokens[id].owners|] == id;
      assert IsChain(s, [u, id]);
    }
  }

  /** Cancelling an activity removes exactly the tokens hanging from it at any depth. */
  lemma CancelsExactlySubtree(g: Graph, s: Instance, id: TokenId)
    requires Core(g, s) && id in s.tokens
    ensures forall u :: u in CancelActivity(g, s, id).tokens <==> u in s.tokens && !Below(s, u, id)
    ensures forall u :: u in CancelActivity(g, s, id).tokens ==> CancelActivity(g, s, id).tokens[u] == s.tokens[u]
  {
    forall u | u in s.tokens ensures u in ActivitySet(g, s, id) <==> Below(s, u, id) {
      if Below(s, u, id) {
        var chain :| |chain| >= 2 && chain[0] == u && chain[|chain| - 1] == id && IsChain(s, chain);
        ChainRemoved(g, s, id, chain);
      }
      if u in ActivitySet(g, s, id) {
        RemovedIsBelow(g, s, id, u);
      }
    }
  }

  /** Of the wait records, cancelling closes exactly those of the removed tokens and of the
      cancelled one. */
  lemma CancelClosesExactly(g: Graph, s: Instance, id: TokenId, w: nat)
    requires Core(g, s) && Linked(s, 0) && id in s.tokens && w in s.waits
    ensures w in CancelActivity(g, s, id).waits
    ensures var r := CancelActivity(g, s, id).waits[w];
      if s.waits[w].open && (s.waits[w].token == id || Below(s, s.waits[w].token, id))
      then r == s.waits[w].(open := false) else r == s.waits[w]
  {
    var close := {id} + ActivitySet(g, s, id);
    SweptRecord(g, s, close, ActivitySet(g, s, id), w);
    if s.waits[w].open {
      assert Backed(s, w, 0);
      CancelsExactlySubtree(g, s, id);
      assert s.waits[w].token in CancelActivity(g, s, id).tokens <==> s.waits[w].token !in ActivitySet(g, s, id);
    }
  }

  lemma SweptRecord(g: Graph, s: Instance, close: set<TokenId>, kill: set<TokenId>, w: nat)
    requires Core(g, s) && Linked(s, 0) && w in s.waits
    ensures w in Sweep(s, close, kill).waits
    ensures Sweep(s, close, kill).waits[w] ==
      if s.waits[w].open && s.waits[w].token in close then s.waits[w].(open := false) else s.waits[w]
  {
    if s.waits[w].open {
      assert Backed(s, w, 0);
      var id := s.waits[w].token;
      if id in close {
        assert Awaits(s.tokens[id], s.waits[w].kind, w);
      }
      forall u | u in close && u in s.tokens && Awaits(s.tokens[u], s.waits[w].kind, w) ensures u == id {
        assert TokenOk(g, s, u);
        assert Held(s, u);
      }
    }
  }

  /** No job or subscription of a cancelled token survives, and no other token's is lost
      unless the cancelled token refers to it. */
  lemma CancelDropsEvents(g: Graph, s: Instance, id: TokenId, e: nat)
    requires Core(g, s) && id in s.tokens && e in s.events
    ensures e in CancelActivity(g, s, id).events <==>
      && s.events[e].token != id && !(s.events[e].token in s.tokens && Below(s, s.events[e].token, id))
      && !(exists u :: u in s.tokens && (u == id || Below(s, u, id)) && AwaitsEvent(s.tokens[u], e))
    ensures e in CancelActivity(g, s, id).events ==> CancelActivity(g, s, id).events[e] == s.events[e]
  {
    var close := {id} + ActivitySet(g, s, id);
    CancelledAreBelow(g, s, id);
    SweptEvents(s, close, ActivitySet(g, s, id), e);
  }

  /** Exactly the loop entries of the removed tokens and of the cancelled one go. */
  lemma CancelDropsLoops(g: Graph, s: Instance, id: TokenId, m: TokenId)
    requires Core(g, s) && id in s.tokens && m in s.multi
    ensures m in CancelActivity(g, s, id).multi <==> m != id && !Below(s, m, id)
    ensures m in CancelActivity(g, s, id).multi ==> CancelActivity(g, s, id).multi[m] == s.multi[m]
  {
    CancelledAreBelow(g, s, id);
    assert m in s.tokens;
  }

  lemma CancelledAreBelow(g: Graph, s: Instance, id: TokenId)
    requires Core(g, s) && id in s.tokens
    ensures forall u :: u in s.tokens ==> (u in {id} + ActivitySet(g, s, id) <==> u == id || Below(s, u, id))
  {
    CancelsExactlySubtree(g, s, id);
    forall u | u in s.tokens ensures u in ActivitySet(g, s, id) <==> Below(s, u, id) {
      assert u in CancelActivity(g, s, id).tokens <==> u !in ActivitySet(g, s, id);
    }
  }

  lemma SweptEvents(s: Instance, close: set<TokenId>, kill: set<TokenId>, e: nat)
    requires e in s.events
    ensures e in Sweep(s, close, kill).events <==>
      s.events[e].token !in close && !(exists u :: u in s.tokens && u in close && AwaitsEvent(s.tokens[u], e))
    ensures e in Sweep(s, close, kill).events ==> Sweep(s, close, kill).events[e] == s.events[e]
  {
  }

  // ---- what a cut leaves ----------------------------------------------------------------------

  /** The innermost scope of a chain that a token waits on, 0 for the process itself. */
  function LastOwner(owners: seq<TokenId>): TokenId
    decreases |owners|
  {
    if owners == [] then 0
    else if owners[|owners| - 1] != 0 then owners[|owners| - 1]
    else LastOwner(owners[..|owners| - 1])
  }

  lemma {:induction false} LastOwnerLevel(owners: seq<TokenId>, k: nat) returns (j: nat)
    requires k < |owners| && owners[k] != 0
    ensures k <= j < |owners| && owners[j] == LastOwner(owners) != 0
    decreases |owners|
  {
    if owners[|owners| - 1] != 0 {
      j := |owners| - 1;
    } else {
      j := LastOwnerLevel(owners[..|owners| - 1], k);
    }
  }

  lemma {:induction false} LastOwnerIn(owners: seq<TokenId>)
    ensures LastOwner(owners) != 0 ==> LastOwner(owners) in owners
    decreases |owners|
  {
    if owners != [] && owners[|owners| - 1] == 0 {
      LastOwnerIn(owners[..|owners| - 1]);
    }
  }

  /** The removed tokens stand inside one scope instance, and those around them deeper
      than it go as well (or are `x`). */
  ghost predicate Anchored(s: Instance, kill: set<TokenId>, x: TokenId, path: Path, owners: seq<TokenId>) {
    forall u :: u in kill && u in s.tokens ==>
      InScope(s.tokens[u], path, owners) && OwnersGo(s.tokens[u].owners, |owners|, kill, x)
  }

  ghost predicate OwnersGo(owners: seq<TokenId>, from: nat, kill: set<TokenId>, x: TokenId) {
    forall i :: from <= i < |owners| && owners[i] != 0 ==> owners[i] in kill || owners[i] == x
  }

  /** `s'` drops the tokens in `kill`, may change `x` in place and adds nothing. */
  ghost predicate Cuts(s: Instance, s': Instance, kill: set<TokenId>, x: TokenId) {
    && Delta(s, s', kill, x)
    && (forall u :: u in s'.tokens ==> u in s.tokens)
    && (x != 0 ==> x in s.tokens && x in s'.tokens && SameScope(s'.tokens[x], s.tokens[x]) && !ScopeWait(s'.tokens[x]))
    && (forall m :: m in s'.multi ==> m in s.multi && s'.multi[m] == s.multi[m] && m !in kill && (x != 0 ==> m != x))
  }

  lemma NoZero(g: Graph, s: Instance)
    requires Core(g, s)
    ensures 0 !in s.tokens
  {
    assert 0 in s.tokens ==> !TokenOk(g, s, 0);
  }

  /** An owner that keeps waiting still has a token inside. */
  lemma CutOccupied(g: Graph, s: Instance, s': Instance, kill: set<TokenId>, x: TokenId,
                    path: Path, owners: seq<TokenId>, o: TokenId)
    requires Core(g, s) && Cuts(s, s', kill, x) && Anchored(s, kill, x, path, owners)
    requires ChainOk(g, s, path, owners) && OwnersFree(owners, kill, x)
    requires x != 0 ==> InScope(s.tokens[x], path, owners)
    requires o in s'.tokens && ScopeWait(s'.tokens[o]) && Occupied(s, o) && (x == 0 ==> o != LastOwner(owners))
    ensures Occupied(s', o)
  {
    var t := s.tokens[o];
    var u :| u in s.tokens && Inside(s.tokens[u], t, o);
    assert TokenOk(g, s, u);
    if u !in kill {
      NoZero(g, s);
      SurvivorInside(s, s', kill, x, o, u);
    } else {
      var k := |t.owners|;
      assert s.tokens[u].owners[k] == o && OwnersGo(s.tokens[u].owners, |owners|, kill, x);
      assert TokenOk(g, s, o);
      assert k < |owners| && owners[k] == o;
      assert LevelOk(g, s, path, owners, k);
      assert t.path + [t.element] == path[..k + 1] && t.owners + [o] == owners[..k + 1];
      if x != 0 {
        assert Inside(s'.tokens[x], s'.tokens[o], o);
      } else {
        InnerOwnerInside(g, s, s', kill, path, owners, k, o);
      }
    }
  }

  lemma SurvivorInside(s: Instance, s': Instance, kill: set<TokenId>, x: TokenId, o: TokenId, u: TokenId)
    requires Cuts(s, s', kill, x) && 0 !in s.tokens && o in s.tokens && o in s'.tokens && ScopeWait(s'.tokens[o])
    requires u in s.tokens && u !in kill && Inside(s.tokens[u], s.tokens[o], o)
    ensures Occupied(s', o)
  {
    assert s'.tokens[o] == s.tokens[o];
    assert u in s'.tokens && SameScope(s'.tokens[u], s.tokens[u]);
    assert Inside(s'.tokens[u], s'.tokens[o], o);
  }

  /** Of the owners along a chain the innermost stands inside every other. */
  lemma InnerOwnerInside(g: Graph, s: Instance, s': Instance, kill: set<TokenId>, path: Path, owners: seq<TokenId>, k: nat, o: TokenId)
    requires Core(g, s) && Cuts(s, s', kill, 0) && ChainOk(g, s, path, owners) && OwnersFree(owners, kill, 0)
    requires k < |owners| && owners[k] == o && o in s.tokens && o in s'.tokens && o != 0 && o != LastOwner(owners) && o !in kill
    requires s.tokens[o].path + [s.tokens[o].element] == path[..k + 1] && s.tokens[o].owners + [o] == owners[..k + 1]
    ensures Occupied(s', o)
  {
    var j := LastOwnerLevel(owners, k);
    var lo := owners[j];
    assert LevelOk(g, s, path, owners, j);
    assert path[..k + 1] <= path[..j] && owners[..k + 1] <= owners[..j];
    assert Inside(s'.tokens[lo], s'.tokens[o], o);
  }

  /** Loops whose iterations are spared keep their books. */
  lemma CutAccounted(g: Graph, s: Instance, s': Instance, kill: set<TokenId>, x: TokenId, m: TokenId)
    requires 0 !in s.tokens && Cuts(s, s', kill, x) && m in s'.multi && m in s.tokens && m !in kill && m != x && Accounted(g, s, m)
    requires forall u :: u in kill && u in s.tokens ==> s.tokens[u].parent != m
    requires x != 0 ==> s'.tokens[x].parent == s.tokens[x].parent
                        && (s.tokens[x].parent != 0 ==> s'.tokens[x].loop == s.tokens[x].loop)
    ensures m in s'.tokens && Accounted(g, s', m)
  {
    assert Children(s', m) == Children(s, m);
    assert SpecOf(g, s'.tokens[m]) == SpecOf(g, s.tokens[m]);
  }

  lemma NoStuckCut(g: Graph, s: Instance, s': Instance, kill: set<TokenId>, x: TokenId,
                   path: Path, owners: seq<TokenId>, hole: Option<TokenId>, mhole: TokenId, mhole': TokenId)
    requires Core(g, s) && NoStuck(g, s, hole, mhole)
    requires Cuts(s, s', kill, x) && Anchored(s, kill, x, path, owners) && s'.status == s.status
    requires ChainOk(g, s, path, owners) && OwnersFree(owners, kill, x)
    requires x != 0 ==> InScope(s.tokens[x], path, owners)
                        && s'.tokens[x].parent == s.tokens[x].parent
                        && (s.tokens[x].parent != 0 ==> s'.tokens[x].loop == s.tokens[x].loop)
    requires hole.None? || hole.value in kill || (if x == 0 then hole.value == LastOwner(owners) else hole.value == x)
    requires mhole in kill || mhole == x || mhole == 0 || mhole == mhole' || mhole !in s'.multi
    requires forall u :: u in kill && u in s.tokens && s.tokens[u].parent != 0 ==>
               s.tokens[u].parent in kill || s.tokens[u].parent == x || s.tokens[u].parent == mhole' || s.tokens[u].parent !in s'.multi
    ensures forall m :: m in s'.multi ==> m in s'.tokens
    ensures NoStuck(g, s', if x == 0 then Some(LastOwner(owners)) else None, mhole')
  {
    NoZero(g, s);
    forall o | o in s'.tokens && ScopeWait(s'.tokens[o]) && (x == 0 ==> o != LastOwner(owners)) ensures Occupied(s', o) {
      assert TokenOk(g, s, o) && Occupied(s, o);
      CutOccupied(g, s, s', kill, x, path, owners, o);
    }
    forall m | m in s'.multi ensures m in s'.tokens && (m != mhole' ==> Accounted(g, s', m)) {
      assert TokenOk(g, s, m);
      if m != mhole' {
        assert Accounted(g, s, m);
        CutAccounted(g, s, s', kill, x, m);
      }
    }
    if x == 0 && LastOwner(owners) != 0 {
      LastOwnerIn(owners);
      var k :| 0 <= k < |owners| && owners[k] == LastOwner(owners);
      assert LevelOk(g, s, path, owners, k);
    }
  }

  /** Everyone a removed or released token waits for is released with it. */
  ghost predicate Swept(s: Instance, s': Instance, close: set<TokenId>, kill: set<TokenId>) {
    && s'.waits == Sweep(s, close, kill).waits
    && (forall e :: e in s'.events ==> e in Sweep(s, close, kill).events && s'.events[e] == s.events[e])
    && s'.status == s.status && s'.nextId == s.nextId
  }

  lemma SweepHeld(g: Graph, s: Instance, s': Instance, close: set<TokenId>, kill: set<TokenId>, x: TokenId, e: TokenId, u: TokenId)
    requires Core(g, s) && Linked(s, e) && (e == 0 || e in close) && Swept(s, s', close, kill)
    requires u in s.tokens && u !in close && u in s'.tokens && s'.tokens[u] == s.tokens[u]
    ensures Held(s', u)
  {
    assert TokenOk(g, s, u) && Held(s, u);
    if Waiting(s.tokens[u]) {
      var w := s.tokens[u].ref.id;
      forall id | id in close && id in s.tokens ensures !Awaits(s.tokens[id], s.waits[w].kind, w) {
        assert TokenOk(g, s, id);
        if id != e {
          assert Held(s, id);
        }
      }
    }
  }

  lemma SweepLinked(g: Graph, s: Instance, s': Instance, close: set<TokenId>, kill: set<TokenId>, x: TokenId, e: TokenId)
    requires Core(g, s) && Linked(s, e) && (e == 0 || e in close)
    requires Cuts(s, s', kill, x) && Swept(s, s', close, kill) && kill <= close <= kill + {x}
    requires x != 0 ==> !Waiting(s'.tokens[x]) && (x in close || !Waiting(s.tokens[x]))
    ensures Linked(s', 0)
  {
    NoZero(g, s);
    forall u | u in s'.tokens && u != 0 ensures Held(s', u) {
      if u != x {
        SweepHeld(g, s, s', close, kill, x, e, u);
      }
    }
    forall w | w in s'.waits ensures Backed(s', w, 0) {
      assert Backed(s, w, e);
      if s'.waits[w].open {
        var q := s.waits[w].token;
        assert q !in close;
      }
    }
  }

  lemma SweepRouted(g: Graph, s: Instance, s': Instance, close: set<TokenId>, kill: set<TokenId>, x: TokenId)
    requires Core(g, s) && Routed(g, s) && Cuts(s, s', kill, x) && Swept(s, s', close, kill)
    requires x != 0 ==> (x in close || !ScopeWait(s.tokens[x])) && s'.tokens[x].parent == s.tokens[x].parent
    ensures Routed(g, s')
  {
    NoZero(g, s);
    assert x != 0 && ScopeWait(s.tokens[x]) ==> forall e :: e in s'.events ==> s'.events[e].token != x;
    RoutedStays(g, s, s', x);
  }

  /** A scope instance was emptied: only the token waiting on it (or the process) may now
      be waiting for nothing, besides the loop `mhole`. */
  ghost predicate Cut(g: Graph, s: Instance, path: Path, owners: seq<TokenId>, mhole: TokenId) {
    && s.status.Running? && Core(g, s) && NoStuck(g, s, Some(LastOwner(owners)), mhole)
    && Linked(s, 0) && Routed(g, s) && ChainOk(g, s, path, owners)
  }

  // ---- emptying a scope -----------------------------------------------------------------------

  /** The excluded child scope, if any, is an event sub-process. */
  ghost predicate Spares(g: Graph, path: Path, exclude: ElementId) {
    exclude != 0 ==> HasElement(g, path, exclude) && IsEventSub(g[path].elements[exclude])
  }

  lemma DoomedOwner(g: Graph, s: Instance, path: Path, owners: seq<TokenId>, exclude: ElementId, u: TokenId, i: nat)
    requires Core(g, s) && ChainOk(g, s, path, owners) && u in s.tokens && Doomed(s.tokens[u], path, owners, exclude)
    requires |owners| <= i < |s.tokens[u].owners| && s.tokens[u].owners[i] != 0
    ensures s.tokens[u].owners[i] in ScopeSet(s, path, owners, exclude)
  {
    assert TokenOk(g, s, u);
    var t := s.tokens[u];
    assert LevelOk(g, s, t.path, t.owners, i);
    assert Doomed(s.tokens[t.owners[i]], path, owners, exclude);
  }

  lemma SparedOwner(g: Graph, s: Instance, path: Path, owners: seq<TokenId>, exclude: ElementId, u: TokenId, i: nat)
    requires Core(g, s) && ChainOk(g, s, path, owners) && Spares(g, path, exclude)
    requires u in s.tokens && u !in ScopeSet(s, path, owners, exclude)
    requires i < |s.tokens[u].owners| && s.tokens[u].owners[i] != 0
    ensures s.tokens[u].owners[i] !in ScopeSet(s, path, owners, exclude)
  {
    assert TokenOk(g, s, u);
    var t := s.tokens[u];
    assert LevelOk(g, s, t.path, t.owners, i);
    var o := s.tokens[t.owners[i]];
    assert |t.path| > |path| && path <= t.path && t.path[|path|] == exclude != 0 ==> EventLevel(g, t.path, |path|) by {
      assert path <= t.path ==> t.path[..|path|] == path;
    }
    assert InScope(o, path, owners) ==> InScope(t, path, owners);
    assert |o.path| > |path| ==> o.path[|path|] == t.path[|path|];
  }

  lemma ScopeVacated(g: Graph, s: Instance, path: Path, owners: seq<TokenId>, exclude: ElementId)
    requires Core(g, s) && ChainOk(g, s, path, owners) && Spares(g, path, exclude)
    ensures var kill := ScopeSet(s, path, owners, exclude);
      Vacated(s, kill, 0) && Anchored(s, kill, 0, path, owners) && OwnersFree(owners, kill, 0)
    ensures forall u :: u in ScopeSet(s, path, owners, exclude) && s.tokens[u].parent != 0 ==>
      s.tokens[u].parent in ScopeSet(s, path, owners, exclude)
  {
    var kill := ScopeSet(s, path, owners, exclude);
    forall u | u in s.tokens
      ensures s.tokens[u].parent != 0 ==> (s.tokens[u].parent in kill <==> u in kill)
    {
      assert TokenOk(g, s, u);
    }
    forall u | u in s.tokens && u !in kill ensures FreeOf(s.tokens[u], kill, 0) {
      forall i | 0 <= i < |s.tokens[u].owners| && s.tokens[u].owners[i] != 0 ensures s.tokens[u].owners[i] !in kill {
        SparedOwner(g, s, path, owners, exclude, u, i);
      }
    }
    forall u | u in kill ensures OwnersGo(s.tokens[u].owners, |owners|, kill, 0) {
      forall i | |owners| <= i < |s.tokens[u].owners| && s.tokens[u].owners[i] != 0 ensures s.tokens[u].owners[i] in kill {
        DoomedOwner(g, s, path, owners, exclude, u, i);
      }
    }
    forall i | 0 <= i < |owners| && owners[i] != 0 ensures owners[i] !in kill {
      assert LevelOk(g, s, path, owners, i);
    }
  }

  lemma SweepAdvances(s: Instance, close: set<TokenId>, kill: set<TokenId>)
    ensures Advances(s, Sweep(s, close, kill))
  {
  }

  /** killScopeTokens leaves the tree intact, with at most its owner waiting for nothing. */
  lemma KillScopeCuts(g: Graph, s: Instance, path: Path, owners: seq<TokenId>, exclude: ElementId,
                      hole: Option<TokenId>, mhole: TokenId)
    requires s.status.Running? && Core(g, s) && NoStuck(g, s, hole, mhole) && Linked(s, 0) && Routed(g, s)
    requires ChainOk(g, s, path, owners) && Spares(g, path, exclude)
    requires hole.None? || hole.value == LastOwner(owners) || hole.value in ScopeSet(s, path, owners, exclude)
    requires mhole == 0 || mhole in ScopeSet(s, path, owners, exclude)
    ensures Cut(g, KillScope(s, path, owners, exclude), path, owners, 0)
    ensures Advances(s, KillScope(s, path, owners, exclude))
  {
    var kill := ScopeSet(s, path, owners, exclude);
    var s' := KillScope(s, path, owners, exclude);
    ScopeVacated(g, s, path, owners, exclude);
    SweepAdvances(s, kill, kill);
    KillScopeTree(g, s, path, owners, exclude);
    NoStuckCut(g, s, s', kill, 0, path, owners, hole, mhole, 0);
    SweepLinked(g, s, s', kill, kill, 0, 0);
    SweepRouted(g, s, s', kill, kill, 0);
  }

  lemma SweepCuts(s: Instance, kill: set<TokenId>)
    requires kill <= s.tokens.Keys
    ensures Cuts(s, Sweep(s, kill, kill), kill, 0) && Swept(s, Sweep(s, kill, kill), kill, kill)
  {
  }

  lemma SweepFresh(s: Instance, close: set<TokenId>, kill: set<TokenId>)
    requires Fresh(s)
    ensures Fresh(Sweep(s, close, kill))
  {
  }

  lemma KillScopeTree(g: Graph, s: Instance, path: Path, owners: seq<TokenId>, exclude: ElementId)
    requires Core(g, s) && ChainOk(g, s, path, owners) && Spares(g, path, exclude)
    ensures var kill := ScopeSet(s, path, owners, exclude); var s' := KillScope(s, path, owners, exclude);
      Core(g, s') && Cuts(s, s', kill, 0) && Swept(s, s', kill, kill) && ChainOk(g, s', path, owners)
  {
    var kill := ScopeSet(s, path, owners, exclude);
    var s' := Sweep(s, kill, kill);
    SweepCuts(s, kill);
    ScopeVacated(g, s, path, owners, exclude);
    MultiKept(g, s, s', kill, 0);
    SweepFresh(s, kill, kill);
    NoZero(g, s);
    assert forall u :: u in s'.tokens ==> u in s.tokens && u != 0;
    CoreUpdate(g, s, s', kill, 0);
    ChainSurvives(g, s, s', kill, 0, path, owners);
  }

  lemma MultiKept(g: Graph, s: Instance, s': Instance, kill: set<TokenId>, x: TokenId)
    requires Core(g, s) && Cuts(s, s', kill, x)
    requires forall m :: m in s.multi && m !in kill && m != x ==> m in s'.multi
    ensures MultiFollows(s, s', kill, x)
  {
    forall m | m in s'.multi ensures m in s'.tokens && s'.tokens[m].state.WaitMulti? {
      assert m in s.tokens && TokenOk(g, s, m);
    }
  }

  // ---- freeing one token ----------------------------------------------------------------------

  lemma SubtreeAnchored(g: Graph, s: Instance, x: TokenId, u: TokenId)
    requires Core(g, s) && x in s.tokens && u in ActivitySet(g, s, x)
    ensures u in s.tokens && InScope(s.tokens[u], s.tokens[x].path, s.tokens[x].owners)
    ensures OwnersGo(s.tokens[u].owners, |s.tokens[x].owners|, ActivitySet(g, s, x), x)
    ensures s.tokens[u].parent != 0 ==> s.tokens[u].parent in ActivitySet(g, s, x) || s.tokens[u].parent == x
  {
    var t := s.tokens[x];
    assert TokenOk(g, s, u) && TokenOk(g, s, x);
    var kill := ActivitySet(g, s, x);
    if s.tokens[u].parent == x {
    } else if u in LoopSet(g, s, x) {
      var c :| c in s.tokens && s.tokens[c].parent == x && InIteration(g, s, c, s.tokens[u]);
      var ct := s.tokens[c];
      assert TokenOk(g, s, c) && ChainOk(g, s, t.path, t.owners);
      assert LoopedUnder(g, s, x, ct);
      InnerOwners(g, s, u, ct.path + [ct.element], ct.owners + [c]);
      forall o | o in s.tokens && InScope(s.tokens[o], ct.path + [ct.element], ct.owners + [c]) ensures o in kill {
        assert InIteration(g, s, c, s.tokens[o]);
        assert LoopedUnder(g, s, x, s.tokens[o]);
      }
      assert s.tokens[u].owners[|ct.owners|] == c;
    } else {
      InnerOwners(g, s, u, t.path + [t.element], t.owners + [x]);
      forall o | o in s.tokens && InScope(s.tokens[o], t.path + [t.element], t.owners + [x]) ensures o in kill {
        assert Doomed(s.tokens[o], t.path + [t.element], t.owners + [x], 0);
      }
      assert s.tokens[u].owners[|t.owners|] == x;
    }
  }

  /** Deeper owners stand inside the scope, and so does the coordinator. */
  lemma InnerOwners(g: Graph, s: Instance, u: TokenId, path: Path, owners: seq<TokenId>)
    requires Core(g, s) && u in s.tokens && |path| == |owners| && InScope(s.tokens[u], path, owners)
    ensures forall i :: |owners| <= i < |s.tokens[u].owners| && s.tokens[u].owners[i] != 0 ==>
      s.tokens[u].owners[i] in s.tokens && InScope(s.tokens[s.tokens[u].owners[i]], path, owners)
    ensures s.tokens[u].parent != 0 ==> s.tokens[u].parent in s.tokens && InScope(s.tokens[s.tokens[u].parent], path, owners)
  {
    assert TokenOk(g, s, u);
    var t := s.tokens[u];
    forall i | |owners| <= i < |t.owners| && t.owners[i] != 0
      ensures t.owners[i] in s.tokens && InScope(s.tokens[t.owners[i]], path, owners)
    {
      assert LevelOk(g, s, t.path, t.owners, i);
    }
  }

  lemma SubtreeVacated(g: Graph, s: Instance, x: TokenId)
    requires Core(g, s) && x in s.tokens
    ensures Vacated(s, ActivitySet(g, s, x), x)
    ensures x !in ActivitySet(g, s, x)
  {
    var kill := ActivitySet(g, s, x);
    assert TokenOk(g, s, x);
    forall u | u in s.tokens && u !in kill ensures FreeOf(s.tokens[u], kill, x) {
      forall v | v != 0 && (v in kill || v == x) ensures !Hangs(s, u, v) {
        if Hangs(s, u, v) {
          if v == x {
            DirectlyBelow(g, s, x, u);
          } else {
            SubtreeClosed(g, s, x, u, v);
          }
        }
      }
      var t := s.tokens[u];
      NoZero(g, s);
      forall i | 0 <= i < |t.owners| && t.owners[i] != 0 ensures t.owners[i] !in kill && t.owners[i] != x {
        assert t.owners[i] in t.owners;
        assert Hangs(s, u, t.owners[i]);
      }
      if t.parent != 0 {
        assert Hangs(s, u, t.parent);
      }
    }
    SubtreeNotSelf(g, s, x);
  }

  lemma SubtreeNotSelf(g: Graph, s: Instance, x: TokenId)
    requires Core(g, s) && x in s.tokens
    ensures x !in ActivitySet(g, s, x)
  {
    assert TokenOk(g, s, x);
    var t := s.tokens[x];
    forall c | c in s.tokens && s.tokens[c].parent == x ensures !InIteration(g, s, c, t) {
      assert TokenOk(g, s, c);
    }
  }

  /** `x` is freed: its subtree goes, its wait ends, and it stands anew in its scope. */
  ghost predicate Frees(g: Graph, s: Instance, s': Instance, x: TokenId, close: set<TokenId>) {
    && x in s.tokens && x != 0
    && var kill := ActivitySet(g, s, x);
       && Cuts(s, s', kill, x) && Swept(s, s', close, kill) && kill <= close <= kill + {x}
       && s'.multi == s.multi - kill - {x}
       && (x in close || s.tokens[x].state.WaitMulti?)
       && var t' := s'.tokens[x];
          && t'.parent == s.tokens[x].parent && t'.state.Active? && t'.ref.NoRef? && t'.miChild == s.tokens[x].miChild
          && (t'.parent != 0 ==> t'.element == s.tokens[x].element && t'.loop == s.tokens[x].loop)
          && HasElement(g, t'.path, t'.element) && !IsEventSub(g[t'.path].elements[t'.element])
  }

  /** A sweep that leaves `x` standing as `t'`. */
  lemma SweepLeaves(s: Instance, s': Instance, close: set<TokenId>, kill: set<TokenId>, x: TokenId, t': Token)
    requires x in s.tokens && x !in kill && kill <= s.tokens.Keys && x != 0
    requires s'.tokens == (s.tokens - kill)[x := t'] && s'.multi == s.multi - kill - {x}
    requires s'.waits == Sweep(s, close, kill).waits && s'.events == Sweep(s, close, kill).events
    requires s'.status == s.status && s'.nextId == s.nextId && SameScope(t', s.tokens[x]) && !ScopeWait(t')
    ensures Cuts(s, s', kill, x) && Swept(s, s', close, kill)
  {
  }

  lemma FreedReady(g: Graph, s: Instance, s': Instance, x: TokenId, close: set<TokenId>, e: TokenId, hole: Option<TokenId>, mhole: TokenId)
    requires s.status.Running? && Core(g, s) && NoStuck(g, s, hole, mhole) && Linked(s, e) && Routed(g, s)
    requires (e == 0 || e in close) && Frees(g, s, s', x, close)
    requires hole.None? || hole.value == x || hole.value in ActivitySet(g, s, x)
    requires mhole == 0 || mhole == x || mhole in ActivitySet(g, s, x)
    ensures Inv(g, s') && s'.status.Running? && x in s'.tokens && x !in s'.multi
    ensures Advances(s, s')
  {
    var kill := ActivitySet(g, s, x);
    SubtreeWhole(g, s, x);
    FreedTree(g, s, s', x, close);
    FreedAdvances(g, s, s', x, close);
    NoStuckCut(g, s, s', kill, x, s.tokens[x].path, s.tokens[x].owners, hole, mhole, 0);
    SweepLinked(g, s, s', close, kill, x, e);
    SweepRouted(g, s, s', close, kill, x);
  }

  lemma FreedAdvances(g: Graph, s: Instance, s': Instance, x: TokenId, close: set<TokenId>)
    requires Core(g, s) && Frees(g, s, s', x, close)
    ensures Advances(s, s')
  {
    SweepAdvances(s, close, ActivitySet(g, s, x));
  }

  lemma SubtreeWhole(g: Graph, s: Instance, x: TokenId)
    requires Core(g, s) && x in s.tokens && x != 0
    ensures var kill := ActivitySet(g, s, x); var t := s.tokens[x];
      && Anchored(s, kill, x, t.path, t.owners) && Vacated(s, kill, x) && OwnersFree(t.owners, kill, x)
      && ChainOk(g, s, t.path, t.owners)
    ensures forall u :: u in ActivitySet(g, s, x) && s.tokens[u].parent != 0 ==>
      s.tokens[u].parent in ActivitySet(g, s, x) || s.tokens[u].parent == x
  {
    var kill := ActivitySet(g, s, x);
    var t := s.tokens[x];
    assert TokenOk(g, s, x);
    SubtreeVacated(g, s, x);
    forall u | u in kill
      ensures InScope(s.tokens[u], t.path, t.owners) && OwnersGo(s.tokens[u].owners, |t.owners|, kill, x)
      ensures s.tokens[u].parent != 0 ==> s.tokens[u].parent in kill || s.tokens[u].parent == x
    {
      SubtreeAnchored(g, s, x, u);
    }
    assert FreeOf(t, kill, x);
  }

  lemma FreedTree(g: Graph, s: Instance, s': Instance, x: TokenId, close: set<TokenId>)
    requires Core(g, s) && Frees(g, s, s', x, close)
    ensures Core(g, s')
  {
    var kill := ActivitySet(g, s, x);
    NoZero(g, s);
    SubtreeWhole(g, s, x);
    MultiKept(g, s, s', kill, x);
    assert FreeOf(s.tokens[x], kill, x);
    ChainSurvives(g, s, s', kill, x, s.tokens[x].path, s.tokens[x].owners);
    FreedToken(g, s, s', x, close);
    CoreUpdate(g, s, s', kill, x);
  }

  lemma FreedToken(g: Graph, s: Instance, s': Instance, x: TokenId, close: set<TokenId>)
    requires Core(g, s) && Frees(g, s, s', x, close) && ChainOk(g, s', s.tokens[x].path, s.tokens[x].owners)
    requires FreeOf(s.tokens[x], ActivitySet(g, s, x), x)
    ensures TokenOk(g, s', x)
  {
    assert TokenOk(g, s, x);
  }
}
