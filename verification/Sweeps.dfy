/** Cancelling piece by piece, in any order, adds up to cancelling at once. */
module Sweeps {
  import opened StoreState
  import opened Bpmn
  import opened Instances
  import opened Engine
  import opened ScopeTree

  // ---- what survives removing tokens in any order ----------------------------------------

  /** Every token is well placed on its own, its coordinator (if still there) stands in the
      same scope, and no loop coordinator is itself an iteration. */
  ghost predicate FlatToken(g: Graph, s: Instance, u: TokenId)
    requires u in s.tokens
  {
    var t := s.tokens[u];
    && u != 0 && |t.path| == |t.owners|
    && HasElement(g, t.path, t.element) && !IsEventSub(g[t.path].elements[t.element])
    && (t.parent != 0 && t.parent in s.tokens ==> SameScope(s.tokens[t.parent], t))
    && (u in s.multi ==> t.parent == 0)
  }

  ghost predicate Flat(g: Graph, s: Instance) {
    forall u {:trigger FlatToken(g, s, u)} :: u in s.tokens ==> FlatToken(g, s, u)
  }

  lemma CoreIsFlat(g: Graph, s: Instance)
    requires Core(g, s)
    ensures Flat(g, s)
  {
    forall u | u in s.tokens ensures FlatToken(g, s, u) {
      assert TokenOk(g, s, u);
    }
  }

  /** Flatness depends on where tokens stand only, and survives removals. */
  lemma FlatShrinks(g: Graph, s: Instance, s': Instance)
    requires Flat(g, s)
    requires forall u :: u in s'.tokens ==> u in s.tokens && Placed(s.tokens[u], s'.tokens[u])
    requires forall m :: m in s'.multi ==> m in s.multi
    ensures Flat(g, s')
  {
    forall u | u in s'.tokens ensures FlatToken(g, s', u) {
      assert FlatToken(g, s, u);
    }
  }

  predicate Placed(t: Token, t': Token) {
    t'.path == t.path && t'.owners == t.owners && t'.parent == t.parent && t'.element == t.element
  }

  // ---- composing sweeps ------------------------------------------------------------------------

  /** Sweeping in two goes, when whatever the first one removed it also released. */
  lemma SweepTwice(s: Instance, c1: set<TokenId>, k1: set<TokenId>, c2: set<TokenId>, k2: set<TokenId>)
    requires k1 <= c1
    ensures Sweep(Sweep(s, c1, k1), c2, k2) == Sweep(s, c1 + c2, k1 + k2)
  {
    var s1 := Sweep(s, c1, k1);
    var a, b := Sweep(s1, c2, k2), Sweep(s, c1 + c2, k1 + k2);
    SweepTwiceWaits(s, c1, k1, c2, k2);
    SweepTwiceEvents(s, c1, k1, c2, k2);
    assert a.tokens == b.tokens;
    assert a.multi == b.multi;
    assert ChildrenOf(s, c1) + ChildrenOf(s1, c2) == ChildrenOf(s, c1 + c2);
    assert a.cancelled == b.cancelled;
  }

  lemma SweepTwiceWaits(s: Instance, c1: set<TokenId>, k1: set<TokenId>, c2: set<TokenId>, k2: set<TokenId>)
    requires k1 <= c1
    ensures Sweep(Sweep(s, c1, k1), c2, k2).waits == Sweep(s, c1 + c2, k1 + k2).waits
  {
    var s1 := Sweep(s, c1, k1);
    var a, b := Sweep(s1, c2, k2).waits, Sweep(s, c1 + c2, k1 + k2).waits;
    assert a.Keys == b.Keys;
    forall w | w in s.waits ensures a[w] == b[w] {
      if exists id :: id in c1 + c2 && id in s.tokens && Awaits(s.tokens[id], s.waits[w].kind, w) {
        var id :| id in c1 + c2 && id in s.tokens && Awaits(s.tokens[id], s.waits[w].kind, w);
        if id !in c1 {
          assert id in c2 && id in s1.tokens && Awaits(s1.tokens[id], s1.waits[w].kind, w);
        }
      }
    }
  }

  lemma SweepTwiceEvents(s: Instance, c1: set<TokenId>, k1: set<TokenId>, c2: set<TokenId>, k2: set<TokenId>)
    requires k1 <= c1
    ensures Sweep(Sweep(s, c1, k1), c2, k2).events == Sweep(s, c1 + c2, k1 + k2).events
  {
    var s1 := Sweep(s, c1, k1);
    var a, b := Sweep(s1, c2, k2).events, Sweep(s, c1 + c2, k1 + k2).events;
    forall e | e in s.events ensures e in a <==> e in b {
      if exists id :: id in c1 + c2 && id in s.tokens && AwaitsEvent(s.tokens[id], e) {
        var id :| id in c1 + c2 && id in s.tokens && AwaitsEvent(s.tokens[id], e);
        if id !in c1 && e in s1.events {
          assert id in c2 && id in s1.tokens && AwaitsEvent(s1.tokens[id], e);
        }
      }
    }
    assert a.Keys == b.Keys;
  }

  /** Loop entries do not influence what else a sweep does. */
  lemma SweepAside(s: Instance, loops: map<TokenId, MultiState>, close: set<TokenId>, kill: set<TokenId>)
    ensures Sweep(s.(multi := loops), close, kill) == Sweep(s, close, kill).(multi := loops - close)
  {
    var s1 := s.(multi := loops);
    assert Sweep(s1, close, kill).waits == Sweep(s, close, kill).waits;
    assert Sweep(s1, close, kill).events == Sweep(s, close, kill).events;
    assert ChildrenOf(s1, close) == ChildrenOf(s, close);
  }

  /** Sweeping nothing changes nothing. */
  lemma SweepNothing(s: Instance)
    ensures Sweep(s, {}, {}) == s
  {
    assert Sweep(s, {}, {}).waits == s.waits && Sweep(s, {}, {}).events == s.events;
    assert s.tokens - {} == s.tokens && s.multi - {} == s.multi && ChildrenOf(s, {}) == {};
  }

  /** Releasing a token's waits and then removing it. */
  lemma SweepDelete(s: Instance, close: set<TokenId>, kill: set<TokenId>, id: TokenId)
    requires id in close
    ensures DeleteToken(Sweep(s, close, kill), id) == Sweep(s, close, kill + {id})
  {
    assert s.tokens - kill - {id} == s.tokens - (kill + {id});
  }

  lemma SweepFlat(g: Graph, s: Instance, close: set<TokenId>, kill: set<TokenId>)
    requires Flat(g, s)
    ensures Flat(g, Sweep(s, close, kill))
  {
    FlatShrinks(g, s, Sweep(s, close, kill));
  }

  // ---- the pieces of a scope -------------------------------------------------------------------

  /** One more token of a scope: it goes with everything looped under it, all of it in the scope. */
  lemma ScopePiece(g: Graph, s: Instance, path: Path, owners: seq<TokenId>, exclude: ElementId, id: TokenId)
    requires Flat(g, s) && |path| == |owners| && id in ScopeSet(s, path, owners, exclude)
    requires exclude != 0 ==> HasElement(g, path, exclude) && IsEventSub(g[path].elements[exclude])
    ensures LoopSet(g, s, id) <= ScopeSet(s, path, owners, exclude)
  {
    assert FlatToken(g, s, id);
    forall u | u in LoopSet(g, s, id) ensures u in ScopeSet(s, path, owners, exclude) {
      assert FlatToken(g, s, u);
      if s.tokens[u].parent != id {
        var c :| c in s.tokens && s.tokens[c].parent == id && InIteration(g, s, c, s.tokens[u]);
        assert FlatToken(g, s, c);
        var ct := s.tokens[c];
        assert SameScope(s.tokens[id], ct);
        assert s.tokens[u].path[|ct.path|] == ct.element;
        assert exclude != 0 && ct.path == path ==> ct.element != exclude;
        if |ct.path| > |path| {
          assert s.tokens[u].path[|path|] == ct.path[|path|];
        } else {
          assert ct.path == path;
        }
      }
    }
  }

  // ---- the pieces of a loop --------------------------------------------------------------------

  /** An iteration goes with the scope it opened. */
  function Iteration(g: Graph, s: Instance, child: TokenId): set<TokenId>
    requires child in s.tokens
  {
    {child} + (if StandsOnSub(g, s.tokens[child])
               then ScopeSet(s, s.tokens[child].path + [s.tokens[child].element], s.tokens[child].owners + [child], 0) else {})
  }

  lemma IterationLooped(g: Graph, s: Instance, coord: TokenId, child: TokenId)
    requires child in s.tokens && s.tokens[child].parent == coord
    ensures Iteration(g, s, child) <= Stragglers(g, s, coord)
  {
    forall u | u in Iteration(g, s, child) ensures u in Stragglers(g, s, coord) {
      if u != child {
        assert InIteration(g, s, child, s.tokens[u]);
      }
      assert LoopedUnder(g, s, coord, s.tokens[u]);
    }
  }

  /** Once every iteration has gone with its scope, the whole loop has. */
  lemma LoopPieces(g: Graph, s: Instance, coord: TokenId, gone: set<TokenId>)
    requires gone <= Stragglers(g, s, coord)
    requires forall c :: c in s.tokens && s.tokens[c].parent == coord ==> Iteration(g, s, c) <= gone
    ensures gone == Stragglers(g, s, coord)
  {
    forall u | u in Stragglers(g, s, coord) ensures u in gone {
      if s.tokens[u].parent == coord {
        assert u in Iteration(g, s, u);
      } else {
        var c :| c in s.tokens && s.tokens[c].parent == coord && InIteration(g, s, c, s.tokens[u]);
        assert u in Iteration(g, s, c);
      }
    }
  }

  /** The instance while the tokens in `first` have been released and the iterations in
      `gone` cancelled: the coordinator's loop entry goes last. */
  function Midway(s: Instance, first: set<TokenId>, gone: set<TokenId>): Instance {
    Sweep(s, first + gone, gone).(multi := s.multi - gone)
  }

  lemma MidwayFlat(g: Graph, s: Instance, first: set<TokenId>, gone: set<TokenId>)
    requires Flat(g, s)
    ensures Flat(g, Midway(s, first, gone))
  {
    FlatShrinks(g, s, Midway(s, first, gone));
  }

  /** Cancelling and removing one more iteration. */
  lemma IterationSwept(g: Graph, s: Instance, id: TokenId, first: set<TokenId>, gone: set<TokenId>, ch: TokenId)
    requires Flat(g, s) && id in s.tokens && id in s.multi && id !in gone && ch in s.tokens && ch !in gone && s.tokens[ch].parent == id
    ensures ch in Midway(s, first, gone).tokens && id !in Iteration(g, s, ch)
    ensures forall c :: c in Iteration(g, s, ch) && s.tokens[c].parent == id ==> c == ch
    ensures DeleteToken(CancelActivity(g, Midway(s, first, gone), ch), ch) == Midway(s, first, gone + Iteration(g, s, ch))
  {
    assert FlatToken(g, s, id) && FlatToken(g, s, ch);
    forall c | c in Iteration(g, s, ch) && s.tokens[c].parent == id ensures c == ch {
      assert FlatToken(g, s, c);
    }
    var s1 := Midway(s, first, gone);
    var x := Sweep(s, first + gone, gone);
    var a := ActivitySet(g, s1, ch);
    assert ch !in s1.multi;
    assert a + gone + {ch} == Iteration(g, s, ch) + gone;
    SweepDelete(s1, {ch} + a, a, ch);
    assert a + {ch} == {ch} + a;
    SweepAside(x, s.multi - gone, {ch} + a, {ch} + a);
    SweepTwice(s, first + gone, gone, {ch} + a, {ch} + a);
    var it := Iteration(g, s, ch);
    assert first + gone + ({ch} + a) == first + (gone + it);
    assert gone + ({ch} + a) == gone + it;
    assert s.multi - gone - ({ch} + a) == s.multi - (gone + it);
  }

  /** Cancelling and removing one more token of a scope. */
  lemma TokenSwept(g: Graph, s: Instance, gone: set<TokenId>, id: TokenId)
    requires id in s.tokens && id !in gone
    ensures var s1 := Sweep(s, gone, gone); var looped := LoopSet(g, s1, id);
      DeleteToken(CancelWaits(g, s1, id), id) == Sweep(s, gone + {id} + looped, gone + {id} + looped)
  {
    var s1 := Sweep(s, gone, gone);
    var looped := LoopSet(g, s1, id);
    SweepDelete(s1, {id} + looped, looped, id);
    assert looped + {id} == {id} + looped;
    SweepTwice(s, gone, gone, {id} + looped, {id} + looped);
    assert gone + ({id} + looped) == gone + {id} + looped;
  }

  /** A cancelled activity's loop and scope, one after the other. */
  lemma ActivityPieces(g: Graph, s: Instance, id: TokenId)
    requires id in s.tokens && StandsOnSub(g, s.tokens[id])
    ensures var t := s.tokens[id];
      KillScope(CancelWaits(g, s, id), t.path + [t.element], t.owners + [id], 0) == CancelActivity(g, s, id)
  {
    var t := s.tokens[id];
    var looped := LoopSet(g, s, id);
    var scope := ScopeSet(s, t.path + [t.element], t.owners + [id], 0);
    var rest := ScopeSet(CancelWaits(g, s, id), t.path + [t.element], t.owners + [id], 0);
    assert rest == scope - looped;
    SweepTwice(s, {id} + looped, looped, rest, rest);
    assert {id} + looped + rest == {id} + (looped + scope) && looped + rest == looped + scope;
  }

  /** Releasing one token, field by field. */
  lemma SweptOne(s: Instance, s': Instance, id: TokenId)
    requires id in s.tokens && s'.waits.Keys == s.waits.Keys
    requires forall w :: w in s.waits ==>
      s'.waits[w] == if Awaits(s.tokens[id], s.waits[w].kind, w) then s.waits[w].(open := false) else s.waits[w]
    requires forall e :: e in s'.events <==> e in s.events && s.events[e].token != id && !AwaitsEvent(s.tokens[id], e)
    requires forall e :: e in s'.events ==> s'.events[e] == s.events[e]
    requires s'.cancelled == s.cancelled + ChildrenOf(s, {id})
    requires s'.tokens == s.tokens && s'.multi == s.multi && s'.status == s.status && s'.suspended == s.suspended
    requires s'.incidents == s.incidents && s'.nextId == s.nextId
    ensures s' == Sweep(s, {id}, {}).(multi := s.multi)
  {
    assert s'.waits == Sweep(s, {id}, {}).waits;
    assert s'.events == Sweep(s, {id}, {}).events;
    assert s.tokens - {} == s.tokens;
  }

  lemma MidwayStart(s: Instance, first: set<TokenId>)
    ensures Midway(s, first, {}) == Sweep(s, first, {}).(multi := s.multi)
  {
    assert first + {} == first && s.multi - {} == s.multi;
  }

  lemma MidwayNothing(s: Instance)
    ensures Midway(s, {}, {}) == s
  {
    MidwayStart(s, {});
    SweepNothing(s);
  }

  /** cancelWaits in its two halves. */
  lemma LoopReleased(g: Graph, s: Instance, id: TokenId)
    ensures id in s.multi ==>
      var s1 := Midway(s, {id}, LoopSet(g, s, id)); s1.(multi := s1.multi - {id}) == CancelWaits(g, s, id)
    ensures id !in s.multi ==> Sweep(s, {id}, {}).(multi := s.multi) == CancelWaits(g, s, id)
  {
    var looped := LoopSet(g, s, id);
    assert s.multi - looped - {id} == s.multi - ({id} + looped);
    if id !in s.multi {
      assert {id} + looped == {id} && s.multi - {id} == s.multi;
    }
  }

  /** Everything the loop over a scope needs to know about its next token. */
  lemma ScopeStep(g: Graph, s: Instance, path: Path, owners: seq<TokenId>, exclude: ElementId, gone: set<TokenId>, id: TokenId)
    requires Flat(g, s) && |path| == |owners| && id in s.tokens && id !in gone && Doomed(s.tokens[id], path, owners, exclude)
    requires exclude != 0 ==> HasElement(g, path, exclude) && IsEventSub(g[path].elements[exclude])
    ensures var s1 := Sweep(s, gone, gone); var looped := LoopSet(g, s1, id);
      && Flat(g, s1) && looped <= ScopeSet(s, path, owners, exclude)
      && DeleteToken(CancelWaits(g, s1, id), id) == Sweep(s, gone + {id} + looped, gone + {id} + looped)
  {
    var s1 := Sweep(s, gone, gone);
    SweepFlat(g, s, gone, gone);
    assert id in ScopeSet(s1, path, owners, exclude);
    ScopePiece(g, s1, path, owners, exclude, id);
    TokenSwept(g, s, gone, id);
  }
}
