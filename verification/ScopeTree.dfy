/** The ownership tree the engine relies on but never checks, and what it means for an
    instance not to be stuck. */
module ScopeTree {
  import opened StoreState
  import opened Bpmn
  import opened Instances

  // ---- the tree -------------------------------------------------------------------------

  ghost predicate EventLevel(g: Graph, path: Path, i: nat)
    requires i < |path|
  {
    HasElement(g, path[..i], path[i]) && IsEventSub(g[path[..i]].elements[path[i]])
  }

  predicate ScopeWait(t: Token) {
    t.state.WaitChild? && t.ref.ScopeRef?
  }

  /** `o` is the live token waiting on level `i` of a scope chain. */
  ghost predicate IsOwner(s: Instance, o: TokenId, path: Path, owners: seq<TokenId>, i: nat)
    requires i < |path| && i < |owners|
  {
    && o in s.tokens
    && s.tokens[o].element == path[i]
    && s.tokens[o].path == path[..i] && s.tokens[o].owners == owners[..i]
    && ScopeWait(s.tokens[o])
  }

  ghost predicate LevelOk(g: Graph, s: Instance, path: Path, owners: seq<TokenId>, i: nat)
    requires i < |path| && i < |owners|
  {
    if owners[i] == 0 then EventLevel(g, path, i)
    else !EventLevel(g, path, i) && IsOwner(s, owners[i], path, owners, i)
  }

  /** Path and owners run in parallel: event sub-process levels have no owner, every
      other level is held by the token waiting there. */
  ghost predicate ChainOk(g: Graph, s: Instance, path: Path, owners: seq<TokenId>) {
    && |path| == |owners| && path in g
    && forall i {:trigger LevelOk(g, s, path, owners, i)} :: 0 <= i < |path| ==> LevelOk(g, s, path, owners, i)
  }

  /** A loop iteration stands beside its live coordinator; other tokens carry no loop flag. */
  ghost predicate LoopOk(s: Instance, t: Token) {
    if t.parent == 0 then t.miChild == 0
    else
      && t.parent in s.multi && t.parent in s.tokens
      && s.tokens[t.parent].element == t.element == t.miChild
      && SameScope(s.tokens[t.parent], t)
      && s.tokens[t.parent].state.WaitMulti?
  }

  ghost predicate TokenOk(g: Graph, s: Instance, u: TokenId)
    requires u in s.tokens
  {
    var t := s.tokens[u];
    && 0 < u < s.nextId
    && (t.ref.RecordRef? ==> t.ref.id < s.nextId)
    && ChainOk(g, s, t.path, t.owners)
    && HasElement(g, t.path, t.element) && !IsEventSub(g[t.path].elements[t.element])
    && LoopOk(s, t)
    && (t.state.WaitMulti? ==> u in s.multi && t.parent == 0 && g[t.path].elements[t.element].multi.Some?)
    && (ScopeWait(t) ==> StandsOnSub(g, t))
    && (t.state.WaitEvents? ==> t.parent == 0)
  }

  ghost predicate Fresh(s: Instance) {
    && s.nextId > 0
    && (forall w :: w in s.waits ==> 0 < w < s.nextId && s.waits[w].token < s.nextId)
    && (forall e :: e in s.events ==> 0 < e < s.nextId && s.events[e].token < s.nextId)
  }

  /** The scope tree. */
  ghost predicate Core(g: Graph, s: Instance) {
    && (forall u {:trigger TokenOk(g, s, u)} :: u in s.tokens ==> TokenOk(g, s, u))
    && (forall m :: m in s.multi ==> m in s.tokens && s.tokens[m].state.WaitMulti?)
    && Fresh(s)
  }

  // ---- liveness of scopes and loops ---------------------------------------------------------

  predicate Inside(t: Token, owner: Token, o: TokenId) {
    InScope(t, owner.path + [owner.element], owner.owners + [o])
  }

  ghost predicate Occupied(s: Instance, o: TokenId)
    requires o in s.tokens
  {
    exists u :: u in s.tokens && Inside(s.tokens[u], s.tokens[o], o)
  }

  function Children(s: Instance, m: TokenId): set<TokenId> {
    set u | u in s.tokens && s.tokens[u].parent == m
  }

  function SpecOf(g: Graph, t: Token): Option<MultiSpec> {
    var el := ElementOf(g, t);
    if el.Some? then el.value.multi else None
  }

  /** Loop bookkeeping: iterations still live make up exactly what is not completed, and
      no index is live twice. */
  ghost predicate Accounted(g: Graph, s: Instance, m: TokenId)
    requires m in s.multi && m in s.tokens
  {
    var ms := s.multi[m];
    var spec := SpecOf(g, s.tokens[m]);
    && spec.Some?
    && ms.completed < ms.total
    && ms.outputs == (if spec.value.hasOutput then ms.completed else 0)
    && if spec.value.sequential then
         && ms.nextIndex == ms.completed + 1
         && exists c :: Children(s, m) == {c} && s.tokens[c].loop == ms.completed
       else
         && ms.nextIndex == ms.total
         && |Children(s, m)| == ms.total - ms.completed
         && (forall c :: c in Children(s, m) ==> s.tokens[c].loop < ms.total)
         && (forall c, d :: c in Children(s, m) && d in Children(s, m) && s.tokens[c].loop == s.tokens[d].loop ==> c == d)
  }

  /** No scope or loop waits for nothing, apart from a scope owner `hole` about to be
      resumed (Some(0): the instance about to complete) and a loop `mhole` being left. */
  ghost predicate NoStuck(g: Graph, s: Instance, hole: Option<TokenId>, mhole: TokenId)
    requires forall m :: m in s.multi ==> m in s.tokens
  {
    && (forall o {:trigger Occupied(s, o)} :: o in s.tokens && ScopeWait(s.tokens[o]) && hole != Some(o) ==> Occupied(s, o))
    && (forall m {:trigger Accounted(g, s, m)} :: m in s.multi && m != mhole ==> Accounted(g, s, m))
    && (s.status.Running? ==> s.tokens != map[] || hole == Some(0))
  }

  // ---- wait records ---------------------------------------------------------------------------

  predicate Waiting(t: Token) {
    t.state.WaitTask? || t.state.WaitExternal? || t.state.WaitAgent?
  }

  function KindFor(t: Token): WaitKind {
    if t.state.WaitTask? then TaskWait else if t.state.WaitExternal? then ExternalWait else AgentWait
  }

  ghost predicate Held(s: Instance, u: TokenId)
    requires u in s.tokens
  {
    Waiting(s.tokens[u]) ==>
      && s.tokens[u].ref.RecordRef? && s.tokens[u].ref.id in s.waits
      && s.waits[s.tokens[u].ref.id] == WaitRecord(KindFor(s.tokens[u]), u, true)
  }

  ghost predicate Backed(s: Instance, w: nat, x: TokenId)
    requires w in s.waits
  {
    s.waits[w].open ==>
      && (x != 0 ==> s.waits[w].token != x) && s.waits[w].token in s.tokens
      && Awaits(s.tokens[s.waits[w].token], s.waits[w].kind, w)
  }

  /** The record the token still names is closed. */
  ghost predicate Settled(s: Instance, x: TokenId) {
    x in s.tokens && Waiting(s.tokens[x]) ==>
      s.tokens[x].ref.RecordRef? && (s.tokens[x].ref.id in s.waits ==> !s.waits[s.tokens[x].ref.id].open)
  }

  /** Open records and waiting tokens correspond one to one. Token `x` (0: none) is
      exempt: its record is closed and it is about to move. */
  ghost predicate Linked(s: Instance, x: TokenId) {
    && (x != 0 ==> Settled(s, x))
    && (forall u {:trigger Held(s, u)} :: u in s.tokens && u != x ==> Held(s, u))
    && (forall w {:trigger Backed(s, w, x)} :: w in s.waits ==> Backed(s, w, x))
  }

  // ---- where a trigger may land -----------------------------------------------------------

  /** Container `p` holds the record's element and the record's token, if it is live, is
      one the trigger can use. */
  ghost predicate RoutesTo(g: Graph, s: Instance, r: EventRecord, p: Path) {
    && HasElement(g, p, r.element)
    && var el := g[p].elements[r.element];
       if el.etype.StartEvent? then
         && p != [] && EventLevel(g, p, |p| - 1)
         && (if r.token == 0 then |p| == 1
             else r.token in s.tokens ==>
               ScopeWait(s.tokens[r.token]) && s.tokens[r.token].path + [s.tokens[r.token].element] == p[..|p| - 1])
       else
         && el.etype in {BoundaryEvent, IntermediateCatch, ReceiveTask}
         && (r.token in s.tokens ==>
               s.tokens[r.token].path == p && (el.etype.BoundaryEvent? ==> s.tokens[r.token].parent == 0))
  }

  /** A job or subscription of a live token names an element its trigger can use: a
      boundary for tokens that are not loop iterations, the start of an event sub-process
      of the scope the token waits on, or an element of the token's own container. */
  ghost predicate RecordOk(g: Graph, s: Instance, r: EventRecord) {
    r.kind.WorkJob? || exists p: Path :: RoutesTo(g, s, r, p)
  }

  ghost predicate Routed(g: Graph, s: Instance) {
    forall e {:trigger RecordOk(g, s, s.events[e])} :: e in s.events ==> RecordOk(g, s, s.events[e])
  }

  /** An ended instance keeps no tokens, open waits, jobs or subscriptions. */
  ghost predicate Ended(s: Instance) {
    && Fresh(s) && s.tokens == map[] && s.events == map[]
    && forall w :: w in s.waits ==> !s.waits[w].open
  }

  /** What holds between any two steps of any run. */
  ghost predicate Inv(g: Graph, s: Instance) {
    if s.status.Running? then Core(g, s) && NoStuck(g, s, None, 0) && Linked(s, 0) && Routed(g, s)
    else Ended(s)
  }

  /** Tokens never change scope, coordinator or loop number, wait records only close, and new
      tokens and records get fresh IDs. */
  ghost predicate Persists(s: Instance, s': Instance) {
    && s.nextId <= s'.nextId
    && (forall u :: u in s'.tokens && u < s.nextId ==> u in s.tokens && Steady(s.tokens[u], s'.tokens[u]))
    && (forall w :: w in s.waits ==> w in s'.waits && (s'.waits[w] == s.waits[w] || s'.waits[w] == s.waits[w].(open := false)))
    && (forall w :: w in s'.waits && w !in s.waits ==> s.nextId <= w)
  }

  predicate SamePlace(t: Token, t': Token) {
    t'.path == t.path && t'.parent == t.parent
  }

  predicate Steady(t: Token, t': Token) {
    SamePlace(t, t') && (t.parent != 0 ==> t'.loop == t.loop)
  }

  /** The numbering of a running loop only goes up, and a new iteration takes a number not
      given out before. */
  ghost predicate Numbers(s: Instance, s': Instance) {
    && (forall m :: m in s.multi && m in s'.multi ==> s.multi[m].nextIndex <= s'.multi[m].nextIndex)
    && (forall u :: u in s'.tokens && u !in s.tokens ==> NewNumber(s, s', s'.tokens[u]))
  }

  predicate NewNumber(s: Instance, s': Instance, t: Token) {
    t.parent != 0 && t.parent in s.multi && t.parent in s'.multi ==> s.multi[t.parent].nextIndex <= t.loop
  }

  /** Besides, no loop opens. */
  ghost predicate Advances(s: Instance, s': Instance) {
    Persists(s, s') && Numbers(s, s') && s'.multi.Keys <= s.multi.Keys
  }

  /** What every operation delivers. */
  ghost predicate Keeps(g: Graph, s: Instance, s': Instance) {
    Inv(g, s') && Advances(s, s')
  }

  /** What an operation delivers that may open a loop. */
  ghost predicate Continues(g: Graph, s: Instance, s': Instance) {
    Inv(g, s') && Persists(s, s') && Numbers(s, s')
  }

  // ---- one mutation at a time ---------------------------------------------------------------

  /** From `s` to `s'`: tokens in `kill` go, token `x` may change or go, fresh tokens may
      appear, and every other token stays as it is. */
  ghost predicate Delta(s: Instance, s': Instance, kill: set<TokenId>, x: TokenId) {
    && kill <= s.tokens.Keys && s.nextId <= s'.nextId
    && (forall u :: u in s.tokens && u !in kill && u != x ==> u in s'.tokens && s'.tokens[u] == s.tokens[u])
    && (forall u :: u in kill ==> u !in s'.tokens)
    && (forall u :: u in s'.tokens && u !in s.tokens ==> s.nextId <= u)
  }

  /** No survivor hangs from a killed token or from `x`. */
  ghost predicate Vacated(s: Instance, kill: set<TokenId>, x: TokenId) {
    forall u {:trigger FreeOf(s.tokens[u], kill, x)} :: u in s.tokens && u !in kill ==> FreeOf(s.tokens[u], kill, x)
  }

  ghost predicate FreeOf(t: Token, kill: set<TokenId>, x: TokenId) {
    && (t.parent != 0 ==> t.parent !in kill && t.parent != x)
    && OwnersFree(t.owners, kill, x)
  }

  ghost predicate OwnersFree(owners: seq<TokenId>, kill: set<TokenId>, x: TokenId) {
    forall i :: 0 <= i < |owners| && owners[i] != 0 ==> owners[i] !in kill && owners[i] != x
  }

  /** Loop entries follow their tokens. */
  ghost predicate MultiFollows(s: Instance, s': Instance, kill: set<TokenId>, x: TokenId) {
    && (forall m :: m in s'.multi ==> m in s'.tokens && s'.tokens[m].state.WaitMulti?)
    && (forall m :: m in s.multi && m !in kill && m != x ==> m in s'.multi)
  }

  lemma ChainSurvives(g: Graph, s: Instance, s': Instance, kill: set<TokenId>, x: TokenId, path: Path, owners: seq<TokenId>)
    requires ChainOk(g, s, path, owners) && Delta(s, s', kill, x) && OwnersFree(owners, kill, x)
    ensures ChainOk(g, s', path, owners)
  {
    forall i | 0 <= i < |path| ensures LevelOk(g, s', path, owners, i) {
      assert LevelOk(g, s, path, owners, i);
    }
  }

  lemma CoreUpdate(g: Graph, s: Instance, s': Instance, kill: set<TokenId>, x: TokenId)
    requires Core(g, s) && Delta(s, s', kill, x) && Vacated(s, kill, x) && MultiFollows(s, s', kill, x)
    requires forall u :: u in s'.tokens && (u == x || u !in s.tokens) ==> TokenOk(g, s', u)
    requires Fresh(s')
    ensures Core(g, s')
  {
    forall u | u in s'.tokens ensures TokenOk(g, s', u) {
      if u != x && u in s.tokens {
        var t := s.tokens[u];
        assert u !in kill && TokenOk(g, s, u) && FreeOf(t, kill, x);
        ChainSurvives(g, s, s', kill, x, t.path, t.owners);
        if t.parent != 0 {
          assert s'.tokens[t.parent] == s.tokens[t.parent];
        }
      }
    }
  }

  /** Tokens not waiting on a scope or loop hold nothing up. */
  lemma LeafVacated(g: Graph, s: Instance, x: TokenId)
    requires Core(g, s)
    requires x in s.tokens ==> !ScopeWait(s.tokens[x]) && !s.tokens[x].state.WaitMulti?
    requires x == 0 ==> 0 !in s.tokens
    ensures Vacated(s, {}, x)
  {
    forall u | u in s.tokens ensures FreeOf(s.tokens[u], {}, x) {
      var t := s.tokens[u];
      assert TokenOk(g, s, u);
      forall i | 0 <= i < |t.owners| && t.owners[i] != 0 ensures t.owners[i] != x {
        assert LevelOk(g, s, t.path, t.owners, i);
      }
    }
  }

  /** A scope owner with nothing inside holds nothing up. */
  lemma EmptyOwnerVacated(g: Graph, s: Instance, x: TokenId)
    requires Core(g, s) && x in s.tokens && ScopeWait(s.tokens[x]) && !Occupied(s, x)
    ensures Vacated(s, {}, x)
  {
    forall u | u in s.tokens ensures FreeOf(s.tokens[u], {}, x) {
      var t := s.tokens[u];
      assert TokenOk(g, s, u);
      forall i | 0 <= i < |t.owners| && t.owners[i] != 0 ensures t.owners[i] != x {
        OwnerContains(g, s, t, i);
      }
    }
  }

  /** A token is inside the scope of each of its owners. */
  lemma OwnerContains(g: Graph, s: Instance, t: Token, i: nat)
    requires ChainOk(g, s, t.path, t.owners) && i < |t.owners| && t.owners[i] != 0
    ensures t.owners[i] in s.tokens && Inside(t, s.tokens[t.owners[i]], t.owners[i])
  {
    assert LevelOk(g, s, t.path, t.owners, i);
    assert t.path[..i] + [t.path[i]] == t.path[..i + 1] <= t.path;
    assert t.owners[..i] + [t.owners[i]] == t.owners[..i + 1] <= t.owners;
  }

  // ---- framing ----------------------------------------------------------------------------------

  /** Every token stays in its scope; only `x` may change otherwise. */
  ghost predicate InPlace(s: Instance, s': Instance, x: TokenId) {
    forall u :: u in s.tokens ==>
      && u in s'.tokens && SameScope(s'.tokens[u], s.tokens[u]) && s'.tokens[u].parent == s.tokens[u].parent
      && (s.tokens[u].parent != 0 ==> s'.tokens[u].loop == s.tokens[u].loop)
      && (u != x ==> s'.tokens[u] == s.tokens[u])
  }

  lemma OccupiedStays(s: Instance, s': Instance, x: TokenId, o: TokenId)
    requires InPlace(s, s', x) && o in s.tokens && o != x && Occupied(s, o)
    ensures Occupied(s', o)
  {
    var u :| u in s.tokens && Inside(s.tokens[u], s.tokens[o], o);
    assert Inside(s'.tokens[u], s'.tokens[o], o);
  }

  ghost predicate Newcomer(s: Instance, s': Instance, u: TokenId) {
    u in s'.tokens && u !in s.tokens
  }

  lemma AccountedStays(g: Graph, s: Instance, s': Instance, x: TokenId, m: TokenId)
    requires InPlace(s, s', x) && m in s.tokens && m in s.multi && m in s'.multi && s'.multi[m] == s.multi[m]
    requires m != x && m != 0 && Accounted(g, s, m)
    requires forall u :: Newcomer(s, s', u) ==> s'.tokens[u].parent != m
    ensures Accounted(g, s', m)
  {
    forall u ensures u in Children(s', m) <==> u in Children(s, m) {
      assert u in s.tokens || !(u in s'.tokens) || Newcomer(s, s', u);
    }
    assert Children(s', m) == Children(s, m);
    assert SpecOf(g, s'.tokens[m]) == SpecOf(g, s.tokens[m]);
  }

  /** Changing one token in place and adding tokens leaves nothing stuck, but for the
      scope owner and loop named. */
  lemma NoStuckStays(g: Graph, s: Instance, s': Instance, x: TokenId,
                     hole: Option<TokenId>, mhole: TokenId, hole': Option<TokenId>, mhole': TokenId)
    requires Core(g, s) && NoStuck(g, s, hole, mhole) && InPlace(s, s', x) && s'.status == s.status
    requires hole == hole' || hole.None? || (hole.value == x && x in s.tokens && !ScopeWait(s'.tokens[x]))
    requires x in s.tokens && ScopeWait(s'.tokens[x]) ==> hole' == Some(x) || s'.tokens[x] == s.tokens[x]
    requires forall u :: Newcomer(s, s', u) ==> !ScopeWait(s'.tokens[u])
    requires forall m :: m in s'.multi ==> m in s'.tokens && (m != mhole' ==>
      m in s.multi && s'.multi[m] == s.multi[m] && m != mhole && m != x
      && forall u :: Newcomer(s, s', u) ==> s'.tokens[u].parent != m)
    requires hole == hole' || (exists u :: u in s.tokens)
    ensures NoStuck(g, s', hole', mhole')
  {
    forall o | o in s'.tokens && ScopeWait(s'.tokens[o]) && hole' != Some(o) ensures Occupied(s', o) {
      assert !Newcomer(s, s', o) && Occupied(s, o);
      if o == x {
        var u :| u in s.tokens && Inside(s.tokens[u], s.tokens[o], o);
        assert Inside(s'.tokens[u], s'.tokens[o], o);
      } else {
        OccupiedStays(s, s', x, o);
      }
    }
    forall m | m in s'.multi && m != mhole' ensures Accounted(g, s', m) {
      assert TokenOk(g, s, m) && Accounted(g, s, m);
      AccountedStays(g, s, s', x, m);
    }
  }

  /** Wait records and waiting tokens still correspond when `x` moves on or goes, tokens
      that do not wait come and go, and no record changes. */
  lemma LinkedStays(s: Instance, s': Instance, x: TokenId)
    requires 0 !in s.tokens && Linked(s, x) && s'.waits == s.waits && (x != 0 && x in s'.tokens ==> !Waiting(s'.tokens[x]))
    requires forall u :: u in s'.tokens && u != x ==> if u in s.tokens then s'.tokens[u] == s.tokens[u] else !Waiting(s'.tokens[u])
    requires forall u :: u in s.tokens && u != x && Waiting(s.tokens[u]) ==> u in s'.tokens
    ensures Linked(s', 0)
  {
    forall u | u in s'.tokens && u != 0 ensures Held(s', u) {
      if u != x && u in s.tokens {
        assert Held(s, u);
      }
    }
    forall w | w in s'.waits ensures Backed(s', w, 0) {
      assert Backed(s, w, x);
    }
  }

  lemma LinkedWithout(s: Instance, x: TokenId)
    requires 0 !in s.tokens && Linked(s, 0) && x in s.tokens && !Waiting(s.tokens[x])
    ensures Linked(s, x)
  {
    forall u | u in s.tokens && u != x ensures Held(s, u) { }
    forall w | w in s.waits ensures Backed(s, w, x) {
      assert Backed(s, w, 0);
    }
  }

  /** Jobs and subscriptions of tokens that stay in their scope keep their targets. */
  lemma RoutedStays(g: Graph, s: Instance, s': Instance, x: TokenId)
    requires Routed(g, s) && Fresh(s)
    requires forall e :: e in s'.events ==> (e in s.events && s'.events[e] == s.events[e]) || RecordOk(g, s', s'.events[e])
    requires forall u :: u in s'.tokens && u < s.nextId ==>
      u in s.tokens && SamePlace(s.tokens[u], s'.tokens[u]) && (u != x ==> s'.tokens[u] == s.tokens[u])
    requires x in s.tokens && ScopeWait(s.tokens[x]) ==>
      (x in s'.tokens ==> s'.tokens[x] == s.tokens[x])
      || forall e :: e in s'.events && e in s.events && s'.events[e] == s.events[e] ==> s'.events[e].token != x
    ensures Routed(g, s')
  {
    forall e | e in s'.events ensures RecordOk(g, s', s'.events[e]) {
      var r := s'.events[e];
      if e in s.events && s.events[e] == r && !r.kind.WorkJob? {
        assert RecordOk(g, s, s.events[e]);
        var p :| RoutesTo(g, s, r, p);
        assert r.token in s'.tokens ==> r.token in s.tokens;
        assert RoutesTo(g, s', r, p);
      }
    }
  }
}
