/** Startup repair: whatever a crash left of the side records, no token keeps waiting on
    something that will never happen. */
module Reconcile {
  import opened StoreState
  import opened Bpmn
  import opened Instances
  import opened Engine
  import opened ScopeTree
  import opened Moves
  import opened Sweeps
  import Cancellation
  import Completion
  import Triggers
  import Runtime
  import Routing
  import Outcomes
  import OutsideEffects

  /** Call-activity child instances by ID, and whether each is still active. */
  type ChildStates = map<nat, bool>

  /** Incident IDs and job IDs are told apart by their prefix. */
  predicate NamesJob(s: Instance, t: Token) {
    t.ref.RecordRef? && t.ref.id !in s.incidents
  }

  /** The token waits on a missing or ended child, a finished user task, or a lost job. */
  predicate Broken(s: Instance, children: ChildStates, t: Token) {
    match t.state
    case WaitChild => t.ref.RecordRef? && !(t.ref.id in children && children[t.ref.id])
    case WaitTask => t.ref.RecordRef? && t.ref.id in s.waits && s.waits[t.ref.id].kind.TaskWait? && !s.waits[t.ref.id].open
    case WaitTimer => NamesJob(s, t) && t.ref.id !in s.events
    case WaitRetry => NamesJob(s, t) && t.ref.id !in s.events
    case _ => false
  }

  /** What reconcile does with one token. */
  function Repaired(g: Graph, s: Instance, children: ChildStates, id: TokenId, o: Oracle): Instance
    requires id in s.tokens
  {
    var t := s.tokens[id];
    if !Broken(s, children, t) then s
    else match t.state
      case WaitChild => if t.ref.id in children then CompleteActivity(g, s, id, o) else RaiseIncident(s, id)
      case WaitTask => RaiseIncident(s, id)
      case _ => SetToken(s, id, t.(state := Active, ref := NoRef))
  }

  // ---- what any crash leaves in place --------------------------------------------------------

  /** Owners still there stand on the scope path around the token. */
  ghost predicate Kin(s: Instance, path: Path, owners: seq<TokenId>) {
    |path| == |owners| && forall i {:trigger owners[i]} :: 0 <= i < |owners| ==>
      owners[i] < s.nextId && (owners[i] in s.tokens ==> s.tokens[owners[i]].path == path[..i])
  }

  /** A record a token refers to names that token, and its IDs are all given out. */
  ghost predicate OwnedBy(s: Instance, u: TokenId)
    requires u in s.tokens
  {
    && (forall e :: e in s.events && AwaitsEvent(s.tokens[u], e) ==> s.events[e].token == u)
    && (forall w :: w in s.waits && Awaits(s.tokens[u], s.waits[w].kind, w) ==> s.waits[w].token == u)
    && (s.tokens[u].ref.RecordRef? ==> s.tokens[u].ref.id < s.nextId)
    && s.tokens[u].parent < s.nextId && u < s.nextId
    && Kin(s, s.tokens[u].path, s.tokens[u].owners)
    && (s.tokens[u].state.Active? || s.tokens[u].state.Joining? ==> s.tokens[u].ref.NoRef?)
  }

  /** Tokens stand well, IDs are numbered, and records name the tokens that refer to them.
      Whether the records are there, open or closed is left to the crash. */
  ghost predicate Tidy(g: Graph, s: Instance) {
    && Flat(g, s) && Fresh(s) && s.status.Running?
    && (forall u {:trigger OwnedBy(s, u)} :: u in s.tokens ==> OwnedBy(s, u))
    && (forall i :: i in s.incidents ==> i < s.nextId) && (forall m :: m in s.multi ==> m < s.nextId)
  }

  /** The token waits on nothing, or on a loop, or on a record that exists. */
  ghost predicate Sound(s: Instance, u: TokenId)
    requires u in s.tokens
  {
    var t := s.tokens[u];
    t.state.Active? || t.state.WaitMulti? || (t.state.WaitRetry? && t.ref.RecordRef? && (t.ref.id in s.incidents || t.ref.id in s.events))
  }

  /** The step leaves the tokens outside `touched` and their records alone, unless it removes
      them, and leaves those in `touched` and new ones sound. */
  ghost predicate Calm(s: Instance, s': Instance, touched: set<TokenId>) {
    && s.nextId <= s'.nextId
    && (forall u {:trigger Sound(s', u)} :: u in s'.tokens ==>
          if u in s.tokens && u !in touched then s'.tokens[u] == s.tokens[u] else (u in touched || s.nextId <= u) && Sound(s', u))
    && (forall i :: i in s.incidents ==> i in s'.incidents)
    && (forall i :: i in s'.incidents && i !in s.incidents ==> s.nextId <= i)
    && (forall e :: e in s.events && Spared(s, s', touched, s.events[e].token) ==> e in s'.events && s'.events[e] == s.events[e])
    && s'.waits.Keys == s.waits.Keys
    && (forall w :: w in s.waits ==>
          s'.waits[w].kind == s.waits[w].kind && s'.waits[w].token == s.waits[w].token
          && (Spared(s, s', touched, s.waits[w].token) ==> s'.waits[w] == s.waits[w]))
  }

  predicate Spared(s: Instance, s': Instance, touched: set<TokenId>, u: TokenId) {
    u in s.tokens && u in s'.tokens && u !in touched
  }

  /** A calm step that leaves everything tidy. */
  ghost predicate Heals(g: Graph, s: Instance, s': Instance, touched: set<TokenId>) {
    Calm(s, s', touched) && Tidy(g, s')
  }

  /** A token that was not broken stays so through a calm step, and the others become sound. */
  lemma CalmKeepsHealth(g: Graph, s: Instance, s': Instance, children: ChildStates, touched: set<TokenId>, u: TokenId)
    requires Tidy(g, s) && Calm(s, s', touched) && u in s'.tokens
    requires u in s.tokens && u !in touched ==> !Broken(s, children, s.tokens[u])
    ensures !Broken(s', children, s'.tokens[u])
  {
    if u in s.tokens && u !in touched {
      assert Sound(s', u) || s'.tokens[u] == s.tokens[u];
      assert OwnedBy(s, u) && Spared(s, s', touched, u);
      var t := s.tokens[u];
      if t.state.WaitTask? && t.ref.RecordRef? && t.ref.id in s.waits && s.waits[t.ref.id].kind.TaskWait? {
        assert Awaits(t, s.waits[t.ref.id].kind, t.ref.id);
      }
      if (t.state.WaitTimer? || t.state.WaitRetry?) && NamesJob(s, t) {
        assert AwaitsEvent(t, t.ref.id);
      }
    } else {
      assert Sound(s', u);
    }
  }

  lemma HealsTransitive(g: Graph, s: Instance, s1: Instance, s2: Instance, a: set<TokenId>, b: set<TokenId>)
    requires Tidy(g, s) && Heals(g, s, s1, a) && Heals(g, s1, s2, b)
    ensures Heals(g, s, s2, a + b)
  {
    forall u | u in s2.tokens
      ensures if u in s.tokens && u !in a + b then s2.tokens[u] == s.tokens[u] else (u in a + b || s.nextId <= u) && Sound(s2, u)
    {
      assert u in s.tokens ==> OwnedBy(s, u);
      assert Sound(s2, u) || s2.tokens[u] == s1.tokens[u];
      if u in s1.tokens && u !in b {
        assert OwnedBy(s1, u) && Spared(s1, s2, b, u);
        assert Sound(s1, u) || s1.tokens[u] == s.tokens[u];
        if s1.tokens[u].state.WaitRetry? {
          assert s1.tokens[u].ref.RecordRef? && s1.tokens[u].ref.id in s1.events ==> AwaitsEvent(s1.tokens[u], s1.tokens[u].ref.id);
        }
      }
    }
    forall u | Spared(s, s2, a + b, u) ensures Spared(s, s1, a, u) && Spared(s1, s2, b, u) {
      assert OwnedBy(s, u);
      assert Sound(s2, u) || u in s1.tokens;
    }
  }

  /** Touching only new tokens is touching none of the old ones. */
  lemma Narrowed(g: Graph, s: Instance, s': Instance, touched: set<TokenId>)
    requires Tidy(g, s) && Heals(g, s, s', touched) && forall u :: u in touched ==> s.nextId <= u
    ensures Heals(g, s, s', {})
  {
    forall u | u in s'.tokens ensures if u in s.tokens then s'.tokens[u] == s.tokens[u] else s.nextId <= u && Sound(s', u) {
      assert u in s.tokens ==> OwnedBy(s, u);
      assert Sound(s', u) || s'.tokens[u] == s.tokens[u];
    }
    forall u | Spared(s, s', {}, u) ensures Spared(s, s', touched, u) {
      assert OwnedBy(s, u);
    }
  }

  // ---- the steps repair is made of -------------------------------------------------------------

  lemma IncidentHeals(g: Graph, s: Instance, x: TokenId)
    requires Tidy(g, s) && x in s.tokens
    ensures Heals(g, s, RaiseIncident(s, x), {x})
  {
    var s' := RaiseIncident(s, x);
    FlatShrinks(g, s, s');
    forall u | u in s'.tokens ensures OwnedBy(s', u) {
      assert OwnedBy(s, u);
    }
  }

  lemma ReactivateHeals(g: Graph, s: Instance, x: TokenId)
    requires Tidy(g, s) && x in s.tokens
    ensures Heals(g, s, SetToken(s, x, s.tokens[x].(state := Active, ref := NoRef)), {x})
  {
    var s' := SetToken(s, x, s.tokens[x].(state := Active, ref := NoRef));
    FlatShrinks(g, s, s');
    forall u | u in s'.tokens ensures OwnedBy(s', u) {
      assert OwnedBy(s, u);
    }
  }

  /** The token stands on an element it may stand on, its coordinator (if any) beside it. */
  ghost predicate GoodPlace(g: Graph, s: Instance, t: Token, element: ElementId) {
    && Kin(s, t.path, t.owners) && HasElement(g, t.path, element) && !IsEventSub(g[t.path].elements[element])
    && (t.parent != 0 && t.parent in s.tokens ==> SameScope(s.tokens[t.parent], t))
  }

  lemma NewTokenHeals(g: Graph, s: Instance, t: Token)
    requires Tidy(g, s) && GoodPlace(g, s, t, t.element) && t.state.Active? && t.ref.NoRef? && t.parent < s.nextId
    ensures var s' := s.(tokens := s.tokens[s.nextId := t], nextId := s.nextId + 1); Heals(g, s, s', {}) && s.nextId !in s.tokens
  {
    var s' := s.(tokens := s.tokens[s.nextId := t], nextId := s.nextId + 1);
    assert s.nextId in s.tokens ==> !OwnedBy(s, s.nextId);
    forall u | u in s'.tokens ensures OwnedBy(s', u) {
      assert u in s.tokens ==> OwnedBy(s, u);
    }
    forall u | u in s'.tokens ensures FlatToken(g, s', u) {
      assert u in s.tokens ==> FlatToken(g, s, u) && OwnedBy(s, u);
    }
  }

  lemma ParkHeals(g: Graph, s: Instance, x: TokenId)
    requires Tidy(g, s) && x in s.tokens
    ensures Heals(g, s, ParkOnJob(s, x), {x})
  {
    var s' := ParkOnJob(s, x);
    FlatShrinks(g, s, s');
    forall u | u in s'.tokens ensures OwnedBy(s', u) {
      assert OwnedBy(s, u);
    }
    assert forall e :: e in s.events ==> e in s'.events && s'.events[e] == s.events[e];
  }

  /** A sibling before it is possibly parked. */
  function SiblingBorn(g: Graph, s: Instance, t: Token, f: ElementId): Instance {
    s.(tokens := s.tokens[s.nextId := Token(TargetOf(g, t.path, f), Active, t.path, t.owners, f, NoRef, t.parent, t.miChild, t.loop)],
       nextId := s.nextId + 1)
  }

  lemma OneSiblingIs(g: Graph, s: Instance, t: Token, f: ElementId)
    ensures s.nextId in SiblingBorn(g, s, t, f).tokens
    ensures OneSibling(g, s, t, f) == SiblingBorn(g, s, t, f)
            || OneSibling(g, s, t, f) == ParkOnJob(SiblingBorn(g, s, t, f), s.nextId)
  {
    var s0 := Spawn(s, TargetOf(g, t.path, f), t.path, t.owners, t.parent, t.miChild, t.loop);
    var s1 := SetToken(s0, s.nextId, s0.tokens[s.nextId].(flow := f));
    assert s1.tokens == SiblingBorn(g, s, t, f).tokens;
    assert s1 == SiblingBorn(g, s, t, f);
  }

  lemma OneSiblingHeals(g: Graph, s: Instance, t: Token, f: ElementId)
    requires Tidy(g, s) && GoodPlace(g, s, t, TargetOf(g, t.path, f)) && t.parent < s.nextId
    ensures Heals(g, s, OneSibling(g, s, t, f), {})
    ensures forall u :: u in s.tokens ==> u in OneSibling(g, s, t, f).tokens && OneSibling(g, s, t, f).tokens[u] == s.tokens[u]
  {
    BornHeals(g, s, t, f);
    OneSiblingIs(g, s, t, f);
    hide Heals, Tidy, GoodPlace, OneSibling;
    BornParks(g, s, SiblingBorn(g, s, t, f));
  }

  lemma BornHeals(g: Graph, s: Instance, t: Token, f: ElementId)
    requires Tidy(g, s) && GoodPlace(g, s, t, TargetOf(g, t.path, f)) && t.parent < s.nextId
    ensures Heals(g, s, SiblingBorn(g, s, t, f), {}) && s.nextId !in s.tokens
  {
    hide Heals, Tidy;
    NewTokenHeals(g, s, SiblingBorn(g, s, t, f).tokens[s.nextId]);
  }

  lemma BornParks(g: Graph, s: Instance, s1: Instance)
    requires Tidy(g, s) && Heals(g, s, s1, {}) && s.nextId in s1.tokens
    ensures Heals(g, s, ParkOnJob(s1, s.nextId), {})
  {
    ParkHeals(g, s1, s.nextId);
    HealsTransitive(g, s, s1, ParkOnJob(s1, s.nextId), {}, {s.nextId});
    Narrowed(g, s, ParkOnJob(s1, s.nextId), {} + {s.nextId});
  }

  lemma {:induction false} SiblingsHeal(g: Graph, s: Instance, t: Token, flows: seq<ElementId>)
    requires ValidGraph(g) && Tidy(g, s) && GoodFlows(g, t.path, flows) && Kin(s, t.path, t.owners) && t.parent < s.nextId
    requires t.parent != 0 && t.parent in s.tokens ==> SameScope(s.tokens[t.parent], t)
    ensures Heals(g, s, SpawnSiblings(g, s, t, flows), {})
    ensures forall u :: u in s.tokens ==> u in SpawnSiblings(g, s, t, flows).tokens && SpawnSiblings(g, s, t, flows).tokens[u] == s.tokens[u]
    decreases flows
  {
    var none: set<TokenId> := {};
    if flows != [] {
      var s1 := OneSibling(g, s, t, flows[0]);
      GoodTarget(g, t.path, flows[0]);
      OneSiblingHeals(g, s, t, flows[0]);
      NoLateParent(g, s, s1, t);
      SiblingsHeal(g, s1, t, flows[1..]);
      HealsTransitive(g, s, s1, SpawnSiblings(g, s1, t, flows[1..]), {}, {});
      assert none + none == none;
    }
  }

  /** New tokens are nobody's owner or coordinator. */
  lemma NoLateParent(g: Graph, s: Instance, s1: Instance, t: Token)
    requires Heals(g, s, s1, {}) && t.parent < s.nextId && Kin(s, t.path, t.owners)
    requires t.parent != 0 && t.parent in s.tokens ==> SameScope(s.tokens[t.parent], t)
    ensures t.parent != 0 && t.parent in s1.tokens ==> SameScope(s1.tokens[t.parent], t)
    ensures Kin(s1, t.path, t.owners)
  {
    if t.parent in s1.tokens {
      assert Sound(s1, t.parent) || s1.tokens[t.parent] == s.tokens[t.parent];
    }
    forall i | 0 <= i < |t.owners| && t.owners[i] in s1.tokens ensures s1.tokens[t.owners[i]].path == t.path[..i] {
      assert Sound(s1, t.owners[i]) || s1.tokens[t.owners[i]] == s.tokens[t.owners[i]];
    }
  }

  lemma MoveHeals(g: Graph, s: Instance, x: TokenId, flows: seq<ElementId>)
    requires ValidGraph(g) && Tidy(g, s) && x in s.tokens && flows != [] && GoodFlows(g, s.tokens[x].path, flows)
    ensures Heals(g, s, MoveOver(g, s, x, flows), {x})
  {
    var t := s.tokens[x];
    assert FlatToken(g, s, x) && OwnedBy(s, x);
    SiblingsHeal(g, s, t, flows[1..]);
    GoodTarget(g, t.path, flows[0]);
    var s1 := SpawnSiblings(g, s, t, flows[1..]);
    var s2 := SetToken(s1, x, Moved(t, g, flows[0]));
    PlaceHeals(g, s1, x, flows[0]);
    HealsTransitive(g, s, s1, s2, {}, {x});
    ParkHeals(g, s2, x);
    HealsTransitive(g, s, s2, ParkOnJob(s2, x), {} + {x}, {x});
    assert {} + {x} == {x} && {x} + {x} == {x};
  }

  lemma PlaceHeals(g: Graph, s: Instance, x: TokenId, f: ElementId)
    requires Tidy(g, s) && x in s.tokens && HasElement(g, s.tokens[x].path, TargetOf(g, s.tokens[x].path, f))
    requires !IsEventSub(g[s.tokens[x].path].elements[TargetOf(g, s.tokens[x].path, f)])
    ensures Heals(g, s, SetToken(s, x, Moved(s.tokens[x], g, f)), {x})
  {
    var s' := SetToken(s, x, Moved(s.tokens[x], g, f));
    forall u | u in s'.tokens ensures OwnedBy(s', u) {
      assert OwnedBy(s, u);
    }
    forall u | u in s'.tokens ensures FlatToken(g, s', u) {
      assert FlatToken(g, s, u);
    }
  }

  lemma OutgoingHeals(g: Graph, s: Instance, x: TokenId, o: Oracle)
    requires ValidGraph(g) && Tidy(g, s) && x in s.tokens
    ensures Heals(g, s, TakeOutgoing(g, s, x, o), {x})
  {
    assert FlatToken(g, s, x);
    var c := g[s.tokens[x].path];
    var el := c.elements[s.tokens[x].element];
    SelectedExist(c, el.outgoing, el.defaultFlow, o);
    IncidentHeals(g, s, x);
    var chosen := SelectFlows(c, el.outgoing, el.defaultFlow, o);
    if chosen.Some? && WithDefault(c, el, chosen.value) != [] {
      MoveHeals(g, s, x, WithDefault(c, el, chosen.value));
    }
  }

  /** Dropping a token's registrations changes nothing for the others. */
  lemma DropThenHeals(g: Graph, s: Instance, s2: Instance, x: TokenId)
    requires Tidy(g, s) && x in s.tokens && Heals(g, DropEvents(s, x), s2, {x})
    ensures Heals(g, s, s2, {x})
  {
    var s1 := DropEvents(s, x);
    forall u | u in s2.tokens
      ensures if u in s.tokens && u !in {x} then s2.tokens[u] == s.tokens[u] else (u in {x} || s.nextId <= u) && Sound(s2, u)
    {
      assert Sound(s2, u) || s2.tokens[u] == s1.tokens[u];
    }
    forall u | Spared(s, s2, {x}, u) ensures Spared(s1, s2, {x}, u) { }
  }

  lemma DropTidy(g: Graph, s: Instance, x: TokenId)
    requires Tidy(g, s)
    ensures Tidy(g, DropEvents(s, x))
  {
    FlatShrinks(g, s, DropEvents(s, x));
    forall u | u in s.tokens ensures OwnedBy(DropEvents(s, x), u) {
      assert OwnedBy(s, u);
    }
  }

  lemma PlainHeals(g: Graph, s: Instance, x: TokenId, o: Oracle)
    requires ValidGraph(g) && Tidy(g, s) && x in s.tokens
    requires !(s.tokens[x].parent != 0 && s.tokens[x].parent in s.multi && IsMIChild(s.tokens[x]))
    ensures Heals(g, s, CompleteActivity(g, s, x, o), {x})
  {
    assert FlatToken(g, s, x);
    DropTidy(g, s, x);
    OutgoingHeals(g, DropEvents(s, x), x, o);
    DropThenHeals(g, s, TakeOutgoing(g, DropEvents(s, x), x, o), x);
  }

  // ---- iterations ------------------------------------------------------------------------------

  /** Removing the completed iteration and counting it. */
  lemma CountHeals(g: Graph, s: Instance, x: TokenId, ms: MultiState)
    requires Tidy(g, s) && x in s.tokens && s.tokens[x].parent in s.multi
    ensures var s1 := DeleteToken(s, x); Heals(g, s, s1, {}) && Heals(g, s, s1.(multi := s1.multi[s.tokens[x].parent := ms]), {})
  {
    hide Heals, Tidy;
    var s1 := DeleteToken(s, x);
    DeleteHeals(g, s, x, s.multi);
    DeleteHeals(g, s, x, s.multi[s.tokens[x].parent := ms]);
    assert s1.(multi := s.multi) == s1;
  }

  lemma DeleteHeals(g: Graph, s: Instance, x: TokenId, loops: map<TokenId, MultiState>)
    requires Tidy(g, s) && loops.Keys <= s.multi.Keys
    ensures Heals(g, s, DeleteToken(s, x).(multi := loops), {})
  {
    var s' := DeleteToken(s, x).(multi := loops);
    FlatShrinks(g, s, s');
    forall u | u in s'.tokens ensures OwnedBy(s', u) {
      assert OwnedBy(s, u);
    }
  }

  /** The loop is over: its iterations are gone with what they waited for. */
  lemma LoopOverHeals(g: Graph, s: Instance, m: TokenId)
    requires Tidy(g, s) && m in s.tokens && m in s.multi
    ensures Heals(g, s, Completion.LoopOver(g, s, m), {m})
  {
    LoopOverTidy(g, s, m);
    LoopOverCalm(g, s, m);
  }

  lemma LoopOverTidy(g: Graph, s: Instance, m: TokenId)
    requires Tidy(g, s) && m in s.tokens && m in s.multi
    ensures Tidy(g, Completion.LoopOver(g, s, m))
  {
    hide Stragglers, Sweep, Tidy;
    var kill := Stragglers(g, s, m) - {m};
    LoopsWithin(g, s, m);
    var s1 := Sweep(s, kill, kill);
    SweptTidy(g, s, kill, kill);
    SweptStays(s, kill, m);
    FewerLoopsTidy(g, s1, s1.multi - {m});
    ReactivateHeals(g, s1.(multi := s1.multi - {m}), m);
    HealedTidy(g, s1.(multi := s1.multi - {m}), Completion.LoopOver(g, s, m), {m});
  }

  lemma LoopsWithin(g: Graph, s: Instance, m: TokenId)
    ensures Stragglers(g, s, m) <= s.tokens.Keys
  {
  }

  lemma SweptStays(s: Instance, kill: set<TokenId>, m: TokenId)
    requires m in s.tokens && m !in kill
    ensures m in Sweep(s, kill, kill).tokens
  {
  }

  lemma SweptTidy(g: Graph, s: Instance, close: set<TokenId>, kill: set<TokenId>)
    requires Tidy(g, s) && kill <= close <= s.tokens.Keys
    ensures Tidy(g, Sweep(s, close, kill))
  {
    var s' := Sweep(s, close, kill);
    FlatShrinks(g, s, s');
    forall u | u in s'.tokens ensures OwnedBy(s', u) {
      assert OwnedBy(s, u);
    }
  }

  lemma FewerLoopsTidy(g: Graph, s: Instance, loops: map<TokenId, MultiState>)
    requires Tidy(g, s) && loops.Keys <= s.multi.Keys
    ensures Tidy(g, s.(multi := loops))
  {
    FlatShrinks(g, s, s.(multi := loops));
    forall u | u in s.tokens ensures OwnedBy(s.(multi := loops), u) {
      assert OwnedBy(s, u);
    }
  }

  lemma LoopOverCalm(g: Graph, s: Instance, m: TokenId)
    requires Tidy(g, s) && m in s.tokens && m in s.multi
    ensures Calm(s, Completion.LoopOver(g, s, m), {m})
  {
    var kill := Stragglers(g, s, m) - {m};
    assert kill <= s.tokens.Keys;
    hide Stragglers, LoopSet;
    OthersSpared(g, s, kill);
    var s' := Completion.LoopOver(g, s, m);
    forall u | u in s'.tokens
      ensures if u in s.tokens && u !in {m} then s'.tokens[u] == s.tokens[u] else (u in {m} || s.nextId <= u) && Sound(s', u)
    {
    }
  }

  /** Releasing tokens touches no record of another token. */
  lemma OthersSpared(g: Graph, s: Instance, kill: set<TokenId>)
    requires Tidy(g, s) && kill <= s.tokens.Keys
    ensures forall e :: e in s.events && s.events[e].token !in kill ==> e in Sweep(s, kill, kill).events
    ensures forall w :: w in s.waits && s.waits[w].token !in kill ==> Sweep(s, kill, kill).waits[w] == s.waits[w]
  {
    forall e | e in s.events && s.events[e].token !in kill ensures e in Sweep(s, kill, kill).events {
      forall k | k in kill ensures !AwaitsEvent(s.tokens[k], e) {
        assert OwnedBy(s, k);
      }
    }
    forall w | w in s.waits && s.waits[w].token !in kill ensures Sweep(s, kill, kill).waits[w] == s.waits[w] {
      forall k | k in kill ensures !Awaits(s.tokens[k], s.waits[w].kind, w) {
        assert OwnedBy(s, k);
      }
    }
  }

  lemma FinishHeals(g: Graph, s: Instance, m: TokenId, o: Oracle)
    requires ValidGraph(g) && Tidy(g, s) && m in s.tokens && m in s.multi
    ensures Heals(g, s, FinishMulti(g, s, m, o), {m})
  {
    var s1 := Completion.LoopOver(g, s, m);
    LoopOverHeals(g, s, m);
    Completion.FinishMultiIs(g, s, m, o);
    assert FlatToken(g, s, m);
    if o.outputsOk(m) {
      DropTidy(g, s1, m);
      var s2 := DropEvents(s1, m);
      PlainHeals(g, s2, m, o);
      DropThenHeals(g, s1, CompleteActivity(g, s2, m, o), m);
    } else {
      IncidentHeals(g, s1, m);
    }
    HealsTransitive(g, s, s1, FinishMulti(g, s, m, o), {m}, {m});
    assert {m} + {m} == {m};
  }

  lemma RebookHeals(g: Graph, s: Instance, m: TokenId, ms: MultiState)
    requires Tidy(g, s) && m in s.tokens && m in s.multi
    ensures Heals(g, s, s.(multi := s.multi[m := ms]), {}) && Tidy(g, s.(multi := s.multi[m := ms]))
  {
    var s1 := s.(multi := s.multi[m := ms]);
    FlatShrinks(g, s, s1);
    forall u | u in s1.tokens ensures OwnedBy(s1, u) {
      assert OwnedBy(s, u);
    }
  }

  lemma NextHeals(g: Graph, s: Instance, m: TokenId, ms: MultiState, index: nat)
    requires Tidy(g, s) && m in s.tokens && m in s.multi
    ensures Heals(g, s, SpawnIteration(g, s.(multi := s.multi[m := ms]), m, index), {})
  {
    hide Heals, Sound;
    var s1 := s.(multi := s.multi[m := ms]);
    assert FlatToken(g, s, m) && OwnedBy(s, m);
    RebookHeals(g, s, m, ms);
    var c := s.tokens[m];
    var none: set<TokenId> := {};
    NewTokenHeals(g, s1, Token(c.element, Active, c.path, c.owners, 0, NoRef, m, c.element, index));
    HealsTransitive(g, s, s1, SpawnIteration(g, s1, m, index), none, none);
    assert none + none == none;
  }

  lemma CoordinatorHeals(g: Graph, s: Instance, m: TokenId, spec: MultiSpec, o: Oracle)
    requires ValidGraph(g) && Tidy(g, s) && m in s.tokens && m in s.multi
    ensures Heals(g, s, AfterCount(g, s, m, spec, o), {m}) || Heals(g, s, AfterCount(g, s, m, spec, o), {})
  {
    var ms := s.multi[m];
    if spec.hasCondition && o.done.Fails? {
      IncidentHeals(g, s, m);
    } else if Completion.LoopEnds(ms, spec, o) {
      FinishHeals(g, s, m, o);
    } else if spec.sequential && ms.nextIndex < ms.total {
      NextHeals(g, s, m, ms.(nextIndex := ms.nextIndex + 1), ms.nextIndex);
    } else {
      forall u | u in s.tokens ensures OwnedBy(s, u) { }
    }
  }

  predicate CompletesIteration(s: Instance, t: Token) {
    t.parent != 0 && t.parent in s.multi && IsMIChild(t)
  }

  lemma IterationIs(g: Graph, s: Instance, x: TokenId, o: Oracle)
    requires Tidy(g, s) && x in s.tokens && CompletesIteration(s, s.tokens[x])
    ensures var p := s.tokens[x].parent; var s1 := DeleteToken(s, x); var spec := SpecOf(g, s.tokens[x]);
      CompleteActivity(g, s, x, o) ==
        if p !in s1.tokens || spec.None? then s1
        else if spec.value.hasOutput && !o.outputOk then RaiseIncident(s1, p)
        else AfterCount(g, Completion.Counted(g, s, x, spec.value.hasOutput), p, spec.value, o)
  {
    assert FlatToken(g, s, x);
  }

  lemma IterationHeals(g: Graph, s: Instance, x: TokenId, o: Oracle) returns (touched: set<TokenId>)
    requires ValidGraph(g) && Tidy(g, s) && x in s.tokens && CompletesIteration(s, s.tokens[x])
    ensures Heals(g, s, CompleteActivity(g, s, x, o), touched) && touched <= s.tokens.Keys
    ensures x !in CompleteActivity(g, s, x, o).tokens
  {
    hide Heals, CompleteActivity, AfterCount, Tidy;
    var p := s.tokens[x].parent;
    var s1 := DeleteToken(s, x);
    var spec := SpecOf(g, s.tokens[x]);
    IterationIs(g, s, x, o);
    CountHeals(g, s, x, s.multi[p]);
    touched := {};
    if p in s1.tokens && spec.Some? {
      if spec.value.hasOutput && !o.outputOk {
        HealedTidy(g, s, s1, {});
        IncidentHeals(g, s1, p);
        HealsTransitive(g, s, s1, RaiseIncident(s1, p), {}, {p});
        touched := {} + {p};
      } else {
        touched := CountedHeals(g, s, x, p, spec.value, o);
      }
    }
  }

  lemma HealedTidy(g: Graph, s: Instance, s': Instance, touched: set<TokenId>)
    requires Heals(g, s, s', touched)
    ensures Tidy(g, s') && s.nextId <= s'.nextId
  {
  }

  /** What the coordinator makes of a counted iteration. */
  lemma CountedHeals(g: Graph, s: Instance, x: TokenId, p: TokenId, spec: MultiSpec, o: Oracle) returns (touched: set<TokenId>)
    requires ValidGraph(g) && Tidy(g, s) && x in s.tokens && p == s.tokens[x].parent && p in s.multi && p in s.tokens && p != x
    ensures p in Completion.Counted(g, s, x, spec.hasOutput).tokens
    ensures var s' := AfterCount(g, Completion.Counted(g, s, x, spec.hasOutput), p, spec, o);
      Heals(g, s, s', touched) && touched <= s.tokens.Keys && x !in s'.tokens
  {
    hide Heals, AfterCount, Tidy;
    var s2 := Completion.Counted(g, s, x, spec.hasOutput);
    var s' := AfterCount(g, s2, p, spec, o);
    CountHeals(g, s, x, s2.multi[p]);
    HealedTidy(g, s, s2, {});
    CoordinatorHeals(g, s2, p, spec, o);
    if Heals(g, s2, s', {p}) {
      HealsTransitive(g, s, s2, s', {}, {p});
      touched := {} + {p};
    } else {
      HealsTransitive(g, s, s2, s', {}, {});
      touched := {} + {};
    }
    FreshToken(g, s, x);
    GoneStaysGone(g, s2, s', x, p);
  }

  lemma FreshToken(g: Graph, s: Instance, x: TokenId)
    requires Tidy(g, s) && x in s.tokens
    ensures x < s.nextId
  {
    assert OwnedBy(s, x);
  }

  lemma GoneStaysGone(g: Graph, s: Instance, s': Instance, x: TokenId, p: TokenId)
    requires x !in s.tokens && x < s.nextId && p != x && (Heals(g, s, s', {p}) || Heals(g, s, s', {}))
    ensures x !in s'.tokens
  {
    forall u | u in s'.tokens ensures u in s.tokens || u == p || s.nextId <= u {
      assert Sound(s', u) || u in s.tokens || u == p || s.nextId <= u;
    }
  }

  /** One repair: the token itself is broken no more, and no other token becomes so. */
  lemma RepairHeals(g: Graph, s: Instance, children: ChildStates, id: TokenId, o: Oracle) returns (touched: set<TokenId>)
    requires ValidGraph(g) && Tidy(g, s) && id in s.tokens && Broken(s, children, s.tokens[id])
    ensures Heals(g, s, Repaired(g, s, children, id, o), touched)
    ensures id in Repaired(g, s, children, id, o).tokens ==> id in touched
  {
    var t := s.tokens[id];
    touched := {id};
    if t.state.WaitChild? && t.ref.id in children {
      if CompletesIteration(s, t) {
        touched := IterationHeals(g, s, id, o);
      } else {
        PlainHeals(g, s, id, o);
      }
    } else if t.state.WaitChild? || t.state.WaitTask? {
      IncidentHeals(g, s, id);
    } else {
      ReactivateHeals(g, s, id);
    }
  }

  /** A broken token was advanced, re-armed, or given an open incident it waits on. */
  ghost predicate Mended(s: Instance, s': Instance, id: TokenId) {
    id in s'.tokens ==> s'.tokens[id].state.Active? || s'.tokens[id].state.WaitMulti?
                        || (s'.tokens[id].state.WaitRetry? && s'.tokens[id].ref.RecordRef?
                            && (s'.tokens[id].ref.id in s'.incidents || s'.tokens[id].ref.id in s'.events))
  }

  lemma RepairMends(g: Graph, s: Instance, children: ChildStates, id: TokenId, o: Oracle)
    requires ValidGraph(g) && Tidy(g, s) && id in s.tokens && Broken(s, children, s.tokens[id])
    ensures Mended(s, Repaired(g, s, children, id, o), id)
  {
    var touched := RepairHeals(g, s, children, id, o);
    assert id in Repaired(g, s, children, id, o).tokens ==> Sound(Repaired(g, s, children, id, o), id);
  }

  // ---- what each repair does ---------------------------------------------------------------------

  /** The token waits for a child instance that does not exist. */
  predicate ChildMissing(children: ChildStates, t: Token) {
    t.state.WaitChild? && t.ref.RecordRef? && t.ref.id !in children
  }

  /** The token waits for a child instance that has ended. */
  predicate ChildOver(children: ChildStates, t: Token) {
    t.state.WaitChild? && t.ref.RecordRef? && t.ref.id in children && !children[t.ref.id]
  }

  /** The token waits on a user task that is closed. */
  predicate TaskOver(s: Instance, t: Token) {
    t.state.WaitTask? && t.ref.RecordRef? && t.ref.id in s.waits && s.waits[t.ref.id].kind.TaskWait? && !s.waits[t.ref.id].open
  }

  /** The token waits for a job that is gone, and for no incident. */
  predicate JobLost(s: Instance, t: Token) {
    (t.state.WaitTimer? || t.state.WaitRetry?) && t.ref.RecordRef? && t.ref.id !in s.incidents && t.ref.id !in s.events
  }

  /** A token waiting on a missing child or a closed task is parked on a new incident. One whose
      child has ended completes its activity: an iteration goes, any other token leaves. One
      whose job is lost goes on where it stands. Any other token is left as it is. */
  lemma RepairDoes(g: Graph, s: Instance, children: ChildStates, id: TokenId, el: Element, o: Oracle)
    requires ValidGraph(g) && Tidy(g, s) && Outcomes.On(g, s, id, el)
    ensures var t := s.tokens[id]; var s' := Repaired(g, s, children, id, o);
      if ChildMissing(children, t) || TaskOver(s, t) then Routing.OnIncident(s, s', id)
      else if ChildOver(children, t) then
        if CompletesIteration(s, t) then id !in s'.tokens else Outcomes.Departed(g, s, s', id, el, o)
      else if JobLost(s, t) then OutsideEffects.Resumes(s, s', id)
      else s' == s
  {
    var t := s.tokens[id];
    TidyCounted(g, s);
    hide Tidy, ValidGraph, CompleteActivity, Outcomes.Departed;
    if ChildOver(children, t) {
      if CompletesIteration(s, t) {
        var touched := IterationHeals(g, s, id, o);
      } else {
        Outcomes.DepartedIs(g, s, id, el, o);
      }
    }
  }

  lemma TidyCounted(g: Graph, s: Instance)
    requires Tidy(g, s)
    ensures Routing.Counted(s)
  {
    forall u | u in s.tokens ensures u < s.nextId {
      assert OwnedBy(s, u);
    }
  }

  /** In an instance in order the ended child's iteration is counted like any other. */
  lemma RepairCompletes(g: Graph, s: Instance, children: ChildStates, id: TokenId, el: Element, o: Oracle)
    requires ValidGraph(g) && Inv(g, s) && s.status.Running? && Outcomes.On(g, s, id, el) && ChildOver(children, s.tokens[id])
    ensures Outcomes.Completes(g, s, Repaired(g, s, children, id, o), id, el, o)
  {
    LeafReady(g, s, id);
    hide Inv, ValidGraph, Ready, Outcomes.Completes, CompleteActivity;
    Outcomes.CompletesIs(g, s, id, el, o);
  }

  /** A repair keeps an instance in order that is in order already. */
  lemma RepairKeepsInv(g: Graph, s: Instance, children: ChildStates, id: TokenId, o: Oracle)
    requires ValidGraph(g) && Inv(g, s) && s.status.Running? && id in s.tokens && Completion.LoopAnswers(o)
    ensures Inv(g, Repaired(g, s, children, id, o))
  {
    hide CompleteActivity, RaiseIncident, NoStuck, Linked, Routed, Persists, Numbers;
    var t := s.tokens[id];
    if Broken(s, children, t) {
      if t.state.WaitTask? {
        ClosedTaskBreaks(g, s, id);
      } else if t.state.WaitChild? {
        LeafReady(g, s, id);
        RaiseIncidentKeeps(g, s, id);
        Completion.CompleteActivityKeeps(g, s, id, o);
      } else {
        Triggers.ReactivatedKeeps(g, s, id);
      }
    }
  }

  /** In an instance in order no waiting user task is closed. */
  lemma ClosedTaskBreaks(g: Graph, s: Instance, id: TokenId)
    requires Inv(g, s) && s.status.Running? && id in s.tokens && s.tokens[id].state.WaitTask?
    ensures s.tokens[id].ref.RecordRef? && s.tokens[id].ref.id in s.waits && s.waits[s.tokens[id].ref.id].open
  {
    Cancellation.NoZero(g, s);
    assert Held(s, id);
  }

  /** reconcile's pass over one instance: in whatever order its tokens come up, afterwards
      none of them waits on a missing or ended child, a finished user task or a lost job. */
  method RepairPass(run: Runtime.Run, children: ChildStates, answers: TokenId -> Oracle) returns (changed: bool)
    requires ValidGraph(run.g) && Tidy(run.g, run.View())
    modifies run
    ensures Tidy(run.g, run.View())
    ensures forall u :: u in run.tokens ==> !Broken(run.View(), children, run.tokens[u])
    ensures old(run.nextId) <= run.nextId && (!changed ==> run.View() == old(run.View()))
    ensures Inv(run.g, old(run.View())) && (forall u :: Completion.LoopAnswers(answers(u))) ==> Inv(run.g, run.View())
  {
    hide Inv, Flat, Fresh, OwnedBy, Broken;
    changed := false;
    var todo := run.tokens.Keys;
    while todo != {}
      invariant Tidy(run.g, run.View())
      invariant forall u :: u in run.tokens && u !in todo ==> !Broken(run.View(), children, run.tokens[u])
      invariant old(run.nextId) <= run.nextId && (!changed ==> run.View() == old(run.View()))
      invariant Inv(run.g, old(run.View())) && (forall u :: Completion.LoopAnswers(answers(u))) ==> Inv(run.g, run.View())
      decreases todo
    {
      var id :| id in todo;
      todo := todo - {id};
      if id in run.tokens {
        ghost var s := run.View();
        PassKeeps(run.g, s, children, id, answers(id), todo);
        if Inv(run.g, s) && Completion.LoopAnswers(answers(id)) {
          RepairKeepsInv(run.g, s, children, id, answers(id));
        }
        var repaired := RepairToken(run, children, id, answers(id));
        changed := changed || repaired;
      }
    }
  }

  lemma PassKeeps(g: Graph, s: Instance, children: ChildStates, id: TokenId, o: Oracle, todo: set<TokenId>)
    requires ValidGraph(g) && Tidy(g, s) && id in s.tokens
    requires forall u :: u in s.tokens && u !in todo && u != id ==> !Broken(s, children, s.tokens[u])
    ensures var s' := Repaired(g, s, children, id, o);
      Tidy(g, s') && s.nextId <= s'.nextId && forall u :: u in s'.tokens && u !in todo ==> !Broken(s', children, s'.tokens[u])
  {
    var s' := Repaired(g, s, children, id, o);
    if Broken(s, children, s.tokens[id]) {
      var touched := RepairHeals(g, s, children, id, o);
      forall u | u in s'.tokens && u !in todo ensures !Broken(s', children, s'.tokens[u]) {
        CalmKeepsHealth(g, s, s', children, touched, u);
      }
    }
  }

  method RepairToken(run: Runtime.Run, children: ChildStates, id: TokenId, o: Oracle) returns (changed: bool)
    requires id in run.tokens && Tidy(run.g, run.View())
    modifies run
    ensures run.View() == Repaired(run.g, old(run.View()), children, id, o)
    ensures changed == Broken(old(run.View()), children, old(run.tokens)[id])
  {
    var t := run.tokens[id];
    changed := false;
    assert forall u :: u in run.tokens ==> OwnedBy(run.View(), u);
    match t.state {
      case WaitChild =>
        if t.ref.RecordRef? {
          if t.ref.id !in children {
            run.RaiseIncident(id);
            changed := true;
          } else if !children[t.ref.id] {
            run.CompleteActivity(id, o);
            changed := true;
          }
        }
      case WaitTask =>
        if t.ref.RecordRef? && t.ref.id in run.waits && run.waits[t.ref.id].kind.TaskWait? && !run.waits[t.ref.id].open {
          run.RaiseIncident(id);
          changed := true;
        }
      case WaitTimer | WaitRetry =>
        if t.ref.RecordRef? && t.ref.id !in run.incidents && t.ref.id !in run.events {
          run.tokens := run.tokens[id := t.(state := Active, ref := NoRef)];
          changed := true;
        }
      case _ =>
    }
  }
}
