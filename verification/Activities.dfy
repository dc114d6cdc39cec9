/** Starting activities: loops, embedded sub-processes, and work that may fail. */
module Activities {
  import opened StoreState
  import opened Bpmn
  import opened Instances
  import opened Engine
  import opened ScopeTree
  import opened Moves
  import opened Cancellation
  import opened Completion
  import opened Errors

  // ---- loops ------------------------------------------------------------------------------

  /** The coordinator with its fresh loop entry, before any iteration. */
  function Opened(s: Instance, x: TokenId, n: nat, first: nat): Instance
    requires x in s.tokens
  {
    SetToken(s.(multi := s.multi[x := MultiState(n, 0, first, 0)]), x, s.tokens[x].(state := WaitMulti, ref := NoRef))
  }

  lemma OpenedTree(g: Graph, s: Instance, x: TokenId, n: nat, first: nat)
    requires Core(g, s) && x in s.tokens && x !in s.multi && Vacated(s, {}, x) && s.tokens[x].parent == 0
    requires SpecOf(g, s.tokens[x]).Some?
    ensures Core(g, Opened(s, x, n, first))
  {
    var s' := Opened(s, x, n, first);
    assert TokenOk(g, s, x) && FreeOf(s.tokens[x], {}, x);
    ChainSurvives(g, s, s', {}, x, s.tokens[x].path, s.tokens[x].owners);
    CoreUpdate(g, s, s', {}, x);
  }

  lemma OpenedNoStuck(g: Graph, s: Instance, x: TokenId, n: nat, first: nat)
    requires Core(g, s) && NoStuck(g, s, Some(x), 0) && x in s.tokens && x !in s.multi && Vacated(s, {}, x)
    ensures forall m :: m in Opened(s, x, n, first).multi ==> m in Opened(s, x, n, first).tokens
    ensures NoStuck(g, Opened(s, x, n, first), None, x)
    ensures Children(Opened(s, x, n, first), x) == {}
  {
    var s' := Opened(s, x, n, first);
    forall m | m in s'.multi ensures m in s'.tokens && m != 0 {
      assert m in s.tokens && TokenOk(g, s, m);
    }
    NoStuckStays(g, s, s', x, Some(x), 0, None, x);
    NoZero(g, s);
    forall u | u in s'.tokens ensures s'.tokens[u].parent != x {
      assert FreeOf(s.tokens[u], {}, x);
    }
  }

  /** Registering waits without parking changes nothing but the jobs and subscriptions. */
  lemma LoopRegisters(g: Graph, s: Instance, s': Instance, x: TokenId)
    requires Looping(g, s, x) && x in s.tokens && s.tokens[x].parent == 0
    requires OnlyParks(s, s', x) && s'.tokens == s.tokens && NewRecords(g, s, s', x, s.tokens[x].path)
    ensures Looping(g, s', x) && Advances(s, s')
    ensures Children(s', x) == Children(s, x)
  {
    assert TokenOk(g, s, x);
    SameTree(g, s, s');
    NoZero(g, s);
    NoStuckStays(g, s, s', 0, None, x, None, x);
    LinkedStays(s, s', 0);
    forall e | e in s'.events && !(e in s.events && s'.events[e] == s.events[e]) ensures RecordOk(g, s', s'.events[e]) {
      assert RoutesTo(g, s', s'.events[e], s.tokens[x].path);
    }
    RoutedStays(g, s, s', 0);
  }

  lemma SameTree(g: Graph, s: Instance, s': Instance)
    requires Core(g, s) && s'.tokens == s.tokens && s'.multi == s.multi && s.nextId <= s'.nextId && Fresh(s')
    ensures Core(g, s')
  {
    forall u | u in s'.tokens ensures TokenOk(g, s', u) {
      assert TokenOk(g, s, u);
      SpawnChain(g, s, s', s.tokens[u].path, s.tokens[u].owners);
    }
  }

  lemma LoopOpens(g: Graph, s: Instance, x: TokenId, n: nat, first: nat, o: Oracle)
    requires Ready(g, s, x) && s.tokens[x].parent == 0 && SpecOf(g, s.tokens[x]).Some? && TimersSchedule(g, s.tokens[x], o)
    ensures var s1 := Opened(s, x, n, first);
      x in s1.tokens && Looping(g, RegisterBoundaries(g, s1, x, o), x) && Persists(s, RegisterBoundaries(g, s1, x, o))
      && Children(RegisterBoundaries(g, s1, x, o), x) == {} && RegisterBoundaries(g, s1, x, o).multi == s1.multi
      && RegisterBoundaries(g, s1, x, o).tokens == s1.tokens
  {
    var s1 := Opened(s, x, n, first);
    NoZero(g, s);
    assert TokenOk(g, s, x);
    OpenedTree(g, s, x, n, first);
    OpenedNoStuck(g, s, x, n, first);
    LinkedStays(s, s1, x);
    RoutedStays(g, s, s1, x);
    RegisterBoundariesRecords(g, s1, x, o);
    QuietRegisters(g, s1, x, g[s.tokens[x].path], Boundaries(g[s.tokens[x].path], s.tokens[x].element), o.timerOk);
    LoopRegisters(g, s1, RegisterBoundaries(g, s1, x, o), x);
    PersistsTransitive(s, s1, RegisterBoundaries(g, s1, x, o));
  }

  lemma StartMultiIs(g: Graph, s: Instance, x: TokenId, spec: MultiSpec, o: Oracle)
    requires x in s.tokens && o.items.Some? && o.items.value != 0
    ensures var n := o.items.value; var first := if spec.sequential then 1 else n;
      x in Opened(s, x, n, first).tokens && x in RegisterBoundaries(g, Opened(s, x, n, first), x, o).tokens
      && StartMulti(g, s, x, spec, o)
         == SpawnIterations(g, RegisterBoundaries(g, Opened(s, x, n, first), x, o), x, 0, first)
  {
    var n := o.items.value;
    RegisterBoundariesParks(g, Opened(s, x, n, if spec.sequential then 1 else n), x, o);
  }

  /** The first iterations leave the books of the new loop in order. */
  lemma FirstIterationsKeep(g: Graph, s: Instance, x: TokenId, n: nat, spec: MultiSpec)
    requires var first := if spec.sequential then 1 else n;
      n != 0 && Looping(g, s, x) && x in s.tokens && SpecOf(g, s.tokens[x]) == Some(spec) && Children(s, x) == {}
      && s.multi[x] == MultiState(n, 0, first, 0)
    ensures var s' := SpawnIterations(g, s, x, 0, if spec.sequential then 1 else n); Inv(g, s') && Persists(s, s')
  {
    var first := if spec.sequential then 1 else n;
    var s' := SpawnIterations(g, s, x, 0, first);
    NoZero(g, s);
    forall u | u in s.tokens ensures u < s.nextId { assert TokenOk(g, s, u); }
    SpawnIterationsKeep(g, s, x, 0, first);
    SpawnIterationsBooks(g, s, x, 0, first);
    FirstBooks(g, s', x, n, spec);
    Settle(g, s', x);
  }

  lemma FirstBooks(g: Graph, s: Instance, x: TokenId, n: nat, spec: MultiSpec)
    requires var first := if spec.sequential then 1 else n;
      n != 0 && x in s.tokens && x in s.multi && SpecOf(g, s.tokens[x]) == Some(spec)
      && SpawnedUpTo(s, x, first) && s.multi[x] == MultiState(n, 0, first, 0)
    ensures Accounted(g, s, x)
  {
    if spec.sequential {
      var c :| c in Children(s, x);
      assert Children(s, x) == {c} by {
        assert |Children(s, x) - {c}| == 0;
      }
    }
  }

  /** What starting a loop needs: once it has iterations, a boundary timer that cannot be
      scheduled would park the coordinator behind the loop's back. */
  predicate LoopStarts(g: Graph, t: Token, o: Oracle) {
    o.items.Some? && o.items.value != 0 ==> TimersSchedule(g, t, o)
  }

  /** startMultiInstance. */
  lemma StartMultiKeeps(g: Graph, s: Instance, x: TokenId, spec: MultiSpec, o: Oracle)
    requires ValidGraph(g) && Ready(g, s, x) && s.tokens[x].parent == 0 && SpecOf(g, s.tokens[x]) == Some(spec)
    requires LoopAnswers(o) && LoopStarts(g, s.tokens[x], o)
    ensures Continues(g, s, StartMulti(g, s, x, spec, o))
  {
    if o.items.None? {
      RaiseIncidentKeeps(g, s, x);
    } else if o.items.value == 0 {
      CompleteActivityKeeps(g, s, x, o);
    } else {
      LoopStartsKeeps(g, s, x, spec, o);
    }
  }

  /** A loop starts in good order exactly when its boundary timers can be scheduled. */
  lemma StartMultiExactly(g: Graph, s: Instance, x: TokenId, spec: MultiSpec, o: Oracle)
    requires ValidGraph(g) && Ready(g, s, x) && s.tokens[x].parent == 0 && SpecOf(g, s.tokens[x]) == Some(spec) && LoopAnswers(o)
    ensures Inv(g, StartMulti(g, s, x, spec, o)) <==> LoopStarts(g, s.tokens[x], o)
  {
    if LoopStarts(g, s.tokens[x], o) {
      StartMultiKeeps(g, s, x, spec, o);
    } else {
      ReadyStands(g, s, x);
      ParkedStart(g, s, x, spec, o);
    }
  }

  lemma ParkedStart(g: Graph, s: Instance, x: TokenId, spec: MultiSpec, o: Oracle)
    requires Stands(g, s, x) && s.status.Running? && !LoopStarts(g, s.tokens[x], o)
    requires o.items.Some? && o.items.value != 0
    ensures !Inv(g, StartMulti(g, s, x, spec, o))
  {
    var n := o.items.value;
    var first := if spec.sequential then 1 else n;
    StartMultiIs(g, s, x, spec, o);
    var s1 := Opened(s, x, n, first);
    var s2 := RegisterBoundaries(g, s1, x, o);
    RegisterBoundariesParks(g, s1, x, o);
    TimerParks(g, s1, x, g[s.tokens[x].path], Boundaries(g[s.tokens[x].path], s.tokens[x].element), o.timerOk);
    SpawnsBeside(g, s2, x, 0, first);
  }

  lemma {:induction false} SpawnsBeside(g: Graph, s: Instance, m: TokenId, index: nat, count: nat)
    requires m in s.tokens && m < s.nextId
    ensures var s' := SpawnIterations(g, s, m, index, count);
      m in s'.tokens && s'.tokens[m] == s.tokens[m] && s'.multi == s.multi && s'.status == s.status
    decreases count
  {
    if count != 0 {
      SpawnsBeside(g, SpawnIteration(g, s, m, index), m, index + 1, count - 1);
    }
  }

  /** Every token a loop spawns is one of its iterations. */
  lemma {:induction false} SpawnsOwn(g: Graph, s: Instance, m: TokenId, index: nat, count: nat)
    requires m in s.tokens && forall u :: u in s.tokens ==> u < s.nextId
    ensures var s' := SpawnIterations(g, s, m, index, count);
      && (forall u :: u in s.tokens ==> u in s'.tokens && s'.tokens[u] == s.tokens[u])
      && (forall u :: u in s'.tokens && u !in s.tokens ==> s'.tokens[u].parent == m)
    decreases count
  {
    if count != 0 {
      SpawnsOwn(g, SpawnIteration(g, s, m, index), m, index + 1, count - 1);
    }
  }

  /** The numbers of a loop that just opened take none from the loops running already. */
  lemma LoopNumbers(g: Graph, s: Instance, s2: Instance, x: TokenId, n: nat, first: nat)
    requires Core(g, s2) && x in s.tokens && x !in s.multi
    requires s2.tokens == Opened(s, x, n, first).tokens && s2.multi == Opened(s, x, n, first).multi
    ensures Numbers(s, SpawnIterations(g, s2, x, 0, first))
  {
    forall u | u in s2.tokens ensures u < s2.nextId { assert TokenOk(g, s2, u); }
    SpawnsOwn(g, s2, x, 0, first);
    SpawnsBeside(g, s2, x, 0, first);
  }

  lemma LoopStartsKeeps(g: Graph, s: Instance, x: TokenId, spec: MultiSpec, o: Oracle)
    requires Ready(g, s, x) && s.tokens[x].parent == 0 && SpecOf(g, s.tokens[x]) == Some(spec)
    requires TimersSchedule(g, s.tokens[x], o) && o.items.Some? && o.items.value != 0
    ensures Continues(g, s, StartMulti(g, s, x, spec, o))
  {
    var n := o.items.value;
    var first := if spec.sequential then 1 else n;
    StartMultiIs(g, s, x, spec, o);
    LoopOpens(g, s, x, n, first, o);
    var s2 := RegisterBoundaries(g, Opened(s, x, n, first), x, o);
    LoopNumbers(g, s, s2, x, n, first);
    assert SpecOf(g, s2.tokens[x]) == SpecOf(g, s.tokens[x]);
    FirstIterationsKeep(g, s2, x, n, spec);
    PersistsTransitive(s, s2, SpawnIterations(g, s2, x, 0, first));
  }

  // ---- embedded sub-processes ------------------------------------------------------------------

  lemma {:induction false} UntypedIs(c: Container, ids: seq<ElementId>)
    requires forall id :: id in ids ==> id in c.elements && c.elements[id].etype.StartEvent?
    ensures FirstUntyped(c, ids).Some? ==>
      FirstUntyped(c, ids).value in c.elements && c.elements[FirstUntyped(c, ids).value].etype.StartEvent?
    decreases ids
  {
    if ids != [] {
      UntypedIs(c, ids[1..]);
    }
  }

  lemma NoneStartIs(c: Container)
    requires NoneStartEvent(c).Some?
    ensures NoneStartEvent(c).value in c.elements && c.elements[NoneStartEvent(c).value].etype.StartEvent?
  {
    StartsAre(c, c.order);
    UntypedIs(c, StartEvents(c));
  }

  /** The token waits on the scope it is about to open. */
  function Entered(s: Instance, x: TokenId): Instance
    requires x in s.tokens
  {
    SetToken(s, x, s.tokens[x].(state := WaitChild, ref := ScopeRef))
  }

  lemma EnteredChain(g: Graph, s: Instance, x: TokenId)
    requires ValidGraph(g) && Core(g, s) && x in s.tokens && StandsOnSub(g, s.tokens[x]) && ScopeWait(s.tokens[x])
    ensures var t := s.tokens[x]; ChainOk(g, s, t.path + [t.element], t.owners + [x])
  {
    var t := s.tokens[x];
    var p, w := t.path + [t.element], t.owners + [x];
    assert TokenOk(g, s, x) && GoodElement(g, t.path, t.element);
    forall i | 0 <= i < |p| ensures LevelOk(g, s, p, w, i) {
      assert p[..i] == t.path[..i] && w[..i] == t.owners[..i];
      if i < |t.path| {
        assert LevelOk(g, s, t.path, t.owners, i);
      } else {
        assert t.path[..i] == t.path && t.owners[..i] == t.owners;
      }
    }
  }

  lemma EnteredTree(g: Graph, s: Instance, x: TokenId)
    requires Core(g, s) && x in s.tokens && x !in s.multi && Vacated(s, {}, x) && StandsOnSub(g, s.tokens[x])
    ensures Core(g, Entered(s, x))
  {
    var s' := Entered(s, x);
    assert TokenOk(g, s, x) && FreeOf(s.tokens[x], {}, x);
    ChainSurvives(g, s, s', {}, x, s.tokens[x].path, s.tokens[x].owners);
    CoreUpdate(g, s, s', {}, x);
  }

  lemma EnteredCuts(g: Graph, s: Instance, x: TokenId)
    requires ValidGraph(g) && Ready(g, s, x) && !ScopeWait(s.tokens[x]) && StandsOnSub(g, s.tokens[x])
    ensures var t := s.tokens[x]; Cut(g, Entered(s, x), t.path + [t.element], t.owners + [x], 0)
    ensures Advances(s, Entered(s, x))
  {
    NoZero(g, s);
    EnteredTree(g, s, x);
    var s' := Entered(s, x);
    forall m | m in s'.multi ensures m in s'.tokens && m != 0 {
      assert TokenOk(g, s, m);
    }
    NoStuckStays(g, s, s', x, Some(x), 0, Some(x), 0);
    LinkedStays(s, s', x);
    RoutedStays(g, s, s', x);
    EnteredChain(g, Entered(s, x), x);
  }

  /** Fresh registrations of a scope's event sub-processes all name start events of theirs. */
  ghost predicate StartRecords(g: Graph, s: Instance, s': Instance, owner: TokenId, path: Path) {
    && s'.tokens == s.tokens && s'.multi == s.multi && s'.status == s.status && s'.waits == s.waits
    && s'.suspended == s.suspended && s.nextId <= s'.nextId
    && forall e :: e in s'.events ==>
         || (e in s.events && s'.events[e] == s.events[e])
         || (s.nextId <= e < s'.nextId && s'.events[e].token == owner && StartsSub(g, path, s'.events[e].element))
  }

  ghost predicate StartsSub(g: Graph, path: Path, start: ElementId) {
    exists sub :: SubStart(g, path, sub, start)
  }

  ghost predicate SubStart(g: Graph, path: Path, sub: ElementId, start: ElementId) {
    && HasElement(g, path, sub) && IsEventSub(g[path].elements[sub])
    && HasElement(g, path + [sub], start) && g[path + [sub]].elements[start].etype.StartEvent?
  }

  lemma {:induction false} RegisterStartsAre(g: Graph, s: Instance, owner: TokenId, path: Path, sub: ElementId,
                                             starts: seq<ElementId>, o: Oracle)
    requires path + [sub] in g && HasElement(g, path, sub) && IsEventSub(g[path].elements[sub])
    requires forall id :: id in starts ==> id in g[path + [sub]].elements && g[path + [sub]].elements[id].etype.StartEvent?
    ensures StartRecords(g, s, RegisterStarts(s, owner, g[path + [sub]], starts, o), owner, path)
    decreases starts
  {
    if starts != [] {
      var c := g[path + [sub]];
      var ev := if starts[0] in c.elements then c.elements[starts[0]].event else None;
      var s1 :=
        if ev.Some? && (ev.value.kind.Message? || ev.value.kind.Signal? || (ev.value.kind.Timer? && o.timerOk(starts[0])))
        then Register(s, if ev.value.kind.Timer? then TimerJob else SubscriptionRecord, owner, starts[0]) else s;
      assert SubStart(g, path, sub, starts[0]);
      RegisterStartsAre(g, s1, owner, path, sub, starts[1..], o);
    }
  }

  lemma {:induction false} RegisterSubsAre(g: Graph, s: Instance, path: Path, ids: seq<ElementId>, owner: TokenId, o: Oracle)
    requires path in g
    ensures StartRecords(g, s, RegisterSubsFrom(g, s, path, ids, owner, o), owner, path)
    decreases ids
  {
    if ids != [] {
      var id := ids[0];
      if id in g[path].elements && IsEventSub(g[path].elements[id]) && path + [id] in g {
        var c := g[path + [id]];
        StartsAre(c, c.order);
        RegisterStartsAre(g, s, owner, path, id, StartEvents(c), o);
        RegisterSubsAre(g, RegisterStarts(s, owner, c, StartEvents(c), o), path, ids[1..], owner, o);
      } else {
        RegisterSubsAre(g, s, path, ids[1..], owner, o);
      }
    }
  }

  lemma StartRoutes(g: Graph, s: Instance, r: EventRecord, path: Path)
    requires StartsSub(g, path, r.element)
    requires if r.token == 0 then path == []
             else r.token in s.tokens ==> ScopeWait(s.tokens[r.token]) && s.tokens[r.token].path + [s.tokens[r.token].element] == path
    ensures RecordOk(g, s, r)
  {
    var sub :| SubStart(g, path, sub, r.element);
    var p := path + [sub];
    assert p[..|p| - 1] == path;
    assert RoutesTo(g, s, r, p);
  }

  lemma SubsRegistered(g: Graph, s: Instance, s': Instance, path: Path, owners: seq<TokenId>, x: TokenId)
    requires Cut(g, s, path, owners, 0) && StartRecords(g, s, s', x, path)
    requires if x == 0 then path == [] else x in s.tokens && ScopeWait(s.tokens[x]) && s.tokens[x].path + [s.tokens[x].element] == path
    ensures Cut(g, s', path, owners, 0) && Advances(s, s')
  {
    if x != 0 { assert TokenOk(g, s, x); }
    SameTree(g, s, s');
    SpawnChain(g, s, s', path, owners);
    NoZero(g, s);
    NoStuckStays(g, s, s', 0, Some(LastOwner(owners)), 0, Some(LastOwner(owners)), 0);
    LinkedStays(s, s', 0);
    forall e | e in s'.events && !(e in s.events && s'.events[e] == s.events[e]) ensures RecordOk(g, s', s'.events[e]) {
      StartRoutes(g, s', s'.events[e], path);
    }
    RoutedStays(g, s, s', 0);
  }

  /** enterSubProcess: the scope opens with one token at its none start event. */
  lemma EnterSubKeeps(g: Graph, s: Instance, x: TokenId, o: Oracle)
    requires ValidGraph(g) && Ready(g, s, x) && !ScopeWait(s.tokens[x]) && StandsOnSub(g, s.tokens[x])
    ensures Keeps(g, s, EnterSub(g, s, x, o))
  {
    var t := s.tokens[x];
    var inner := t.path + [t.element];
    if inner !in g || NoneStartEvent(g[inner]).None? {
      RaiseIncidentKeeps(g, s, x);
    } else {
      var s1 := Entered(s, x);
      EnteredCuts(g, s, x);
      RegisterSubsAre(g, s1, inner, g[inner].order, x, o);
      var s2 := RegisterEventSubs(g, s1, inner, x, o);
      NoZero(g, s);
      SubsRegistered(g, s1, s2, inner, t.owners + [x], x);
      NoneStartIs(g[inner]);
      SpawnFills(g, s2, inner, t.owners + [x], NoneStartEvent(g[inner]).value, inner, t.owners + [x]);
      AdvancesTransitive(g, s, s1, s2);
      AdvancesTransitive(g, s, s2, EnterSub(g, s, x, o));
    }
  }
}
