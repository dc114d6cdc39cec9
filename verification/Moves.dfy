/** A token that holds nothing up may move, fork or park without hurting the tree. */
module Moves {
  import opened StoreState
  import opened Bpmn
  import opened Instances
  import opened Engine
  import opened ScopeTree

  /** The token is free to move: nothing hangs from it and its own wait is over. */
  ghost predicate Ready(g: Graph, s: Instance, x: TokenId) {
    && s.status.Running? && Core(g, s) && NoStuck(g, s, Some(x), 0) && Linked(s, x) && Routed(g, s)
    && x in s.tokens && x !in s.multi && Vacated(s, {}, x)
    && (ScopeWait(s.tokens[x]) ==> forall e :: e in s.events ==> s.events[e].token != x)
  }

  /** Any token that waits on no scope, loop or record is free to move. */
  lemma LeafReady(g: Graph, s: Instance, x: TokenId)
    requires Inv(g, s) && s.status.Running? && x in s.tokens
    requires !ScopeWait(s.tokens[x]) && !s.tokens[x].state.WaitMulti?
    requires !Waiting(s.tokens[x])
    ensures Ready(g, s, x)
  {
    assert TokenOk(g, s, x);
    LeafVacated(g, s, x);
    assert 0 in s.tokens ==> !TokenOk(g, s, 0);
    LinkedWithout(s, x);
  }

  // ---- new tokens beside an old one -----------------------------------------------------

  ghost predicate Sibling(g: Graph, s: Instance, u: TokenId, t: Token)
    requires u in s.tokens
  {
    var v := s.tokens[u];
    && 0 < u < s.nextId && SameScope(v, t) && v.parent == 0 && v.miChild == 0
    && HasElement(g, v.path, v.element) && !IsEventSub(g[v.path].elements[v.element])
    && (v.state.Active? || v.state.WaitRetry?)
    && (v.ref.RecordRef? ==> v.ref.id < s.nextId)
  }

  /** `s'` adds siblings of `t` and jobs, and nothing else. */
  ghost predicate Grows(g: Graph, s: Instance, s': Instance, t: Token) {
    && s'.nextId >= s.nextId
    && (forall u :: u in s.tokens ==> u in s'.tokens && s'.tokens[u] == s.tokens[u])
    && (forall u :: u in s'.tokens && u !in s.tokens ==> s.nextId <= u && Sibling(g, s', u, t))
    && s'.multi == s.multi && s'.status == s.status && s'.suspended == s.suspended && s'.waits == s.waits
    && s'.cancelled == s.cancelled
    && (forall e :: e in s'.events ==>
          (e in s.events && s'.events[e] == s.events[e])
          || (s.nextId <= e < s'.nextId && s'.events[e].kind.WorkJob? && s'.events[e].token < s'.nextId))
  }

  ghost predicate GoodFlows(g: Graph, path: Path, flows: seq<ElementId>) {
    path in g && forall f :: f in flows ==> f in g[path].flows
  }

  lemma GoodTarget(g: Graph, path: Path, f: ElementId)
    requires ValidGraph(g) && path in g && f in g[path].flows
    ensures HasElement(g, path, TargetOf(g, path, f)) && !IsEventSub(g[path].elements[TargetOf(g, path, f)])
  {
    assert GoodFlow(g, path, f);
  }

  ghost predicate Numbered(s: Instance) {
    0 < s.nextId && TokensBelow(s)
  }

  lemma OneSiblingGrows(g: Graph, s: Instance, t: Token, f: ElementId)
    requires HasElement(g, t.path, TargetOf(g, t.path, f)) && !IsEventSub(g[t.path].elements[TargetOf(g, t.path, f)])
    requires t.parent == 0 && t.miChild == 0 && Numbered(s)
    ensures Grows(g, s, OneSibling(g, s, t, f), t) && Numbered(OneSibling(g, s, t, f))
  {
    var sib := s.nextId;
    var s1 := Spawn(s, TargetOf(g, t.path, f), t.path, t.owners, t.parent, t.miChild, t.loop);
    var s2 := SetToken(s1, sib, s1.tokens[sib].(flow := f));
    var s' := MaybeAsync(g, s2, sib);
    assert s' == s2 || s' == ParkOnJob(s2, sib);
    assert Sibling(g, s', sib, t);
  }

  lemma GrowsTransitive(g: Graph, s: Instance, s1: Instance, s2: Instance, t: Token)
    requires Grows(g, s, s1, t) && Grows(g, s1, s2, t)
    ensures Grows(g, s, s2, t)
  {
    forall u | u in s2.tokens && u !in s.tokens ensures s.nextId <= u && Sibling(g, s2, u, t) {
      if u in s1.tokens {
        assert Sibling(g, s1, u, t);
      }
    }
  }

  lemma {:induction false} SiblingsGrow(g: Graph, s: Instance, t: Token, flows: seq<ElementId>)
    requires ValidGraph(g) && GoodFlows(g, t.path, flows) && t.parent == 0 && t.miChild == 0 && Numbered(s)
    ensures Grows(g, s, SpawnSiblings(g, s, t, flows), t) && Numbered(SpawnSiblings(g, s, t, flows))
    decreases flows
  {
    if flows != [] {
      var s1 := OneSibling(g, s, t, flows[0]);
      GoodTarget(g, t.path, flows[0]);
      OneSiblingGrows(g, s, t, flows[0]);
      SiblingsGrow(g, s1, t, flows[1..]);
      GrowsTransitive(g, s, s1, SpawnSiblings(g, s1, t, flows[1..]), t);
    }
  }

  // ---- the leaf step ------------------------------------------------------------------------

  /** The token stays in its scope (an iteration at its element) and waits on no scope or loop. */
  ghost predicate Repositioned(g: Graph, t: Token, t': Token, nextId: nat) {
    && t'.path == t.path && t'.owners == t.owners && t'.parent == t.parent
    && t'.miChild == t.miChild && t'.loop == t.loop
    && (t.parent != 0 ==> t'.element == t.element)
    && HasElement(g, t'.path, t'.element) && !IsEventSub(g[t'.path].elements[t'.element])
    && !ScopeWait(t') && !t'.state.WaitMulti?
    && (t'.ref.RecordRef? ==> t'.ref.id < nextId)
    && (t'.state.WaitEvents? ==> t'.parent == 0)
  }

  ghost predicate RecordsExtend(g: Graph, s: Instance, s': Instance) {
    forall e :: e in s'.events ==> (e in s.events && s'.events[e] == s.events[e]) || RecordOk(g, s', s'.events[e])
  }

  /** Only `x` changes, fresh siblings appear, loops stay. */
  ghost predicate LeafChange(g: Graph, s: Instance, s': Instance, x: TokenId) {
    && x in s.tokens && x in s'.tokens
    && Delta(s, s', {}, x)
    && Repositioned(g, s.tokens[x], s'.tokens[x], s'.nextId)
    && (forall u :: u in s'.tokens && u !in s.tokens ==> Sibling(g, s', u, s.tokens[x]))
    && s'.multi == s.multi && s'.status == s.status && Fresh(s')
  }

  lemma LeafCore(g: Graph, s: Instance, s': Instance, x: TokenId)
    requires Core(g, s) && Vacated(s, {}, x) && x !in s.multi && LeafChange(g, s, s', x)
    ensures Core(g, s')
  {
    var t := s.tokens[x];
    assert TokenOk(g, s, x);
    assert FreeOf(t, {}, x);
    ChainSurvives(g, s, s', {}, x, t.path, t.owners);
    forall u | u in s'.tokens && (u == x || u !in s.tokens) ensures TokenOk(g, s', u) {
      if u != x {
        assert Sibling(g, s', u, t);
      }
    }
    CoreUpdate(g, s, s', {}, x);
  }

  lemma LeafNoStuck(g: Graph, s: Instance, s': Instance, x: TokenId)
    requires Core(g, s) && NoStuck(g, s, Some(x), 0) && x !in s.multi && LeafChange(g, s, s', x)
    ensures forall m :: m in s'.multi ==> m in s'.tokens
    ensures NoStuck(g, s', None, 0)
  {
    forall u | Newcomer(s, s', u) ensures !ScopeWait(s'.tokens[u]) && s'.tokens[u].parent == 0 {
      assert Sibling(g, s', u, s.tokens[x]);
    }
    forall m | m in s'.multi ensures m in s'.tokens && m != 0 {
      assert TokenOk(g, s, m);
    }
    NoStuckStays(g, s, s', x, Some(x), 0, None, 0);
  }

  /** No record changes and `x` waits for none, or a fresh record is opened for it. */
  ghost predicate WaitsFollow(s: Instance, s': Instance, x: TokenId)
    requires x in s'.tokens
  {
    if Waiting(s'.tokens[x]) then
      && s'.tokens[x].ref.RecordRef? && s.nextId <= s'.tokens[x].ref.id
      && s'.waits == s.waits[s'.tokens[x].ref.id := WaitRecord(KindFor(s'.tokens[x]), x, true)]
    else s'.waits == s.waits
  }

  lemma LeafLinked(g: Graph, s: Instance, s': Instance, x: TokenId)
    requires Linked(s, x) && Fresh(s) && LeafChange(g, s, s', x) && WaitsFollow(s, s', x) && x != 0
    ensures Linked(s', 0)
  {
    forall u | u in s'.tokens ensures Held(s', u) {
      if u !in s.tokens {
        assert Sibling(g, s', u, s.tokens[x]);
      } else if u != x {
        assert Held(s, u);
      }
    }
    forall w | w in s'.waits ensures Backed(s', w, 0) {
      if w in s.waits {
        assert Backed(s, w, x);
      }
    }
  }

  lemma LeafStep(g: Graph, s: Instance, s': Instance, x: TokenId)
    requires Ready(g, s, x) && LeafChange(g, s, s', x) && RecordsExtend(g, s, s') && WaitsFollow(s, s', x)
    ensures Keeps(g, s, s')
  {
    forall u | u in s'.tokens && u !in s.tokens ensures NewNumber(s, s', s'.tokens[u]) {
      assert Sibling(g, s', u, s.tokens[x]);
    }
    assert TokenOk(g, s, x);
    LeafCore(g, s, s', x);
    LeafNoStuck(g, s, s', x);
    RoutedStays(g, s, s', x);
    LeafLinked(g, s, s', x);
  }

  // ---- the operations that are leaf steps -----------------------------------------------

  /** What a leaf operation needs to know about its token. */
  ghost predicate Stands(g: Graph, s: Instance, x: TokenId) {
    && x in s.tokens && 0 < x < s.nextId && Fresh(s) && Numbered(s)
    && HasElement(g, s.tokens[x].path, s.tokens[x].element)
    && !IsEventSub(g[s.tokens[x].path].elements[s.tokens[x].element])
    && (s.tokens[x].parent == 0 ==> s.tokens[x].miChild == 0)
  }

  lemma ReadyStands(g: Graph, s: Instance, x: TokenId)
    requires Core(g, s) && x in s.tokens
    ensures Stands(g, s, x)
  {
    assert TokenOk(g, s, x);
    forall u | u in s.tokens ensures u < s.nextId {
      assert TokenOk(g, s, u);
    }
  }

  ghost predicate LeafShape(g: Graph, s: Instance, s': Instance, x: TokenId) {
    LeafChange(g, s, s', x) && RecordsExtend(g, s, s') && WaitsFollow(s, s', x)
  }

  lemma IncidentShape(g: Graph, s: Instance, x: TokenId)
    requires Stands(g, s, x)
    ensures LeafShape(g, s, RaiseIncident(s, x), x)
  {
  }

  lemma RaiseIncidentKeeps(g: Graph, s: Instance, x: TokenId)
    requires Ready(g, s, x)
    ensures Keeps(g, s, RaiseIncident(s, x))
  {
    ReadyStands(g, s, x);
    IncidentShape(g, s, x);
    LeafStep(g, s, RaiseIncident(s, x), x);
  }

  lemma ParkShape(g: Graph, s: Instance, x: TokenId)
    requires Stands(g, s, x)
    ensures LeafShape(g, s, ParkOnJob(s, x), x)
  {
  }

  lemma ParkOnJobKeeps(g: Graph, s: Instance, x: TokenId)
    requires Ready(g, s, x)
    ensures Keeps(g, s, ParkOnJob(s, x))
  {
    ReadyStands(g, s, x);
    ParkShape(g, s, x);
    LeafStep(g, s, ParkOnJob(s, x), x);
  }

  lemma OpenShape(g: Graph, s: Instance, x: TokenId, kind: WaitKind)
    requires Stands(g, s, x)
    ensures LeafShape(g, s, OpenWait(s, x, kind), x)
  {
  }

  lemma OpenWaitKeeps(g: Graph, s: Instance, x: TokenId, kind: WaitKind)
    requires Ready(g, s, x)
    ensures Keeps(g, s, OpenWait(s, x, kind))
  {
    ReadyStands(g, s, x);
    OpenShape(g, s, x, kind);
    LeafStep(g, s, OpenWait(s, x, kind), x);
  }

  lemma CallShape(g: Graph, s: Instance, x: TokenId, o: Oracle)
    requires Stands(g, s, x)
    ensures LeafShape(g, s, EnterCall(s, x, o), x)
  {
  }

  lemma EnterCallKeeps(g: Graph, s: Instance, x: TokenId, o: Oracle)
    requires Ready(g, s, x)
    ensures Keeps(g, s, EnterCall(s, x, o))
  {
    ReadyStands(g, s, x);
    CallShape(g, s, x, o);
    LeafStep(g, s, EnterCall(s, x, o), x);
  }

  function Moved(t: Token, g: Graph, f: ElementId): Token {
    t.(element := TargetOf(g, t.path, f), flow := f, state := Active, ref := NoRef)
  }

  lemma MovedShape(g: Graph, s: Instance, s1: Instance, x: TokenId, f: ElementId)
    requires Stands(g, s, x) && s.tokens[x].parent == 0 && Grows(g, s, s1, s.tokens[x])
    requires HasElement(g, s.tokens[x].path, TargetOf(g, s.tokens[x].path, f))
    requires !IsEventSub(g[s.tokens[x].path].elements[TargetOf(g, s.tokens[x].path, f)])
    ensures LeafShape(g, s, SetToken(s1, x, Moved(s.tokens[x], g, f)), x)
  {
    var s' := SetToken(s1, x, Moved(s.tokens[x], g, f));
    forall u | u in s'.tokens && u !in s.tokens ensures Sibling(g, s', u, s.tokens[x]) {
      assert Sibling(g, s1, u, s.tokens[x]);
    }
  }

  lemma ParkedShape(g: Graph, s: Instance, s1: Instance, x: TokenId)
    requires LeafShape(g, s, s1, x) && x < s.nextId
    requires !Waiting(s1.tokens[x])
    ensures LeafShape(g, s, ParkOnJob(s1, x), x)
  {
    var s' := ParkOnJob(s1, x);
    forall u | u in s'.tokens && u !in s.tokens ensures Sibling(g, s', u, s.tokens[x]) {
      assert Sibling(g, s1, u, s.tokens[x]);
    }
    forall e | e in s'.events && !(e in s.events && s'.events[e] == s.events[e]) ensures RecordOk(g, s', s'.events[e]) {
      if e in s1.events && s1.events[e] == s'.events[e] && !s'.events[e].kind.WorkJob? {
        var p :| RoutesTo(g, s1, s1.events[e], p);
        assert RoutesTo(g, s', s'.events[e], p);
      }
    }
  }

  lemma MoveShape(g: Graph, s: Instance, x: TokenId, flows: seq<ElementId>)
    requires ValidGraph(g) && Stands(g, s, x) && s.tokens[x].parent == 0
    requires flows != [] && GoodFlows(g, s.tokens[x].path, flows)
    ensures LeafShape(g, s, MoveOver(g, s, x, flows), x)
  {
    var t := s.tokens[x];
    SiblingsGrow(g, s, t, flows[1..]);
    GoodTarget(g, t.path, flows[0]);
    var s1 := SpawnSiblings(g, s, t, flows[1..]);
    MovedShape(g, s, s1, x, flows[0]);
    ParkedShape(g, s, SetToken(s1, x, Moved(t, g, flows[0])), x);
  }

  lemma MoveOverKeeps(g: Graph, s: Instance, x: TokenId, flows: seq<ElementId>)
    requires ValidGraph(g) && Ready(g, s, x) && s.tokens[x].parent == 0
    requires flows != [] && GoodFlows(g, s.tokens[x].path, flows)
    ensures Keeps(g, s, MoveOver(g, s, x, flows))
  {
    ReadyStands(g, s, x);
    MoveShape(g, s, x, flows);
    LeafStep(g, s, MoveOver(g, s, x, flows), x);
  }

  /** Moving over the chosen flows, or an incident if there are none. */
  lemma MoveOrIncidentKeeps(g: Graph, s: Instance, x: TokenId, flows: seq<ElementId>)
    requires ValidGraph(g) && Ready(g, s, x) && s.tokens[x].parent == 0 && GoodFlows(g, s.tokens[x].path, flows)
    ensures Keeps(g, s, if flows == [] then RaiseIncident(s, x) else MoveOver(g, s, x, flows))
  {
    if flows == [] {
      RaiseIncidentKeeps(g, s, x);
    } else {
      MoveOverKeeps(g, s, x, flows);
    }
  }

  lemma {:induction false} SelectedExist(c: Container, ids: seq<ElementId>, d: ElementId, o: Oracle)
    ensures var r := SelectFlows(c, ids, d, o); r.Some? ==> forall f :: f in r.value ==> f in c.flows
    decreases ids
  {
    if ids != [] {
      SelectedExist(c, ids[1..], d, o);
    }
  }

  lemma {:induction false} FirstTrueExists(c: Container, ids: seq<ElementId>, d: ElementId, o: Oracle)
    ensures var r := FirstTrue(c, ids, d, o); r.Some? ==> forall f :: f in r.value ==> f in c.flows
    decreases ids
  {
    if ids != [] {
      FirstTrueExists(c, ids[1..], d, o);
    }
  }

  lemma {:induction false} ExistingExist(c: Container, ids: seq<ElementId>)
    ensures forall f :: f in ExistingFlows(c, ids) ==> f in c.flows
    decreases ids
  {
    if ids != [] {
      ExistingExist(c, ids[1..]);
    }
  }

  lemma TakeOutgoingKeeps(g: Graph, s: Instance, x: TokenId, o: Oracle)
    requires ValidGraph(g) && Ready(g, s, x) && s.tokens[x].parent == 0
    ensures Keeps(g, s, TakeOutgoing(g, s, x, o))
  {
    ReadyStands(g, s, x);
    var t := s.tokens[x];
    var c := g[t.path];
    var el := c.elements[t.element];
    SelectedExist(c, el.outgoing, el.defaultFlow, o);
    var chosen := SelectFlows(c, el.outgoing, el.defaultFlow, o);
    if chosen.None? {
      RaiseIncidentKeeps(g, s, x);
    } else {
      MoveOrIncidentKeeps(g, s, x, WithDefault(c, el, chosen.value));
    }
  }

  lemma RouteExclusiveKeeps(g: Graph, s: Instance, x: TokenId, o: Oracle)
    requires ValidGraph(g) && Ready(g, s, x) && s.tokens[x].parent == 0
    ensures Keeps(g, s, RouteExclusive(g, s, x, o))
  {
    ReadyStands(g, s, x);
    var t := s.tokens[x];
    var c := g[t.path];
    var el := c.elements[t.element];
    FirstTrueExists(c, el.outgoing, el.defaultFlow, o);
    var chosen := FirstTrue(c, el.outgoing, el.defaultFlow, o);
    if chosen.None? {
      RaiseIncidentKeeps(g, s, x);
    } else {
      MoveOrIncidentKeeps(g, s, x, WithDefault(c, el, chosen.value));
    }
  }

  lemma ForkAllKeeps(g: Graph, s: Instance, x: TokenId)
    requires ValidGraph(g) && Ready(g, s, x) && s.tokens[x].parent == 0
    ensures Keeps(g, s, ForkAll(g, s, x))
  {
    ReadyStands(g, s, x);
    var c := g[s.tokens[x].path];
    ExistingExist(c, c.elements[s.tokens[x].element].outgoing);
    MoveOrIncidentKeeps(g, s, x, ExistingFlows(c, c.elements[s.tokens[x].element].outgoing));
  }

  // ---- registering waits -------------------------------------------------------------------

  /** Fresh records are the token's, for elements of its container a trigger may use. */
  ghost predicate NewRecords(g: Graph, s: Instance, s': Instance, x: TokenId, path: Path) {
    forall e :: e in s'.events ==>
      || (e in s.events && s'.events[e] == s.events[e])
      || (s.nextId <= e < s'.nextId && s'.events[e].token == x && Usable(g, path, s'.events[e].element))
  }

  ghost predicate Usable(g: Graph, path: Path, id: ElementId) {
    HasElement(g, path, id) && g[path].elements[id].etype in {BoundaryEvent, IntermediateCatch, ReceiveTask}
  }

  lemma NewRecordsTransitive(g: Graph, s: Instance, s1: Instance, s2: Instance, x: TokenId, path: Path)
    requires s.nextId <= s1.nextId <= s2.nextId && NewRecords(g, s, s1, x, path) && NewRecords(g, s1, s2, x, path)
    ensures NewRecords(g, s, s2, x, path)
  {
  }

  lemma RegisterOneRecords(g: Graph, s: Instance, x: TokenId, path: Path, b: ElementId, ok: bool)
    requires x in s.tokens && Usable(g, path, b)
    ensures NewRecords(g, s, RegisterOne(s, x, g[path], b, ok), x, path)
  {
  }

  lemma {:induction false} RegisterEachRecords(g: Graph, s: Instance, x: TokenId, path: Path, bs: seq<ElementId>, ok: ElementId -> bool)
    requires x in s.tokens && path in g && forall b :: b in bs ==> Usable(g, path, b)
    ensures NewRecords(g, s, RegisterEach(g, s, x, g[path], bs, ok), x, path)
    decreases bs
  {
    if bs != [] {
      var s1 := RegisterOne(s, x, g[path], bs[0], ok(bs[0]));
      RegisterOneParks(s, x, g[path], bs[0], ok(bs[0]));
      RegisterOneRecords(g, s, x, path, bs[0], ok(bs[0]));
      RegisterEachParks(g, s1, x, g[path], bs[1..], ok);
      RegisterEachRecords(g, s1, x, path, bs[1..], ok);
      NewRecordsTransitive(g, s, s1, RegisterEach(g, s1, x, g[path], bs[1..], ok), x, path);
    }
  }

  lemma {:induction false} BoundariesAre(c: Container, ids: seq<ElementId>, activity: ElementId)
    ensures forall b :: b in BoundariesFrom(c, ids, activity) ==>
      b in c.elements && c.elements[b].etype.BoundaryEvent? && c.elements[b].attachedTo == activity
    decreases ids
  {
    if ids != [] {
      BoundariesAre(c, ids[1..], activity);
    }
  }

  lemma RegisterBoundariesRecords(g: Graph, s: Instance, x: TokenId, o: Oracle)
    requires x in s.tokens
    ensures NewRecords(g, s, RegisterBoundaries(g, s, x, o), x, s.tokens[x].path)
    ensures OnlyParks(s, RegisterBoundaries(g, s, x, o), x)
  {
    var t := s.tokens[x];
    RegisterBoundariesParks(g, s, x, o);
    if t.path in g {
      BoundariesAre(g[t.path], g[t.path].order, t.element);
      RegisterEachRecords(g, s, x, t.path, Boundaries(g[t.path], t.element), o.timerOk);
    }
  }

  predicate IsTimer(c: Container, b: ElementId) {
    b in c.elements && c.elements[b].event.Some? && c.elements[b].event.value.kind.Timer?
  }

  /** Every timer boundary of the activity can be scheduled. */
  predicate TimersSchedule(g: Graph, t: Token, o: Oracle) {
    t.path in g ==> forall b :: b in Boundaries(g[t.path], t.element) && IsTimer(g[t.path], b) ==> o.timerOk(b)
  }

  lemma QuietOne(s: Instance, x: TokenId, c: Container, b: ElementId, ok: bool)
    requires x in s.tokens && (ok || !IsTimer(c, b))
    ensures RegisterOne(s, x, c, b, ok).tokens == s.tokens
  {
  }

  lemma {:induction false} QuietRegisters(g: Graph, s: Instance, x: TokenId, c: Container, bs: seq<ElementId>, ok: ElementId -> bool)
    requires x in s.tokens && forall b :: b in bs && IsTimer(c, b) ==> ok(b)
    ensures RegisterEach(g, s, x, c, bs, ok).tokens == s.tokens
    decreases bs
  {
    if bs != [] {
      assert bs[0] in bs;
      QuietOne(s, x, c, bs[0], ok(bs[0]));
      QuietRegisters(g, RegisterOne(s, x, c, bs[0], ok(bs[0])), x, c, bs[1..], ok);
    }
  }

  lemma {:induction false} TimerParks(g: Graph, s: Instance, x: TokenId, c: Container, bs: seq<ElementId>, ok: ElementId -> bool)
    requires x in s.tokens && (s.tokens[x].state.WaitRetry? || exists b :: b in bs && IsTimer(c, b) && !ok(b))
    ensures x in RegisterEach(g, s, x, c, bs, ok).tokens
    ensures RegisterEach(g, s, x, c, bs, ok).tokens[x].state.WaitRetry?
    decreases bs
  {
    if bs != [] {
      var s1 := RegisterOne(s, x, c, bs[0], ok(bs[0]));
      if !s.tokens[x].state.WaitRetry? && (!IsTimer(c, bs[0]) || ok(bs[0])) {
        var b :| b in bs && IsTimer(c, b) && !ok(b);
        assert b in bs[1..];
      }
      TimerParks(g, s1, x, c, bs[1..], ok);
    }
  }

  lemma {:induction false} WaitOnTargetsRecords(g: Graph, s: Instance, x: TokenId, path: Path, flows: seq<ElementId>, o: Oracle)
    requires x in s.tokens && path in g
    requires forall f :: f in flows && f in g[path].flows ==> Usable(g, path, g[path].flows[f].target)
    ensures NewRecords(g, s, WaitOnTargets(g, s, x, g[path], flows, o), x, path)
    ensures OnlyParks(s, WaitOnTargets(g, s, x, g[path], flows, o), x)
    decreases flows
  {
    if flows != [] {
      var c := g[path];
      var target := if flows[0] in c.flows then c.flows[flows[0]].target else 0;
      var s1 := if flows[0] in c.flows then RegisterOne(s, x, c, target, o.timerOk(target)) else s;
      RegisterOneParks(s, x, c, target, o.timerOk(target));
      if flows[0] in c.flows {
        RegisterOneRecords(g, s, x, path, target, o.timerOk(target));
      }
      WaitOnTargetsRecords(g, s1, x, path, flows[1..], o);
      var s2 := WaitOnTargets(g, s1, x, c, flows[1..], o);
      NewRecordsTransitive(g, s, s1, s2, x, path);
      ParksTransitive(s, s1, s2, x);
    }
  }

  lemma RegisterShape(g: Graph, s: Instance, s': Instance, x: TokenId)
    requires Stands(g, s, x) && s.tokens[x].parent == 0
    requires !ScopeWait(s.tokens[x]) && !s.tokens[x].state.WaitMulti? && !Waiting(s.tokens[x])
    requires s.tokens[x].ref.RecordRef? ==> s.tokens[x].ref.id < s.nextId
    requires OnlyParks(s, s', x) && NewRecords(g, s, s', x, s.tokens[x].path)
    ensures LeafShape(g, s, s', x)
  {
    forall e | e in s'.events && !(e in s.events && s'.events[e] == s.events[e]) ensures RecordOk(g, s', s'.events[e]) {
      assert RoutesTo(g, s', s'.events[e], s.tokens[x].path);
    }
  }

  /** A token that waits on nothing registers boundary events and stays free to move. */
  lemma RegisterKeeps(g: Graph, s: Instance, s': Instance, x: TokenId)
    requires Ready(g, s, x) && s.tokens[x].parent == 0
    requires !ScopeWait(s.tokens[x]) && !s.tokens[x].state.WaitMulti? && !Waiting(s.tokens[x])
    requires OnlyParks(s, s', x) && NewRecords(g, s, s', x, s.tokens[x].path)
    ensures Keeps(g, s, s') && Ready(g, s', x)
  {
    ReadyStands(g, s, x);
    assert TokenOk(g, s, x);
    RegisterShape(g, s, s', x);
    LeafStep(g, s, s', x);
    LeafReady(g, s', x);
  }

  lemma PersistsTransitive(s: Instance, s1: Instance, s2: Instance)
    requires Persists(s, s1) && Persists(s1, s2)
    ensures Persists(s, s2)
  {
  }

  lemma AdvancesTransitive(g: Graph, s: Instance, s1: Instance, s2: Instance)
    requires Advances(s, s1) && Advances(s1, s2) && Core(g, s1)
    ensures Advances(s, s2)
  {
    forall u | u in s2.tokens && u !in s.tokens ensures NewNumber(s, s2, s2.tokens[u]) {
      if u in s1.tokens {
        assert TokenOk(g, s1, u);
      }
    }
  }

  // ---- catch events and event gateways -----------------------------------------------------

  /** The token waits on the job or subscription it registers for its own element. */
  function Awaiting(s: Instance, x: TokenId, state: TokenState, kind: RecordKind): Instance
    requires x in s.tokens
  {
    var t := s.tokens[x].(state := state);
    SetToken(Register(SetToken(s, x, t), kind, x, t.element), x, t.(ref := RecordRef(s.nextId)))
  }

  ghost predicate MayCatch(g: Graph, s: Instance, x: TokenId, state: TokenState) {
    && Stands(g, s, x) && Usable(g, s.tokens[x].path, s.tokens[x].element)
    && !g[s.tokens[x].path].elements[s.tokens[x].element].etype.BoundaryEvent?
    && (s.tokens[x].ref.RecordRef? ==> s.tokens[x].ref.id < s.nextId)
    && state in {WaitTimer, WaitMessage, WaitSignal}
  }

  lemma AwaitingRegisters(g: Graph, s: Instance, x: TokenId, state: TokenState, kind: RecordKind)
    requires MayCatch(g, s, x, state)
    ensures LeafShape(g, s, Awaiting(s, x, state, kind), x)
  {
    var s' := Awaiting(s, x, state, kind);
    forall e | e in s'.events && !(e in s.events && s'.events[e] == s.events[e]) ensures RecordOk(g, s', s'.events[e]) {
      assert RoutesTo(g, s', s'.events[e], s.tokens[x].path);
    }
  }

  lemma WaitingShape(g: Graph, s: Instance, x: TokenId, state: TokenState)
    requires MayCatch(g, s, x, state)
    ensures LeafShape(g, s, SetToken(s, x, s.tokens[x].(state := state)), x)
  {
  }

  lemma WaitingFailsShape(g: Graph, s: Instance, x: TokenId, state: TokenState)
    requires MayCatch(g, s, x, state)
    ensures LeafShape(g, s, RaiseIncident(SetToken(s, x, s.tokens[x].(state := state)), x), x)
  {
  }

  lemma CatchingIs(s: Instance, x: TokenId, state: TokenState, kind: EventKind, o: Oracle)
    requires x in s.tokens
    ensures var s1 := SetToken(s, x, s.tokens[x].(state := state));
      Catching(s, x, state, kind, o) ==
        if kind.Error? || kind.Terminate? then s1
        else if kind.Timer? && !o.timerOk(s.tokens[x].element) then RaiseIncident(s1, x)
        else Awaiting(s, x, state, if kind.Timer? then TimerJob else SubscriptionRecord)
  {
  }

  lemma CatchingShape(g: Graph, s: Instance, x: TokenId, state: TokenState, kind: EventKind, o: Oracle)
    requires MayCatch(g, s, x, state)
    ensures LeafShape(g, s, Catching(s, x, state, kind, o), x)
  {
    CatchingIs(s, x, state, kind, o);
    WaitingShape(g, s, x, state);
    WaitingFailsShape(g, s, x, state);
    AwaitingRegisters(g, s, x, state, if kind.Timer? then TimerJob else SubscriptionRecord);
  }

  lemma CatchingKeeps(g: Graph, s: Instance, x: TokenId, state: TokenState, kind: EventKind, o: Oracle)
    requires Ready(g, s, x) && Usable(g, s.tokens[x].path, s.tokens[x].element)
    requires !g[s.tokens[x].path].elements[s.tokens[x].element].etype.BoundaryEvent?
    requires state in {WaitTimer, WaitMessage, WaitSignal}
    ensures Keeps(g, s, Catching(s, x, state, kind, o))
  {
    ReadyStands(g, s, x);
    assert TokenOk(g, s, x);
    CatchingShape(g, s, x, state, kind, o);
    LeafStep(g, s, Catching(s, x, state, kind, o), x);
  }

  lemma CatchEventKeeps(g: Graph, s: Instance, x: TokenId, el: Element, o: Oracle)
    requires Ready(g, s, x) && Usable(g, s.tokens[x].path, s.tokens[x].element)
    requires g[s.tokens[x].path].elements[s.tokens[x].element] == el && el.etype.IntermediateCatch?
    ensures Keeps(g, s, CatchEvent(s, x, el, o))
  {
    var kind := if el.event.Some? then el.event.value.kind else Terminate;
    match kind {
      case Timer => CatchingKeeps(g, s, x, WaitTimer, kind, o);
      case Message => CatchingKeeps(g, s, x, WaitMessage, kind, o);
      case Signal => CatchingKeeps(g, s, x, WaitSignal, kind, o);
      case _ => RaiseIncidentKeeps(g, s, x);
    }
  }

  lemma AwaitingShape(g: Graph, s: Instance, x: TokenId)
    requires Stands(g, s, x) && s.tokens[x].parent == 0
    ensures LeafShape(g, s, SetToken(s, x, s.tokens[x].(state := WaitEvents, ref := NoRef)), x)
  {
  }

  lemma RouteEventBasedKeeps(g: Graph, s: Instance, x: TokenId, el: Element, o: Oracle)
    requires ValidGraph(g) && Ready(g, s, x) && s.tokens[x].parent == 0
    requires HasElement(g, s.tokens[x].path, s.tokens[x].element)
    requires g[s.tokens[x].path].elements[s.tokens[x].element] == el && el.etype.EventBasedGateway?
    ensures Keeps(g, s, RouteEventBased(g, s, x, el, o))
  {
    var t := s.tokens[x];
    var s1 := SetToken(s, x, t.(state := WaitEvents, ref := NoRef));
    ReadyStands(g, s, x);
    AwaitingShape(g, s, x);
    LeafStep(g, s, s1, x);
    LeafReady(g, s1, x);
    assert GoodElement(g, t.path, t.element);
    forall f | f in el.outgoing && f in g[t.path].flows ensures Usable(g, t.path, g[t.path].flows[f].target) {
      assert AwaitableTarget(g[t.path], g[t.path].flows[f].target);
    }
    WaitOnTargetsRecords(g, s1, x, t.path, el.outgoing, o);
    RegisterKeeps(g, s1, RouteEventBased(g, s, x, el, o), x);
    AdvancesTransitive(g, s, s1, RouteEventBased(g, s, x, el, o));
  }
}
