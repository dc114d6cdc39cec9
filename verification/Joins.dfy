/** Joins: a parallel gateway fires as often as its scarcest flow delivers, an inclusive one
    only when nothing else can still arrive. */
module Joins {
  import opened StoreState
  import opened Bpmn
  import opened Instances
  import opened Engine
  import opened ScopeTree
  import opened Moves
  import opened Cancellation
  import opened Errors
  import opened Steps
  import Routing

  // ---- parallel joins -----------------------------------------------------------------------

  /** A gateway in one scope instance. */
  datatype Place = Place(element: ElementId, path: Path, owners: seq<TokenId>)

  predicate StandsAt(t: Token, at: Place) {
    t.element == at.element && t.path == at.path && t.owners == at.owners
  }

  /** Tokens joining at the place, and those of them that arrived over one flow. */
  function AtJoin(s: Instance, at: Place): set<TokenId> {
    set u | u in s.tokens && s.tokens[u].state.Joining? && StandsAt(s.tokens[u], at)
  }

  function Over(s: Instance, at: Place, f: ElementId): set<TokenId> {
    set u | u in AtJoin(s, at) && s.tokens[u].flow == f
  }

  ghost predicate ParallelAt(g: Graph, at: Place, el: Element) {
    && HasElement(g, at.path, at.element) && g[at.path].elements[at.element] == el
    && el.etype.ParallelGateway? && |el.incoming| > 1
  }

  /** Token `x` arrives at the join over one of its flows and takes its step. */
  ghost predicate Arrives(g: Graph, at: Place, el: Element, s: Instance, x: TokenId, o: Oracle, s': Instance) {
    && Inv(g, s) && s.status.Running? && x in s.tokens && s.tokens[x].state.Active? && StandsAt(s.tokens[x], at)
    && s.tokens[x].flow in el.incoming && s' == RouteParallel(g, s, x, el, o)
  }

  ghost predicate Fires(s: Instance, x: TokenId, el: Element)
    requires x in s.tokens
  {
    ParallelJoinReady(Arrive(s, x), Arrive(s, x).tokens[x], el.incoming)
  }

  lemma {:induction false} SubsetOfOne<T>(a: set<T>, x: T)
    requires x in a && forall y :: y in a ==> y == x
    ensures |a| == 1
  {
    assert a == {x};
  }

  /** The token joins nowhere any more, new tokens join nowhere, and no other token changed. */
  ghost predicate Leaves(s: Instance, s': Instance, x: TokenId) {
    && (forall u :: u in s.tokens && u != x ==> u in s'.tokens && s'.tokens[u] == s.tokens[u])
    && x in s'.tokens && !s'.tokens[x].state.Joining?
    && forall u :: u in s'.tokens && u !in s.tokens ==> !s'.tokens[u].state.Joining?
  }

  lemma MoveLeaves(g: Graph, s: Instance, x: TokenId, flows: seq<ElementId>)
    requires ValidGraph(g) && Stands(g, s, x) && s.tokens[x].parent == 0
    requires flows != [] && GoodFlows(g, s.tokens[x].path, flows)
    ensures Leaves(s, MoveOver(g, s, x, flows), x)
  {
    SiblingsGrow(g, s, s.tokens[x], flows[1..]);
    var s1 := SpawnSiblings(g, s, s.tokens[x], flows[1..]);
    forall u | u in s1.tokens && u !in s.tokens ensures !s1.tokens[u].state.Joining? {
      assert Sibling(g, s1, u, s.tokens[x]);
    }
  }

  lemma MoveOrIncidentLeaves(g: Graph, s: Instance, x: TokenId, flows: seq<ElementId>)
    requires ValidGraph(g) && Stands(g, s, x) && s.tokens[x].parent == 0 && GoodFlows(g, s.tokens[x].path, flows)
    ensures Leaves(s, if flows == [] then RaiseIncident(s, x) else MoveOver(g, s, x, flows), x)
  {
    if flows != [] {
      MoveLeaves(g, s, x, flows);
    }
  }

  lemma ForkLeaves(g: Graph, s: Instance, x: TokenId)
    requires ValidGraph(g) && Stands(g, s, x) && s.tokens[x].parent == 0
    ensures Leaves(s, ForkAll(g, s, x), x)
  {
    var c := g[s.tokens[x].path];
    var flows := ExistingFlows(c, c.elements[s.tokens[x].element].outgoing);
    ExistingExist(c, c.elements[s.tokens[x].element].outgoing);
    MoveOrIncidentLeaves(g, s, x, flows);
  }

  lemma TakeLeaves(g: Graph, s: Instance, x: TokenId, o: Oracle)
    requires ValidGraph(g) && Stands(g, s, x) && s.tokens[x].parent == 0
    ensures Leaves(s, TakeOutgoing(g, s, x, o), x)
  {
    var c := g[s.tokens[x].path];
    var el := c.elements[s.tokens[x].element];
    SelectedExist(c, el.outgoing, el.defaultFlow, o);
    var chosen := SelectFlows(c, el.outgoing, el.defaultFlow, o);
    if chosen.Some? {
      MoveOrIncidentLeaves(g, s, x, WithDefault(c, el, chosen.value));
    }
  }

  /** Everything but `x` and the tokens in `gone` stays as it was. */
  ghost predicate Spares(s: Instance, s': Instance, x: TokenId, gone: set<TokenId>) {
    forall u :: u in s.tokens && u != x && u !in gone ==> u in s'.tokens && s'.tokens[u] == s.tokens[u]
  }

  /** A firing: one waiting token of each other flow is consumed. */
  ghost predicate FiredAt(s: Instance, s': Instance, at: Place, x: TokenId, incoming: seq<ElementId>)
    requires x in s.tokens
  {
    && (forall h :: h in incoming ==> |Over(s', at, h)| == |Over(s, at, h)| - (if h == s.tokens[x].flow then 0 else 1))
    && Spares(s, s', x, AtJoin(s, at))
  }

  /** No firing: the arriving token waits too. */
  ghost predicate WaitsAt(s: Instance, s': Instance, at: Place, x: TokenId, incoming: seq<ElementId>)
    requires x in s.tokens
  {
    && (forall h :: h in incoming ==> |Over(s', at, h)| == |Over(s, at, h)| + (if h == s.tokens[x].flow then 1 else 0))
    && Spares(s, s', x, {})
  }

  lemma ParallelFires(g: Graph, at: Place, el: Element, s: Instance, x: TokenId, o: Oracle) returns (gone: set<TokenId>)
    requires ValidGraph(g) && ParallelAt(g, at, el) && Inv(g, s) && s.status.Running? && x in s.tokens
    requires s.tokens[x].state.Active? && StandsAt(s.tokens[x], at) && Fires(s, x, el)
    ensures MergeChoice(Arrive(s, x), x, gone) && x !in gone
    ensures var s2 := MergeInto(Arrive(s, x), x, gone);
      RouteParallel(g, s, x, el, o) == ForkAll(g, s2, x) && Leaves(s2, RouteParallel(g, s, x, el, o), x)
  {
    var s1 := Arrive(s, x);
    gone := Merged(s1, x, o);
    var s2 := MergeInto(s1, x, gone);
    ReadyStands(g, s, x);
    NoIterationHere(g, s, x);
    ForkLeaves(g, s2, x);
  }

  /** Every other incoming flow has a token waiting. */
  predicate Complete(s: Instance, at: Place, x: TokenId, incoming: seq<ElementId>)
    requires x in s.tokens
  {
    forall f :: f in incoming ==> f == s.tokens[x].flow || Over(s, at, f) != {}
  }

  lemma FiresWhen(s: Instance, x: TokenId, at: Place, el: Element)
    requires x in s.tokens && s.tokens[x].state.Active? && StandsAt(s.tokens[x], at)
    ensures Fires(s, x, el) <==> Complete(s, at, x, el.incoming)
  {
    var s1 := Arrive(s, x);
    forall f | f in el.incoming ensures ArrivedOver(s1, s1.tokens[x], f) <==> f == s.tokens[x].flow || Over(s, at, f) != {} {
      if f == s.tokens[x].flow {
        assert JoinsWith(s1.tokens[x], s1.tokens[x]);
      } else if Over(s, at, f) != {} {
        var u :| u in Over(s, at, f);
        assert s1.tokens[u] == s.tokens[u] && JoinsWith(s1.tokens[u], s1.tokens[x]);
      } else if ArrivedOver(s1, s1.tokens[x], f) {
        var u :| u in s1.tokens && JoinsWith(s1.tokens[u], s1.tokens[x]) && s1.tokens[u].flow == f;
        assert u != x;
        NothingOver(s, at, f, u);
      }
    }
  }

  lemma NothingOver(s: Instance, at: Place, f: ElementId, u: TokenId)
    requires Over(s, at, f) == {} && u in s.tokens && s.tokens[u].flow == f
    ensures !(s.tokens[u].state.Joining? && StandsAt(s.tokens[u], at))
  {
    assert u !in Over(s, at, f);
  }

  /** One waiting token of each flow but that of the arriving token. */
  ghost predicate OneOfEach(s: Instance, at: Place, x: TokenId, gone: set<TokenId>)
    requires x in s.tokens
  {
    && (forall u :: u in gone ==> u in AtJoin(s, at) && u != x && s.tokens[u].flow != s.tokens[x].flow)
    && (forall u :: u in AtJoin(s, at) && s.tokens[u].flow != s.tokens[x].flow ==>
          exists v :: v in gone && s.tokens[v].flow == s.tokens[u].flow)
    && (forall u, v :: u in gone && v in gone && s.tokens[u].flow == s.tokens[v].flow ==> u == v)
  }

  /** One waiting token of each other flow gone, the arriving one leaves over every flow there is. */
  ghost predicate ForksOn(g: Graph, s: Instance, s': Instance, at: Place, x: TokenId, el: Element)
    requires at.path in g && x in s.tokens
  {
    exists gone :: OneOfEach(s, at, x, gone)
      && Routing.Leaves(g, s.(tokens := s.tokens - gone), s', x, Routing.Filter(el.outgoing, Routing.AnyFlow(g[at.path])))
  }

  lemma FiringForks(g: Graph, s: Instance, x: TokenId, at: Place, el: Element, gone: set<TokenId>)
    requires Core(g, s) && x in s.tokens && s.tokens[x].state.Active? && StandsAt(s.tokens[x], at)
    requires HasElement(g, at.path, at.element) && g[at.path].elements[at.element] == el
    requires MergeChoice(Arrive(s, x), x, gone) && x !in gone
    ensures ForksOn(g, s, ForkAll(g, MergeInto(Arrive(s, x), x, gone), x), at, x, el)
  {
    var s1 := Arrive(s, x);
    var s2 := s.(tokens := s.tokens - gone);
    assert s1.tokens[x].(state := Active) == s.tokens[x];
    assert MergeInto(s1, x, gone).tokens == s2.tokens;
    assert MergeInto(s1, x, gone) == s2;
    OneOfEachGone(s, x, at, gone);
    CoreCounted(g, s);
    hide OneOfEach, MergeChoice, Core, Routing.Leaves, ForkAll;
    Routing.ForkEffect(g, s2, x, el);
  }

  lemma OneOfEachGone(s: Instance, x: TokenId, at: Place, gone: set<TokenId>)
    requires x in s.tokens && s.tokens[x].state.Active? && StandsAt(s.tokens[x], at)
    requires MergeChoice(Arrive(s, x), x, gone) && x !in gone
    ensures OneOfEach(s, at, x, gone)
  {
    var s1 := Arrive(s, x);
    forall u | u in s.tokens && u != x
      ensures s1.tokens[u] == s.tokens[u] && (JoinsWith(s1.tokens[u], s1.tokens[x]) <==> u in AtJoin(s, at))
    {
    }
    assert s1.tokens[x].flow == s.tokens[x].flow && x !in AtJoin(s, at) && s1.tokens.Keys == s.tokens.Keys;
    hide JoinsWith, Arrive, AtJoin;
    forall u | u in AtJoin(s, at) && u in s.tokens && s.tokens[u].flow != s.tokens[x].flow
      ensures exists v :: v in gone && s.tokens[v].flow == s.tokens[u].flow
    {
      var v :| v in gone && s1.tokens[v].flow == s1.tokens[u].flow;
      assert s.tokens[v].flow == s.tokens[u].flow;
    }
  }

  lemma CoreCounted(g: Graph, s: Instance)
    requires Core(g, s)
    ensures Routing.Counted(s)
  {
    forall u | u in s.tokens ensures u < s.nextId { assert TokenOk(g, s, u); }
  }

  /** The join fires exactly when every other flow has a token waiting. An arrival that does
      not fire waits; one that fires consumes one waiting token of each other flow, and nothing
      else anywhere, and forks over every flow out. */
  lemma ArrivalEffect(g: Graph, at: Place, el: Element, s: Instance, x: TokenId, o: Oracle, s': Instance)
    requires ValidGraph(g) && ParallelAt(g, at, el) && Arrives(g, at, el, s, x, o, s')
    ensures Fires(s, x, el) <==> Complete(s, at, x, el.incoming)
    ensures if Fires(s, x, el) then FiredAt(s, s', at, x, el.incoming) && ForksOn(g, s, s', at, x, el)
            else WaitsAt(s, s', at, x, el.incoming)
  {
    FiresWhen(s, x, at, el);
    if Fires(s, x, el) {
      var gone := ParallelFires(g, at, el, s, x, o);
      FiringForks(g, s, x, at, el, gone);
      FiredCounts(s, x, at, gone, s', el.incoming);
    } else {
      WaitCounts(s, x, at, el.incoming);
    }
  }

  lemma WaitSet(s: Instance, x: TokenId, at: Place, h: ElementId)
    requires x in s.tokens && s.tokens[x].state.Active? && StandsAt(s.tokens[x], at)
    ensures x !in Over(s, at, h)
    ensures h == s.tokens[x].flow ==> Over(Arrive(s, x), at, h) == Over(s, at, h) + {x}
    ensures h != s.tokens[x].flow ==> Over(Arrive(s, x), at, h) == Over(s, at, h)
  {
  }

  lemma WaitCount(s: Instance, x: TokenId, at: Place, h: ElementId)
    requires x in s.tokens && s.tokens[x].state.Active? && StandsAt(s.tokens[x], at)
    ensures |Over(Arrive(s, x), at, h)| == |Over(s, at, h)| + (if h == s.tokens[x].flow then 1 else 0)
  {
    WaitSet(s, x, at, h);
  }

  lemma WaitCounts(s: Instance, x: TokenId, at: Place, incoming: seq<ElementId>)
    requires x in s.tokens && s.tokens[x].state.Active? && StandsAt(s.tokens[x], at)
    ensures WaitsAt(s, Arrive(s, x), at, x, incoming)
  {
    forall h | h in incoming
      ensures |Over(Arrive(s, x), at, h)| == |Over(s, at, h)| + (if h == s.tokens[x].flow then 1 else 0)
    {
      WaitCount(s, x, at, h);
    }
  }

  lemma FiredCounts(s: Instance, x: TokenId, at: Place, gone: set<TokenId>, s': Instance, incoming: seq<ElementId>)
    requires x in s.tokens && s.tokens[x].state.Active? && StandsAt(s.tokens[x], at)
    requires MergeChoice(Arrive(s, x), x, gone) && x !in gone && Leaves(MergeInto(Arrive(s, x), x, gone), s', x)
    requires ParallelJoinReady(Arrive(s, x), Arrive(s, x).tokens[x], incoming)
    ensures FiredAt(s, s', at, x, incoming)
  {
    var s1 := Arrive(s, x);
    var s2 := MergeInto(s1, x, gone);
    assert forall u :: u in s.tokens && u != x && u !in gone ==> u in s2.tokens && s2.tokens[u] == s.tokens[u];
    forall h | h in incoming ensures |Over(s', at, h)| == |Over(s, at, h)| - (if h == s.tokens[x].flow then 0 else 1) {
      assert ArrivedOver(s1, s1.tokens[x], h);
      FiredCount(s, x, at, gone, s', h);
    }
    forall u | u in gone ensures u in AtJoin(s, at) {
      assert s1.tokens[u] == s.tokens[u];
    }
  }

  function Taken(s: Instance, gone: set<TokenId>, h: ElementId): set<TokenId> {
    set u | u in gone && u in s.tokens && s.tokens[u].flow == h
  }

  lemma FiredCount(s: Instance, x: TokenId, at: Place, gone: set<TokenId>, s': Instance, h: ElementId)
    requires x in s.tokens && s.tokens[x].state.Active? && StandsAt(s.tokens[x], at)
    requires MergeChoice(Arrive(s, x), x, gone) && x in s'.tokens && !s'.tokens[x].state.Joining?
    requires Spares(s, s', x, gone)
    requires forall u :: u in s'.tokens && (u !in s.tokens || u in gone) ==> !s'.tokens[u].state.Joining?
    requires ArrivedOver(Arrive(s, x), Arrive(s, x).tokens[x], h)
    ensures |Over(s', at, h)| == |Over(s, at, h)| - (if h == s.tokens[x].flow then 0 else 1)
  {
    var s1 := Arrive(s, x);
    assert forall u :: u in s.tokens && u != x ==> s1.tokens[u] == s.tokens[u];
    var taken := Taken(s, gone, h);
    forall u ensures u in Over(s', at, h) <==> u in Over(s, at, h) && u !in taken {
      if u in s.tokens && u != x && u !in gone {
        assert s'.tokens[u] == s.tokens[u];
      }
    }
    assert Over(s', at, h) == Over(s, at, h) - taken;
    TakenOne(s, x, at, gone, h);
  }

  lemma TakenOne(s: Instance, x: TokenId, at: Place, gone: set<TokenId>, h: ElementId)
    requires x in s.tokens && s.tokens[x].state.Active? && StandsAt(s.tokens[x], at)
    requires MergeChoice(Arrive(s, x), x, gone) && ArrivedOver(Arrive(s, x), Arrive(s, x).tokens[x], h)
    ensures Taken(s, gone, h) <= Over(s, at, h)
    ensures |Taken(s, gone, h)| == if h == s.tokens[x].flow then 0 else 1
  {
    var s1 := Arrive(s, x);
    assert forall u :: u in s.tokens && u != x ==> s1.tokens[u] == s.tokens[u];
    var taken := Taken(s, gone, h);
    if h != s.tokens[x].flow {
      var u :| u in s1.tokens && JoinsWith(s1.tokens[u], s1.tokens[x]) && s1.tokens[u].flow == h;
      assert u != x;
      var v :| v in gone && s1.tokens[v].flow == s1.tokens[u].flow;
      forall y | y in taken ensures y == v {
        assert s1.tokens[y].flow == s1.tokens[v].flow;
      }
      assert v in taken;
      SubsetOfOne(taken, v);
    } else {
      assert taken == {};
    }
  }

  // ---- many arrivals --------------------------------------------------------------------------

  datatype Move = Arrival(token: TokenId, o: Oracle) | Elsewhere

  /** Between arrivals anything may happen that leaves the waiting tokens alone. */
  ghost predicate MoveOk(g: Graph, at: Place, el: Element, s: Instance, m: Move, s': Instance) {
    match m
    case Arrival(x, o) => Arrives(g, at, el, s, x, o, s')
    case Elsewhere => AtJoin(s', at) == AtJoin(s, at) && forall u :: u in AtJoin(s, at) ==> s'.tokens[u] == s.tokens[u]
  }

  ghost predicate JoinRun(g: Graph, at: Place, el: Element, states: seq<Instance>, moves: seq<Move>) {
    && |states| == |moves| + 1 && AtJoin(states[0], at) == {}
    && forall n {:trigger MoveOk(g, at, el, states[n], moves[n], states[n + 1])} ::
         0 <= n < |moves| ==> MoveOk(g, at, el, states[n], moves[n], states[n + 1])
  }

  ghost predicate ArrivesOver(s: Instance, m: Move, f: ElementId) {
    m.Arrival? && m.token in s.tokens && s.tokens[m.token].flow == f
  }

  ghost function Arrivals(states: seq<Instance>, moves: seq<Move>, f: ElementId, n: nat): nat
    requires n <= |moves| < |states|
  {
    if n == 0 then 0 else Arrivals(states, moves, f, n - 1) + (if ArrivesOver(states[n - 1], moves[n - 1], f) then 1 else 0)
  }

  ghost function Firings(states: seq<Instance>, moves: seq<Move>, el: Element, n: nat): nat
    requires n <= |moves| < |states|
  {
    if n == 0 then 0
    else Firings(states, moves, el, n - 1)
         + (if moves[n - 1].Arrival? && moves[n - 1].token in states[n - 1].tokens && Fires(states[n - 1], moves[n - 1].token, el)
            then 1 else 0)
  }

  lemma ElsewhereCounts(s: Instance, s': Instance, at: Place, f: ElementId)
    requires AtJoin(s', at) == AtJoin(s, at) && forall u :: u in AtJoin(s, at) ==> s'.tokens[u] == s.tokens[u]
    ensures Over(s', at, f) == Over(s, at, f)
  {
  }

  /** A join that is not ready lacks a flow; one that is ready lacked only the arriving one. */
  lemma SomeFlowEmpty(g: Graph, at: Place, el: Element, s: Instance, x: TokenId, o: Oracle, s': Instance)
    requires ValidGraph(g) && ParallelAt(g, at, el) && Arrives(g, at, el, s, x, o, s')
    requires exists f :: f in el.incoming && Over(s, at, f) == {}
    ensures exists f :: f in el.incoming && Over(s', at, f) == {}
  {
    ArrivalEffect(g, at, el, s, x, o, s');
    if Fires(s, x, el) {
      var z :| z in el.incoming && Over(s, at, z) == {};
      LastFlowArrives(s, s', at, el, x, z);
    } else {
      SomeFlowMissing(s, s', at, el, x);
    }
  }

  /** A join that fires although nothing waited over `z` was only short of `z`. */
  lemma LastFlowArrives(s: Instance, s': Instance, at: Place, el: Element, x: TokenId, z: ElementId)
    requires x in s.tokens && StandsAt(s.tokens[x], at) && Fires(s, x, el) && FiredAt(s, s', at, x, el.incoming)
    requires z in el.incoming && Over(s, at, z) == {}
    ensures Over(s', at, z) == {}
  {
    var s1 := Arrive(s, x);
    assert ArrivedOver(s1, s1.tokens[x], z);
    var u :| u in s1.tokens && JoinsWith(s1.tokens[u], s1.tokens[x]) && s1.tokens[u].flow == z;
    assert u == x || u in Over(s, at, z);
    assert |Over(s', at, z)| == 0;
  }

  lemma SomeFlowMissing(s: Instance, s': Instance, at: Place, el: Element, x: TokenId)
    requires x in s.tokens && StandsAt(s.tokens[x], at) && !Fires(s, x, el) && s' == Arrive(s, x)
    ensures exists f :: f in el.incoming && Over(s', at, f) == {}
  {
    var s1 := Arrive(s, x);
    var z :| z in el.incoming && !ArrivedOver(s1, s1.tokens[x], z);
    forall u | u in s'.tokens && s'.tokens[u].state.Joining? && StandsAt(s'.tokens[u], at) ensures s'.tokens[u].flow != z {
      assert JoinsWith(s1.tokens[u], s1.tokens[x]);
    }
    assert Over(s', at, z) == {};
  }

  /** Tokens waiting over `f` are arrivals minus firings. */
  ghost predicate Conserved(states: seq<Instance>, moves: seq<Move>, at: Place, el: Element, f: ElementId, n: nat)
    requires n <= |moves| < |states|
  {
    |Over(states[n], at, f)| == Arrivals(states, moves, f, n) - Firings(states, moves, el, n)
  }

  lemma ConservedNext(g: Graph, at: Place, el: Element, states: seq<Instance>, moves: seq<Move>, n: nat, f: ElementId)
    requires ValidGraph(g) && ParallelAt(g, at, el) && n < |moves| < |states| && f in el.incoming
    requires MoveOk(g, at, el, states[n], moves[n], states[n + 1]) && Conserved(states, moves, at, el, f, n)
    ensures Conserved(states, moves, at, el, f, n + 1)
  {
    var s, s', m := states[n], states[n + 1], moves[n];
    if m.Arrival? {
      ArrivalEffect(g, at, el, s, m.token, m.o, s');
    } else {
      ElsewhereCounts(s, s', at, f);
    }
  }

  lemma EmptyNext(g: Graph, at: Place, el: Element, s: Instance, m: Move, s': Instance)
    requires ValidGraph(g) && ParallelAt(g, at, el) && MoveOk(g, at, el, s, m, s')
    requires exists f :: f in el.incoming && Over(s, at, f) == {}
    ensures exists f :: f in el.incoming && Over(s', at, f) == {}
  {
    if m.Arrival? {
      SomeFlowEmpty(g, at, el, s, m.token, m.o, s');
    } else {
      var f :| f in el.incoming && Over(s, at, f) == {};
      ElsewhereCounts(s, s', at, f);
    }
  }

  ghost predicate Drained(s: Instance, at: Place, el: Element) {
    exists f :: f in el.incoming && Over(s, at, f) == {}
  }

  ghost predicate Balanced(states: seq<Instance>, moves: seq<Move>, at: Place, el: Element, n: nat)
    requires n <= |moves| < |states|
  {
    (forall f :: f in el.incoming ==> Conserved(states, moves, at, el, f, n)) && Drained(states[n], at, el)
  }

  lemma BalancedNext(g: Graph, at: Place, el: Element, states: seq<Instance>, moves: seq<Move>, n: nat)
    requires ValidGraph(g) && ParallelAt(g, at, el) && JoinRun(g, at, el, states, moves) && n < |moves|
    requires Balanced(states, moves, at, el, n)
    ensures Balanced(states, moves, at, el, n + 1)
  {
    assert MoveOk(g, at, el, states[n], moves[n], states[n + 1]);
    EmptyNext(g, at, el, states[n], moves[n], states[n + 1]);
    forall f | f in el.incoming ensures Conserved(states, moves, at, el, f, n + 1) {
      ConservedNext(g, at, el, states, moves, n, f);
    }
  }

  lemma BalancedFirst(states: seq<Instance>, moves: seq<Move>, at: Place, el: Element)
    requires |states| > |moves| && AtJoin(states[0], at) == {} && el.incoming != []
    ensures Balanced(states, moves, at, el, 0)
  {
    forall f ensures Over(states[0], at, f) == {} {
    }
    assert el.incoming[0] in el.incoming;
  }

  /** Parallel join conservation: on every incoming flow the tokens left waiting are the
      arrivals minus the firings, and on some flow none waits. */
  lemma {:induction false} JoinConserves(g: Graph, at: Place, el: Element, states: seq<Instance>, moves: seq<Move>, n: nat)
    requires ValidGraph(g) && ParallelAt(g, at, el) && JoinRun(g, at, el, states, moves) && n <= |moves|
    ensures Balanced(states, moves, at, el, n)
    decreases n
  {
    if n == 0 {
      BalancedFirst(states, moves, at, el);
    } else {
      JoinConserves(g, at, el, states, moves, n - 1);
      BalancedNext(g, at, el, states, moves, n - 1);
    }
  }

  /** Firings are the minimum over the incoming flows of the arrivals. */
  lemma FiringsAreMinimum(g: Graph, at: Place, el: Element, states: seq<Instance>, moves: seq<Move>, n: nat)
    requires ValidGraph(g) && ParallelAt(g, at, el) && JoinRun(g, at, el, states, moves) && n <= |moves|
    ensures forall f :: f in el.incoming ==> Firings(states, moves, el, n) <= Arrivals(states, moves, f, n)
    ensures exists f :: f in el.incoming && Firings(states, moves, el, n) == Arrivals(states, moves, f, n)
  {
    JoinConserves(g, at, el, states, moves, n);
    var f :| f in el.incoming && Over(states[n], at, f) == {};
    assert |Over(states[n], at, f)| == 0;
    assert forall h :: h in el.incoming ==> Conserved(states, moves, at, el, h, n);
  }

  // ---- inclusive joins -------------------------------------------------------------------------

  lemma WalkExtends(c: Container, walk: seq<ElementId>, b: ElementId)
    requires walk != [] && IsWalk(c, walk) && Edge(c, walk[|walk| - 1], b)
    ensures IsWalk(c, walk + [b])
  {
    var w := walk + [b];
    forall n | 0 < n < |w| ensures Edge(c, w[n - 1], w[n]) {
      if n < |walk| {
        assert Edge(c, walk[n - 1], walk[n]);
      }
    }
  }

  lemma ReachesItself(c: Container, a: ElementId)
    ensures Reaches(c, a, a)
  {
    assert [a][|[a]| - 1] == a && IsWalk(c, [a]);
  }

  lemma ReachesFurther(c: Container, a: ElementId, b: ElementId, d: ElementId)
    requires Reaches(c, a, b) && Edge(c, b, d)
    ensures Reaches(c, a, d)
  {
    var walk :| walk != [] && walk[0] == a && walk[|walk| - 1] == b && IsWalk(c, walk);
    WalkExtends(c, walk, d);
    var w := walk + [d];
    assert w[0] == a && w[|w| - 1] == d;
  }

  /** A set closed under flows holds everything its members reach. */
  lemma {:induction false} ClosedHolds(c: Container, seen: set<ElementId>, walk: seq<ElementId>)
    requires walk != [] && walk[0] in seen && IsWalk(c, walk)
    requires forall a, b :: a in seen && Edge(c, a, b) ==> b in seen
    ensures walk[|walk| - 1] in seen
    decreases |walk|
  {
    if |walk| > 1 {
      var front := walk[..|walk| - 1];
      assert IsWalk(c, front) by {
        forall n | 0 < n < |front| ensures Edge(c, front[n - 1], front[n]) {
          assert Edge(c, walk[n - 1], walk[n]);
        }
      }
      ClosedHolds(c, seen, front);
      assert Edge(c, walk[|walk| - 1 - 1], walk[|walk| - 1]);
    }
  }

  function FlowTargets(c: Container): set<ElementId> {
    set f | f in c.flows :: c.flows[f].target
  }

  lemma SearchComplete(c: Container, from: ElementId, to: ElementId, seen: set<ElementId>)
    requires from in seen && to !in seen && forall a, b :: a in seen && Edge(c, a, b) ==> b in seen
    ensures !Reaches(c, from, to)
  {
    if Reaches(c, from, to) {
      var walk :| walk != [] && walk[0] == from && walk[|walk| - 1] == to && IsWalk(c, walk);
      ClosedHolds(c, seen, walk);
    }
  }

  /** What the search knows: everything seen is reachable, and waits in the queue unless its
      flows were followed. */
  ghost predicate Searching(c: Container, from: ElementId, to: ElementId, seen: set<ElementId>, queue: seq<ElementId>, done: set<ElementId>) {
    && from in seen && to !in seen && seen <= {from} + FlowTargets(c)
    && (forall a :: a in seen ==> Reaches(c, from, a))
    && (forall a :: a in seen <==> a in done || a in queue)
  }

  /** Follows the flows out of one element. */
  method Expand(c: Container, ghost from: ElementId, to: ElementId, cur: ElementId, seen0: set<ElementId>, queue0: seq<ElementId>,
                ghost done: set<ElementId>)
    returns (found: bool, seen: set<ElementId>, queue: seq<ElementId>)
    requires Searching(c, from, to, seen0, [cur] + queue0, done)
    ensures found ==> Reaches(c, from, to)
    ensures !found ==> Searching(c, from, to, seen, queue, done + {cur})
    ensures !found ==> seen0 <= seen && (seen == seen0 ==> queue == queue0)
    ensures !found ==> forall b :: Edge(c, cur, b) ==> b in seen
  {
    found, seen, queue := false, seen0, queue0;
    assert cur in [cur] + queue0;
    var next := NextFlows(c, cur);
    for i := 0 to |next|
      invariant !found && seen0 <= seen && (seen == seen0 ==> queue == queue0) && cur in seen
      invariant Searching(c, from, to, seen, queue, done + {cur})
      invariant forall f :: f in next[..i] && f in c.flows ==> c.flows[f].target in seen
    {
      var f := next[i];
      if f in c.flows && c.flows[f].target !in seen {
        var target := c.flows[f].target;
        assert Edge(c, cur, target);
        ReachesFurther(c, from, cur, target);
        if target == to {
          found := true;
          return;
        }
        seen := seen + {target};
        queue := queue + [target];
      }
    }
    assert next[..|next|] == next;
  }

  /** canReach: breadth-first search over flows. */
  method CanReach(c: Container, from: ElementId, to: ElementId) returns (found: bool)
    ensures found <==> Reaches(c, from, to)
  {
    ReachesItself(c, from);
    if from == to {
      return true;
    }
    var seen := {from};
    var queue := [from];
    ghost var done: set<ElementId> := {};
    while queue != []
      invariant Searching(c, from, to, seen, queue, done)
      invariant forall a, b :: a in done && Edge(c, a, b) ==> b in seen
      decreases {from} + FlowTargets(c) - seen, |queue|
    {
      var cur := queue[0];
      assert queue == [cur] + queue[1..];
      found, seen, queue := Expand(c, from, to, cur, seen, queue[1..], done);
      if found {
        return true;
      }
      done := done + {cur};
    }
    SearchComplete(c, from, to, seen);
    found := false;
  }

  /** No other token of the scope instance, nested ones seen at their sub-process, has a
      path to the gateway. */
  ghost predicate Unreachable(c: Container, s: Instance, x: TokenId, at: Place) {
    && (forall u :: u in s.tokens && u != x && u !in AtJoin(s, at) && s.tokens[u].path == at.path && s.tokens[u].owners == at.owners ==>
          !Reaches(c, s.tokens[u].element, at.element))
    && (forall u :: u in s.tokens && at.path < s.tokens[u].path && at.owners <= s.tokens[u].owners ==>
          !Reaches(c, s.tokens[u].path[|at.path|], at.element))
  }

  /** An inclusive join fires if and only if no token elsewhere in its scope instance can still
      reach it. It then consumes exactly the tokens waiting with the arriving one, which leaves
      over its open flows; otherwise the arriving token waits too and nothing else changes. */
  lemma InclusiveEffect(g: Graph, s: Instance, x: TokenId, el: Element, o: Oracle)
    requires ValidGraph(g) && Inv(g, s) && s.status.Running? && x in s.tokens && s.tokens[x].state.Active?
    requires ElementOf(g, s.tokens[x]) == Some(el) && el.etype.InclusiveGateway? && |el.incoming| > 1
    ensures var s' := RouteInclusive(g, s, x, el, o); var t := s.tokens[x]; var at := Place(t.element, t.path, t.owners);
      if Unreachable(g[t.path], s, x, at) then
        && AtJoin(s', at) == {} && Spares(s, s', x, AtJoin(s, at))
        && x !in AtJoin(s, at) && Routing.LeavesOver(g, s.(tokens := s.tokens - AtJoin(s, at)), s', x, el, o)
      else
        AtJoin(s', at) == AtJoin(s, at) + {x} && s' == s.(tokens := s.tokens[x := t.(state := TokenState.Joining)])
  {
    ReadyExactly(g, s, x);
    NoIterationHere(g, s, x);
    if InclusiveJoinReady(g, Arrive(s, x), x) {
      InclusiveFires(g, s, x, el, o);
    }
  }

  lemma InclusiveFires(g: Graph, s: Instance, x: TokenId, el: Element, o: Oracle)
    requires ValidGraph(g) && Core(g, s) && x in s.tokens && s.tokens[x].state.Active?
    requires ElementOf(g, s.tokens[x]) == Some(el) && !IsActivity(el)
    ensures var t := s.tokens[x]; var at := Place(t.element, t.path, t.owners);
      var s' := TakeOutgoing(g, MergeInto(Arrive(s, x), x, JoinedWith(Arrive(s, x), x)), x, o);
      && AtJoin(s', at) == {} && Spares(s, s', x, AtJoin(s, at))
      && x !in AtJoin(s, at) && Routing.LeavesOver(g, s.(tokens := s.tokens - AtJoin(s, at)), s', x, el, o)
  {
    var t := s.tokens[x];
    var s2 := MergeInto(Arrive(s, x), x, JoinedWith(Arrive(s, x), x));
    ReadyStands(g, s, x);
    NoIterationHere(g, s, x);
    JoinMerged(s, x);
    TakeLeaves(g, s2, x, o);
    JoinEmptied(s, x, TakeOutgoing(g, s2, x, o));
    CoreCounted(g, s);
    hide Core, ValidGraph, TakeOutgoing, JoinedWith, Routing.LeavesOver;
    Routing.TakeOutgoingEffect(g, s2, x, el, o);
  }

  lemma JoinMerged(s: Instance, x: TokenId)
    requires x in s.tokens && s.tokens[x].state.Active?
    ensures var t := s.tokens[x]; var at := Place(t.element, t.path, t.owners);
      x !in AtJoin(s, at) && MergeInto(Arrive(s, x), x, JoinedWith(Arrive(s, x), x)) == s.(tokens := s.tokens - AtJoin(s, at))
  {
    var t := s.tokens[x];
    var at := Place(t.element, t.path, t.owners);
    var s1 := Arrive(s, x);
    forall u ensures u in JoinedWith(s1, x) <==> u in AtJoin(s, at) {
      if u in s.tokens && u != x { assert s1.tokens[u] == s.tokens[u]; }
    }
    assert JoinedWith(s1, x) == AtJoin(s, at);
    assert s1.tokens[x].(state := Active) == t;
    assert MergeInto(s1, x, AtJoin(s, at)).tokens == s.tokens - AtJoin(s, at);
  }

  lemma JoinEmptied(s: Instance, x: TokenId, s': Instance)
    requires x in s.tokens && s.tokens[x].state.Active?
    requires Leaves(MergeInto(Arrive(s, x), x, JoinedWith(Arrive(s, x), x)), s', x)
    ensures var t := s.tokens[x]; var at := Place(t.element, t.path, t.owners);
      AtJoin(s', at) == {} && Spares(s, s', x, AtJoin(s, at))
  {
    var t := s.tokens[x];
    var s1 := Arrive(s, x);
    var s2 := MergeInto(s1, x, JoinedWith(s1, x));
    assert forall u :: u in s.tokens && u != x ==> s1.tokens[u] == s.tokens[u];
    forall u | u in s2.tokens && u != x ensures !(s2.tokens[u].state.Joining? && StandsAt(s2.tokens[u], Place(t.element, t.path, t.owners))) {
      assert u !in JoinedWith(s1, x);
    }
  }

  /** The readiness test, with its positions seen from the scope instance, comes out true
      exactly when nothing else can reach the gateway. */
  lemma ReadyExactly(g: Graph, s: Instance, x: TokenId)
    requires Core(g, s) && x in s.tokens && s.tokens[x].path in g && s.tokens[x].state.Active?
    ensures var t := s.tokens[x];
      InclusiveJoinReady(g, Arrive(s, x), x) <==> Unreachable(g[t.path], s, x, Place(t.element, t.path, t.owners))
  {
    var t := s.tokens[x];
    var s1 := Arrive(s, x);
    var at := Place(t.element, t.path, t.owners);
    assert TokenOk(g, s, x);
    forall u | u in s.tokens && u != x
      ensures s1.tokens[u] == s.tokens[u] && (JoinsWith(s1.tokens[u], s1.tokens[x]) <==> u in AtJoin(s, at))
      ensures |s.tokens[u].path| == |s.tokens[u].owners|
    {
      assert TokenOk(g, s, u);
    }
    hide Core, JoinsWith, AtJoin, Reaches;
  }

  /** Flow `f` leads out of `d`, a boundary event attached to `a`. */
  predicate BoundaryLeads(c: Container, a: ElementId, d: ElementId, f: ElementId) {
    && d in c.order && d in c.elements && c.elements[d].etype.BoundaryEvent? && c.elements[d].attachedTo == a
    && f in c.elements[d].outgoing
  }

  /** One step of the search: along a flow out of the element, or out of a boundary event
      attached to it. */
  lemma EdgeIs(c: Container, a: ElementId, b: ElementId)
    ensures Edge(c, a, b) <==>
      a in c.elements && exists f :: f in c.flows && c.flows[f].target == b
                                     && (f in c.elements[a].outgoing || exists d :: BoundaryLeads(c, a, d, f))
  {
    if a in c.elements {
      BoundariesExactly(c, c.order, a);
      forall f ensures f in NextFlows(c, a) <==> f in c.elements[a].outgoing || exists d :: BoundaryLeads(c, a, d, f) {
        OutgoingIs(c, Boundaries(c, a), f);
        if f in OutgoingOf(c, Boundaries(c, a)) {
          var d :| d in Boundaries(c, a) && d in c.elements && f in c.elements[d].outgoing;
          assert BoundaryLeads(c, a, d, f);
        }
        if exists d :: BoundaryLeads(c, a, d, f) {
          var d :| BoundaryLeads(c, a, d, f);
          assert d in Boundaries(c, a);
        }
      }
    }
  }

  lemma {:induction false} OutgoingIs(c: Container, ids: seq<ElementId>, f: ElementId)
    ensures f in OutgoingOf(c, ids) <==> exists d :: d in ids && d in c.elements && f in c.elements[d].outgoing
    decreases ids
  {
    if ids != [] {
      OutgoingIs(c, ids[1..], f);
      assert OutgoingOf(c, ids) == (if ids[0] in c.elements then c.elements[ids[0]].outgoing else []) + OutgoingOf(c, ids[1..]);
      if exists d :: d in ids && d in c.elements && f in c.elements[d].outgoing {
        var d :| d in ids && d in c.elements && f in c.elements[d].outgoing;
        assert d == ids[0] || d in ids[1..];
      }
    }
  }
}
