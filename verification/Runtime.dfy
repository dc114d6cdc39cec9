/** The engine's mutable run of one instance, proved against the functions of Engine. */
module Runtime {
  import opened StoreState
  import opened Bpmn
  import opened Instances
  import opened Engine
  import opened ScopeTree
  import opened Sweeps
  import Completion
  import Errors
  import Joins
  import Moves
  import Steps
  import Triggers

  /** No token stands deeper. */
  ghost predicate Bounded(s: Instance, depth: nat) {
    forall u :: u in s.tokens ==> |s.tokens[u].path| <= depth
  }

  lemma {:induction false} DepthExists(ids: set<TokenId>, tokens: map<TokenId, Token>) returns (depth: nat)
    requires ids <= tokens.Keys
    ensures forall u :: u in ids ==> |tokens[u].path| <= depth
    decreases ids
  {
    if ids == {} {
      depth := 0;
    } else {
      var u :| u in ids;
      var rest := DepthExists(ids - {u}, tokens);
      depth := if |tokens[u].path| > rest then |tokens[u].path| else rest;
    }
  }

  lemma BoundExists(s: Instance) returns (depth: nat)
    ensures Bounded(s, depth)
  {
    depth := DepthExists(s.tokens.Keys, s.tokens);
  }

  /** Flows chosen so far, then whatever the rest of the scan chooses. */
  function Prepend(flows: seq<ElementId>, rest: Option<seq<ElementId>>): Option<seq<ElementId>> {
    if rest.None? then None else Some(flows + rest.value)
  }

  lemma PrependNothing(rest: Option<seq<ElementId>>)
    ensures Prepend([], rest) == rest
  {
    if rest.Some? {
      assert [] + rest.value == rest.value;
    }
  }

  lemma PrependOne(flows: seq<ElementId>, f: ElementId, rest: Option<seq<ElementId>>)
    ensures Prepend(flows + [f], rest) == Prepend(flows, if rest.None? then None else Some([f] + rest.value))
  {
    if rest.Some? {
      assert flows + [f] + rest.value == flows + ([f] + rest.value);
    }
  }

  lemma CountedFlat(g: Graph, s: Instance, s': Instance, id: TokenId)
    requires Flat(g, s) && s'.tokens == s.tokens - {id} && s'.multi.Keys <= s.multi.Keys
    ensures Flat(g, s')
  {
    FlatShrinks(g, s, s');
  }

  /** What finishMultiInstance cancels, iteration by iteration. */
  lemma StragglersSwept(g: Graph, s: Instance, coord: TokenId)
    requires Flat(g, s) && coord in s.tokens && coord in s.multi
    ensures coord !in Stragglers(g, s, coord) && LoopSet(g, s, coord) == Stragglers(g, s, coord)
    ensures Midway(s, {}, LoopSet(g, s, coord))
            == Sweep(s, Stragglers(g, s, coord) - {coord}, Stragglers(g, s, coord) - {coord})
  {
    assert FlatToken(g, s, coord);
    forall c | c in s.tokens && s.tokens[c].parent == coord ensures !InIteration(g, s, c, s.tokens[coord]) {
      assert FlatToken(g, s, c);
    }
    var kill := Stragglers(g, s, coord);
    assert kill - {coord} == kill && {} + kill == kill;
  }

  lemma LoopEnded(g: Graph, s: Instance, s1: Instance, coord: TokenId)
    requires Flat(g, s) && coord in s.tokens && coord in s.multi
    requires s1 == Midway(s, {}, LoopSet(g, s, coord))
    ensures coord in s1.tokens
    ensures SetToken(s1.(multi := s1.multi - {coord}), coord, s1.tokens[coord].(state := Active, ref := NoRef))
         == Completion.LoopOver(g, s, coord)
  {
    StragglersSwept(g, s, coord);
  }

  lemma LoopEndedShrinks(g: Graph, s: Instance, coord: TokenId)
    requires coord in s.tokens
    ensures |Completion.LoopOver(g, s, coord).tokens| <= |s.tokens|
  {
    var kill := Stragglers(g, s, coord) - {coord};
    SweepShrinks(s, kill);
    var left := s.tokens - kill;
    var t := left[coord].(state := Active, ref := NoRef);
    assert left[coord := t].Keys == left.Keys;
    assert |left[coord := t]| == |left[coord := t].Keys| && |left| == |left.Keys|;
  }

  lemma RouteParallelIs(g: Graph, s: Instance, id: TokenId, el: Element, o: Oracle, gone: set<TokenId>)
    requires id in s.tokens && |el.incoming| > 1
    ensures !ParallelJoinReady(Arrive(s, id), Arrive(s, id).tokens[id], el.incoming) ==>
      RouteParallel(g, s, id, el, o) == Arrive(s, id)
    ensures ParallelJoinReady(Arrive(s, id), Arrive(s, id).tokens[id], el.incoming)
            && MergeChoice(Arrive(s, id), id, gone) && id !in gone ==>
      RouteParallel(g, s, id, el, o.(gone := gone)) == Engine.ForkAll(g, MergeInto(Arrive(s, id), id, gone), id)
  {
  }

  /** One level of the walk outward. */
  lemma PropagateIs(g: Graph, s: Instance, path: Path, owners: seq<TokenId>, code: nat)
    requires |path| == |owners|
    ensures var handler := if path in g then ErrorSub(g, path, code) else None;
      && (handler.Some? ==>
            Propagate(g, s, path, owners, code)
            == Spawn(KillScope(s, path, owners, handler.value.sub), handler.value.start,
                     path + [handler.value.sub], owners + [0], 0, 0, 0))
      && (handler.None? && path == [] ==> Propagate(g, s, path, owners, code) == Unhandled(s))
      && (handler.None? && path != [] ==>
            var n := |path| - 1;
            var boundary := if path in g && path[..n] in g then ErrorBoundary(g[path[..n]], path[n], code) else None;
            Propagate(g, s, path, owners, code) ==
              if boundary.Some? then CaughtAtBoundary(g, s, path, owners, boundary.value)
              else Propagate(g, s, path[..n], owners[..n], code))
  {
  }

  /** Nothing at this level catches: propagation goes on one scope further out. */
  ghost predicate Passes(g: Graph, s: Instance, path: Path, owners: seq<TokenId>, code: nat)
    requires |path| == |owners|
  {
    Propagate(g, s, path, owners, code) ==
      if path == [] then Unhandled(s) else Propagate(g, s, path[..|path| - 1], owners[..|path| - 1], code)
  }

  lemma ParkedFlat(g: Graph, s: Instance, s': Instance, id: TokenId)
    requires Flat(g, s) && TokensBelow(s) && id in s.tokens && OnlyParks(s, s', id)
    ensures Flat(g, s') && TokensBelow(s')
  {
    FlatShrinks(g, s, s');
  }

  lemma SameOracle(o: Oracle)
    ensures o.(gone := o.gone) == o
  {
  }

  // ---- draining ----------------------------------------------------------------------------------

  const MAX_STEPS := 100000

  ghost predicate IsLowest(s: Instance, u: TokenId) {
    && u in s.tokens && s.tokens[u].state.Active?
    && forall v :: v in s.tokens && s.tokens[v].state.Active? ==> u <= v
  }

  ghost function Lowest(s: Instance): Option<TokenId> {
    if exists u :: IsLowest(s, u) then
      var u :| IsLowest(s, u);
      Some(u)
    else None
  }

  lemma LowestIs(s: Instance, next: Option<TokenId>)
    requires next.Some? ==> IsLowest(s, next.value)
    requires next.None? ==> forall u :: u in s.tokens ==> !s.tokens[u].state.Active?
    ensures next == Lowest(s)
  {
  }

  /** The lowest active token takes its step; merges may pick any of several tokens. */
  ghost predicate DrainStep(g: Graph, s: Instance, s': Instance, o: Oracle) {
    && s.status.Running? && Lowest(s).Some?
    && var x := Lowest(s).value;
       && |s.tokens[x].path| == |s.tokens[x].owners|
       && exists gone :: s' == Engine.Step(g, s, x, o.(gone := gone))
  }

  ghost predicate IsDrain(g: Graph, s: Instance, t: seq<Instance>, answers: nat -> Oracle) {
    |t| >= 1 && t[0] == s && forall n :: 0 <= n < |t| - 1 ==> DrainStep(g, t[n], t[n + 1], answers(n))
  }

  ghost predicate AnsweredWell(g: Graph, s: Instance, o: Oracle) {
    Lowest(s).Some? ==> Steps.StepAnswers(g, s, Lowest(s).value, o)
  }

  lemma DrainExtends(g: Graph, s: Instance, t: seq<Instance>, answers: nat -> Oracle, s': Instance, gone: set<TokenId>)
    requires IsDrain(g, s, t, answers)
    requires var last := t[|t| - 1];
      && last.status.Running? && Lowest(last).Some?
      && |last.tokens[Lowest(last).value].path| == |last.tokens[Lowest(last).value].owners|
      && s' == Engine.Step(g, last, Lowest(last).value, answers(|t| - 1).(gone := gone))
    ensures IsDrain(g, s, t + [s'], answers)
  {
    var t' := t + [s'];
    forall n | 0 <= n < |t'| - 1 ensures DrainStep(g, t'[n], t'[n + 1], answers(n)) {
      if n < |t| - 1 {
        assert DrainStep(g, t[n], t[n + 1], answers(n));
      }
    }
  }

  lemma ActiveDoes(g: Graph, s: Instance, x: TokenId)
    requires Inv(g, s) && s.status.Running? && x in s.tokens
    ensures s.tokens[x].path in g && |s.tokens[x].path| == |s.tokens[x].owners| && Flat(g, s) && TokensBelow(s)
  {
    CoreIsFlat(g, s);
    assert TokenOk(g, s, x);
    forall u | u in s.tokens ensures u < s.nextId {
      assert TokenOk(g, s, u);
    }
  }

  class Run {
    const g: Graph
    var tokens: map<TokenId, Token>
    var multi: map<TokenId, MultiState>
    var status: Status
    var suspended: bool
    var waits: map<nat, WaitRecord>
    var events: map<nat, EventRecord>
    var incidents: map<nat, TokenId>
    var cancelled: set<nat>
    var nextId: nat

    ghost function View(): Instance
      reads this
    {
      Assemble(tokens, multi, status, suspended, waits, events, incidents, cancelled, nextId)
    }

    constructor (g: Graph, s: Instance)
      ensures this.g == g && View() == s
    {
      this.g := g;
      tokens, multi, status, suspended := s.tokens, s.multi, s.status, s.suspended;
      waits, events, incidents, cancelled, nextId := s.waits, s.events, s.incidents, s.cancelled, s.nextId;
    }

    // ---- cancellation ---------------------------------------------------------------------------

    /** dropTokenEventWaits: deletes the token's jobs and subscriptions one by one. */
    method DropTokenEventWaits(id: TokenId)
      modifies this`events
      ensures View() == DropEvents(old(View()), id)
    {
      var todo := events.Keys;
      while todo != {}
        invariant todo <= old(events).Keys
        invariant events.Keys <= old(events).Keys && forall e :: e in events ==> events[e] == old(events)[e]
        invariant forall e :: e in old(events) ==> (e in events <==> e in todo || old(events)[e].token != id)
        decreases todo
      {
        var e :| e in todo;
        todo := todo - {e};
        if events[e].token == id {
          events := events - {e};
        }
      }
      assert events == DropEvents(old(View()), id).events;
    }

    /** The record a token waits on, by its state: the first half of cancelWaits. */
    method ReleaseWait(id: TokenId)
      requires id in tokens
      modifies this`waits, this`events, this`cancelled
      ensures View() == Sweep(old(View()), {id}, {}).(multi := old(multi))
    {
      var t := tokens[id];
      match t.state {
        case WaitTask => CloseIfOpen(id, TaskWait);
        case WaitExternal => CloseIfOpen(id, ExternalWait);
        case WaitAgent => CloseIfOpen(id, AgentWait);
        case WaitTimer | WaitRetry | WaitMessage | WaitSignal =>
          if t.ref.RecordRef? {
            events := events - {t.ref.id};
          }
        case WaitChild =>
          if t.ref.RecordRef? {
            cancelled := cancelled + {t.ref.id};
            assert ChildrenOf(old(View()), {id}) == {t.ref.id};
          }
        case _ =>
      }
      assert cancelled == old(cancelled) + ChildrenOf(old(View()), {id});
      assert forall e :: e in events <==> e in old(events) && !AwaitsEvent(t, e);
      DropTokenEventWaits(id);
      SweptOne(old(View()), View(), id);
    }

    method CloseIfOpen(id: TokenId, kind: WaitKind)
      requires id in tokens && tokens[id].state == StateFor(kind)
      modifies this`waits
      ensures waits.Keys == old(waits).Keys
      ensures forall w :: w in waits ==>
        waits[w] == if Awaits(tokens[id], old(waits)[w].kind, w) then old(waits)[w].(open := false) else old(waits)[w]
    {
      var ref := tokens[id].ref;
      if ref.RecordRef? && ref.id in waits && waits[ref.id].kind == kind && waits[ref.id].open {
        waits := waits[ref.id := waits[ref.id].(open := false)];
      }
    }

    /** cancelWaits: releases the token's wait and, for a loop coordinator, cancels and removes
        every iteration. */
    method CancelWaits(id: TokenId, ghost depth: nat)
      requires id in tokens && Flat(g, View()) && Bounded(View(), depth)
      modifies this
      ensures View() == Instances.CancelWaits(g, old(View()), id)
      decreases depth + 1 - |tokens[id].path|, if id in multi then 3 else 1, 1
    {
      ReleaseWait(id);
      if id in multi {
        MidwayStart(old(View()), {id});
        CancelIterations(id, depth, old(View()), {id});
        multi := multi - {id};
      }
      LoopReleased(g, old(View()), id);
    }

    /** The loop of cancelWaits over the coordinator's iterations. */
    method CancelIterations(id: TokenId, ghost depth: nat, ghost s: Instance, ghost first: set<TokenId>)
      requires Flat(g, s) && Bounded(s, depth) && id in s.tokens && id in s.multi && View() == Midway(s, first, {})
      modifies this
      ensures View() == Midway(s, first, LoopSet(g, s, id))
      decreases depth + 1 - |s.tokens[id].path|, 3, 0
    {
      ghost var gone: set<TokenId> := {};
      assert FlatToken(g, s, id);
      var todo := tokens.Keys;
      while todo != {}
        invariant todo <= s.tokens.Keys && gone <= Stragglers(g, s, id) && id !in gone
        invariant View() == Midway(s, first, gone)
        invariant forall c :: c in gone && s.tokens[c].parent == id ==> c !in todo
        invariant forall c :: c in s.tokens && s.tokens[c].parent == id ==> c in todo || Iteration(g, s, c) <= gone
        decreases todo
      {
        var ch :| ch in todo;
        todo := todo - {ch};
        if ch in tokens && tokens[ch].parent == id {
          MidwayFlat(g, s, first, gone);
          assert FlatToken(g, s, ch);
          CancelActivity(ch, depth);
          tokens := tokens - {ch};
          IterationSwept(g, s, id, first, gone, ch);
          IterationLooped(g, s, id, ch);
          gone := gone + Iteration(g, s, ch);
        }
      }
      LoopPieces(g, s, id, gone);
    }

    /** cancelActivity: releases the activity's wait and empties the scope it opened. */
    method CancelActivity(id: TokenId, ghost depth: nat)
      requires id in tokens && Flat(g, View()) && Bounded(View(), depth)
      modifies this
      ensures View() == Instances.CancelActivity(g, old(View()), id)
      decreases depth + 1 - |tokens[id].path|, if id in multi then 4 else 2, 1
    {
      ghost var s := View();
      var t := tokens[id];
      assert FlatToken(g, s, id);
      ghost var looped := LoopSet(g, s, id);
      CancelWaits(id, depth);
      if StandsOnSub(g, t) {
        SweepFlat(g, s, {id} + looped, looped);
        KillScopeTokens(t.path + [t.element], t.owners + [id], 0, depth);
        ActivityPieces(g, s, id);
      } else {
        assert ActivitySet(g, s, id) == looped;
      }
    }

    /** killScopeTokens: in whatever order the tokens of the scope come up, each is released
        and removed, unless it went with one before it. */
    method KillScopeTokens(path: Path, owners: seq<TokenId>, exclude: ElementId, ghost depth: nat)
      requires Flat(g, View()) && Bounded(View(), depth) && |path| == |owners| <= depth + 1
      requires exclude != 0 ==> HasElement(g, path, exclude) && IsEventSub(g[path].elements[exclude])
      modifies this
      ensures View() == KillScope(old(View()), path, owners, exclude)
      decreases depth + 1 - |path|, 5, 1
    {
      ghost var s := View();
      ghost var gone: set<TokenId> := {};
      SweepNothing(s);
      var todo := tokens.Keys;
      while todo != {}
        invariant todo <= s.tokens.Keys && gone <= ScopeSet(s, path, owners, exclude)
        invariant View() == Sweep(s, gone, gone)
        invariant forall u :: u in ScopeSet(s, path, owners, exclude) ==> u in todo || u in gone
        decreases todo
      {
        var id :| id in todo;
        todo := todo - {id};
        if id in tokens && Doomed(tokens[id], path, owners, exclude) {
          ScopeStep(g, s, path, owners, exclude, gone, id);
          ghost var looped := LoopSet(g, View(), id);
          CancelWaits(id, depth);
          tokens := tokens - {id};
          gone := gone + {id} + looped;
        }
      }
      assert gone == ScopeSet(s, path, owners, exclude);
    }

    // ---- small mutations -------------------------------------------------------------------------

    method SpawnToken(element: ElementId, path: Path, owners: seq<TokenId>, parent: TokenId, miChild: ElementId, loop: nat)
      returns (id: TokenId)
      modifies this`tokens, this`nextId
      ensures View() == Spawn(old(View()), element, path, owners, parent, miChild, loop) && id == old(nextId)
    {
      id := nextId;
      nextId := nextId + 1;
      tokens := tokens[id := Token(element, Active, path, owners, 0, NoRef, parent, miChild, loop)];
    }

    method RaiseIncident(id: TokenId)
      modifies this`tokens, this`incidents, this`nextId
      ensures View() == Instances.RaiseIncident(old(View()), id)
    {
      var incident := nextId;
      nextId := nextId + 1;
      incidents := incidents[incident := id];
      if id in tokens {
        tokens := tokens[id := tokens[id].(state := WaitRetry, ref := RecordRef(incident))];
      }
    }

    method PutRecord(kind: RecordKind, token: TokenId, element: ElementId) returns (e: nat)
      modifies this`events, this`nextId
      ensures View() == Register(old(View()), kind, token, element) && e == old(nextId)
    {
      e := nextId;
      nextId := nextId + 1;
      events := events[e := EventRecord(kind, token, element)];
    }

    method ParkOnJob(id: TokenId)
      requires id in tokens
      modifies this`tokens, this`events, this`nextId
      ensures View() == Engine.ParkOnJob(old(View()), id)
    {
      var job := PutRecord(WorkJob, id, tokens[id].element);
      tokens := tokens[id := tokens[id].(state := WaitRetry, ref := RecordRef(job))];
    }

    method OpenWait(id: TokenId, kind: WaitKind)
      requires id in tokens
      modifies this`tokens, this`waits, this`nextId
      ensures View() == Instances.OpenWait(old(View()), id, kind)
    {
      var w := nextId;
      nextId := nextId + 1;
      waits := waits[w := WaitRecord(kind, id, true)];
      tokens := tokens[id := tokens[id].(state := StateFor(kind), ref := RecordRef(w))];
    }

    // ---- moving over flows -----------------------------------------------------------------------

    method MaybeAsync(id: TokenId)
      requires id in tokens
      modifies this`tokens, this`events, this`nextId
      ensures View() == Engine.MaybeAsync(g, old(View()), id)
    {
      var t := tokens[id];
      if HasElement(g, t.path, t.element) && g[t.path].elements[t.element].resumable {
        ParkOnJob(id);
      }
    }

    method SpawnSibling(t: Token, f: ElementId, ghost id: TokenId)
      requires id in tokens && id < nextId
      modifies this`tokens, this`events, this`nextId
      ensures View() == OneSibling(g, old(View()), t, f)
      ensures id in tokens && tokens[id] == old(tokens)[id] && id < nextId
    {
      var sib := SpawnToken(TargetOf(g, t.path, f), t.path, t.owners, t.parent, t.miChild, t.loop);
      tokens := tokens[sib := tokens[sib].(flow := f)];
      MaybeAsync(sib);
    }

    /** moveOver: siblings for the further flows first, then the token itself. */
    method MoveOver(id: TokenId, flows: seq<ElementId>)
      requires id in tokens && id < nextId && flows != []
      modifies this`tokens, this`events, this`nextId
      ensures View() == Engine.MoveOver(g, old(View()), id, flows)
    {
      var t := tokens[id];
      ghost var s := View();
      for i := 1 to |flows|
        invariant id in tokens && tokens[id] == t && id < nextId
        invariant SpawnSiblings(g, View(), t, flows[i..]) == SpawnSiblings(g, s, t, flows[1..])
      {
        assert flows[i..][0] == flows[i] && flows[i..][1..] == flows[i + 1..];
        SpawnSibling(t, flows[i], id);
      }
      tokens := tokens[id := t.(element := TargetOf(g, t.path, flows[0]), flow := flows[0], state := Active, ref := NoRef)];
      MaybeAsync(id);
    }

    /** Evaluates flow conditions in order; None if one fails. */
    method ChooseFlows(c: Container, el: Element, o: Oracle) returns (chosen: Option<seq<ElementId>>)
      ensures chosen == SelectFlows(c, el.outgoing, el.defaultFlow, o)
    {
      var flows: seq<ElementId> := [];
      assert el.outgoing[0..] == el.outgoing;
      PrependNothing(SelectFlows(c, el.outgoing, el.defaultFlow, o));
      for i := 0 to |el.outgoing|
        invariant SelectFlows(c, el.outgoing, el.defaultFlow, o)
                  == Prepend(flows, SelectFlows(c, el.outgoing[i..], el.defaultFlow, o))
      {
        var f := el.outgoing[i];
        assert el.outgoing[i..][0] == f && el.outgoing[i..][1..] == el.outgoing[i + 1..];
        PrependOne(flows, f, SelectFlows(c, el.outgoing[i + 1..], el.defaultFlow, o));
        if f in c.flows && f != el.defaultFlow {
          if !c.flows[f].conditional {
            flows := flows + [f];
          } else if o.cond(f).Fails? {
            return None;
          } else if o.cond(f).Yes? {
            flows := flows + [f];
          }
        }
      }
      assert el.outgoing[|el.outgoing|..] == [] && flows + [] == flows;
      chosen := Some(flows);
    }

    method TakeOutgoing(id: TokenId, o: Oracle)
      requires id in tokens && id < nextId
      modifies this
      ensures View() == Engine.TakeOutgoing(g, old(View()), id, o)
    {
      var t := tokens[id];
      if HasElement(g, t.path, t.element) {
        var c, el := g[t.path], g[t.path].elements[t.element];
        var chosen := ChooseFlows(c, el, o);
        if chosen.None? {
          RaiseIncident(id);
        } else {
          var flows := WithDefault(c, el, chosen.value);
          if flows == [] {
            RaiseIncident(id);
          } else {
            MoveOver(id, flows);
          }
        }
      }
    }

    method ExclusiveGateway(id: TokenId, o: Oracle)
      requires id in tokens && id < nextId && HasElement(g, tokens[id].path, tokens[id].element)
      modifies this
      ensures View() == RouteExclusive(g, old(View()), id, o)
    {
      var c := g[tokens[id].path];
      var el := c.elements[tokens[id].element];
      var i := 0;
      var taken: seq<ElementId> := [];
      while i < |el.outgoing| && taken == []
        invariant i <= |el.outgoing| && View() == old(View())
        invariant taken == [] ==> FirstTrue(c, el.outgoing, el.defaultFlow, o) == FirstTrue(c, el.outgoing[i..], el.defaultFlow, o)
        invariant taken != [] ==> FirstTrue(c, el.outgoing, el.defaultFlow, o) == Some(taken)
      {
        var f := el.outgoing[i];
        if f in c.flows && f != el.defaultFlow {
          if !c.flows[f].conditional || o.cond(f).Yes? {
            taken := [f];
          } else if o.cond(f).Fails? {
            RaiseIncident(id);
            return;
          }
        }
        i := i + 1;
      }
      var flows := WithDefault(c, el, taken);
      if flows == [] {
        RaiseIncident(id);
      } else {
        MoveOver(id, flows);
      }
    }

    method ForkAll(id: TokenId)
      requires id in tokens && id < nextId && HasElement(g, tokens[id].path, tokens[id].element)
      modifies this
      ensures View() == Engine.ForkAll(g, old(View()), id)
    {
      var c := g[tokens[id].path];
      var el := c.elements[tokens[id].element];
      var flows: seq<ElementId> := [];
      for i := 0 to |el.outgoing|
        invariant View() == old(View()) && el.outgoing[0..] == el.outgoing
        invariant ExistingFlows(c, el.outgoing) == flows + ExistingFlows(c, el.outgoing[i..])
      {
        assert el.outgoing[i..][0] == el.outgoing[i] && el.outgoing[i..][1..] == el.outgoing[i + 1..];
        if el.outgoing[i] in c.flows {
          flows := flows + [el.outgoing[i]];
        }
      }
      assert el.outgoing[|el.outgoing|..] == [] && flows + [] == flows;
      if flows == [] {
        RaiseIncident(id);
      } else {
        MoveOver(id, flows);
      }
    }

    // ---- completing activities and scopes ---------------------------------------------------------

    method Busy(path: Path, owners: seq<TokenId>) returns (busy: bool)
      ensures busy <==> ScopeBusy(View(), path, owners)
    {
      var todo := tokens.Keys;
      while todo != {}
        invariant todo <= tokens.Keys
        invariant forall u :: u in tokens && u !in todo ==> !InScope(tokens[u], path, owners)
        decreases todo
      {
        var u :| u in todo;
        if InScope(tokens[u], path, owners) {
          return true;
        }
        todo := todo - {u};
      }
      busy := false;
    }

    method Consume(id: TokenId, o: Oracle)
      requires id in tokens && |tokens[id].path| == |tokens[id].owners| && Flat(g, View()) && TokensBelow(View())
      modifies this
      ensures View() == Engine.Consume(g, old(View()), id, o)
    {
      var t := tokens[id];
      tokens := tokens - {id};
      FlatShrinks(g, old(View()), View());
      CheckScope(t.path, t.owners, o);
    }

    /** checkScope. */
    method CheckScope(path: Path, owners: seq<TokenId>, o: Oracle)
      requires |path| == |owners| && Flat(g, View()) && TokensBelow(View())
      modifies this
      ensures View() == Engine.CheckScope(g, old(View()), path, owners, o)
      decreases |tokens|, 2, |path|
    {
      var busy := Busy(path, owners);
      if busy {
        return;
      }
      if path == [] {
        if tokens == map[] {
          CompleteInstance();
        }
        return;
      }
      var n := |path| - 1;
      if path[..n] !in g {
        return;
      }
      var el := ElementAt(g, path[..n], path[n]);
      if el.Some? && el.value.triggeredByEvent {
        CheckScope(path[..n], owners[..n], o);
      } else {
        var owner := owners[n];
        if owner != 0 && owner in tokens && tokens[owner].element == path[n] && tokens[owner].state.WaitChild? {
          DropTokenEventWaits(owner);
          FlatShrinks(g, old(View()), View());
          CompleteActivity(owner, o);
        } else {
          CheckScope(path[..n], owners[..n], o);
        }
      }
    }

    /** completeActivity. */
    method CompleteActivity(id: TokenId, o: Oracle)
      requires id in tokens && Flat(g, View()) && TokensBelow(View())
      modifies this
      ensures View() == Engine.CompleteActivity(g, old(View()), id, o)
      decreases |tokens|, 1, 1
    {
      var t := tokens[id];
      assert FlatToken(g, View(), id);
      if t.parent != 0 && t.parent in multi && IsMIChild(t) {
        MiChildCompleted(id, o);
      } else {
        DropTokenEventWaits(id);
        TakeOutgoing(id, o);
      }
    }

    /** miChildCompleted. */
    method MiChildCompleted(id: TokenId, o: Oracle)
      requires id in tokens && Flat(g, View()) && TokensBelow(View())
      modifies this
      ensures View() == Engine.MiChildCompleted(g, old(View()), id, o)
      decreases |tokens|, 1, 0
    {
      var t := tokens[id];
      var p := t.parent;
      DeletedSmaller(View(), id);
      tokens := tokens - {id};
      var el := ElementOf(g, t);
      if p !in multi || p !in tokens || el.None? || el.value.multi.None? {
        return;
      }
      var spec := el.value.multi.value;
      if spec.hasOutput {
        if !o.outputOk {
          RaiseIncident(p);
          return;
        }
        multi := multi[p := multi[p].(outputs := multi[p].outputs + 1)];
      }
      multi := multi[p := multi[p].(completed := multi[p].completed + 1)];
      CountedFlat(g, old(View()), View(), id);
      assert multi == old(multi)[p := old(multi)[p].(outputs := old(multi)[p].outputs + (if spec.hasOutput then 1 else 0),
                                                     completed := old(multi)[p].completed + 1)];
      AfterCount(p, spec, o);
    }

    method AfterCount(coord: TokenId, spec: MultiSpec, o: Oracle)
      requires coord in tokens && coord in multi && Flat(g, View()) && TokensBelow(View())
      modifies this
      ensures View() == Engine.AfterCount(g, old(View()), coord, spec, o)
      decreases |tokens|, 3, 0
    {
      var m := multi[coord];
      if spec.hasCondition && o.done.Fails? {
        RaiseIncident(coord);
      } else if (spec.hasCondition && o.done.Yes?) || m.completed >= m.total {
        FinishMultiInstance(coord, o);
      } else if spec.sequential && m.nextIndex < m.total {
        SpawnMIChild(coord, m.nextIndex);
        multi := multi[coord := m.(nextIndex := m.nextIndex + 1)];
      }
    }

    method SpawnMIChild(coord: TokenId, index: nat)
      requires coord in tokens
      modifies this`tokens, this`nextId
      ensures View() == SpawnIteration(g, old(View()), coord, index)
    {
      var c := tokens[coord];
      var _ := SpawnToken(c.element, c.path, c.owners, coord, c.element, index);
    }

    /** finishMultiInstance: cancels stragglers, drops the loop entry and moves on. */
    method FinishMultiInstance(coord: TokenId, o: Oracle)
      requires coord in tokens && coord in multi && Flat(g, View()) && TokensBelow(View())
      modifies this
      ensures View() == FinishMulti(g, old(View()), coord, o)
      decreases |tokens|, 2, 0
    {
      ghost var s := View();
      EndLoop(coord);
      LoopEndedShrinks(g, s, coord);
      Completion.FinishMultiIs(g, s, coord, o);
      if !o.outputsOk(coord) {
        RaiseIncident(coord);
      } else {
        DropTokenEventWaits(coord);
        FlatShrinks(g, s, View());
        CompleteActivity(coord, o);
      }
    }

    method EndLoop(coord: TokenId)
      requires coord in tokens && coord in multi && Flat(g, View())
      modifies this
      ensures View() == Completion.LoopOver(g, old(View()), coord)
    {
      CancelAll(coord);
      LoopEnded(g, old(View()), View(), coord);
      multi := multi - {coord};
      tokens := tokens[coord := tokens[coord].(state := Active, ref := NoRef)];
    }

    method CancelAll(coord: TokenId)
      requires coord in tokens && coord in multi && Flat(g, View())
      modifies this
      ensures View() == Midway(old(View()), {}, LoopSet(g, old(View()), coord))
    {
      ghost var s := View();
      ghost var depth := BoundExists(s);
      MidwayNothing(s);
      CancelIterations(coord, depth, s, {});
    }

    /** completeInstance: marks the end and closes whatever is still open. */
    method CompleteInstance()
      modifies this`status, this`waits, this`events
      ensures View() == Instances.CompleteInstance(old(View()))
    {
      status := Completed;
      CleanupInstanceRecords();
    }

    method CleanupInstanceRecords()
      modifies this`waits, this`events
      ensures View() == Cleanup(old(View()))
    {
      events := map[];
      var todo := waits.Keys;
      while todo != {}
        invariant todo <= waits.Keys == old(waits).Keys && events == map[]
        invariant forall w :: w in waits ==> waits[w] == if w in todo then old(waits)[w] else old(waits)[w].(open := false)
        decreases todo
      {
        var w :| w in todo;
        todo := todo - {w};
        waits := waits[w := waits[w].(open := false)];
      }
      assert waits == Cleanup(old(View())).waits;
    }

    method Terminate()
      modifies this`tokens, this`status, this`waits, this`events
      ensures View() == TerminateInstance(old(View()))
    {
      tokens := map[];
      status := Terminated;
      CleanupInstanceRecords();
    }

    // ---- joins ------------------------------------------------------------------------------------

    /** parallelJoinReady: gathers the flows that delivered, then checks every incoming one. */
    method ParallelReady(id: TokenId, incoming: seq<ElementId>) returns (ready: bool)
      requires id in tokens
      ensures ready <==> ParallelJoinReady(View(), tokens[id], incoming)
    {
      var t := tokens[id];
      var arrived: set<ElementId> := {};
      var todo := tokens.Keys;
      while todo != {}
        invariant todo <= tokens.Keys
        invariant forall u :: u in tokens && u !in todo && JoinsWith(tokens[u], t) ==> tokens[u].flow in arrived
        invariant forall f :: f in arrived ==> ArrivedOver(View(), t, f)
        decreases todo
      {
        var u :| u in todo;
        todo := todo - {u};
        if JoinsWith(tokens[u], t) {
          arrived := arrived + {tokens[u].flow};
        }
      }
      for i := 0 to |incoming|
        invariant forall k :: 0 <= k < i ==> incoming[k] in arrived
      {
        if incoming[i] !in arrived {
          assert !ArrivedOver(View(), t, incoming[i]);
          return false;
        }
      }
      ready := true;
    }

    /** mergeJoiningTokens: consumes the first joining token met on each other flow. */
    method MergeJoining(id: TokenId) returns (ghost gone: set<TokenId>)
      requires id in tokens
      modifies this`tokens
      ensures MergeChoice(old(View()), id, gone) && id !in gone && View() == MergeInto(old(View()), id, gone)
    {
      ghost var s := View();
      var t := tokens[id];
      var consumed := {t.flow};
      gone := {};
      var todo := tokens.Keys;
      while todo != {}
        invariant todo <= s.tokens.Keys && tokens == s.tokens - gone && id !in gone && gone !! todo
        invariant forall u :: u in gone ==> u in s.tokens && JoinsWith(s.tokens[u], t) && s.tokens[u].flow in consumed && s.tokens[u].flow != t.flow
        invariant forall u, v :: u in gone && v in gone && s.tokens[u].flow == s.tokens[v].flow ==> u == v
        invariant forall f :: f in consumed && f != t.flow ==> exists v :: v in gone && s.tokens[v].flow == f
        invariant t.flow in consumed
        invariant forall u :: u in s.tokens && u !in todo && u != id && JoinsWith(s.tokens[u], t) ==> s.tokens[u].flow in consumed
        decreases todo
      {
        var u :| u in todo;
        todo := todo - {u};
        if u != id && JoinsWith(tokens[u], t) && tokens[u].flow !in consumed {
          consumed := consumed + {tokens[u].flow};
          gone := gone + {u};
          tokens := tokens - {u};
        }
      }
      tokens := tokens[id := tokens[id].(state := Active)];
    }

    method ParallelGateway(id: TokenId, el: Element, o: Oracle) returns (ghost gone: set<TokenId>)
      requires id in tokens && id < nextId && ElementOf(g, tokens[id]) == Some(el)
      modifies this
      ensures View() == RouteParallel(g, old(View()), id, el, o.(gone := gone))
    {
      gone := o.gone;
      if |el.incoming| > 1 {
        tokens := tokens[id := tokens[id].(state := Joining)];
        assert View() == Arrive(old(View()), id);
        var ready := ParallelReady(id, el.incoming);
        if ready {
          gone := MergeJoining(id);
          ForkAll(id);
        }
        RouteParallelIs(g, old(View()), id, el, o, gone);
        assert !ready ==> o.(gone := gone) == o;
      } else {
        ForkAll(id);
      }
    }

    /** inclusiveJoinReady: no other token of this scope instance can still get here. */
    method InclusiveReady(id: TokenId) returns (ready: bool)
      requires id in tokens && tokens[id].path in g
      ensures ready <==> InclusiveJoinReady(g, View(), id)
    {
      var t := tokens[id];
      var todo := tokens.Keys;
      while todo != {}
        invariant todo <= tokens.Keys
        invariant forall u :: u in tokens && u !in todo && u != id && !JoinsWith(tokens[u], t) ==>
          PositionInScope(tokens[u], t).None? || !Reaches(g[t.path], PositionInScope(tokens[u], t).value, t.element)
        decreases todo
      {
        var u :| u in todo;
        todo := todo - {u};
        if u != id && !JoinsWith(tokens[u], t) {
          var position := PositionInScope(tokens[u], t);
          if position.Some? {
            var reachable := Joins.CanReach(g[t.path], position.value, t.element);
            if reachable {
              return false;
            }
          }
        }
      }
      ready := true;
    }

    method MergeAll(id: TokenId)
      requires id in tokens
      modifies this`tokens
      ensures View() == MergeInto(old(View()), id, JoinedWith(old(View()), id))
    {
      ghost var s := View();
      var t := tokens[id];
      ghost var gone: set<TokenId> := {};
      var todo := tokens.Keys;
      while todo != {}
        invariant todo <= s.tokens.Keys && tokens == s.tokens - gone && gone !! todo && gone <= JoinedWith(s, id)
        invariant forall u :: u in JoinedWith(s, id) ==> u in todo || u in gone
        decreases todo
      {
        var u :| u in todo;
        todo := todo - {u};
        if u != id && JoinsWith(tokens[u], t) {
          tokens := tokens - {u};
          gone := gone + {u};
        }
      }
      assert gone == JoinedWith(s, id);
      tokens := tokens[id := tokens[id].(state := Active)];
    }

    method InclusiveGateway(id: TokenId, el: Element, o: Oracle)
      requires id in tokens && id < nextId && ElementOf(g, tokens[id]) == Some(el)
      modifies this
      ensures View() == RouteInclusive(g, old(View()), id, el, o)
    {
      if |el.incoming| > 1 {
        tokens := tokens[id := tokens[id].(state := Joining)];
        var ready := InclusiveReady(id);
        if !ready {
          return;
        }
        MergeAll(id);
      }
      TakeOutgoing(id, o);
    }

    // ---- waits and registrations -------------------------------------------------------------------

    method CreateEventWait(id: TokenId, element: ElementId, kind: EventKind, setRef: bool, ok: bool)
      requires id in tokens
      modifies this`tokens, this`events, this`incidents, this`nextId
      ensures View() == Engine.CreateEventWait(old(View()), id, element, kind, setRef, ok)
    {
      if kind.Error? || kind.Terminate? {
        return;
      }
      if kind.Timer? && !ok {
        RaiseIncident(id);
        return;
      }
      var e := PutRecord(if kind.Timer? then TimerJob else SubscriptionRecord, id, element);
      if setRef {
        tokens := tokens[id := tokens[id].(ref := RecordRef(e))];
      }
    }

    method RegisterBoundaries(id: TokenId, o: Oracle)
      requires id in tokens
      modifies this`tokens, this`events, this`incidents, this`nextId
      ensures View() == Engine.RegisterBoundaries(g, old(View()), id, o)
    {
      ghost var s := View();
      var t := tokens[id];
      if t.path !in g {
        return;
      }
      var c := g[t.path];
      var bs := Boundaries(c, t.element);
      for i := 0 to |bs|
        invariant id in tokens
        invariant RegisterEach(g, View(), id, c, bs[i..], o.timerOk) == RegisterEach(g, s, id, c, bs, o.timerOk)
      {
        assert bs[i..][0] == bs[i] && bs[i..][1..] == bs[i + 1..];
        RegisterOneParks(View(), id, c, bs[i], o.timerOk(bs[i]));
        if bs[i] in c.elements && c.elements[bs[i]].event.Some? {
          CreateEventWait(id, bs[i], c.elements[bs[i]].event.value.kind, false, o.timerOk(bs[i]));
        }
      }
      assert bs[|bs|..] == [];
    }

    method EventBasedGateway(id: TokenId, el: Element, o: Oracle)
      requires id in tokens && ElementOf(g, tokens[id]) == Some(el)
      modifies this`tokens, this`events, this`incidents, this`nextId
      ensures View() == RouteEventBased(g, old(View()), id, el, o)
    {
      var c := g[tokens[id].path];
      var flows := el.outgoing;
      tokens := tokens[id := tokens[id].(state := WaitEvents, ref := NoRef)];
      ghost var s := View();
      for i := 0 to |flows|
        invariant id in tokens
        invariant WaitOnTargets(g, View(), id, c, flows[i..], o) == WaitOnTargets(g, s, id, c, flows, o)
      {
        assert flows[i..][0] == flows[i] && flows[i..][1..] == flows[i + 1..];
        if flows[i] in c.flows {
          var target := c.flows[flows[i]].target;
          RegisterOneParks(View(), id, c, target, o.timerOk(target));
          if target in c.elements && c.elements[target].event.Some? {
            CreateEventWait(id, target, c.elements[target].event.value.kind, false, o.timerOk(target));
          }
        }
      }
      assert flows[|flows|..] == [];
    }

    /** The start events of one event sub-process. */
    method RegisterStartEvents(owner: TokenId, c: Container, o: Oracle)
      modifies this`events, this`nextId
      ensures View() == RegisterStarts(old(View()), owner, c, StartEvents(c), o)
    {
      ghost var s := View();
      var starts := StartEvents(c);
      for i := 0 to |starts|
        invariant RegisterStarts(View(), owner, c, starts[i..], o) == RegisterStarts(s, owner, c, starts, o)
      {
        assert starts[i..][0] == starts[i] && starts[i..][1..] == starts[i + 1..];
        var ev := if starts[i] in c.elements then c.elements[starts[i]].event else None;
        if ev.Some? && (ev.value.kind.Message? || ev.value.kind.Signal? || (ev.value.kind.Timer? && o.timerOk(starts[i]))) {
          var _ := PutRecord(if ev.value.kind.Timer? then TimerJob else SubscriptionRecord, owner, starts[i]);
        }
      }
      assert starts[|starts|..] == [];
    }

    /** registerEventSubprocesses. */
    method RegisterEventSubs(path: Path, owner: TokenId, o: Oracle)
      requires path in g
      modifies this`events, this`nextId
      ensures View() == Engine.RegisterEventSubs(g, old(View()), path, owner, o)
    {
      ghost var s := View();
      var ids := g[path].order;
      for i := 0 to |ids|
        invariant RegisterSubsFrom(g, View(), path, ids[i..], owner, o) == RegisterSubsFrom(g, s, path, ids, owner, o)
      {
        assert ids[i..][0] == ids[i] && ids[i..][1..] == ids[i + 1..];
        if ids[i] in g[path].elements && IsEventSub(g[path].elements[ids[i]]) && path + [ids[i]] in g {
          RegisterStartEvents(owner, g[path + [ids[i]]], o);
        }
      }
      assert ids[|ids|..] == [];
    }

    // ---- errors ---------------------------------------------------------------------------------------

    /** Propagates an error outward from the scope; the walk ends at the innermost handler. */
    method PropagateError(path: Path, owners: seq<TokenId>, code: nat)
      requires |path| == |owners| && Flat(g, View())
      modifies this
      ensures View() == Propagate(g, old(View()), path, owners, code)
    {
      ghost var s := View();
      var depth := |path|;
      assert path[..depth] == path && owners[..depth] == owners;
      var caught := HandleHere(path, owners, code);
      while !caught && depth > 0
        invariant depth <= |path|
        invariant caught ==> View() == Propagate(g, s, path, owners, code)
        invariant !caught ==> View() == s && Passes(g, s, path[..depth], owners[..depth], code)
        invariant !caught ==> Propagate(g, s, path[..depth], owners[..depth], code) == Propagate(g, s, path, owners, code)
        decreases depth
      {
        assert path[..depth][..depth - 1] == path[..depth - 1] && owners[..depth][..depth - 1] == owners[..depth - 1];
        depth := depth - 1;
        caught := HandleHere(path[..depth], owners[..depth], code);
      }
      if !caught {
        incidents := incidents[nextId := 0];
        nextId := nextId + 1;
        Terminate();
      }
    }

    /** One scope of the walk: its event sub-processes, then the boundary of its element. */
    method HandleHere(path: Path, owners: seq<TokenId>, code: nat) returns (caught: bool)
      requires |path| == |owners| && Flat(g, View())
      modifies this
      ensures caught ==> View() == Propagate(g, old(View()), path, owners, code)
      ensures !caught ==> View() == old(View()) && Passes(g, View(), path, owners, code)
    {
      PropagateIs(g, View(), path, owners, code);
      if path in g {
        var handler := ErrorSub(g, path, code);
        if handler.Some? {
          StartHandler(path, owners, handler.value, code);
          return true;
        }
        if path != [] && path[..|path| - 1] in g {
          var boundary := ErrorBoundary(g[path[..|path| - 1]], path[|path| - 1], code);
          if boundary.Some? {
            CatchAtBoundary(path, owners, boundary.value);
            return true;
          }
        }
      }
      caught := false;
    }

    method StartHandler(path: Path, owners: seq<TokenId>, handler: ErrorHandler, code: nat)
      requires |path| == |owners| && path in g && Flat(g, View()) && ErrorSub(g, path, code) == Some(handler)
      modifies this
      ensures View() == Spawn(KillScope(old(View()), path, owners, handler.sub), handler.start,
                              path + [handler.sub], owners + [0], 0, 0, 0)
    {
      Errors.ErrorSubIs(g, path, g[path].order, code);
      EmptyScope(path, owners, handler.sub);
      var _ := SpawnToken(handler.start, path + [handler.sub], owners + [0], 0, 0, 0);
    }

    method EmptyScope(path: Path, owners: seq<TokenId>, exclude: ElementId)
      requires |path| == |owners| && Flat(g, View())
      requires exclude != 0 ==> HasElement(g, path, exclude) && IsEventSub(g[path].elements[exclude])
      modifies this
      ensures View() == KillScope(old(View()), path, owners, exclude) && Flat(g, View())
    {
      ghost var s := View();
      ghost var bound := BoundExists(s);
      KillScopeTokens(path, owners, exclude, if bound < |path| then |path| else bound);
      SweepFlat(g, s, ScopeSet(s, path, owners, exclude), ScopeSet(s, path, owners, exclude));
    }

    /** The error boundary on an enclosing scope: the scope is emptied, and one token goes on. */
    method CatchAtBoundary(path: Path, owners: seq<TokenId>, boundary: ElementId)
      requires |path| == |owners| > 0 && Flat(g, View())
      modifies this
      ensures View() == CaughtAtBoundary(g, old(View()), path, owners, boundary)
    {
      EmptyScope(path, owners, 0);
      ContinueFrom(path, owners, boundary);
    }

    method ContinueFrom(path: Path, owners: seq<TokenId>, boundary: ElementId)
      requires |path| == |owners| > 0 && Flat(g, View())
      modifies this
      ensures View() == ContinueAt(g, old(View()), path, owners, boundary)
    {
      var n := |path| - 1;
      var owner := owners[n];
      var coord := if owner in tokens && tokens[owner].parent in multi && tokens[owner].parent in tokens then tokens[owner].parent else 0;
      if coord in tokens {
        ghost var depth := BoundExists(View());
        CancelWaits(coord, depth);
        if coord in tokens {
          MoveTo(coord, boundary);
        }
      } else if owner in tokens && tokens[owner].element == path[n] {
        DropTokenEventWaits(owner);
        tokens := tokens[owner := tokens[owner].(element := boundary, state := Active, ref := NoRef)];
      } else {
        var _ := SpawnToken(boundary, path[..n], owners[..n], 0, 0, 0);
      }
    }

    /** moveToBoundary. */
    method MoveTo(id: TokenId, boundary: ElementId)
      requires id in tokens
      modifies this`tokens
      ensures View() == MoveToBoundary(old(View()), id, boundary)
    {
      tokens := tokens[id := tokens[id].(element := boundary, state := Active, ref := NoRef, miChild := 0, loop := 0)];
    }

    /** throwError. */
    method ThrowError(id: TokenId, code: nat)
      requires id in tokens && tokens[id].path in g && |tokens[id].path| == |tokens[id].owners| && Flat(g, View())
      modifies this
      ensures View() == Engine.ThrowError(g, old(View()), id, code)
    {
      ghost var s := View();
      ghost var depth := BoundExists(s);
      var t := tokens[id];
      var boundary := ErrorBoundary(g[t.path], t.element, code);
      if boundary.Some? {
        var who := if t.parent in multi && t.parent in tokens then t.parent else 0;
        if who !in tokens {
          who := id;
        }
        CancelWaits(who, depth);
        if who in tokens {
          MoveTo(who, boundary.value);
        }
      } else {
        CancelWaits(id, depth);
        tokens := tokens - {id};
        FlatShrinks(g, s, View());
        PropagateError(t.path, t.owners, code);
      }
    }

    // ---- activities -----------------------------------------------------------------------------------

    /** What a step may rely on: the token stands well, and IDs are numbered. */
    ghost predicate Doing(id: TokenId)
      reads this
    {
      && id in tokens && tokens[id].path in g && |tokens[id].path| == |tokens[id].owners|
      && Flat(g, View()) && TokensBelow(View())
    }

    method FinishSyncActivity(id: TokenId, o: Oracle)
      requires Doing(id)
      modifies this
      ensures View() == FinishSync(g, old(View()), id, o)
    {
      if !o.outputsOk(id) {
        RaiseIncident(id);
      } else {
        CompleteActivity(id, o);
      }
    }

    method HandleActivityFailure(id: TokenId, outcome: Outcome, o: Oracle)
      requires Doing(id)
      modifies this
      ensures View() == HandleFailure(g, old(View()), id, outcome, o)
    {
      if outcome.Throws? {
        ThrowError(id, outcome.code);
      } else if o.retriesLeft {
        ParkOnJob(id);
      } else {
        RaiseIncident(id);
      }
    }

    method DoWork(id: TokenId, o: Oracle)
      requires Doing(id)
      modifies this
      ensures View() == Work(g, old(View()), id, o)
    {
      match o.outcome {
        case Succeeds => FinishSyncActivity(id, o);
        case Missing => RaiseIncident(id);
        case _ => HandleActivityFailure(id, o.outcome, o);
      }
    }

    method FinishAgentTask(id: TokenId, spec: AgentSpec, o: Oracle)
      requires Doing(id)
      modifies this
      ensures View() == FinishAgent(g, old(View()), id, spec, o)
    {
      if !o.reviewOk {
        HandleActivityFailure(id, FailsPlain, o);
      } else if spec.approval {
        OpenWait(id, TaskWait);
      } else {
        FinishSyncActivity(id, o);
      }
    }

    method RunAgentTask(id: TokenId, spec: AgentSpec, o: Oracle)
      requires Doing(id)
      modifies this
      ensures View() == AgentTask(g, old(View()), id, spec, o)
    {
      if !o.budgetOk {
        RaiseIncident(id);
      } else if spec.external {
        OpenWait(id, AgentWait);
      } else {
        match o.outcome {
          case Succeeds => FinishAgentTask(id, spec, o);
          case Missing => RaiseIncident(id);
          case _ => HandleActivityFailure(id, o.outcome, o);
        }
      }
    }

    method RunServiceTask(id: TokenId, el: Element, o: Oracle)
      requires Doing(id)
      modifies this
      ensures View() == ServiceLike(g, old(View()), id, el, o)
    {
      if el.agent.Some? {
        RunAgentTask(id, el.agent.value, o);
      } else if el.topic {
        OpenWait(id, ExternalWait);
      } else {
        DoWork(id, o);
      }
    }

    method EnterSubProcess(id: TokenId, o: Oracle)
      requires Doing(id)
      modifies this
      ensures View() == EnterSub(g, old(View()), id, o)
    {
      var t := tokens[id];
      var inner := t.path + [t.element];
      if inner !in g || NoneStartEvent(g[inner]).None? {
        RaiseIncident(id);
      } else {
        tokens := tokens[id := t.(state := WaitChild, ref := ScopeRef)];
        RegisterEventSubs(inner, id, o);
        var _ := SpawnToken(NoneStartEvent(g[inner]).value, inner, t.owners + [id], 0, 0, 0);
      }
    }

    method CallChild(id: TokenId, o: Oracle)
      requires id in tokens
      modifies this
      ensures View() == EnterCall(old(View()), id, o)
    {
      if !o.calleeOk {
        RaiseIncident(id);
      } else {
        tokens := tokens[id := tokens[id].(state := WaitChild, ref := RecordRef(nextId))];
        nextId := nextId + 1;
      }
    }

    /** startMultiInstance: the loop entry, the coordinator's boundaries, then the iterations. */
    method StartMultiInstance(id: TokenId, spec: MultiSpec, o: Oracle)
      requires Doing(id)
      modifies this
      ensures View() == StartMulti(g, old(View()), id, spec, o)
    {
      if o.items.None? {
        RaiseIncident(id);
      } else if o.items.value == 0 {
        CompleteActivity(id, o);
      } else {
        var n := o.items.value;
        var first := if spec.sequential then 1 else n;
        multi := multi[id := MultiState(n, 0, first, 0)];
        tokens := tokens[id := tokens[id].(state := WaitMulti, ref := NoRef)];
        ghost var s1 := View();
        RegisterBoundaries(id, o);
        RegisterBoundariesParks(g, s1, id, o);
        SpawnFirst(id, first);
      }
    }

    method SpawnFirst(id: TokenId, first: nat)
      requires id in tokens
      modifies this`tokens, this`nextId
      ensures View() == SpawnIterations(g, old(View()), id, 0, first)
    {
      ghost var s := View();
      for i := 0 to first
        invariant id in tokens
        invariant SpawnIterations(g, View(), id, i, first - i) == SpawnIterations(g, s, id, 0, first)
      {
        SpawnMIChild(id, i);
      }
    }

    method Await(id: TokenId, state: TokenState, kind: EventKind, o: Oracle)
      requires id in tokens
      modifies this
      ensures View() == Catching(old(View()), id, state, kind, o)
    {
      tokens := tokens[id := tokens[id].(state := state)];
      CreateEventWait(id, tokens[id].element, kind, true, o.timerOk(tokens[id].element));
    }

    method DispatchActivity(id: TokenId, el: Element, o: Oracle)
      requires Doing(id)
      modifies this
      ensures View() == Dispatch(g, old(View()), id, el, o)
    {
      match el.etype {
        case UserTask =>
          if o.fieldsOk { OpenWait(id, TaskWait); } else { RaiseIncident(id); }
        case ServiceTask | SendTask => RunServiceTask(id, el, o);
        case ScriptTask | RuleTask => DoWork(id, o);
        case ReceiveTask => Await(id, WaitMessage, if el.event.Some? then el.event.value.kind else EventKind.Terminate, o);
        case ManualTask | PlainTask => FinishSyncActivity(id, o);
        case SubProcess => EnterSubProcess(id, o);
        case CallActivity => CallChild(id, o);
        case _ => RaiseIncident(id);
      }
    }

    method RunActivity(id: TokenId, el: Element, o: Oracle)
      requires Doing(id)
      modifies this
      ensures View() == Activity(g, old(View()), id, el, o)
    {
      if el.multi.Some? && !IsMIChild(tokens[id]) {
        StartMultiInstance(id, el.multi.value, o);
      } else if !o.inputsOk {
        RaiseIncident(id);
      } else {
        if !IsMIChild(tokens[id]) {
          RegisterBoundariesParks(g, View(), id, o);
          RegisterBoundaries(id, o);
          ParkedFlat(g, old(View()), View(), id);
        }
        DispatchActivity(id, el, o);
      }
    }

    // ---- steps -----------------------------------------------------------------------------------------

    method EndEvent(id: TokenId, el: Element, o: Oracle)
      requires Doing(id)
      modifies this
      ensures View() == ReachEnd(g, old(View()), id, el, o)
    {
      var t := tokens[id];
      if el.event.Some? && el.event.value.kind.Terminate? {
        if t.path == [] {
          tokens := map[];
          CompleteInstance();
        } else {
          EmptyScope(t.path, t.owners, 0);
          CheckScope(t.path, t.owners, o);
        }
      } else if el.event.Some? && el.event.value.kind.Error? {
        tokens := tokens - {id};
        FlatShrinks(g, old(View()), View());
        PropagateError(t.path, t.owners, el.event.value.code);
      } else {
        Consume(id, o);
      }
    }

    method IntermediateCatch(id: TokenId, el: Element, o: Oracle)
      requires id in tokens
      modifies this
      ensures View() == CatchEvent(old(View()), id, el, o)
    {
      var kind := if el.event.Some? then el.event.value.kind else EventKind.Terminate;
      match kind {
        case Timer => Await(id, WaitTimer, kind, o);
        case Message => Await(id, WaitMessage, kind, o);
        case Signal => Await(id, WaitSignal, kind, o);
        case _ => RaiseIncident(id);
      }
    }

    /** step. */
    method Step(id: TokenId, o: Oracle) returns (ghost gone: set<TokenId>)
      requires Doing(id)
      modifies this
      ensures View() == Engine.Step(g, old(View()), id, o.(gone := gone))
    {
      var el := ElementOf(g, tokens[id]);
      if el.Some? && el.value.etype.ParallelGateway? {
        gone := StepParallel(id, el.value, o);
      } else {
        gone := StepAlone(id, o);
      }
    }

    method StepAlone(id: TokenId, o: Oracle) returns (ghost gone: set<TokenId>)
      requires Doing(id) && (ElementOf(g, tokens[id]).Some? ==> !ElementOf(g, tokens[id]).value.etype.ParallelGateway?)
      modifies this
      ensures View() == Engine.Step(g, old(View()), id, o.(gone := gone))
    {
      gone := o.gone;
      SameOracle(o);
      var el := ElementOf(g, tokens[id]);
      if el.None? {
        RaiseIncident(id);
      } else {
        StepElsewhere(id, el.value, o);
      }
    }

    method StepParallel(id: TokenId, el: Element, o: Oracle) returns (ghost gone: set<TokenId>)
      requires Doing(id) && ElementOf(g, tokens[id]) == Some(el) && el.etype.ParallelGateway?
      modifies this
      ensures View() == Engine.Step(g, old(View()), id, o.(gone := gone))
    {
      gone := ParallelGateway(id, el, o);
      ParallelStepIs(g, old(View()), id, el, o.(gone := gone));
    }

    /** The steps that do not merge tokens of their own choice. */
    method StepElsewhere(id: TokenId, el: Element, o: Oracle)
      requires Doing(id) && ElementOf(g, tokens[id]) == Some(el) && !el.etype.ParallelGateway?
      modifies this
      ensures View() == Engine.Step(g, old(View()), id, o)
    {
      StepIs(g, View(), id, el, o);
      ChoiceStepIs(g, View(), id, el, o);
      if el.etype in {StartEvent, BoundaryEvent, IntermediateThrow} {
        TakeOutgoing(id, o);
      } else if el.etype.EndEvent? {
        EndEvent(id, el, o);
      } else if el.etype.IntermediateCatch? {
        IntermediateCatch(id, el, o);
      } else if el.etype.ExclusiveGateway? {
        ExclusiveGateway(id, o);
      } else if el.etype.InclusiveGateway? {
        InclusiveStepIs(g, View(), id, el, o);
        InclusiveGateway(id, el, o);
      } else if el.etype.EventBasedGateway? {
        EventBasedGateway(id, el, o);
      } else {
        RunActivity(id, el, o);
      }
    }

    /** nextActive: the active token with the lowest ID. */
    method NextActive() returns (next: Option<TokenId>)
      ensures next == Lowest(View())
    {
      next := None;
      var todo := tokens.Keys;
      while todo != {}
        invariant todo <= tokens.Keys
        invariant next.Some? ==> next.value in tokens && tokens[next.value].state.Active? && next.value !in todo
        invariant forall u :: u in tokens && u !in todo && tokens[u].state.Active? ==> next.Some? && next.value <= u
        decreases todo
      {
        var u :| u in todo;
        todo := todo - {u};
        if tokens[u].state.Active? && (next.None? || u < next.value) {
          next := Some(u);
        }
      }
      LowestIs(View(), next);
    }

    /** A well answered step of an active token. */
    method StepWell(id: TokenId, o: Oracle) returns (ghost gone: set<TokenId>)
      requires ValidGraph(g) && Inv(g, View()) && status.Running? && id in tokens && tokens[id].state.Active?
      requires Steps.StepAnswers(g, View(), id, o)
      modifies this
      ensures |old(tokens)[id].path| == |old(tokens)[id].owners|
      ensures View() == Engine.Step(g, old(View()), id, o.(gone := gone)) && Inv(g, View())
    {
      ActiveDoes(g, View(), id);
      gone := Step(id, o);
      Steps.StepKeeps(g, old(View()), id, o.(gone := gone));
    }

    /** drain: steps the lowest active token until none is left, the instance ends, or the
        step limit parks the token on an incident. `trace` is the run it made, which has to
        be answered well all along. */
    method Drain(answers: nat -> Oracle) returns (ghost trace: seq<Instance>)
      requires ValidGraph(g) && Inv(g, View()) && status.Running?
      requires forall t: seq<Instance> :: IsDrain(g, View(), t, answers) ==> AnsweredWell(g, t[|t| - 1], answers(|t| - 1))
      modifies this
      ensures IsDrain(g, old(View()), trace, answers) && |trace| <= MAX_STEPS + 1
      ensures var last := trace[|trace| - 1];
        if old(suspended) then View() == last == old(View())
        else if !last.status.Running? || Lowest(last).None? then View() == last
        else |trace| == MAX_STEPS + 1 && View() == Instances.RaiseIncident(last, Lowest(last).value)
      ensures Inv(g, View())
    {
      ghost var s := View();
      trace := [s];
      if suspended {
        return;
      }
      var steps := 0;
      while true
        invariant steps <= MAX_STEPS && |trace| == steps + 1 && IsDrain(g, s, trace, answers)
        invariant View() == trace[steps] && Inv(g, View()) && status.Running?
        decreases MAX_STEPS - steps
      {
        var next := NextActive();
        if next.None? {
          return;
        }
        var id := next.value;
        if steps == MAX_STEPS {
          Moves.LeafReady(g, View(), id);
          Moves.RaiseIncidentKeeps(g, View(), id);
          RaiseIncident(id);
          return;
        }
        assert AnsweredWell(g, View(), answers(steps));
        ghost var gone := StepWell(id, answers(steps));
        DrainExtends(g, s, trace, answers, View(), gone);
        trace := trace + [View()];
        steps := steps + 1;
        if !status.Running? {
          return;
        }
      }
    }

    // ---- events ------------------------------------------------------------------------------------------

    /** boundaryTriggered. */
    method BoundaryTriggered(id: TokenId, el: Element, b: ElementId) returns (handled: bool)
      requires Flat(g, View())
      modifies this
      ensures handled <==> Triggers.BoundaryTriggered(g, old(View()), id, el, b).Some?
      ensures View() == if handled then Triggers.BoundaryTriggered(g, old(View()), id, el, b).value else old(View())
    {
      if id !in tokens || tokens[id].element != el.attachedTo {
        return false;
      }
      if el.cancelActivity {
        ghost var depth := BoundExists(View());
        CancelActivity(id, depth);
        if id in tokens {
          MoveTo(id, b);
        }
      } else {
        var _ := SpawnToken(b, tokens[id].path, tokens[id].owners, 0, 0, 0);
      }
      handled := true;
    }

    /** eventSubprocessTriggered. */
    method EventSubprocessTriggered(owner: TokenId, sub: ElementId, start: ElementId, interrupting: bool, e: nat)
      returns (handled: bool)
      requires Flat(g, View())
      requires var path := if owner == 0 || owner !in tokens then [] else tokens[owner].path + [tokens[owner].element];
        owner == 0 || owner in tokens ==> HasElement(g, path, sub) && IsEventSub(g[path].elements[sub])
      modifies this
      ensures handled <==> Triggers.EventSubTriggered(old(View()), owner, sub, start, interrupting, e).Some?
      ensures View() == if handled then Triggers.EventSubTriggered(old(View()), owner, sub, start, interrupting, e).value
                        else old(View())
    {
      if owner != 0 && owner !in tokens {
        return false;
      }
      var path, owners := [], [];
      if owner != 0 {
        assert FlatToken(g, View(), owner);
        path, owners := tokens[owner].path + [tokens[owner].element], tokens[owner].owners + [owner];
      }
      if interrupting {
        EmptyScope(path, owners, sub);
        events := events - {e};
      }
      var _ := SpawnToken(start, path + [sub], owners + [0], 0, 0, 0);
      handled := true;
    }

    /** eventTriggered for catch events, receive tasks and event gateway targets. */
    method EventCaught(id: TokenId, el: Element, element: ElementId, o: Oracle) returns (handled: bool)
      requires Flat(g, View()) && TokensBelow(View())
      requires id in tokens && tokens[id].state.WaitEvents? ==>
        tokens[id].parent == 0 && HasElement(g, tokens[id].path, element) && !IsEventSub(g[tokens[id].path].elements[element])
      modifies this
      ensures handled <==> Triggers.Caught(g, old(View()), id, el, element, o).Some?
      ensures View() == if handled then Triggers.Caught(g, old(View()), id, el, element, o).value else old(View())
    {
      if id !in tokens {
        return false;
      }
      var t := tokens[id];
      if !t.state.WaitEvents? && (t.element != element || t.state !in {WaitMessage, WaitSignal, WaitTimer}) {
        return false;
      }
      DropTokenEventWaits(id);
      tokens := tokens[id := t.(element := element, state := Active, ref := NoRef)];
      if t.state.WaitEvents? || !el.etype.ReceiveTask? {
        TakeOutgoing(id, o);
      } else if !o.outputsOk(id) {
        RaiseIncident(id);
      } else {
        FlatShrinks(g, old(View()), View());
        CompleteActivity(id, o);
      }
      handled := true;
    }

    /** CompleteTask, CompleteExternalTask and CompleteAgentJob, under the instance lock. */
    method CompleteWait(w: nat, o: Oracle) returns (accepted: bool)
      requires Flat(g, View()) && TokensBelow(View())
      modifies this
      ensures accepted <==> Triggers.Answerable(g, old(View()), w)
      ensures View() == Triggers.WaitCompleted(g, old(View()), w, o)
    {
      if w !in waits || waits[w].token !in tokens || !Awaits(tokens[waits[w].token], waits[w].kind, w) {
        return false;
      }
      var id, kind := waits[w].token, waits[w].kind;
      var el := ElementOf(g, tokens[id]);
      assert FlatToken(g, View(), id);
      if kind.AgentWait? && el.value.agent.None? {
        return false;
      }
      waits := waits[w := waits[w].(open := false)];
      FlatShrinks(g, old(View()), View());
      if kind.AgentWait? {
        FinishAgentTask(id, el.value.agent.value, o);
      } else if kind.TaskWait? && el.value.agent.Some? {
        FinishSyncActivity(id, o);
      } else {
        CompleteActivity(id, o);
      }
      accepted := true;
    }
  }
}
