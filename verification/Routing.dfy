/** Which flows a token leaves over and what registrations it takes, stated without the
    scans that compute them, and what the instance looks like afterwards. */
module Routing {
  import opened StoreState
  import opened Bpmn
  import opened Instances
  import opened Engine

  /** The wanted entries of a list, in their order. */
  function Filter(ids: seq<ElementId>, want: ElementId -> bool): seq<ElementId> {
    if ids == [] then [] else (if want(ids[0]) then [ids[0]] else []) + Filter(ids[1..], want)
  }

  // ---- flow conditions --------------------------------------------------------------------

  predicate Candidate(c: Container, f: ElementId, defaultFlow: ElementId) {
    f in c.flows && f != defaultFlow
  }

  /** The condition of the flow does not evaluate. */
  predicate Breaks(c: Container, f: ElementId, defaultFlow: ElementId, o: Oracle) {
    Candidate(c, f, defaultFlow) && c.flows[f].conditional && o.cond(f).Fails?
  }

  predicate Open(c: Container, f: ElementId, defaultFlow: ElementId, o: Oracle) {
    Candidate(c, f, defaultFlow) && (!c.flows[f].conditional || o.cond(f).Yes?)
  }

  function OpenFlows(c: Container, defaultFlow: ElementId, o: Oracle): ElementId -> bool {
    (f: ElementId) => Open(c, f, defaultFlow, o)
  }

  function AnyFlow(c: Container): ElementId -> bool {
    (f: ElementId) => f in c.flows
  }

  lemma {:induction false} SelectsOpen(c: Container, ids: seq<ElementId>, defaultFlow: ElementId, o: Oracle)
    ensures SelectFlows(c, ids, defaultFlow, o) ==
      if exists f :: f in ids && Breaks(c, f, defaultFlow, o) then None else Some(Filter(ids, OpenFlows(c, defaultFlow, o)))
    decreases ids
  {
    if ids != [] {
      SelectsOpen(c, ids[1..], defaultFlow, o);
      if exists f :: f in ids && Breaks(c, f, defaultFlow, o) {
        var f :| f in ids && Breaks(c, f, defaultFlow, o);
        assert f == ids[0] || f in ids[1..];
      } else {
        forall f | f in ids[1..] ensures !Breaks(c, f, defaultFlow, o) { assert f in ids; }
        assert !Breaks(c, ids[0], defaultFlow, o) by { assert ids[0] in ids; }
        assert SelectFlows(c, ids[1..], defaultFlow, o) == Some(Filter(ids[1..], OpenFlows(c, defaultFlow, o)));
        var later := Filter(ids[1..], OpenFlows(c, defaultFlow, o));
        assert [] + later == later;
        if Open(c, ids[0], defaultFlow, o) {
          assert SelectFlows(c, ids, defaultFlow, o) == Some([ids[0]] + later);
        } else {
          assert SelectFlows(c, ids, defaultFlow, o) == Some(later);
        }
      }
    }
  }

  lemma {:induction false} ForksEvery(c: Container, ids: seq<ElementId>)
    ensures ExistingFlows(c, ids) == Filter(ids, AnyFlow(c))
    decreases ids
  {
    if ids != [] {
      ForksEvery(c, ids[1..]);
    }
  }

  /** The scan of an exclusive gateway ends at flow number `i`: the first candidate whose
      condition is not simply false. */
  ghost predicate EndsAt(c: Container, ids: seq<ElementId>, defaultFlow: ElementId, o: Oracle, i: nat) {
    && i < |ids| && (Open(c, ids[i], defaultFlow, o) || Breaks(c, ids[i], defaultFlow, o))
    && forall j :: 0 <= j < i ==> !Open(c, ids[j], defaultFlow, o) && !Breaks(c, ids[j], defaultFlow, o)
  }

  lemma {:induction false} FirstOpen(c: Container, ids: seq<ElementId>, defaultFlow: ElementId, o: Oracle) returns (i: nat)
    ensures var chosen := FirstTrue(c, ids, defaultFlow, o);
      if i < |ids| then
        EndsAt(c, ids, defaultFlow, o, i) && chosen == if Open(c, ids[i], defaultFlow, o) then Some([ids[i]]) else None
      else
        chosen == Some([]) && forall f :: f in ids ==> !Open(c, f, defaultFlow, o) && !Breaks(c, f, defaultFlow, o)
    decreases ids
  {
    if ids == [] || Open(c, ids[0], defaultFlow, o) || Breaks(c, ids[0], defaultFlow, o) {
      i := 0;
    } else {
      var k := FirstOpen(c, ids[1..], defaultFlow, o);
      i := k + 1;
      forall j | 0 <= j < i && j < |ids| ensures !Open(c, ids[j], defaultFlow, o) && !Breaks(c, ids[j], defaultFlow, o) {
        if j > 0 { assert ids[j] == ids[1..][j - 1]; }
      }
    }
  }

  // ---- coming to rest -----------------------------------------------------------------------

  /** The token is parked on a new incident that names it; nothing else changes. */
  predicate OnIncident(s: Instance, s': Instance, id: TokenId)
    requires id in s.tokens
  {
    s' == s.(tokens := s.tokens[id := s.tokens[id].(state := WaitRetry, ref := RecordRef(s.nextId))],
             incidents := s.incidents[s.nextId := id], nextId := s.nextId + 1)
  }

  /** The token is parked on a new job of its own; nothing else changes. */
  predicate OnJob(s: Instance, s': Instance, id: TokenId)
    requires id in s.tokens
  {
    s' == s.(tokens := s.tokens[id := s.tokens[id].(state := WaitRetry, ref := RecordRef(s.nextId))],
             events := s.events[s.nextId := EventRecord(WorkJob, id, s.tokens[id].element)], nextId := s.nextId + 1)
  }

  // ---- leaving over flows -------------------------------------------------------------------

  /** Token `u` has come over flow `f` from where `t` stood, and goes on at once or, at a
      resumable element, by a job of its own. */
  predicate Travels(g: Graph, s: Instance, u: TokenId, t: Token, f: ElementId) {
    && u in s.tokens
    && var v := s.tokens[u];
       && v.element == TargetOf(g, t.path, f) && v.flow == f && SameScope(v, t)
       && v.parent == t.parent && v.miChild == t.miChild && v.loop == t.loop
       && if ElementOf(g, v).Some? && ElementOf(g, v).value.resumable
          then v.state.WaitRetry? && v.ref.RecordRef? && v.ref.id in s.events && s.events[v.ref.id] == EventRecord(WorkJob, u, v.element)
          else v.state.Active? && v.ref.NoRef?
  }

  /** The new jobs are those the tokens just moved wait for. */
  predicate OwnJobs(s: Instance, s': Instance, ids: seq<TokenId>) {
    && (forall e :: e in s.events ==> e in s'.events && s'.events[e] == s.events[e])
    && (forall e :: e in s'.events && e !in s.events ==>
          var u := s'.events[e].token; u in ids && u in s'.tokens && s'.tokens[u].ref == RecordRef(e))
  }

  predicate SameBooks(s: Instance, s': Instance) {
    && s'.multi == s.multi && s'.waits == s.waits && s'.status == s.status && s'.incidents == s.incidents
    && s'.suspended == s.suspended && s'.cancelled == s.cancelled
  }

  /** Token `id` left over the first flow and one new token over each further one; nothing
      else changed but for the jobs of resumable targets. */
  ghost predicate Departs(g: Graph, s: Instance, s': Instance, id: TokenId, flows: seq<ElementId>, ids: seq<TokenId>)
    requires id in s.tokens
  {
    && |ids| == |flows| > 0 && ids[0] == id
    && (forall k :: 0 <= k < |ids| ==> Travels(g, s', ids[k], s.tokens[id], flows[k]))
    && (forall j, k :: 0 <= j < k < |ids| ==> ids[j] != ids[k] && ids[k] !in s.tokens)
    && (forall u :: u in s'.tokens <==> u in s.tokens || u in ids)
    && (forall u :: u in s.tokens && u != id ==> s'.tokens[u] == s.tokens[u])
    && OwnJobs(s, s', ids) && SameBooks(s, s')
  }

  /** The token leaves over the flows, or is parked on an incident if there are none. */
  ghost predicate Leaves(g: Graph, s: Instance, s': Instance, id: TokenId, flows: seq<ElementId>)
    requires id in s.tokens
  {
    if flows == [] then OnIncident(s, s', id) else exists ids :: Departs(g, s, s', id, flows, ids)
  }

  /** The token leaves over its open flows, or over the default flow if there is one and none is
      open; it is parked on an incident if a condition does not evaluate or there is no way out. */
  ghost predicate LeavesOver(g: Graph, s: Instance, s': Instance, id: TokenId, el: Element, o: Oracle)
    requires id in s.tokens && s.tokens[id].path in g
  {
    var c := g[s.tokens[id].path];
    var open := Filter(el.outgoing, OpenFlows(c, el.defaultFlow, o));
    if exists f :: f in el.outgoing && Breaks(c, f, el.defaultFlow, o) then OnIncident(s, s', id)
    else if open != [] then Leaves(g, s, s', id, open)
    else if el.defaultFlow != 0 && el.defaultFlow in c.flows then Leaves(g, s, s', id, [el.defaultFlow])
    else OnIncident(s, s', id)
  }

  predicate Counted(s: Instance) {
    TokensBelow(s) && forall e :: e in s.events ==> e < s.nextId
  }

  /** What spawning siblings adds. */
  ghost predicate Joined(g: Graph, s: Instance, s': Instance, t: Token, flows: seq<ElementId>, ids: seq<TokenId>) {
    && |ids| == |flows| && Counted(s')
    && (forall k :: 0 <= k < |ids| ==> s.nextId <= ids[k] < s'.nextId && Travels(g, s', ids[k], t, flows[k]))
    && (forall j, k :: 0 <= j < k < |ids| ==> ids[j] < ids[k])
    && (forall u :: u in s'.tokens <==> u in s.tokens || u in ids)
    && (forall u :: u in s.tokens ==> s'.tokens[u] == s.tokens[u])
    && OwnJobs(s, s', ids) && SameBooks(s, s')
  }

  /** maybeAsync: the token goes on at once or by a job of its own. */
  lemma GoesOn(g: Graph, s: Instance, u: TokenId, t: Token, f: ElementId)
    requires Counted(s) && u in s.tokens && s.tokens[u].state.Active? && s.tokens[u].ref.NoRef?
    requires s.tokens[u].element == TargetOf(g, t.path, f) && s.tokens[u].flow == f && SameScope(s.tokens[u], t)
    requires s.tokens[u].parent == t.parent && s.tokens[u].miChild == t.miChild && s.tokens[u].loop == t.loop
    ensures var s' := MaybeAsync(g, s, u);
      && Travels(g, s', u, t, f) && Counted(s') && s.nextId <= s'.nextId
      && s'.tokens.Keys == s.tokens.Keys && (forall v :: v in s.tokens && v != u ==> s'.tokens[v] == s.tokens[v])
      && OwnJobs(s, s', [u]) && SameBooks(s, s')
  {
    var el := ElementOf(g, s.tokens[u]);
    if el.None? || !el.value.resumable {
      assert MaybeAsync(g, s, u) == s;
    } else {
      var s' := ParkOnJob(s, u);
      assert MaybeAsync(g, s, u) == s';
      assert s'.tokens.Keys == s.tokens.Keys;
      assert ElementOf(g, s'.tokens[u]) == el;
    }
  }

  lemma FirstSiblingJoins(g: Graph, s: Instance, t: Token, f: ElementId)
    requires Counted(s)
    ensures Joined(g, s, OneSibling(g, s, t, f), t, [f], [s.nextId])
  {
    var s1 := Spawn(s, TargetOf(g, t.path, f), t.path, t.owners, t.parent, t.miChild, t.loop);
    var s2 := SetToken(s1, s.nextId, s1.tokens[s.nextId].(flow := f));
    GoesOn(g, s2, s.nextId, t, f);
    assert s2.tokens.Keys == s.tokens.Keys + {s.nextId};
  }

  lemma JobsAdd(s: Instance, s1: Instance, s2: Instance, xs: seq<TokenId>, ys: seq<TokenId>, all: seq<TokenId>)
    requires OwnJobs(s, s1, xs) && OwnJobs(s1, s2, ys)
    requires forall u :: u in xs || u in ys ==> u in all
    requires forall u :: u in xs ==> u in s1.tokens && u in s2.tokens && s2.tokens[u] == s1.tokens[u]
    ensures OwnJobs(s, s2, all)
  {
    forall e | e in s2.events && e !in s.events
      ensures var u := s2.events[e].token; u in all && u in s2.tokens && s2.tokens[u].ref == RecordRef(e)
    {
      if e in s1.events { assert s2.events[e] == s1.events[e]; }
    }
  }

  lemma JoinedMore(g: Graph, s: Instance, s1: Instance, s2: Instance, t: Token, f: ElementId, flows: seq<ElementId>,
                   u: TokenId, ids: seq<TokenId>)
    requires Joined(g, s, s1, t, [f], [u]) && Joined(g, s1, s2, t, flows, ids)
    ensures Joined(g, s, s2, t, [f] + flows, [u] + ids)
  {
    assert [u][0] == u && ids == ([u] + ids)[1..];
    JobsAdd(s, s1, s2, [u], ids, [u] + ids);
    TravelsStill(g, s1, s2, u, t, f);
    hide OwnJobs, Travels;
    forall k | 0 <= k < |[u] + ids|
      ensures s.nextId <= ([u] + ids)[k] < s2.nextId && Travels(g, s2, ([u] + ids)[k], t, ([f] + flows)[k])
    {
      if k > 0 { assert ([u] + ids)[k] == ids[k - 1]; }
    }
  }

  lemma {:induction false} SiblingsJoin(g: Graph, s: Instance, t: Token, flows: seq<ElementId>) returns (ids: seq<TokenId>)
    requires Counted(s)
    ensures Joined(g, s, SpawnSiblings(g, s, t, flows), t, flows, ids)
    decreases flows
  {
    ids := [];
    if flows != [] {
      var s1 := OneSibling(g, s, t, flows[0]);
      FirstSiblingJoins(g, s, t, flows[0]);
      var rest := SiblingsJoin(g, s1, t, flows[1..]);
      JoinedMore(g, s, s1, SpawnSiblings(g, s, t, flows), t, flows[0], flows[1..], s.nextId, rest);
      ids := [s.nextId] + rest;
      assert flows == [flows[0]] + flows[1..];
    }
  }

  /** moveOver: one token per flow, the old one first. */
  lemma MoveOverDeparts(g: Graph, s: Instance, id: TokenId, flows: seq<ElementId>)
    requires Counted(s) && id in s.tokens && flows != []
    ensures exists ids :: Departs(g, s, MoveOver(g, s, id, flows), id, flows, ids)
  {
    var t := s.tokens[id];
    var s1 := SpawnSiblings(g, s, t, flows[1..]);
    var rest := SiblingsJoin(g, s, t, flows[1..]);
    var s2 := SetToken(s1, id, t.(element := TargetOf(g, t.path, flows[0]), flow := flows[0], state := Active, ref := NoRef));
    GoesOn(g, s2, id, t, flows[0]);
    assert s2.tokens.Keys == s1.tokens.Keys;
    MovesFirst(g, s, s1, MoveOver(g, s, id, flows), id, flows, rest);
  }

  lemma MovesFirst(g: Graph, s: Instance, s1: Instance, s': Instance, id: TokenId, flows: seq<ElementId>, rest: seq<TokenId>)
    requires Counted(s) && id in s.tokens && flows != [] && Joined(g, s, s1, s.tokens[id], flows[1..], rest)
    requires Travels(g, s', id, s.tokens[id], flows[0]) && s'.tokens.Keys == s1.tokens.Keys
    requires forall v :: v in s1.tokens && v != id ==> s'.tokens[v] == s1.tokens[v]
    requires OwnJobs(s1, s', [id]) && SameBooks(s1, s')
    ensures Departs(g, s, s', id, flows, [id] + rest)
  {
    hide Travels, OwnJobs;
    HeadAndRest(s, id, rest);
    AllTravel(g, s, s1, s', id, flows, rest);
    forall u | u in rest ensures u in s1.tokens && u in s'.tokens && s'.tokens[u] == s1.tokens[u] {
      var k :| 0 <= k < |rest| && rest[k] == u;
      assert ([id] + rest)[k + 1] == u;
    }
    JobsAdd(s, s1, s', rest, [id], [id] + rest);
    forall u ensures u in s'.tokens <==> u in s.tokens || u in [id] + rest {
      assert u in s'.tokens <==> u in s1.tokens;
    }
  }

  lemma HeadAndRest(s: Instance, id: TokenId, rest: seq<TokenId>)
    requires TokensBelow(s) && id in s.tokens
    requires forall k :: 0 <= k < |rest| ==> s.nextId <= rest[k]
    requires forall j, k :: 0 <= j < k < |rest| ==> rest[j] < rest[k]
    ensures forall u :: u in [id] + rest <==> u == id || u in rest
    ensures forall j, k :: 0 <= j < k < |[id] + rest| ==> ([id] + rest)[j] != ([id] + rest)[k] && ([id] + rest)[k] !in s.tokens
  {
    var ids := [id] + rest;
    forall j, k | 0 <= j < k < |ids| ensures ids[j] != ids[k] && ids[k] !in s.tokens {
      assert ids[k] == rest[k - 1] && (j > 0 ==> ids[j] == rest[j - 1]);
    }
  }

  lemma AllTravel(g: Graph, s: Instance, s1: Instance, s': Instance, id: TokenId, flows: seq<ElementId>, rest: seq<TokenId>)
    requires TokensBelow(s) && id in s.tokens && |flows| == |rest| + 1
    requires forall k :: 0 <= k < |rest| ==> s.nextId <= rest[k] && Travels(g, s1, rest[k], s.tokens[id], flows[1..][k])
    requires Travels(g, s', id, s.tokens[id], flows[0]) && s'.tokens.Keys == s1.tokens.Keys
    requires forall v :: v in s1.tokens && v != id ==> s'.tokens[v] == s1.tokens[v]
    requires OwnJobs(s1, s', [id])
    ensures forall k :: 0 <= k < |[id] + rest| ==> Travels(g, s', ([id] + rest)[k], s.tokens[id], flows[k])
  {
    hide ElementOf, TargetOf;
    forall k | 0 <= k < |[id] + rest| ensures Travels(g, s', ([id] + rest)[k], s.tokens[id], flows[k]) {
      if k > 0 {
        assert ([id] + rest)[k] == rest[k - 1] && flows[1..][k - 1] == flows[k];
        TravelsStill(g, s1, s', rest[k - 1], s.tokens[id], flows[k]);
      }
    }
  }

  lemma TravelsStill(g: Graph, s: Instance, s': Instance, u: TokenId, t: Token, f: ElementId)
    requires Travels(g, s, u, t, f) && u in s'.tokens && s'.tokens[u] == s.tokens[u]
    requires forall e :: e in s.events ==> e in s'.events && s'.events[e] == s.events[e]
    ensures Travels(g, s', u, t, f)
  {
  }

  /** takeOutgoing: the token leaves over exactly the open flows, or the default flow. */
  lemma TakeOutgoingEffect(g: Graph, s: Instance, id: TokenId, el: Element, o: Oracle)
    requires Counted(s) && id in s.tokens && ElementOf(g, s.tokens[id]) == Some(el)
    ensures LeavesOver(g, s, TakeOutgoing(g, s, id, o), id, el, o)
  {
    var c := g[s.tokens[id].path];
    SelectsOpen(c, el.outgoing, el.defaultFlow, o);
    var chosen := SelectFlows(c, el.outgoing, el.defaultFlow, o);
    if chosen.Some? && WithDefault(c, el, chosen.value) != [] {
      MoveOverDeparts(g, s, id, WithDefault(c, el, chosen.value));
    }
  }

  /** The first candidate flow that is not closed decides, by being open or by breaking; if all
      are closed the default flow is taken, and without one the token is parked on an incident. */
  ghost predicate Chooses(g: Graph, s: Instance, s': Instance, id: TokenId, el: Element, o: Oracle)
    requires id in s.tokens && s.tokens[id].path in g
  {
    var c := g[s.tokens[id].path];
    || (exists i: nat :: EndsAt(c, el.outgoing, el.defaultFlow, o, i)
          && if Open(c, el.outgoing[i], el.defaultFlow, o) then Leaves(g, s, s', id, [el.outgoing[i]]) else OnIncident(s, s', id))
    || ((forall f :: f in el.outgoing ==> !Open(c, f, el.defaultFlow, o) && !Breaks(c, f, el.defaultFlow, o))
          && if el.defaultFlow != 0 && el.defaultFlow in c.flows then Leaves(g, s, s', id, [el.defaultFlow]) else OnIncident(s, s', id))
  }

  lemma ExclusiveEffect(g: Graph, s: Instance, id: TokenId, el: Element, o: Oracle)
    requires Counted(s) && id in s.tokens && ElementOf(g, s.tokens[id]) == Some(el)
    ensures Chooses(g, s, RouteExclusive(g, s, id, o), id, el, o)
  {
    var c := g[s.tokens[id].path];
    var i := FirstOpen(c, el.outgoing, el.defaultFlow, o);
    var chosen := FirstTrue(c, el.outgoing, el.defaultFlow, o);
    if chosen.Some? && WithDefault(c, el, chosen.value) != [] {
      MoveOverDeparts(g, s, id, WithDefault(c, el, chosen.value));
    }
  }

  /** The parallel fork: one token over every flow there is. */
  lemma ForkEffect(g: Graph, s: Instance, id: TokenId, el: Element)
    requires Counted(s) && id in s.tokens && ElementOf(g, s.tokens[id]) == Some(el)
    ensures Leaves(g, s, ForkAll(g, s, id), id, Filter(el.outgoing, AnyFlow(g[s.tokens[id].path])))
  {
    var c := g[s.tokens[id].path];
    ForksEvery(c, el.outgoing);
    var flows := ExistingFlows(c, el.outgoing);
    if flows != [] {
      MoveOverDeparts(g, s, id, flows);
    }
  }

  // ---- registrations --------------------------------------------------------------------------

  predicate Waitable(c: Container, b: ElementId) {
    b in c.elements && c.elements[b].event.Some?
    && (c.elements[b].event.value.kind.Timer? || c.elements[b].event.value.kind.Message? || c.elements[b].event.value.kind.Signal?)
  }

  function WaitableIn(c: Container): ElementId -> bool {
    (b: ElementId) => Waitable(c, b)
  }

  function KindOfWait(c: Container, b: ElementId): RecordKind {
    if Waitable(c, b) && c.elements[b].event.value.kind.Timer? then TimerJob else SubscriptionRecord
  }

  /** Anything but a timer can be registered; a timer needs its expression to evaluate. */
  predicate Accepted(c: Container, b: ElementId, ok: ElementId -> bool) {
    KindOfWait(c, b).TimerJob? ==> ok(b)
  }

  /** ID `n` went to the event `b`: as a job or subscription of the token, or as an incident. */
  predicate Slot(s: Instance, n: nat, id: TokenId, c: Container, b: ElementId, ok: ElementId -> bool) {
    if Accepted(c, b, ok) then n in s.events && s.events[n] == EventRecord(KindOfWait(c, b), id, b)
    else n in s.incidents && s.incidents[n] == id
  }

  /** ID `n` went to an event of the list, accepted or refused. */
  predicate SlotAmong(from: nat, n: nat, c: Container, bs: seq<ElementId>, ok: ElementId -> bool, accepted: bool) {
    from <= n < from + |bs| && (Accepted(c, bs[n - from], ok) <==> accepted)
  }

  /** How many events come up to the last refused one. */
  function UpToRefused(c: Container, bs: seq<ElementId>, ok: ElementId -> bool): (n: nat)
    ensures n <= |bs|
    ensures n > 0 ==> !Accepted(c, bs[n - 1], ok)
    ensures forall k :: n <= k < |bs| ==> Accepted(c, bs[k], ok)
  {
    if bs == [] then 0
    else if !Accepted(c, bs[|bs| - 1], ok) then |bs|
    else UpToRefused(c, bs[..|bs| - 1], ok)
  }

  ghost predicate SlotsTaken(from: nat, s: Instance, id: TokenId, c: Container, bs: seq<ElementId>, ok: ElementId -> bool) {
    forall k :: 0 <= k < |bs| ==> Slot(s, from + k, id, c, bs[k], ok)
  }

  /** No other record or incident appears or changes. */
  ghost predicate OnlySlots(from: nat, s: Instance, s': Instance, c: Container, bs: seq<ElementId>, ok: ElementId -> bool) {
    && (forall e :: e in s.events ==> e in s'.events && s'.events[e] == s.events[e])
    && (forall e :: e in s'.events ==> e in s.events || SlotAmong(from, e, c, bs, ok, true))
    && (forall i :: i in s.incidents ==>
          i in s'.incidents && (s'.incidents[i] == s.incidents[i] || SlotAmong(from, i, c, bs, ok, false)))
    && (forall i :: i in s'.incidents ==> i in s.incidents || SlotAmong(from, i, c, bs, ok, false))
  }

  /** The token is parked on the incident of the last refused event, if there is one. */
  ghost predicate ParkedOnLast(s: Instance, s': Instance, id: TokenId, c: Container, bs: seq<ElementId>, ok: ElementId -> bool)
    requires id in s.tokens
  {
    var n := UpToRefused(c, bs, ok);
    && s'.nextId == s.nextId + |bs|
    && s'.tokens == (if n == 0 then s.tokens
                     else s.tokens[id := s.tokens[id].(state := WaitRetry, ref := RecordRef(s.nextId + n - 1))])
    && s'.multi == s.multi && s'.waits == s.waits && s'.status == s.status && s'.suspended == s.suspended
    && s'.cancelled == s.cancelled
  }

  /** The events `bs` take one new ID each, in order: for a job or subscription of the token,
      or, if the event is a timer that cannot be scheduled, for an incident that names the token.
      The token is parked on the last such incident; nothing else changes. */
  ghost predicate Registered(s: Instance, s': Instance, id: TokenId, c: Container, bs: seq<ElementId>, ok: ElementId -> bool)
    requires id in s.tokens
  {
    && SlotsTaken(s.nextId, s', id, c, bs, ok)
    && OnlySlots(s.nextId, s, s', c, bs, ok)
    && ParkedOnLast(s, s', id, c, bs, ok)
  }

  predicate EventsBelow(s: Instance) {
    forall e :: e in s.events ==> e < s.nextId
  }

  lemma RegistersOne(s: Instance, id: TokenId, c: Container, b: ElementId, ok: ElementId -> bool)
    requires id in s.tokens && EventsBelow(s)
    ensures var s' := RegisterOne(s, id, c, b, ok(b));
      id in s'.tokens && EventsBelow(s') && if Waitable(c, b) then Registered(s, s', id, c, [b], ok) else s' == s
  {
    if Waitable(c, b) {
      if Accepted(c, b, ok) {
        RegistersAccepted(s, id, c, b, ok);
      } else {
        RegistersRefused(s, id, c, b, ok);
      }
    }
  }

  lemma RegistersAccepted(s: Instance, id: TokenId, c: Container, b: ElementId, ok: ElementId -> bool)
    requires id in s.tokens && EventsBelow(s) && Waitable(c, b) && Accepted(c, b, ok)
    ensures var s' := RegisterOne(s, id, c, b, ok(b)); EventsBelow(s') && Registered(s, s', id, c, [b], ok)
  {
    var s' := RegisterOne(s, id, c, b, ok(b));
    var bs := [b];
    assert s' == Register(s, KindOfWait(c, b), id, b);
    hide RegisterOne, Waitable, KindOfWait, Accepted;
    assert bs[0] == b && UpToRefused(c, bs, ok) == 0;
    assert SlotAmong(s.nextId, s.nextId, c, bs, ok, true);
  }

  lemma RegistersRefused(s: Instance, id: TokenId, c: Container, b: ElementId, ok: ElementId -> bool)
    requires id in s.tokens && EventsBelow(s) && Waitable(c, b) && !Accepted(c, b, ok)
    ensures var s' := RegisterOne(s, id, c, b, ok(b)); EventsBelow(s') && Registered(s, s', id, c, [b], ok)
  {
    var s' := RegisterOne(s, id, c, b, ok(b));
    var bs := [b];
    assert s' == RaiseIncident(s, id);
    hide RegisterOne, Waitable, KindOfWait, Accepted;
    assert bs[0] == b && UpToRefused(c, bs, ok) == 1;
    assert SlotAmong(s.nextId, s.nextId, c, bs, ok, false);
  }

  lemma RefusedMore(c: Container, b: ElementId, bs: seq<ElementId>, ok: ElementId -> bool)
    ensures UpToRefused(c, [b] + bs, ok) ==
      if UpToRefused(c, bs, ok) > 0 then UpToRefused(c, bs, ok) + 1 else if Accepted(c, b, ok) then 0 else 1
  {
    var all := [b] + bs;
    var n, m := UpToRefused(c, all, ok), UpToRefused(c, bs, ok);
    assert all[0] == b && forall k :: 0 <= k < |bs| ==> all[k + 1] == bs[k];
    assert n > 1 ==> all[n - 1] == bs[n - 2];
  }

  lemma RegisteredMore(s: Instance, s1: Instance, s2: Instance, id: TokenId, c: Container, b: ElementId, bs: seq<ElementId>,
                       ok: ElementId -> bool)
    requires id in s.tokens && id in s1.tokens && Registered(s, s1, id, c, [b], ok) && Registered(s1, s2, id, c, bs, ok)
    ensures Registered(s, s2, id, c, [b] + bs, ok)
  {
    hide SlotsTaken, OnlySlots, ParkedOnLast;
    MoreParked(s, s1, s2, id, c, b, bs, ok);
    MoreSlots(s, s1, s2, id, c, b, bs, ok);
    MoreOnly(s, s1, s2, c, b, bs, ok);
  }

  lemma MoreParked(s: Instance, s1: Instance, s2: Instance, id: TokenId, c: Container, b: ElementId, bs: seq<ElementId>,
                   ok: ElementId -> bool)
    requires id in s.tokens && id in s1.tokens && ParkedOnLast(s, s1, id, c, [b], ok) && ParkedOnLast(s1, s2, id, c, bs, ok)
    ensures s1.nextId == s.nextId + 1 && ParkedOnLast(s, s2, id, c, [b] + bs, ok)
  {
    RefusedMore(c, b, bs, ok);
    RefusedMore(c, b, [], ok);
    assert [b] + [] == [b];
    hide UpToRefused, Accepted;
  }

  lemma MoreOnly(s: Instance, s1: Instance, s2: Instance, c: Container, b: ElementId, bs: seq<ElementId>, ok: ElementId -> bool)
    requires s1.nextId == s.nextId + 1 && OnlySlots(s.nextId, s, s1, c, [b], ok) && OnlySlots(s1.nextId, s1, s2, c, bs, ok)
    ensures OnlySlots(s.nextId, s, s2, c, [b] + bs, ok)
  {
    forall n, a | SlotAmong(s.nextId, n, c, [b], ok, a) || SlotAmong(s1.nextId, n, c, bs, ok, a)
      ensures SlotAmong(s.nextId, n, c, [b] + bs, ok, a)
    {
      SlotMore(s.nextId, n, c, b, bs, ok, a);
    }
    hide SlotAmong;
  }

  lemma SlotMore(from: nat, n: nat, c: Container, b: ElementId, bs: seq<ElementId>, ok: ElementId -> bool, a: bool)
    requires SlotAmong(from, n, c, [b], ok, a) || SlotAmong(from + 1, n, c, bs, ok, a)
    ensures SlotAmong(from, n, c, [b] + bs, ok, a)
  {
    var all := [b] + bs;
    if n > from { assert all[n - from] == bs[n - (from + 1)]; }
  }

  lemma MoreSlots(s: Instance, s1: Instance, s2: Instance, id: TokenId, c: Container, b: ElementId, bs: seq<ElementId>,
                  ok: ElementId -> bool)
    requires s1.nextId == s.nextId + 1 && SlotsTaken(s.nextId, s1, id, c, [b], ok) && SlotsTaken(s1.nextId, s2, id, c, bs, ok)
    requires OnlySlots(s1.nextId, s1, s2, c, bs, ok)
    ensures SlotsTaken(s.nextId, s2, id, c, [b] + bs, ok)
  {
    var all := [b] + bs;
    assert Slot(s2, s.nextId, id, c, b, ok) by {
      assert [b][0] == b && Slot(s1, s.nextId + 0, id, c, [b][0], ok);
    }
    hide OnlySlots, Slot;
    forall k | 0 <= k < |all| ensures Slot(s2, s.nextId + k, id, c, all[k], ok) {
      if k > 0 {
        assert all[k] == bs[k - 1] && Slot(s2, s1.nextId + (k - 1), id, c, bs[k - 1], ok);
      }
    }
  }

  lemma RegistersNone(s: Instance, id: TokenId, c: Container, ok: ElementId -> bool)
    requires id in s.tokens
    ensures Registered(s, s, id, c, [], ok)
  {
  }

  lemma {:induction false} RegistersEach(g: Graph, s: Instance, id: TokenId, c: Container, bs: seq<ElementId>, ok: ElementId -> bool)
    requires id in s.tokens && EventsBelow(s)
    ensures Registered(s, RegisterEach(g, s, id, c, bs, ok), id, c, Filter(bs, WaitableIn(c)), ok)
    decreases bs
  {
    if bs == [] {
      RegistersNone(s, id, c, ok);
    } else {
      var s1 := RegisterOne(s, id, c, bs[0], ok(bs[0]));
      var rest := Filter(bs[1..], WaitableIn(c));
      RegistersOne(s, id, c, bs[0], ok);
      RegistersEach(g, s1, id, c, bs[1..], ok);
      hide Registered;
      assert Filter(bs, WaitableIn(c)) == (if Waitable(c, bs[0]) then [bs[0]] else []) + rest;
      if Waitable(c, bs[0]) {
        RegisteredMore(s, s1, RegisterEach(g, s, id, c, bs, ok), id, c, bs[0], rest, ok);
      } else {
        assert [] + rest == rest;
      }
    }
  }

  /** A timer, message or signal event on the boundary of the activity. */
  predicate WaitingBoundary(c: Container, activity: ElementId, b: ElementId) {
    && b in c.elements && c.elements[b].etype.BoundaryEvent? && c.elements[b].attachedTo == activity
    && c.elements[b].event.Some? && c.elements[b].event.value.kind in {EventKind.Timer, EventKind.Message, EventKind.Signal}
  }

  function BoundaryOf(c: Container, activity: ElementId): ElementId -> bool {
    (b: ElementId) => WaitingBoundary(c, activity, b)
  }

  lemma {:induction false} BoundariesWait(c: Container, ids: seq<ElementId>, activity: ElementId)
    ensures Filter(BoundariesFrom(c, ids, activity), WaitableIn(c)) == Filter(ids, BoundaryOf(c, activity))
    decreases ids
  {
    if ids != [] {
      BoundariesWait(c, ids[1..], activity);
      var rest := BoundariesFrom(c, ids[1..], activity);
      var b := ids[0];
      if b in c.elements && c.elements[b].etype.BoundaryEvent? && c.elements[b].attachedTo == activity {
        assert BoundariesFrom(c, ids, activity) == [b] + rest;
        assert ([b] + rest)[1..] == rest;
      } else {
        assert BoundariesFrom(c, ids, activity) == [] + rest == rest;
      }
    }
  }

  /** The timer, message and signal boundaries of the token's activity are registered for it, in
      document order. */
  ghost predicate BoundariesTaken(g: Graph, s: Instance, s': Instance, id: TokenId, o: Oracle)
    requires id in s.tokens && s.tokens[id].path in g
  {
    var c := g[s.tokens[id].path];
    Registered(s, s', id, c, Filter(c.order, BoundaryOf(c, s.tokens[id].element)), o.timerOk)
  }

  /** registerBoundaries. */
  lemma BoundariesRegistered(g: Graph, s: Instance, id: TokenId, o: Oracle)
    requires id in s.tokens && s.tokens[id].path in g && EventsBelow(s)
    ensures BoundariesTaken(g, s, RegisterBoundaries(g, s, id, o), id, o)
  {
    var c := g[s.tokens[id].path];
    var bs := Boundaries(c, s.tokens[id].element);
    RegistersEach(g, s, id, c, bs, o.timerOk);
    BoundariesWait(c, c.order, s.tokens[id].element);
    assert RegisterBoundaries(g, s, id, o) == RegisterEach(g, s, id, c, bs, o.timerOk);
  }

  /** The targets of the flows there are. */
  function Targets(c: Container, flows: seq<ElementId>): seq<ElementId> {
    if flows == [] then []
    else (if flows[0] in c.flows then [c.flows[flows[0]].target] else []) + Targets(c, flows[1..])
  }

  lemma {:induction false} TargetsRegister(g: Graph, s: Instance, id: TokenId, c: Container, flows: seq<ElementId>, o: Oracle)
    requires id in s.tokens
    ensures WaitOnTargets(g, s, id, c, flows, o) == RegisterEach(g, s, id, c, Targets(c, flows), o.timerOk)
    decreases flows
  {
    if flows != [] {
      var rest := Targets(c, flows[1..]);
      if flows[0] in c.flows {
        var target := c.flows[flows[0]].target;
        TargetsRegister(g, RegisterOne(s, id, c, target, o.timerOk(target)), id, c, flows[1..], o);
        assert Targets(c, flows) == [target] + rest;
        assert ([target] + rest)[1..] == rest;
      } else {
        TargetsRegister(g, s, id, c, flows[1..], o);
        assert Targets(c, flows) == [] + rest == rest;
      }
    }
  }

  /** The token waits for events, with a registration per target that waits for a timer, message
      or signal, in the order of the flows. */
  ghost predicate AwaitsTargets(g: Graph, s: Instance, s': Instance, id: TokenId, el: Element, o: Oracle)
    requires id in s.tokens && s.tokens[id].path in g
  {
    var c := g[s.tokens[id].path];
    var s1 := s.(tokens := s.tokens[id := s.tokens[id].(state := WaitEvents, ref := NoRef)]);
    Registered(s1, s', id, c, Filter(Targets(c, el.outgoing), WaitableIn(c)), o.timerOk)
  }

  /** eventBasedGateway. */
  lemma EventBasedEffect(g: Graph, s: Instance, id: TokenId, el: Element, o: Oracle)
    requires id in s.tokens && s.tokens[id].path in g && EventsBelow(s)
    ensures AwaitsTargets(g, s, RouteEventBased(g, s, id, el, o), id, el, o)
  {
    var c := g[s.tokens[id].path];
    var s1 := SetToken(s, id, s.tokens[id].(state := WaitEvents, ref := NoRef));
    TargetsRegister(g, s1, id, c, el.outgoing, o);
    RegistersEach(g, s1, id, c, Targets(c, el.outgoing), o.timerOk);
  }

  // ---- where a sub-process starts ---------------------------------------------------------------

  predicate PlainStart(c: Container, id: ElementId) {
    id in c.elements && c.elements[id].etype.StartEvent? && c.elements[id].event.None?
  }

  lemma {:induction false} FirstUntypedIs(c: Container, ids: seq<ElementId>)
    ensures var found := FirstUntyped(c, StartEventsFrom(c, ids));
      if found.None? then forall id :: id in ids ==> !PlainStart(c, id)
      else exists i :: 0 <= i < |ids| && ids[i] == found.value && PlainStart(c, ids[i]) && forall j :: 0 <= j < i ==> !PlainStart(c, ids[j])
    decreases ids
  {
    if ids != [] {
      FirstUntypedIs(c, ids[1..]);
      var found := FirstUntyped(c, StartEventsFrom(c, ids[1..]));
      assert StartEventsFrom(c, ids) ==
        (if ids[0] in c.elements && c.elements[ids[0]].etype.StartEvent? then [ids[0]] else []) + StartEventsFrom(c, ids[1..]);
      if PlainStart(c, ids[0]) {
        assert StartEventsFrom(c, ids)[0] == ids[0];
      } else {
        if ids[0] in c.elements && c.elements[ids[0]].etype.StartEvent? {
          assert StartEventsFrom(c, ids)[1..] == StartEventsFrom(c, ids[1..]);
        } else {
          assert StartEventsFrom(c, ids) == StartEventsFrom(c, ids[1..]);
        }
        if found.Some? {
          var k :| 0 <= k < |ids[1..]| && ids[1..][k] == found.value && PlainStart(c, ids[1..][k])
                   && forall j :: 0 <= j < k ==> !PlainStart(c, ids[1..][j]);
          assert ids[k + 1] == found.value;
          forall j | 0 <= j < k + 1 ensures !PlainStart(c, ids[j]) {
            if j > 0 { assert ids[j] == ids[1..][j - 1]; }
          }
        }
      }
    }
  }

  predicate FirstPlainStart(c: Container, i: int) {
    && 0 <= i < |c.order| && PlainStart(c, c.order[i])
    && forall j :: 0 <= j < i ==> !PlainStart(c, c.order[j])
  }

  /** A start event to be registered for: a message or signal, or a timer that can be scheduled. */
  predicate WaitingStart(c: Container, b: ElementId, ok: ElementId -> bool) {
    && b in c.elements && c.elements[b].etype.StartEvent? && c.elements[b].event.Some?
    && (match c.elements[b].event.value.kind
        case Timer => ok(b)
        case Message => true
        case Signal => true
        case _ => false)
  }

  function StartsToWait(c: Container, ok: ElementId -> bool): ElementId -> bool {
    (b: ElementId) => WaitingStart(c, b, ok)
  }

  /** A job for a timer, else a subscription. */
  function RecordFor(c: Container, owner: TokenId, b: ElementId): EventRecord {
    var timer := b in c.elements && c.elements[b].event.Some? && c.elements[b].event.value.kind.Timer?;
    EventRecord(if timer then TimerJob else SubscriptionRecord, owner, b)
  }

  function RecordsFor(c: Container, owner: TokenId, bs: seq<ElementId>): seq<EventRecord> {
    if bs == [] then [] else [RecordFor(c, owner, bs[0])] + RecordsFor(c, owner, bs[1..])
  }

  /** The records of a scope's event sub-processes: in document order of these, and within each
      in document order of its start events. */
  function ScopeRecords(g: Graph, path: Path, ids: seq<ElementId>, owner: TokenId, ok: ElementId -> bool): seq<EventRecord>
    requires path in g
  {
    if ids == [] then []
    else
      var c := g[path];
      var inner := path + [ids[0]];
      (if ids[0] in c.elements && c.elements[ids[0]].etype.SubProcess? && c.elements[ids[0]].triggeredByEvent && inner in g
       then RecordsFor(g[inner], owner, Filter(g[inner].order, StartsToWait(g[inner], ok))) else [])
      + ScopeRecords(g, path, ids[1..], owner, ok)
  }

  predicate RecordAt(s: Instance, e: nat, r: EventRecord) {
    e in s.events && s.events[e] == r
  }

  /** The records are added under the next IDs, in order; nothing else changes. */
  ghost predicate Appended(s: Instance, s': Instance, rs: seq<EventRecord>) {
    && s'.nextId == s.nextId + |rs|
    && (forall k :: 0 <= k < |rs| ==> RecordAt(s', s.nextId + k, rs[k]))
    && (forall e :: e in s.events ==> e in s'.events && s'.events[e] == s.events[e])
    && (forall e :: e in s'.events ==> e in s.events || s.nextId <= e < s'.nextId)
    && s'.tokens == s.tokens && SameBooks(s, s')
  }

  lemma AppendedMore(s: Instance, s1: Instance, s2: Instance, rs: seq<EventRecord>, more: seq<EventRecord>)
    requires Appended(s, s1, rs) && Appended(s1, s2, more)
    ensures Appended(s, s2, rs + more)
  {
    forall k | 0 <= k < |rs + more| ensures RecordAt(s2, s.nextId + k, (rs + more)[k]) {
      if k < |rs| {
        assert RecordAt(s1, s.nextId + k, rs[k]);
      } else {
        assert RecordAt(s2, s1.nextId + (k - |rs|), more[k - |rs|]);
      }
    }
  }

  lemma NothingAppended(s: Instance)
    ensures Appended(s, s, [])
  {
  }

  lemma OneAppended(s: Instance, r: EventRecord)
    requires EventsBelow(s)
    ensures var s1 := Register(s, r.kind, r.token, r.element); EventsBelow(s1) && Appended(s, s1, [r])
  {
  }

  lemma {:induction false} StartsAppended(s: Instance, owner: TokenId, c: Container, ids: seq<ElementId>, o: Oracle)
    requires EventsBelow(s)
    ensures var s' := RegisterStarts(s, owner, c, StartEventsFrom(c, ids), o);
      EventsBelow(s') && Appended(s, s', RecordsFor(c, owner, Filter(ids, StartsToWait(c, o.timerOk))))
    decreases ids
  {
    hide Appended, EventsBelow;
    if ids == [] {
      NothingAppended(s);
    } else {
      var b := ids[0];
      var rest := StartEventsFrom(c, ids[1..]);
      var more := Filter(ids[1..], StartsToWait(c, o.timerOk));
      if b in c.elements && c.elements[b].etype.StartEvent? {
        assert StartEventsFrom(c, ids) == [b] + rest && ([b] + rest)[1..] == rest;
        if WaitingStart(c, b, o.timerOk) {
          var s1 := Register(s, RecordFor(c, owner, b).kind, owner, b);
          OneAppended(s, RecordFor(c, owner, b));
          StartsAppended(s1, owner, c, ids[1..], o);
          AppendedMore(s, s1, RegisterStarts(s1, owner, c, rest, o), [RecordFor(c, owner, b)], RecordsFor(c, owner, more));
          assert ([b] + more)[1..] == more;
        } else {
          StartsAppended(s, owner, c, ids[1..], o);
          assert [] + more == more;
        }
      } else {
        assert StartEventsFrom(c, ids) == [] + rest == rest;
        StartsAppended(s, owner, c, ids[1..], o);
        assert [] + more == more;
      }
    }
  }

  lemma {:induction false} SubsAppended(g: Graph, s: Instance, path: Path, ids: seq<ElementId>, owner: TokenId, o: Oracle)
    requires path in g && EventsBelow(s)
    ensures var s' := RegisterSubsFrom(g, s, path, ids, owner, o);
      EventsBelow(s') && Appended(s, s', ScopeRecords(g, path, ids, owner, o.timerOk))
    decreases ids
  {
    hide Appended, EventsBelow;
    if ids == [] {
      NothingAppended(s);
    } else {
      var id := ids[0];
      var more := ScopeRecords(g, path, ids[1..], owner, o.timerOk);
      if id in g[path].elements && IsEventSub(g[path].elements[id]) && path + [id] in g {
        var c := g[path + [id]];
        var s1 := RegisterStarts(s, owner, c, StartEvents(c), o);
        StartsAppended(s, owner, c, c.order, o);
        SubsAppended(g, s1, path, ids[1..], owner, o);
        AppendedMore(s, s1, RegisterSubsFrom(g, s1, path, ids[1..], owner, o),
                     RecordsFor(c, owner, Filter(c.order, StartsToWait(c, o.timerOk))), more);
      } else {
        SubsAppended(g, s, path, ids[1..], owner, o);
        assert [] + more == more;
      }
    }
  }

  /** `id` waits on the scope whose event sub-processes are registered for it, and one fresh token
      stands at the start inside; nothing else changes. */
  ghost predicate Opens(g: Graph, s: Instance, s': Instance, id: TokenId, inner: Path, start: ElementId, o: Oracle)
    requires id in s.tokens && inner in g
  {
    var s1 := s.(tokens := s.tokens[id := s.tokens[id].(state := WaitChild, ref := ScopeRef)]);
    exists s2 ::
      && Appended(s1, s2, ScopeRecords(g, inner, g[inner].order, id, o.timerOk))
      && s' == s2.(tokens := s2.tokens[s2.nextId := Token(start, Active, inner, s.tokens[id].owners + [id], 0, NoRef, 0, 0, 0)],
                   nextId := s2.nextId + 1)
  }

  /** The token enters the sub-process at its first plain start event in document order; without
      one it is parked on an incident. */
  ghost predicate Enters(g: Graph, s: Instance, s': Instance, id: TokenId, o: Oracle)
    requires id in s.tokens
  {
    var inner := s.tokens[id].path + [s.tokens[id].element];
    if inner !in g || forall x :: x in g[inner].order ==> !PlainStart(g[inner], x) then OnIncident(s, s', id)
    else exists i :: FirstPlainStart(g[inner], i) && Opens(g, s, s', id, inner, g[inner].order[i], o)
  }

  /** enterSubProcess. */
  lemma EnterSubEffect(g: Graph, s: Instance, id: TokenId, o: Oracle)
    requires Counted(s) && id in s.tokens
    ensures Enters(g, s, EnterSub(g, s, id, o), id, o)
  {
    var t := s.tokens[id];
    var inner := t.path + [t.element];
    if inner in g {
      FirstUntypedIs(g[inner], g[inner].order);
      var s1 := SetToken(s, id, t.(state := WaitChild, ref := ScopeRef));
      SubsAppended(g, s1, inner, g[inner].order, id, o);
      if NoneStartEvent(g[inner]).Some? {
        var i :| 0 <= i < |g[inner].order| && g[inner].order[i] == NoneStartEvent(g[inner]).value && FirstPlainStart(g[inner], i);
        var s2 := RegisterEventSubs(g, s1, inner, id, o);
        assert Appended(s1, s2, ScopeRecords(g, inner, g[inner].order, id, o.timerOk));
        assert Opens(g, s, EnterSub(g, s, id, o), id, inner, g[inner].order[i], o);
      }
    }
  }

  lemma {:induction false} StartsAddNoToken(s: Instance, owner: TokenId, c: Container, starts: seq<ElementId>, o: Oracle)
    ensures RegisterStarts(s, owner, c, starts, o).tokens == s.tokens && RegisterStarts(s, owner, c, starts, o).nextId >= s.nextId
    decreases starts
  {
    if starts != [] {
      var ev := if starts[0] in c.elements then c.elements[starts[0]].event else None;
      var s1 :=
        if ev.Some? && (ev.value.kind.Message? || ev.value.kind.Signal? || (ev.value.kind.Timer? && o.timerOk(starts[0])))
        then Register(s, if ev.value.kind.Timer? then TimerJob else SubscriptionRecord, owner, starts[0]) else s;
      StartsAddNoToken(s1, owner, c, starts[1..], o);
    }
  }

  lemma {:induction false} SubsAddNoToken(g: Graph, s: Instance, path: Path, ids: seq<ElementId>, owner: TokenId, o: Oracle)
    requires path in g
    ensures RegisterSubsFrom(g, s, path, ids, owner, o).tokens == s.tokens
    ensures RegisterSubsFrom(g, s, path, ids, owner, o).nextId >= s.nextId
    decreases ids
  {
    if ids != [] {
      var id := ids[0];
      if id in g[path].elements && IsEventSub(g[path].elements[id]) && path + [id] in g {
        var c := g[path + [id]];
        StartsAddNoToken(s, owner, c, StartEvents(c), o);
        SubsAddNoToken(g, RegisterStarts(s, owner, c, StartEvents(c), o), path, ids[1..], owner, o);
      } else {
        SubsAddNoToken(g, s, path, ids[1..], owner, o);
      }
    }
  }
}
