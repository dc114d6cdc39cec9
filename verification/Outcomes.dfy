/** How activities, loops and scopes end, told by what is there afterwards: which tokens are
    gone, which records are closed, and how the token that goes on leaves. */
module Outcomes {
  import opened StoreState
  import opened Bpmn
  import opened Instances
  import opened Engine
  import opened ScopeTree
  import opened Moves
  import opened Cancellation
  import opened Completion
  import opened Errors
  import opened Steps
  import opened ErrorEffects
  import opened Effects
  import Joins
  import opened Routing

  // ---- what goes -----------------------------------------------------------------------------

  /** The tokens of the set are gone, and with them their loop entries, open wait records, jobs
      and subscriptions, and the child instances they wait for; nothing else changes. */
  ghost predicate Cleared(s: Instance, s': Instance, gone: set<TokenId>) {
    && s'.tokens == s.tokens - gone && s'.multi == s.multi - gone
    && s'.waits.Keys == s.waits.Keys
    && (forall w :: w in s.waits ==>
          s'.waits[w] == if s.waits[w].token in gone then s.waits[w].(open := false) else s.waits[w])
    && (forall e :: e in s'.events <==>
          e in s.events && s.events[e].token !in gone && forall u :: u in gone && u in s.tokens ==> !AwaitsEvent(s.tokens[u], e))
    && (forall e :: e in s'.events ==> s'.events[e] == s.events[e])
    && (forall c :: c in s'.cancelled <==>
          c in s.cancelled || exists u :: u in gone && u in s.tokens && AwaitsChild(s.tokens[u], c))
    && s'.status == s.status && s'.suspended == s.suspended && s'.incidents == s.incidents && s'.nextId == s.nextId
  }

  lemma SweepClears(g: Graph, s: Instance, gone: set<TokenId>, e: TokenId)
    requires Core(g, s) && Linked(s, e) && (e == 0 || e in gone)
    ensures Cleared(s, Sweep(s, gone, gone), gone)
  {
    var s' := Sweep(s, gone, gone);
    forall w | w in s.waits
      ensures s'.waits[w] == if s.waits[w].token in gone then s.waits[w].(open := false) else s.waits[w]
    {
      SweptWait(g, s, gone, e, w);
    }
    forall c ensures c in ChildrenOf(s, gone) <==> exists u :: u in gone && u in s.tokens && AwaitsChild(s.tokens[u], c) {
    }
  }

  lemma SweptWait(g: Graph, s: Instance, gone: set<TokenId>, e: TokenId, w: nat)
    requires Core(g, s) && Linked(s, e) && (e == 0 || e in gone) && w in s.waits
    ensures Sweep(s, gone, gone).waits[w] == if s.waits[w].token in gone then s.waits[w].(open := false) else s.waits[w]
  {
    var r := s.waits[w];
    if r.open {
      assert Backed(s, w, e);
      assert Awaits(s.tokens[r.token], r.kind, w);
      NoZero(g, s);
      forall u | u in gone && u in s.tokens && Awaits(s.tokens[u], r.kind, w) ensures u == r.token {
        if u != e { assert Held(s, u); }
      }
    }
  }

  /** The token's jobs and subscriptions go, and only these. */
  ghost predicate Released(s: Instance, s': Instance, id: TokenId) {
    && s' == s.(events := s'.events)
    && (forall e :: e in s'.events <==> e in s.events && s.events[e].token != id)
    && (forall e :: e in s'.events ==> s'.events[e] == s.events[e])
  }

  lemma DropReleases(s: Instance, id: TokenId)
    ensures Released(s, DropEvents(s, id), id)
  {
  }

  // ---- leaving an activity ---------------------------------------------------------------------

  ghost predicate On(g: Graph, s: Instance, id: TokenId, el: Element) {
    id in s.tokens && ElementOf(g, s.tokens[id]) == Some(el)
  }

  /** The token, its registrations gone, leaves the element. */
  ghost predicate Departed(g: Graph, s: Instance, s': Instance, id: TokenId, el: Element, o: Oracle)
    requires On(g, s, id, el)
  {
    exists s1 :: Released(s, s1, id) && LeavesOver(g, s1, s', id, el, o)
  }

  lemma DepartedIs(g: Graph, s: Instance, id: TokenId, el: Element, o: Oracle)
    requires Routing.Counted(s) && On(g, s, id, el)
    requires s.tokens[id].parent == 0 || s.tokens[id].parent !in s.multi || !IsMIChild(s.tokens[id])
    ensures Departed(g, s, CompleteActivity(g, s, id, o), id, el, o)
  {
    hide LeavesOver, TakeOutgoing;
    var s1 := DropEvents(s, id);
    assert CompleteActivity(g, s, id, o) == TakeOutgoing(g, s1, id, o);
    hide CompleteActivity;
    DropReleases(s, id);
    TakeOutgoingEffect(g, s1, id, el, o);
    assert Released(s, s1, id) && LeavesOver(g, s1, CompleteActivity(g, s, id, o), id, el, o);
  }

  /** What hangs from a token: its iterations, what runs inside them, and so on. */
  ghost function Hanging(s: Instance, m: TokenId): set<TokenId> {
    set u | u in s.tokens && Below(s, u, m)
  }

  lemma HangingIs(g: Graph, s: Instance, id: TokenId)
    requires Core(g, s) && id in s.tokens
    ensures Hanging(s, id) == ActivitySet(g, s, id)
  {
    CancelsExactlySubtree(g, s, id);
    forall u ensures u in Hanging(s, id) <==> u in ActivitySet(g, s, id) {
      assert u in CancelActivity(g, s, id).tokens <==> u in s.tokens && u !in ActivitySet(g, s, id);
    }
  }

  /** All that hangs from the coordinator is gone with the loop entry, and the coordinator leaves
      the activity, or is parked on an incident if its outputs fail. */
  ghost predicate LoopLeft(g: Graph, s: Instance, s': Instance, m: TokenId, el: Element, o: Oracle)
    requires On(g, s, m, el)
  {
    exists s1 ::
      && Cleared(s, s1, Hanging(s, m)) && m in s1.tokens
      && var s2 := s1.(tokens := s1.tokens[m := s.tokens[m].(state := Active, ref := NoRef)], multi := s1.multi - {m});
         if o.outputsOk(m) then On(g, s2, m, el) && Departed(g, s2, s', m, el, o) else OnIncident(s2, s', m)
  }

  lemma LoopLeftIs(g: Graph, s: Instance, m: TokenId, el: Element, o: Oracle)
    requires ValidGraph(g) && Looping(g, s, m) && On(g, s, m, el)
    ensures LoopLeft(g, s, FinishMulti(g, s, m, o), m, el, o)
  {
    StragglersAre(g, s, m);
    HangingIs(g, s, m);
    var gone := Hanging(s, m);
    assert gone == Stragglers(g, s, m) - {m};
    SweepClears(g, s, gone, 0);
    var s1 := Sweep(s, gone, gone);
    var s2 := s1.(tokens := s1.tokens[m := s.tokens[m].(state := Active, ref := NoRef)], multi := s1.multi - {m});
    LoopOverReady(g, s, m);
    assert LoopOver(g, s, m) == s2;
    FinishMultiIs(g, s, m, o);
    if o.outputsOk(m) {
      hide Cleared, Departed, LoopOver, FinishMulti, Ready, Looping, CompleteActivity;
      LoopEndDeparts(g, s2, m, el, o);
    }
  }

  lemma LoopEndDeparts(g: Graph, s: Instance, m: TokenId, el: Element, o: Oracle)
    requires Ready(g, s, m) && On(g, s, m, el) && s.tokens[m].parent == 0
    ensures Departed(g, s, CompleteActivity(g, DropEvents(s, m), m, o), m, el, o)
  {
    PlainIs(g, s, m, o);
    PlainIs(g, DropEvents(s, m), m, o);
    DropsOnce(s, m);
    Joins.CoreCounted(g, s);
    DepartedIs(g, s, m, el, o);
  }

  // ---- counting an iteration -------------------------------------------------------------------

  function Tallied(m: MultiState, spec: MultiSpec): MultiState {
    m.(completed := m.completed + 1, outputs := m.outputs + (if spec.hasOutput then 1 else 0))
  }

  /** An iteration ends: it is gone and counted, its output kept if the loop collects one. The
      loop is left if its condition says so or nothing is left to do; otherwise a sequential loop
      has one new iteration, numbered by those completed, and a parallel one goes on. The
      coordinator is parked on an incident if the output or the condition does not evaluate. */
  ghost predicate Counts(g: Graph, s: Instance, s': Instance, x: TokenId, el: Element, o: Oracle)
    requires On(g, s, x, el)
  {
    var t := s.tokens[x];
    var p := t.parent;
    el.multi.Some? && p in s.multi && p in s.tokens && p != x && On(g, s, p, el) &&
    var spec := el.multi.value;
    var m := s.multi[p];
    var gone := s.(tokens := s.tokens - {x});
    var counted := gone.(multi := s.multi[p := Tallied(m, spec)]);
    if spec.hasOutput && !o.outputOk then OnIncident(gone, s', p)
    else if spec.hasCondition && o.done.Fails? then OnIncident(counted, s', p)
    else if (spec.hasCondition && o.done.Yes?) || m.completed + 1 >= m.total then LoopLeft(g, counted, s', p, el, o)
    else if spec.sequential then
      s' == counted.(
        tokens := counted.tokens[s.nextId := Token(t.element, Active, t.path, t.owners, 0, NoRef, p, t.element, m.completed + 1)],
        multi := s.multi[p := Tallied(m, spec).(nextIndex := m.nextIndex + 1)], nextId := s.nextId + 1)
    else s' == counted
  }

  lemma CountsIs(g: Graph, s: Instance, x: TokenId, el: Element, o: Oracle)
    requires ValidGraph(g) && Ready(g, s, x) && On(g, s, x, el) && s.tokens[x].parent != 0
    ensures Counts(g, s, MiChildCompleted(g, s, x, o), x, el, o)
  {
    var spec := IterationSpec(g, s, x);
    CountedLoops(g, s, x, spec.hasOutput);
    ParentStands(g, s, x, el);
    hide ValidGraph, Ready, Looping, Persists, Numbers;
    if SpecAnswers(spec, o) {
      CountedAreBooks(g, s, x, spec);
      MiChildCompletedIs(g, s, x, o);
      hide MiChildCompleted, AfterCount;
      CountedOn(g, s, x, el, spec, o);
    } else {
      MiChildFails(g, s, x, spec, o);
      CountFails(g, s, x, el, spec, o);
    }
  }

  lemma CountFails(g: Graph, s: Instance, x: TokenId, el: Element, spec: MultiSpec, o: Oracle)
    requires On(g, s, x, el) && el.multi == Some(spec) && !SpecAnswers(spec, o)
    requires var p := s.tokens[x].parent; p in s.multi && p in s.tokens && p != x && On(g, s, p, el)
    requires MiChildCompleted(g, s, x, o) == RaiseIncident(
      if spec.hasOutput && !o.outputOk then DeleteToken(s, x) else Completion.Counted(g, s, x, spec.hasOutput), s.tokens[x].parent)
    ensures Counts(g, s, MiChildCompleted(g, s, x, o), x, el, o)
  {
    hide MiChildCompleted, LoopLeft;
    TalliedIs(g, s, x, spec);
  }

  lemma TalliedIs(g: Graph, s: Instance, x: TokenId, spec: MultiSpec)
    requires x in s.tokens && s.tokens[x].parent in s.multi
    ensures var p := s.tokens[x].parent;
      Completion.Counted(g, s, x, spec.hasOutput) == s.(tokens := s.tokens - {x}).(multi := s.multi[p := Tallied(s.multi[p], spec)])
  {
  }

  lemma CountedOn(g: Graph, s: Instance, x: TokenId, el: Element, spec: MultiSpec, o: Oracle)
    requires ValidGraph(g) && On(g, s, x, el) && el.multi == Some(spec) && SpecAnswers(spec, o)
    requires var p := s.tokens[x].parent;
      && p in s.multi && p in s.tokens && p != x && On(g, s, p, el)
      && s.tokens[p].element == s.tokens[x].element && SameScope(s.tokens[p], s.tokens[x])
      && Looping(g, Completion.Counted(g, s, x, spec.hasOutput), p)
      && CountedBooks(g, Completion.Counted(g, s, x, spec.hasOutput), p, spec)
    requires MiChildCompleted(g, s, x, o)
      == AfterCount(g, Completion.Counted(g, s, x, spec.hasOutput), s.tokens[x].parent, spec, o)
    ensures Counts(g, s, MiChildCompleted(g, s, x, o), x, el, o)
  {
    var p := s.tokens[x].parent;
    var s2 := Completion.Counted(g, s, x, spec.hasOutput);
    AfterCountIs(g, s2, p, spec, o);
    hide ValidGraph, MiChildCompleted, AfterCount, LoopLeft, Looping;
    if LoopEnds(s2.multi[p], spec, o) {
      TalliedIs(g, s, x, spec);
      LoopLeftIs(g, s2, p, el, o);
    } else {
      GoesRound(g, s, x, el, spec, o);
    }
  }

  lemma GoesRound(g: Graph, s: Instance, x: TokenId, el: Element, spec: MultiSpec, o: Oracle)
    requires On(g, s, x, el) && el.multi == Some(spec) && SpecAnswers(spec, o)
    requires s.tokens[x].parent in s.multi && s.tokens[x].parent in s.tokens && s.tokens[x].parent != x
    requires var p := s.tokens[x].parent; var s2 := Completion.Counted(g, s, x, spec.hasOutput);
      && On(g, s, p, el) && s.tokens[p].element == s.tokens[x].element && SameScope(s.tokens[p], s.tokens[x])
      && CountedBooks(g, s2, p, spec) && !LoopEnds(s2.multi[p], spec, o)
      && MiChildCompleted(g, s, x, o) == AfterCount(g, s2, p, spec, o)
    ensures Counts(g, s, MiChildCompleted(g, s, x, o), x, el, o)
  {
    var p := s.tokens[x].parent;
    var s2 := Completion.Counted(g, s, x, spec.hasOutput);
    TalliedIs(g, s, x, spec);
    AfterCountIs(g, s2, p, spec, o);
    hide MiChildCompleted, AfterCount, FinishMulti, LoopLeft, ElementOf;
  }

  lemma ParentStands(g: Graph, s: Instance, x: TokenId, el: Element)
    requires Core(g, s) && On(g, s, x, el) && s.tokens[x].parent != 0
    ensures var p := s.tokens[x].parent;
      p in s.tokens && p != x && On(g, s, p, el) && s.tokens[p].element == s.tokens[x].element && SameScope(s.tokens[p], s.tokens[x])
  {
    assert TokenOk(g, s, x) && TokenOk(g, s, s.tokens[x].parent);
  }

  /** The activity is over: an iteration is counted, any other token leaves. */
  ghost predicate Completes(g: Graph, s: Instance, s': Instance, id: TokenId, el: Element, o: Oracle)
    requires On(g, s, id, el)
  {
    if s.tokens[id].parent != 0 then Counts(g, s, s', id, el, o) else Departed(g, s, s', id, el, o)
  }

  lemma CompletesIs(g: Graph, s: Instance, x: TokenId, el: Element, o: Oracle)
    requires ValidGraph(g) && Ready(g, s, x) && On(g, s, x, el)
    ensures Completes(g, s, CompleteActivity(g, s, x, o), x, el, o)
  {
    if s.tokens[x].parent != 0 {
      CountsIs(g, s, x, el, o);
      IterationIs(g, s, x, o);
    } else {
      Joins.CoreCounted(g, s);
      DepartedIs(g, s, x, el, o);
    }
  }

  /** A finished activity completes, or is parked on an incident if its outputs fail. */
  ghost predicate Finishes(g: Graph, s: Instance, s': Instance, id: TokenId, el: Element, o: Oracle)
    requires On(g, s, id, el)
  {
    if o.outputsOk(id) then Completes(g, s, s', id, el, o) else OnIncident(s, s', id)
  }

  lemma FinishesIs(g: Graph, s: Instance, x: TokenId, el: Element, o: Oracle)
    requires ValidGraph(g) && Ready(g, s, x) && On(g, s, x, el)
    ensures Finishes(g, s, FinishSync(g, s, x, o), x, el, o)
  {
    CompletesIs(g, s, x, el, o);
  }

  // ---- scopes --------------------------------------------------------------------------------

  predicate Nobody(s: Instance, path: Path, owners: seq<TokenId>) {
    forall u :: u in s.tokens ==> !(path <= s.tokens[u].path && owners <= s.tokens[u].owners)
  }

  /** The process is over: completed, without tokens, open waits, jobs or subscriptions. */
  predicate ProcessOver(s: Instance, s': Instance) {
    && s'.status.Completed? && s'.tokens == map[] && s'.events == map[] && s'.waits.Keys == s.waits.Keys
    && (forall w :: w in s.waits ==> s'.waits[w] == s.waits[w].(open := false))
    && s' == s.(status := Completed, tokens := map[], events := map[], waits := s'.waits)
  }

  /** What happens at the scope where the walk outward stops: nothing if somebody is left inside;
      else the process is over, or the sub-process around the scope completes. */
  ghost predicate Settles(g: Graph, s: Instance, s': Instance, path: Path, owners: seq<TokenId>, o: Oracle)
    requires |path| == |owners|
  {
    if !Nobody(s, path, owners) then s' == s
    else if path == [] then ProcessOver(s, s')
    else
      var n := |path| - 1;
      var x := owners[n];
      && !EventLevel(g, path, n) && HasElement(g, path[..n], path[n])
      && IsOwner(s, x, path, owners, n) && On(g, s, x, g[path[..n]].elements[path[n]])
      && exists s1 :: Released(s, s1, x) && Completes(g, s1, s', x, g[path[..n]].elements[path[n]], o)
  }

  /** After a token of the scope is gone: event sub-processes nobody is left in are over without
      further ado, and the walk stops at the first scope that is none or has somebody left. */
  ghost predicate ScopeOver(g: Graph, s: Instance, s': Instance, path: Path, owners: seq<TokenId>, o: Oracle)
    requires |path| == |owners|
  {
    exists k :: StopsThere(g, s, s', path, owners, o, k)
  }

  ghost predicate StopsThere(g: Graph, s: Instance, s': Instance, path: Path, owners: seq<TokenId>, o: Oracle, k: int)
    requires |path| == |owners|
  {
    0 <= k <= |path| && Settles(g, s, s', path[..k], owners[..k], o) && OverBeyond(g, s, path, owners, k)
  }

  ghost predicate OverBeyond(g: Graph, s: Instance, path: Path, owners: seq<TokenId>, k: nat)
    requires |path| == |owners|
  {
    forall j :: k < j <= |path| ==> Nobody(s, path[..j], owners[..j]) && EventLevel(g, path, j - 1)
  }

  lemma {:induction false} ScopeOverIs(g: Graph, s: Instance, path: Path, owners: seq<TokenId>, o: Oracle)
    requires ValidGraph(g) && Cut(g, s, path, owners, 0)
    ensures ScopeOver(g, s, CheckScope(g, s, path, owners, o), path, owners, o)
    decreases |path|
  {
    var s' := CheckScope(g, s, path, owners, o);
    var n := |path| - 1;
    assert path[..|path|] == path && owners[..|path|] == owners;
    if ScopeBusy(s, path, owners) {
      assert StopsThere(g, s, s', path, owners, o, |path|);
    } else if path == [] {
      ProcessEnds(g, s, o);
      assert StopsThere(g, s, s', path, owners, o, |path|);
    } else {
      LastLevel(g, s, path, owners);
      CheckScopeIs(g, s, path, owners, o);
      if owners[n] == 0 {
        CutPrefix(g, s, path, owners);
        ScopeOverIs(g, s, path[..n], owners[..n], o);
        WiderScope(g, s, s', path, owners, o);
      } else {
        WakeReady(g, s, path, owners);
        OwnerCompletes(g, s, path, owners, o);
        assert StopsThere(g, s, s', path, owners, o, |path|);
      }
    }
  }

  lemma ProcessEnds(g: Graph, s: Instance, o: Oracle)
    requires s.status.Running? && !ScopeBusy(s, [], [])
    ensures ProcessOver(s, CheckScope(g, s, [], [], o))
  {
    forall u ensures u !in s.tokens {
      assert u in s.tokens ==> InScope(s.tokens[u], [], []);
    }
    assert s.tokens == map[];
  }

  lemma OwnerCompletes(g: Graph, s: Instance, path: Path, owners: seq<TokenId>, o: Oracle)
    requires ValidGraph(g) && path != [] && |path| == |owners|
    requires var x := owners[|path| - 1]; Ready(g, DropEvents(s, x), x) && IsOwner(s, x, path, owners, |path| - 1)
    requires HasElement(g, path[..|path| - 1], path[|path| - 1])
    ensures var n := |path| - 1; var x := owners[n]; var el := g[path[..n]].elements[path[n]];
      && On(g, s, x, el)
      && exists s1 :: Released(s, s1, x) && Completes(g, s1, CompleteActivity(g, DropEvents(s, x), x, o), x, el, o)
  {
    var n := |path| - 1;
    var x := owners[n];
    hide Completes, CompleteActivity, Ready;
    DropReleases(s, x);
    CompletesIs(g, DropEvents(s, x), x, g[path[..n]].elements[path[n]], o);
  }

  lemma WiderScope(g: Graph, s: Instance, s': Instance, path: Path, owners: seq<TokenId>, o: Oracle)
    requires |path| == |owners| > 0 && !ScopeBusy(s, path, owners) && EventLevel(g, path, |path| - 1)
    requires ScopeOver(g, s, s', path[..|path| - 1], owners[..|path| - 1], o)
    ensures ScopeOver(g, s, s', path, owners, o)
  {
    var n := |path| - 1;
    var p, w := path[..n], owners[..n];
    var k :| StopsThere(g, s, s', p, w, o, k);
    hide Settles, EventLevel, ScopeBusy;
    assert p[..k] == path[..k] && w[..k] == owners[..k];
    OverWider(g, s, path, owners, k);
    hide OverBeyond;
    assert StopsThere(g, s, s', path, owners, o, k);
  }

  lemma OverWider(g: Graph, s: Instance, path: Path, owners: seq<TokenId>, k: nat)
    requires |path| == |owners| > 0 && !ScopeBusy(s, path, owners) && EventLevel(g, path, |path| - 1)
    requires OverBeyond(g, s, path[..|path| - 1], owners[..|path| - 1], k)
    ensures OverBeyond(g, s, path, owners, k)
  {
    var n := |path| - 1;
    var p, w := path[..n], owners[..n];
    forall j | k < j <= |path| ensures Nobody(s, path[..j], owners[..j]) && EventLevel(g, path, j - 1) {
      if j <= n {
        assert Nobody(s, p[..j], w[..j]) && EventLevel(g, p, j - 1);
        InnerLevel(g, s, path, owners, n, j);
      } else {
        NobodyHere(s, path, owners);
        assert path[..j] == path && owners[..j] == owners;
      }
    }
  }

  lemma NobodyHere(s: Instance, path: Path, owners: seq<TokenId>)
    requires !ScopeBusy(s, path, owners)
    ensures Nobody(s, path, owners)
  {
    forall u | u in s.tokens ensures !(path <= s.tokens[u].path && owners <= s.tokens[u].owners) {
      assert !InScope(s.tokens[u], path, owners);
    }
  }

  lemma InnerLevel(g: Graph, s: Instance, path: Path, owners: seq<TokenId>, n: nat, j: nat)
    requires 0 < j <= n <= |path| && n <= |owners|
    requires Nobody(s, path[..n][..j], owners[..n][..j]) && EventLevel(g, path[..n], j - 1)
    ensures Nobody(s, path[..j], owners[..j]) && EventLevel(g, path, j - 1)
  {
    assert path[..n][..j] == path[..j] && owners[..n][..j] == owners[..j] && path[..n][..j - 1] == path[..j - 1];
  }

  // ---- errors ----------------------------------------------------------------------------------

  /** An error event that takes the code, or any. */
  predicate TakesCode(el: Element, code: nat) {
    el.event.Some? && el.event.value.kind.Error? && (el.event.value.code == 0 || el.event.value.code == code)
  }

  predicate ErrorBoundaryAt(c: Container, activity: ElementId, code: nat, b: ElementId) {
    b in c.elements && c.elements[b].etype.BoundaryEvent? && c.elements[b].attachedTo == activity && TakesCode(c.elements[b], code)
  }

  /** The first error boundary of the activity, in document order, that takes the code. */
  ghost predicate FirstErrorBoundary(c: Container, ids: seq<ElementId>, activity: ElementId, code: nat, b: ElementId) {
    exists i :: 0 <= i < |ids| && ids[i] == b && ErrorBoundaryAt(c, activity, code, b)
      && forall j :: 0 <= j < i ==> !ErrorBoundaryAt(c, activity, code, ids[j])
  }

  lemma {:induction false} ErrorBoundaryIs(c: Container, ids: seq<ElementId>, activity: ElementId, code: nat)
    ensures var r := FirstCatching(c, BoundariesFrom(c, ids, activity), code);
      if r.Some? then FirstErrorBoundary(c, ids, activity, code, r.value)
      else forall b :: b in ids ==> !ErrorBoundaryAt(c, activity, code, b)
    decreases ids
  {
    if ids != [] {
      ErrorBoundaryIs(c, ids[1..], activity, code);
      var b := ids[0];
      var rest := BoundariesFrom(c, ids[1..], activity);
      if b in c.elements && c.elements[b].etype.BoundaryEvent? && c.elements[b].attachedTo == activity {
        assert BoundariesFrom(c, ids, activity) == [b] + rest && ([b] + rest)[1..] == rest;
      } else {
        assert BoundariesFrom(c, ids, activity) == [] + rest == rest;
      }
      var r := FirstCatching(c, rest, code);
      if ErrorBoundaryAt(c, activity, code, b) {
        assert ids[0] == b;
      } else if r.Some? {
        var i :| 0 <= i < |ids[1..]| && ids[1..][i] == r.value && ErrorBoundaryAt(c, activity, code, r.value)
          && forall j :: 0 <= j < i ==> !ErrorBoundaryAt(c, activity, code, ids[1..][j]);
        assert ids[i + 1] == r.value;
        assert forall j :: 0 < j < i + 1 ==> ids[j] == ids[1..][j - 1];
      }
    }
  }

  // ---- interrupting ----------------------------------------------------------------------------

  /** All that hangs from the token is gone, with whatever the token itself waited for, and the
      token goes on from the boundary event. */
  ghost predicate Interrupted(s: Instance, s': Instance, id: TokenId, b: ElementId)
    requires id in s.tokens
  {
    exists s1 :: Cleared(s, s1, {id} + Hanging(s, id)) && s' == s1.(tokens := s1.tokens[
      id := s.tokens[id].(element := b, state := Active, ref := NoRef, miChild := 0, loop := 0)])
  }

  lemma InterruptedIs(g: Graph, s: Instance, id: TokenId, b: ElementId, e: TokenId)
    requires Core(g, s) && Linked(s, e) && id in s.tokens && id !in Hanging(s, id) && (e == 0 || e in {id} + Hanging(s, id))
    ensures var s1 := Sweep(s, {id} + Hanging(s, id), Hanging(s, id));
      id in s1.tokens && Interrupted(s, MoveToBoundary(s1, id, b), id, b)
  {
    var all := {id} + Hanging(s, id);
    var s1 := Sweep(s, all, all);
    var s2 := MoveToBoundary(Sweep(s, all, Hanging(s, id)), id, b);
    SweepClears(g, s, all, e);
    assert s2.tokens == s1.tokens[id := s.tokens[id].(element := b, state := Active, ref := NoRef, miChild := 0, loop := 0)];
  }

  function NewToken(element: ElementId, path: Path, owners: seq<TokenId>): Token {
    Token(element, Active, path, owners, 0, NoRef, 0, 0, 0)
  }

  /** One new token; nothing else changes. */
  predicate Appears(s: Instance, s': Instance, element: ElementId, path: Path, owners: seq<TokenId>) {
    s' == s.(tokens := s.tokens[s.nextId := NewToken(element, path, owners)], nextId := s.nextId + 1)
  }

  /** Everything in the scope instance. */
  function Within(s: Instance, path: Path, owners: seq<TokenId>): set<TokenId> {
    set u | u in s.tokens && path <= s.tokens[u].path && owners <= s.tokens[u].owners
  }

  /** The same, but for what runs inside one of its event sub-processes. */
  function WithinBut(s: Instance, path: Path, owners: seq<TokenId>, sub: ElementId): set<TokenId> {
    set u | u in s.tokens && path <= s.tokens[u].path && owners <= s.tokens[u].owners && !(path + [sub] <= s.tokens[u].path)
  }

  lemma ScopeSetIs(s: Instance, path: Path, owners: seq<TokenId>, sub: ElementId)
    ensures sub != 0 ==> ScopeSet(s, path, owners, sub) == WithinBut(s, path, owners, sub)
    ensures ScopeSet(s, path, owners, 0) == Within(s, path, owners)
  {
    if sub != 0 {
      forall u ensures u in ScopeSet(s, path, owners, sub) <==> u in WithinBut(s, path, owners, sub) {
        if u in s.tokens {
          InsideSub(s.tokens[u], path, owners, sub);
        }
      }
    }
  }

  /** Out of an empty scope a boundary event goes on: with the token that owned the scope, with the
      coordinator if that was an iteration, or with a new token where nobody waited. */
  ghost predicate GoesOnAt(s: Instance, s': Instance, path: Path, owners: seq<TokenId>, b: ElementId)
    requires |path| == |owners| > 0
  {
    var n := |path| - 1;
    var w := owners[n];
    if w == 0 then Appears(s, s', b, path[..n], owners[..n])
    else
      w in s.tokens &&
      if s.tokens[w].parent != 0 then s.tokens[w].parent in s.tokens && Interrupted(s, s', s.tokens[w].parent, b)
      else exists s1 :: Released(s, s1, w) && s' == s1.(tokens := s1.tokens[w := s.tokens[w].(element := b, state := Active, ref := NoRef)])
  }

  lemma GoesOnAtIs(g: Graph, s: Instance, path: Path, owners: seq<TokenId>, b: ElementId)
    requires ValidGraph(g) && Core(g, s) && Linked(s, 0) && ChainOk(g, s, path, owners) && path != []
    ensures GoesOnAt(s, ContinueAt(g, s, path, owners, b), path, owners, b)
  {
    var n := |path| - 1;
    var w := owners[n];
    NoZero(g, s);
    LastLevel(g, s, path, owners);
    ContinueAtIs(g, s, path, owners, b);
    if w != 0 {
      assert TokenOk(g, s, w);
      if s.tokens[w].parent != 0 {
        var m := s.tokens[w].parent;
        hide ContinueAt, ValidGraph;
        CoordinatorLeaves(g, s, m, b, 0);
      } else {
        DropReleases(s, w);
      }
    }
  }

  /** A coordinator taken to a boundary leaves its whole loop behind. */
  lemma CoordinatorLeaves(g: Graph, s: Instance, m: TokenId, b: ElementId, e: TokenId)
    requires Core(g, s) && Linked(s, e) && m in s.multi && (e == 0 || (e in s.tokens && s.tokens[e].parent == m))
    ensures m in s.tokens && m in CancelWaits(g, s, m).tokens && Interrupted(s, MoveToBoundary(CancelWaits(g, s, m), m, b), m, b)
    ensures e != 0 ==> e in Hanging(s, m)
  {
    StragglersAre(g, s, m);
    HangingIs(g, s, m);
    if e != 0 {
      assert LoopedUnder(g, s, m, s.tokens[e]);
    }
    assert CancelWaits(g, s, m) == Sweep(s, {m} + Hanging(s, m), Hanging(s, m));
    InterruptedIs(g, s, m, b, e);
  }

  // ---- an error on its way out -------------------------------------------------------------------

  /** An error loose in a scope. The innermost handler outward takes it: an event sub-process
      starts, all else in its scope gone, or a boundary goes on, the scope it is attached to empty.
      Without a handler the instance ends with one more incident. */
  ghost predicate Escapes(g: Graph, s: Instance, s': Instance, path: Path, owners: seq<TokenId>, code: nat)
    requires |path| == |owners|
  {
    match FindHandler(g, path, code)
    case None =>
      && s'.status.Terminated? && s'.tokens == map[] && s'.events == map[] && s'.incidents == s.incidents[s.nextId := 0]
      && s'.waits.Keys == s.waits.Keys && forall w :: w in s.waits ==> s'.waits[w] == s.waits[w].(open := false)
    case Some(BySub(l, sub, start)) =>
      l <= |path| && exists s1 :: Cleared(s, s1, WithinBut(s, path[..l], owners[..l], sub))
                                  && Appears(s1, s', start, path[..l] + [sub], owners[..l] + [0])
    case Some(ByBoundary(l, b)) =>
      0 < l <= |path| && exists s1 :: Cleared(s, s1, Within(s, path[..l], owners[..l]))
                                      && GoesOnAt(s1, s', path[..l], owners[..l], b)
  }

  lemma EscapesIs(g: Graph, s: Instance, path: Path, owners: seq<TokenId>, code: nat)
    requires ValidGraph(g) && Core(g, s) && Linked(s, 0) && ChainOk(g, s, path, owners)
    ensures Escapes(g, s, Propagate(g, s, path, owners, code), path, owners, code)
  {
    PropagateHandles(g, s, path, owners, code);
    var h := FindHandler(g, path, code);
    hide Propagate, FindHandler, ValidGraph, Core, ChainOk, GoesOnAt, Cleared, Linked;
    if h.Some? && h.value.BySub? {
      SubStarts(g, s, path, owners, code);
    } else if h.Some? {
      BoundaryGoesOn(g, s, path, owners, h.value.level, h.value.boundary);
    }
  }

  lemma SubStarts(g: Graph, s: Instance, path: Path, owners: seq<TokenId>, code: nat)
    requires ValidGraph(g) && Core(g, s) && Linked(s, 0) && |path| == |owners|
    requires FindHandler(g, path, code).Some? && FindHandler(g, path, code).value.BySub?
    requires FindHandler(g, path, code).value.level <= |path|
    ensures var h := FindHandler(g, path, code).value; var l := h.level;
      exists s1 :: Cleared(s, s1, WithinBut(s, path[..l], owners[..l], h.sub))
                   && Appears(s1, Handled(g, s, path, owners, Some(h)), h.start, path[..l] + [h.sub], owners[..l] + [0])
  {
    var h := FindHandler(g, path, code).value;
    var l := h.level;
    HandlerIsInnermost(g, path, code);
    assert GoodElement(g, path[..l], h.sub);
    hide FindHandler, Cleared;
    ScopeSetIs(s, path[..l], owners[..l], h.sub);
    SweepClears(g, s, WithinBut(s, path[..l], owners[..l], h.sub), 0);
    var s1 := KillScope(s, path[..l], owners[..l], h.sub);
    assert Appears(s1, Handled(g, s, path, owners, Some(h)), h.start, path[..l] + [h.sub], owners[..l] + [0]);
  }

  lemma BoundaryGoesOn(g: Graph, s: Instance, path: Path, owners: seq<TokenId>, l: nat, b: ElementId)
    requires ValidGraph(g) && Core(g, s) && Linked(s, 0) && ChainOk(g, s, path, owners) && 0 < l <= |path|
    ensures exists s1 :: Cleared(s, s1, Within(s, path[..l], owners[..l]))
                         && GoesOnAt(s1, CaughtAtBoundary(g, s, path[..l], owners[..l], b), path[..l], owners[..l], b)
  {
    var p, w := path[..l], owners[..l];
    ChainPrefix(g, s, path, owners, l);
    KillScopeTree(g, s, p, w, 0);
    ScopeSetIs(s, p, w, 0);
    var s1 := KillScope(s, p, w, 0);
    SweepClears(g, s, Within(s, p, w), 0);
    SweepLinked(g, s, s1, Within(s, p, w), Within(s, p, w), 0, 0);
    hide Cleared, GoesOnAt, KillScope, Core, ValidGraph, ChainOk;
    GoesOnAtIs(g, s1, p, w, b);
  }

  /** An activity fails with an error code. The first boundary of its own that takes the code goes
      on, the loop of a failing iteration gone; otherwise the token is gone and the error escapes
      into the scope. */
  ghost predicate ErrorThrown(g: Graph, s: Instance, s': Instance, id: TokenId, code: nat)
    requires id in s.tokens && s.tokens[id].path in g && |s.tokens[id].path| == |s.tokens[id].owners|
  {
    var t := s.tokens[id];
    var c := g[t.path];
    if exists b :: b in c.order && ErrorBoundaryAt(c, t.element, code, b) then
      Continuing(s, id) in s.tokens && exists b :: FirstErrorBoundary(c, c.order, t.element, code, b)
                                                   && Interrupted(s, s', Continuing(s, id), b)
    else exists s1 :: Cleared(s, s1, {id}) && Escapes(g, s1, s', t.path, t.owners, code)
  }

  lemma ErrorThrownIs(g: Graph, s: Instance, x: TokenId, code: nat)
    requires ValidGraph(g) && Ready(g, s, x) && !ScopeWait(s.tokens[x])
    requires s.tokens[x].path in g && |s.tokens[x].path| == |s.tokens[x].owners|
    ensures ErrorThrown(g, s, ThrowError(g, s, x, code), x, code)
  {
    var t := s.tokens[x];
    var c := g[t.path];
    ErrorBoundaryIs(c, c.order, t.element, code);
    if ErrorBoundary(c, t.element, code).Some? {
      ThrownInterrupts(g, s, x, code);
    } else {
      ThrownEscapes(g, s, x, code);
    }
  }

  lemma ThrownInterrupts(g: Graph, s: Instance, x: TokenId, code: nat)
    requires ValidGraph(g) && Ready(g, s, x) && !ScopeWait(s.tokens[x])
    requires s.tokens[x].path in g && |s.tokens[x].path| == |s.tokens[x].owners|
    requires ErrorBoundary(g[s.tokens[x].path], s.tokens[x].element, code).Some?
    ensures Continuing(s, x) in s.tokens
    ensures Interrupted(s, ThrowError(g, s, x, code), Continuing(s, x), ErrorBoundary(g[s.tokens[x].path], s.tokens[x].element, code).value)
  {
    var b := ErrorBoundary(g[s.tokens[x].path], s.tokens[x].element, code).value;
    NoZero(g, s);
    assert TokenOk(g, s, x);
    if s.tokens[x].parent != 0 {
      CoordinatorLeaves(g, s, s.tokens[x].parent, b, x);
    } else {
      LeafAlone(g, s, x);
      HangingIs(g, s, x);
      assert CancelWaits(g, s, x) == Sweep(s, {x} + Hanging(s, x), Hanging(s, x));
      InterruptedIs(g, s, x, b, x);
    }
  }

  lemma ThrownEscapes(g: Graph, s: Instance, x: TokenId, code: nat)
    requires ValidGraph(g) && Ready(g, s, x) && !ScopeWait(s.tokens[x])
    requires s.tokens[x].path in g && |s.tokens[x].path| == |s.tokens[x].owners|
    requires ErrorBoundary(g[s.tokens[x].path], s.tokens[x].element, code).None?
    ensures var t := s.tokens[x];
      exists s1 :: Cleared(s, s1, {x}) && Escapes(g, s1, ThrowError(g, s, x, code), t.path, t.owners, code)
  {
    var t := s.tokens[x];
    NoZero(g, s);
    ThrowCuts(g, s, x);
    ThrowSweeps(g, s, x);
    SweepClears(g, s, {x}, x);
    ThrowsOn(g, s, x, code);
    var s1 := DeleteToken(CancelWaits(g, s, x), x);
    hide Propagate, Core, ThrowError, Escapes, Cleared;
    EscapesIs(g, s1, t.path, t.owners, code);
    assert Cleared(s, s1, {x}) && Escapes(g, s1, ThrowError(g, s, x, code), t.path, t.owners, code);
  }

  /** Among the event sub-processes of a scope the first in document order that takes the code
      handles it, by the first of its start events that does. */
  lemma {:induction false} FirstHandler(g: Graph, path: Path, ids: seq<ElementId>, code: nat)
    requires path in g
    ensures var r := ErrorSubFrom(g, path, ids, code);
      if r.None? then forall sub :: sub in ids ==> !HandlesIn(g, path, sub, code)
      else exists i :: HandlesFirst(g, path, ids, i, code, r.value)
    decreases ids
  {
    if ids != [] {
      FirstHandler(g, path, ids[1..], code);
      var id := ids[0];
      var rest := ErrorSubFrom(g, path, ids[1..], code);
      if path + [id] in g {
        ErrorStartIs(g[path + [id]], g[path + [id]].order, code);
      }
      if HandlesIn(g, path, id, code) {
        assert HandlesFirst(g, path, ids, 0, code, ErrorSubFrom(g, path, ids, code).value);
      } else if rest.Some? {
        var i :| HandlesFirst(g, path, ids[1..], i, code, rest.value);
        assert ids[i + 1] == ids[1..][i];
        assert forall j :: 0 < j < i + 1 ==> ids[j] == ids[1..][j - 1];
        assert HandlesFirst(g, path, ids, i + 1, code, rest.value);
      }
    }
  }

  ghost predicate HandlesFirst(g: Graph, path: Path, ids: seq<ElementId>, i: int, code: nat, h: ErrorHandler)
    requires path in g
  {
    && 0 <= i < |ids| && ids[i] == h.sub && HandlesIn(g, path, h.sub, code)
    && FirstErrorStart(g[path + [h.sub]], g[path + [h.sub]].order, code, h.start)
    && forall j :: 0 <= j < i ==> !HandlesIn(g, path, ids[j], code)
  }

  predicate ErrorStartAt(c: Container, code: nat, b: ElementId) {
    b in c.elements && c.elements[b].etype.StartEvent? && TakesCode(c.elements[b], code)
  }

  ghost predicate FirstErrorStart(c: Container, ids: seq<ElementId>, code: nat, b: ElementId) {
    exists i :: 0 <= i < |ids| && ids[i] == b && ErrorStartAt(c, code, b) && forall j :: 0 <= j < i ==> !ErrorStartAt(c, code, ids[j])
  }

  /** The event sub-process has a start event that takes the code. */
  ghost predicate HandlesIn(g: Graph, path: Path, sub: ElementId, code: nat)
    requires path in g
  {
    && sub in g[path].elements && g[path].elements[sub].etype.SubProcess? && g[path].elements[sub].triggeredByEvent
    && path + [sub] in g && exists b :: b in g[path + [sub]].order && ErrorStartAt(g[path + [sub]], code, b)
  }

  lemma {:induction false} ErrorStartIs(c: Container, ids: seq<ElementId>, code: nat)
    ensures var r := FirstCatching(c, StartEventsFrom(c, ids), code);
      if r.Some? then FirstErrorStart(c, ids, code, r.value) else forall b :: b in ids ==> !ErrorStartAt(c, code, b)
    decreases ids
  {
    if ids != [] {
      ErrorStartIs(c, ids[1..], code);
      var b := ids[0];
      var rest := StartEventsFrom(c, ids[1..]);
      if b in c.elements && c.elements[b].etype.StartEvent? {
        assert StartEventsFrom(c, ids) == [b] + rest && ([b] + rest)[1..] == rest;
      } else {
        assert StartEventsFrom(c, ids) == [] + rest == rest;
      }
      var r := FirstCatching(c, rest, code);
      if ErrorStartAt(c, code, b) {
        assert ids[0] == b;
      } else if r.Some? {
        var i :| 0 <= i < |ids[1..]| && ids[1..][i] == r.value && ErrorStartAt(c, code, r.value)
          && forall j :: 0 <= j < i ==> !ErrorStartAt(c, code, ids[1..][j]);
        assert ids[i + 1] == r.value;
        assert forall j :: 0 < j < i + 1 ==> ids[j] == ids[1..][j - 1];
      }
    }
  }
}
