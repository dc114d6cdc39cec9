/** What events and finished iterations do to an instance, token by token. */
module Effects {
  import opened StoreState
  import opened Bpmn
  import opened Instances
  import opened Engine
  import opened ScopeTree
  import opened Moves
  import opened Cancellation
  import opened Completion
  import opened Triggers

  // ---- events -----------------------------------------------------------------------------

  /** A boundary event is rejected exactly when the token is gone or elsewhere. An
      interrupting one takes the token to the boundary and removes exactly what hung from
      it; a non-interrupting one only adds a token beside it. */
  lemma BoundaryFires(g: Graph, s: Instance, id: TokenId, el: Element, b: ElementId)
    requires Core(g, s)
    ensures BoundaryTriggered(g, s, id, el, b).Some? <==> id in s.tokens && s.tokens[id].element == el.attachedTo
    ensures BoundaryTriggered(g, s, id, el, b).Some? ==>
      var s' := BoundaryTriggered(g, s, id, el, b).value; var t := s.tokens[id];
      if el.cancelActivity then
        && (forall u :: u in s'.tokens <==> u in s.tokens && !Below(s, u, id))
        && id in s'.tokens && At(s'.tokens[id], b, t) && s'.tokens[id].parent == t.parent
        && forall u :: u in s'.tokens && u != id ==> s'.tokens[u] == s.tokens[u]
      else
        && s.nextId !in s.tokens && s'.tokens.Keys == s.tokens.Keys + {s.nextId}
        && At(s'.tokens[s.nextId], b, t) && s'.tokens[s.nextId].parent == 0
        && forall u :: u in s.tokens ==> s'.tokens[u] == s.tokens[u]
  {
    if id in s.tokens && s.tokens[id].element == el.attachedTo {
      assert s.nextId in s.tokens ==> !TokenOk(g, s, s.nextId);
      if el.cancelActivity {
        CancelsExactlySubtree(g, s, id);
        SubtreeNotSelf(g, s, id);
        assert id in CancelActivity(g, s, id).tokens;
      }
    }
  }

  /** Active at `b`, in the scope instance of `t`, waiting for nothing. */
  predicate At(v: Token, b: ElementId, t: Token) {
    v.element == b && v.state.Active? && v.ref.NoRef? && SameScope(v, t)
  }

  /** A token of the scope instance, outside the event sub-process. */
  predicate Displaced(t: Token, path: Path, owners: seq<TokenId>, sub: ElementId) {
    InScope(t, path, owners) && !(sub != 0 && path + [sub] <= t.path)
  }

  /** An event sub-process is rejected exactly when its owner is gone. Otherwise one token
      starts it in the scope the owner waits on; if it interrupts, exactly the tokens of
      that scope instance outside the event sub-process are gone. */
  lemma EventSubFires(g: Graph, s: Instance, owner: TokenId, sub: ElementId, start: ElementId, interrupting: bool, e: nat)
    requires Core(g, s)
    ensures EventSubTriggered(s, owner, sub, start, interrupting, e).Some? <==> owner == 0 || owner in s.tokens
    ensures EventSubTriggered(s, owner, sub, start, interrupting, e).Some? ==>
      var s' := EventSubTriggered(s, owner, sub, start, interrupting, e).value;
      var path := if owner == 0 then [] else s.tokens[owner].path + [s.tokens[owner].element];
      var owners := if owner == 0 then [] else s.tokens[owner].owners + [owner];
      && s.nextId !in s.tokens && s.nextId in s'.tokens
      && s'.tokens[s.nextId] == Token(start, Active, path + [sub], owners + [0], 0, NoRef, 0, 0, 0)
      && (forall u :: u in s.tokens ==>
            if interrupting && Displaced(s.tokens[u], path, owners, sub) then u !in s'.tokens
            else u in s'.tokens && s'.tokens[u] == s.tokens[u])
      && (forall u :: u in s'.tokens ==> u in s.tokens || u == s.nextId)
  {
    assert s.nextId in s.tokens ==> !TokenOk(g, s, s.nextId);
    if owner == 0 || owner in s.tokens {
      var path := if owner == 0 then [] else s.tokens[owner].path + [s.tokens[owner].element];
      var owners := if owner == 0 then [] else s.tokens[owner].owners + [owner];
      forall u | u in s.tokens ensures u in ScopeSet(s, path, owners, sub) <==> Displaced(s.tokens[u], path, owners, sub) {
        InsideSub(s.tokens[u], path, owners, sub);
      }
    }
  }

  lemma InsideSub(t: Token, path: Path, owners: seq<TokenId>, sub: ElementId)
    ensures Doomed(t, path, owners, sub) <==> Displaced(t, path, owners, sub)
  {
    if path <= t.path && |t.path| > |path| && t.path[|path|] == sub {
      assert t.path[..|path| + 1] == t.path[..|path|] + [sub];
    }
  }

  // ---- loops --------------------------------------------------------------------------------

  /** Does counting one more iteration end the loop? */
  predicate LastOne(ms: MultiState, spec: MultiSpec, o: Oracle) {
    (spec.hasCondition && o.done.Yes?) || ms.completed + 1 >= ms.total
  }

  /** One iteration more is completed, an output is kept if one is collected, and a
      sequential loop has spawned the next iteration while a parallel one has spawned none. */
  ghost predicate OneCounted(s: Instance, s': Instance, x: TokenId, p: TokenId, spec: MultiSpec)
    requires p in s.multi
  {
    && p in s'.multi && x !in s'.tokens
    && s'.multi[p].completed == s.multi[p].completed + 1 && s'.multi[p].total == s.multi[p].total
    && s'.multi[p].outputs == s.multi[p].outputs + (if spec.hasOutput then 1 else 0)
    && if spec.sequential
       then s.nextId in s'.tokens && Children(s', p) == {s.nextId} && s'.tokens[s.nextId].loop == s.multi[p].completed + 1
       else Children(s', p) == Children(s, p) - {x}
  }

  /** Counting an iteration whose expressions succeed: the loop is over exactly when its
      condition says so or nothing is left; otherwise it goes on with one more counted. */
  lemma IterationCounts(g: Graph, s: Instance, x: TokenId, o: Oracle)
    requires ValidGraph(g) && Ready(g, s, x) && s.tokens[x].parent != 0
    ensures SpecOf(g, s.tokens[x]).Some? && s.tokens[x].parent in s.multi
    ensures SpecAnswers(SpecOf(g, s.tokens[x]).value, o) ==>
      var p := s.tokens[x].parent; var spec := SpecOf(g, s.tokens[x]).value; var s' := MiChildCompleted(g, s, x, o);
      if LastOne(s.multi[p], spec, o) then LoopGone(s', p) else OneCounted(s, s', x, p, spec)
  {
    var spec := IterationSpec(g, s, x);
    var p := s.tokens[x].parent;
    CountedLoops(g, s, x, spec.hasOutput);
    if SpecAnswers(spec, o) {
      CountedAreBooks(g, s, x, spec);
      MiChildCompletedIs(g, s, x, o);
      assert TokenOk(g, s, x);
      AfterCounting(g, s, x, p, spec, o);
    }
  }

  /** A loop ends: its iterations and all that hangs from them are gone, and the coordinator,
      no longer waiting, leaves the activity once, over its outgoing flows, or is parked on an
      incident if its outputs fail. */
  lemma LoopEndEffect(g: Graph, s: Instance, m: TokenId, o: Oracle)
    requires ValidGraph(g) && Looping(g, s, m)
    ensures m in s.tokens && m !in LoopSet(g, s, m)
    ensures var s1 := LoopOver(g, s, m);
      && m in s1.tokens && s1.tokens == (s.tokens - LoopSet(g, s, m))[m := s.tokens[m].(state := Active, ref := NoRef)]
      && FinishMulti(g, s, m, o) == if o.outputsOk(m) then TakeOutgoing(g, DropEvents(s1, m), m, o) else RaiseIncident(s1, m)
  {
    StragglersAre(g, s, m);
    assert TokenOk(g, s, m);
    LoopOverStands(g, s, m);
    FinishMultiIs(g, s, m, o);
    hide LoopOver, Looping, FinishMulti, ValidGraph, TokenOk, LoopSet;
    PlainIs(g, DropEvents(LoopOver(g, s, m), m), m, o);
    DropsOnce(LoopOver(g, s, m), m);
  }

  lemma LoopOverStands(g: Graph, s: Instance, m: TokenId)
    requires m in s.tokens && Stragglers(g, s, m) == LoopSet(g, s, m) && m !in LoopSet(g, s, m)
    ensures LoopOver(g, s, m).tokens == (s.tokens - LoopSet(g, s, m))[m := s.tokens[m].(state := Active, ref := NoRef)]
  {
    hide LoopSet, Stragglers;
    assert Stragglers(g, s, m) - {m} == LoopSet(g, s, m);
  }

  lemma DropsOnce(s: Instance, x: TokenId)
    ensures DropEvents(DropEvents(s, x), x) == DropEvents(s, x)
  {
    assert DropEvents(DropEvents(s, x), x).events == DropEvents(s, x).events;
  }

  lemma PlainIs(g: Graph, s: Instance, x: TokenId, o: Oracle)
    requires x in s.tokens && s.tokens[x].parent == 0 && ElementOf(g, s.tokens[x]).Some?
    ensures CompleteActivity(g, s, x, o) == TakeOutgoing(g, DropEvents(s, x), x, o)
  {
  }

  lemma AfterCounting(g: Graph, s: Instance, x: TokenId, p: TokenId, spec: MultiSpec, o: Oracle)
    requires ValidGraph(g) && x in s.tokens && x < s.nextId && p == s.tokens[x].parent && p in s.multi && p in s.tokens && p != x && p != 0
    requires Accounted(g, s, p) && x in Children(s, p) && SpecOf(g, s.tokens[p]) == Some(spec) && SpecAnswers(spec, o)
    requires var s2 := Counted(g, s, x, spec.hasOutput);
      CountedBooks(g, s2, p, spec) && Looping(g, s2, p)
    ensures var s' := AfterCount(g, Counted(g, s, x, spec.hasOutput), p, spec, o);
      if LastOne(s.multi[p], spec, o) then LoopGone(s', p) else OneCounted(s, s', x, p, spec)
  {
    var s2 := Counted(g, s, x, spec.hasOutput);
    AfterCountIs(g, s2, p, spec, o);
    if LoopEnds(s2.multi[p], spec, o) {
      FinishMultiKeeps(g, s2, p, o);
    } else {
      FewerIterations(g, s, x, p);
      assert Children(s2, p) == Children(DeleteToken(s, x), p);
      if spec.sequential {
        assert Children(AfterCount(g, s2, p, spec, o), p) == {s.nextId};
      }
    }
  }
}
