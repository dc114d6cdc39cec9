/** Live migration of an instance onto another definition: validate every token, then move
    tokens and side records. */
module Migration {
  import opened StoreState
  import opened Bpmn
  import opened Instances
  import opened ScopeTree

  /** `renames` maps old element IDs to new ones; `transformsOk` says whether the variable
      transforms evaluate. */
  datatype Plan = Plan(renames: map<ElementId, ElementId>, transformsOk: bool, dryRun: bool)

  datatype Relocation = Relocation(from: ElementId, to: ElementId)

  datatype Report = Report(moves: map<TokenId, Relocation>, issues: set<TokenId>, transformIssue: bool, applied: bool)

  /** The instance and the element each task, external task and agent job was made for. */
  datatype Persisted = Persisted(inst: Instance, made: map<nat, ElementId>)

  function MapId(plan: Plan, id: ElementId): ElementId {
    if id in plan.renames then plan.renames[id] else id
  }

  function MapPath(plan: Plan, path: Path): (r: Path)
    ensures |r| == |path|
  {
    seq(|path|, i requires 0 <= i < |path| => MapId(plan, path[i]))
  }

  function MapToken(plan: Plan, t: Token): Token {
    t.(element := MapId(plan, t.element), path := MapPath(plan, t.path))
  }

  // ---- validation -----------------------------------------------------------------------------

  /** Every level of the mapped scope path is a container of the target. */
  predicate ScopesExist(h: Graph, path: Path) {
    forall i :: 0 < i <= |path| ==> path[..i] in h
  }

  /** The wait state stays executable on the new element. */
  predicate WaitFits(t: Token, el: Element) {
    match t.state
    case WaitTask => el.etype.UserTask? || el.agent.Some?
    case WaitMessage => el.event.Some? && el.event.value.kind.Message?
    case WaitSignal => el.event.Some? && el.event.value.kind.Signal?
    case WaitMulti => el.multi.Some?
    case _ => true
  }

  /** What validation asks of one token. */
  predicate Migratable(g: Graph, h: Graph, plan: Plan, t: Token) {
    var t' := MapToken(plan, t);
    && ScopesExist(h, t'.path) && HasElement(h, t'.path, t'.element)
    && var el := h[t'.path].elements[t'.element];
       && (ElementOf(g, t).Some? ==> ElementOf(g, t).value.etype == el.etype)
       && WaitFits(t, el)
  }

  function Moves(g: Graph, h: Graph, plan: Plan, s: Instance): map<TokenId, Relocation> {
    map u | u in s.tokens && Migratable(g, h, plan, s.tokens[u])
      :: Relocation(s.tokens[u].element, MapId(plan, s.tokens[u].element))
  }

  function Issues(g: Graph, h: Graph, plan: Plan, s: Instance): set<TokenId> {
    set u | u in s.tokens && !Migratable(g, h, plan, s.tokens[u])
  }

  // ---- application ----------------------------------------------------------------------------

  function MoveTokens(plan: Plan, s: Instance): Instance {
    s.(tokens := map u | u in s.tokens :: MapToken(plan, s.tokens[u]),
       events := map e | e in s.events :: s.events[e].(element := MapId(plan, s.events[e].element)))
  }

  /** Open user tasks follow their elements; external tasks and agent jobs stay as they are. */
  function MoveMade(plan: Plan, p: Persisted): map<nat, ElementId> {
    map w | w in p.made ::
      if w in p.inst.waits && p.inst.waits[w].kind.TaskWait? && p.inst.waits[w].open then MapId(plan, p.made[w]) else p.made[w]
  }

  function Migrate(g: Graph, h: Graph, plan: Plan, p: Persisted): (Report, Persisted) {
    var moves, issues := Moves(g, h, plan, p.inst), Issues(g, h, plan, p.inst);
    if issues != {} || !plan.transformsOk || plan.dryRun then (Report(moves, issues, !plan.transformsOk, false), p)
    else (Report(moves, issues, false, true), Persisted(MoveTokens(plan, p.inst), MoveMade(plan, p)))
  }

  // ---- what the engine promises -----------------------------------------------------------------

  predicate Renamed(plan: Plan, id: ElementId, id': ElementId) {
    if id in plan.renames then id' == plan.renames[id] else id' == id
  }

  /** The token, as renamed, has a place in the target: every scope around it is there and so is
      its element, of the type it had and of the kind the token waits for. */
  ghost predicate HasPlace(g: Graph, h: Graph, plan: Plan, t: Token) {
    exists path: Path, x: ElementId ::
      && |path| == |t.path| && (forall i :: 0 <= i < |path| ==> Renamed(plan, t.path[i], path[i])) && Renamed(plan, t.element, x)
      && (forall i :: 0 < i <= |path| ==> path[..i] in h) && path in h && x in h[path].elements
      && (HasElement(g, t.path, t.element) ==> h[path].elements[x].etype == g[t.path].elements[t.element].etype)
      && (t.state.WaitTask? ==> h[path].elements[x].etype.UserTask? || h[path].elements[x].agent.Some?)
      && (t.state.WaitMessage? ==> h[path].elements[x].event.Some? && h[path].elements[x].event.value.kind.Message?)
      && (t.state.WaitSignal? ==> h[path].elements[x].event.Some? && h[path].elements[x].event.value.kind.Signal?)
      && (t.state.WaitMulti? ==> h[path].elements[x].multi.Some?)
  }

  lemma MigratableMeans(g: Graph, h: Graph, plan: Plan, t: Token)
    ensures Migratable(g, h, plan, t) <==> HasPlace(g, h, plan, t)
  {
    var t' := MapToken(plan, t);
    forall path: Path | |path| == |t.path| && forall i :: 0 <= i < |path| ==> Renamed(plan, t.path[i], path[i]) ensures path == t'.path {
    }
    if Migratable(g, h, plan, t) {
      assert forall i :: 0 <= i < |t'.path| ==> Renamed(plan, t.path[i], t'.path[i]);
      assert Renamed(plan, t.element, t'.element);
    }
  }

  /** A migration is applied if and only if it is no dry run, the transforms evaluate and every
      token has a place in the target; otherwise it writes nothing. */
  lemma OnlyCleanRunsWrite(g: Graph, h: Graph, plan: Plan, p: Persisted)
    ensures Migrate(g, h, plan, p).0.applied <==>
      !plan.dryRun && plan.transformsOk && forall u :: u in p.inst.tokens ==> HasPlace(g, h, plan, p.inst.tokens[u])
    ensures Migrate(g, h, plan, p).0.applied ==> forall u :: u in p.inst.tokens ==> Migratable(g, h, plan, p.inst.tokens[u])
    ensures !Migrate(g, h, plan, p).0.applied ==> Migrate(g, h, plan, p).1 == p
  {
    hide HasPlace, Migratable;
    forall u | u in p.inst.tokens ensures HasPlace(g, h, plan, p.inst.tokens[u]) <==> u !in Issues(g, h, plan, p.inst) {
      MigratableMeans(g, h, plan, p.inst.tokens[u]);
    }
    forall u | u in p.inst.tokens ensures Migratable(g, h, plan, p.inst.tokens[u]) <==> u !in Issues(g, h, plan, p.inst) {
    }
  }

  /** A report, dry or not, lists an issue for exactly the tokens without a place in the target,
      and for every other one the move from its element to the renamed one. */
  lemma ReportMeans(g: Graph, h: Graph, plan: Plan, p: Persisted)
    ensures var r := Migrate(g, h, plan, p).0;
      && (forall u :: u in r.issues <==> u in p.inst.tokens && !HasPlace(g, h, plan, p.inst.tokens[u]))
      && (forall u :: u in r.moves <==> u in p.inst.tokens && u !in r.issues)
      && (forall u :: u in r.moves ==> r.moves[u].from == p.inst.tokens[u].element && Renamed(plan, r.moves[u].from, r.moves[u].to))
      && (r.transformIssue <==> !plan.transformsOk)
  {
    hide HasPlace, Migratable;
    forall u | u in p.inst.tokens
      ensures u in Issues(g, h, plan, p.inst) <==> !HasPlace(g, h, plan, p.inst.tokens[u])
      ensures u in Moves(g, h, plan, p.inst) <==> HasPlace(g, h, plan, p.inst.tokens[u])
    {
      MigratableMeans(g, h, plan, p.inst.tokens[u]);
    }
  }

  /** The dry run reports what the real run does: the same moves and issues, and each move
      reported by a run that applies is where the token ends up. */
  lemma DryRunForetells(g: Graph, h: Graph, plan: Plan, p: Persisted)
    ensures var dry := Migrate(g, h, plan.(dryRun := true), p).0; var run := Migrate(g, h, plan.(dryRun := false), p);
      && dry.moves == run.0.moves && dry.issues == run.0.issues && dry.transformIssue == run.0.transformIssue
      && (run.0.applied ==>
            dry.moves.Keys == p.inst.tokens.Keys == run.1.inst.tokens.Keys
            && forall u :: u in dry.moves ==> run.1.inst.tokens[u].element == dry.moves[u].to)
  {
    var dryPlan, realPlan := plan.(dryRun := true), plan.(dryRun := false);
    SamePlan(g, h, dryPlan, realPlan, p.inst);
    OnlyCleanRunsWrite(g, h, realPlan, p);
  }

  lemma SamePlan(g: Graph, h: Graph, a: Plan, b: Plan, s: Instance)
    requires a.renames == b.renames
    ensures Moves(g, h, a, s) == Moves(g, h, b, s) && Issues(g, h, a, s) == Issues(g, h, b, s)
  {
    forall t: Token ensures MapToken(a, t) == MapToken(b, t) {
      assert MapPath(a, t.path) == MapPath(b, t.path);
    }
    forall u | u in s.tokens ensures Migratable(g, h, a, s.tokens[u]) == Migratable(g, h, b, s.tokens[u]) {
      assert MapToken(a, s.tokens[u]) == MapToken(b, s.tokens[u]);
    }
  }

  /** Every migrated token resolves in the target, at its mapped path, on an element of the
      type it had. */
  lemma TokensResolve(g: Graph, h: Graph, plan: Plan, p: Persisted, u: TokenId)
    requires Migrate(g, h, plan, p).0.applied && u in p.inst.tokens
    ensures var s' := Migrate(g, h, plan, p).1.inst; var t, t' := p.inst.tokens[u], s'.tokens[u];
      && t' == t.(path := t'.path, element := t'.element) && Renamed(plan, t.element, t'.element)
      && |t'.path| == |t.path| && (forall i :: 0 <= i < |t.path| ==> Renamed(plan, t.path[i], t'.path[i]))
      && HasElement(h, t'.path, t'.element)
      && var el := h[t'.path].elements[t'.element];
         && (ElementOf(g, t).Some? ==> el.etype == ElementOf(g, t).value.etype)
         && (t.state.WaitTask? ==> el.etype.UserTask? || el.agent.Some?)
         && (t.state.WaitMessage? ==> el.event.Some? && el.event.value.kind.Message?)
         && (t.state.WaitSignal? ==> el.event.Some? && el.event.value.kind.Signal?)
         && (t.state.WaitMulti? ==> el.multi.Some?)
  {
    hide HasPlace;
    OnlyCleanRunsWrite(g, h, plan, p);
    assert Migratable(g, h, plan, p.inst.tokens[u]);
  }

  // ---- the scope tree ---------------------------------------------------------------------------

  /** What validation does not check: levels of the scope path stay event sub-processes or
      plain ones, and loop iterations are not renamed (their loop flag names the old element). */
  ghost predicate Compatible(g: Graph, h: Graph, plan: Plan, s: Instance) {
    forall u {:trigger CompatibleToken(g, h, plan, s.tokens[u])} :: u in s.tokens ==> CompatibleToken(g, h, plan, s.tokens[u])
  }

  ghost predicate CompatibleToken(g: Graph, h: Graph, plan: Plan, t: Token) {
    var t' := MapToken(plan, t);
    && |t.owners| == |t.path|
    && (forall i {:trigger EventLevel(h, t'.path, i)} :: 0 <= i < |t'.path| ==> (EventLevel(h, t'.path, i) <==> t.owners[i] == 0))
    && !(HasElement(h, t'.path, t'.element) && IsEventSub(h[t'.path].elements[t'.element]))
    && (t.parent != 0 ==> MapId(plan, t.element) == t.element)
  }

  lemma PrefixMaps(plan: Plan, path: Path, i: nat)
    requires i <= |path|
    ensures MapPath(plan, path)[..i] == MapPath(plan, path[..i])
  {
  }

  lemma ChainMoves(g: Graph, h: Graph, plan: Plan, s: Instance, u: TokenId)
    requires Core(g, s) && u in s.tokens && Migratable(g, h, plan, s.tokens[u]) && CompatibleToken(g, h, plan, s.tokens[u])
    ensures var t' := MapToken(plan, s.tokens[u]); ChainOk(h, MoveTokens(plan, s), t'.path, t'.owners)
  {
    var s' := MoveTokens(plan, s);
    var t := s.tokens[u];
    var t' := MapToken(plan, t);
    assert TokenOk(g, s, u);
    forall i | 0 <= i < |t'.path| ensures LevelOk(h, s', t'.path, t'.owners, i) {
      assert LevelOk(g, s, t.path, t.owners, i);
      assert EventLevel(h, t'.path, i) <==> t.owners[i] == 0;
      PrefixMaps(plan, t.path, i);
      if t.owners[i] != 0 {
        assert s'.tokens[t.owners[i]] == MapToken(plan, s.tokens[t.owners[i]]);
      }
    }
  }

  lemma TokenMoves(g: Graph, h: Graph, plan: Plan, s: Instance, u: TokenId)
    requires Core(g, s) && u in s.tokens && Migratable(g, h, plan, s.tokens[u]) && CompatibleToken(g, h, plan, s.tokens[u])
    ensures TokenOk(h, MoveTokens(plan, s), u)
  {
    assert TokenOk(g, s, u);
    ChainMoves(g, h, plan, s, u);
    var s' := MoveTokens(plan, s);
    assert s'.tokens[u] == MapToken(plan, s.tokens[u]);
    if s.tokens[u].parent != 0 {
      assert s'.tokens[s.tokens[u].parent] == MapToken(plan, s.tokens[s.tokens[u].parent]);
    }
  }

  lemma IncompatibleBreaks(g: Graph, h: Graph, plan: Plan, s: Instance, u: TokenId)
    requires Core(g, s) && u in s.tokens && !CompatibleToken(g, h, plan, s.tokens[u])
    ensures !TokenOk(h, MoveTokens(plan, s), u)
  {
    assert TokenOk(g, s, u);
    var s' := MoveTokens(plan, s);
    var t := s.tokens[u];
    var t' := MapToken(plan, t);
    assert s'.tokens[u] == t';
    if TokenOk(h, s', u) {
      forall i | 0 <= i < |t'.path| ensures EventLevel(h, t'.path, i) <==> t.owners[i] == 0 {
        assert LevelOk(h, s', t'.path, t'.owners, i);
      }
    }
  }

  /** A migration that applies keeps the scope tree exactly when event sub-process levels stay
      event sub-process levels, no token lands on an event sub-process, and no live loop
      iteration is renamed. */
  lemma MigrationKeepsTree(g: Graph, h: Graph, plan: Plan, p: Persisted)
    requires Core(g, p.inst) && Migrate(g, h, plan, p).0.applied
    ensures Core(h, Migrate(g, h, plan, p).1.inst) <==> Compatible(g, h, plan, p.inst)
  {
    OnlyCleanRunsWrite(g, h, plan, p);
    if Compatible(g, h, plan, p.inst) {
      CompatibleKeeps(g, h, plan, p.inst);
    } else {
      var u :| u in p.inst.tokens && !CompatibleToken(g, h, plan, p.inst.tokens[u]);
      IncompatibleBreaks(g, h, plan, p.inst, u);
    }
  }

  lemma CompatibleKeeps(g: Graph, h: Graph, plan: Plan, s: Instance)
    requires Core(g, s) && Compatible(g, h, plan, s)
    requires forall u :: u in s.tokens ==> Migratable(g, h, plan, s.tokens[u])
    ensures Core(h, MoveTokens(plan, s))
  {
    var s' := MoveTokens(plan, s);
    forall u | u in s'.tokens ensures TokenOk(h, s', u) {
      assert CompatibleToken(g, h, plan, s.tokens[u]);
      TokenMoves(g, h, plan, s, u);
    }
    forall m | m in s'.multi ensures m in s'.tokens && s'.tokens[m].state.WaitMulti? {
      assert s'.tokens[m] == MapToken(plan, s.tokens[m]);
    }
  }

  // ---- the whole invariant ------------------------------------------------------------------------

  /** A running loop's books still add up under the target's loop characteristics: the output
      flag may change only before the first completion, the order only for the last iteration,
      which in a sequential loop is the one numbered by those completed. */
  ghost predicate LoopFits(g: Graph, h: Graph, plan: Plan, s: Instance, m: TokenId)
    requires m in s.multi && m in s.tokens
  {
    var ms, was, now := s.multi[m], SpecOf(g, s.tokens[m]), SpecOf(h, MapToken(plan, s.tokens[m]));
    && was.Some? && now.Some?
    && (now.value.hasOutput == was.value.hasOutput || ms.completed == 0)
    && (now.value.sequential == was.value.sequential
        || (ms.completed + 1 == ms.total
            && (now.value.sequential ==> forall c :: c in Children(s, m) ==> s.tokens[c].loop == ms.completed)))
  }

  /** The renamed element of a job or subscription is one its trigger can use in the target. */
  ghost predicate Lands(h: Graph, plan: Plan, s: Instance, r: EventRecord) {
    r.kind.WorkJob? || exists q: Path :: LandsAt(h, plan, s, r, q)
  }

  /** It is the start of an event sub-process of the owner's mapped scope, or a boundary event,
      catch event or receive task in the token's mapped container. */
  ghost predicate LandsAt(h: Graph, plan: Plan, s: Instance, r: EventRecord, q: Path) {
    && HasElement(h, q, MapId(plan, r.element))
    && var el := h[q].elements[MapId(plan, r.element)];
       if el.etype.StartEvent? then
         && q != [] && EventLevel(h, q, |q| - 1)
         && (if r.token == 0 then |q| == 1
             else r.token in s.tokens ==>
               ScopeWait(s.tokens[r.token])
               && MapPath(plan, s.tokens[r.token].path + [s.tokens[r.token].element]) == q[..|q| - 1])
       else
         && el.etype in {BoundaryEvent, IntermediateCatch, ReceiveTask}
         && (r.token in s.tokens ==>
               MapPath(plan, s.tokens[r.token].path) == q && (el.etype.BoundaryEvent? ==> s.tokens[r.token].parent == 0))
  }

  lemma PathExtends(plan: Plan, path: Path, x: ElementId)
    ensures MapPath(plan, path + [x]) == MapPath(plan, path) + [MapId(plan, x)]
  {
  }

  lemma LandsRoutes(h: Graph, plan: Plan, s: Instance, r: EventRecord)
    ensures RecordOk(h, MoveTokens(plan, s), r.(element := MapId(plan, r.element))) <==> Lands(h, plan, s, r)
  {
    var s' := MoveTokens(plan, s);
    var r' := r.(element := MapId(plan, r.element));
    if r.token in s.tokens {
      assert s'.tokens[r.token] == MapToken(plan, s.tokens[r.token]);
      PathExtends(plan, s.tokens[r.token].path, s.tokens[r.token].element);
    }
    forall q: Path ensures RoutesTo(h, s', r', q) <==> LandsAt(h, plan, s, r, q) {
    }
  }

  lemma RoutesMove(g: Graph, h: Graph, plan: Plan, s: Instance)
    ensures Routed(h, MoveTokens(plan, s)) <==> forall e :: e in s.events ==> Lands(h, plan, s, s.events[e])
  {
    var s' := MoveTokens(plan, s);
    forall e | e in s.events ensures RecordOk(h, s', s'.events[e]) <==> Lands(h, plan, s, s.events[e]) {
      LandsRoutes(h, plan, s, s.events[e]);
    }
  }

  lemma OccupiedMoves(plan: Plan, s: Instance, o: TokenId)
    requires o in s.tokens && Occupied(s, o)
    ensures Occupied(MoveTokens(plan, s), o)
  {
    var s' := MoveTokens(plan, s);
    var t := s.tokens[o];
    var u :| u in s.tokens && Inside(s.tokens[u], t, o);
    PathExtends(plan, t.path, t.element);
    PrefixMaps(plan, s.tokens[u].path, |t.path| + 1);
    assert s.tokens[u].path[..|t.path| + 1] == t.path + [t.element];
    assert Inside(s'.tokens[u], s'.tokens[o], o);
  }

  /** The loop's books after the move, against the target's characteristics. */
  lemma BooksMove(g: Graph, h: Graph, plan: Plan, s: Instance, m: TokenId)
    requires m in s.multi && m in s.tokens && Accounted(g, s, m)
    ensures Accounted(h, MoveTokens(plan, s), m) <==> LoopFits(g, h, plan, s, m)
  {
    var s' := MoveTokens(plan, s);
    assert Children(s', m) == Children(s, m);
    assert forall c :: c in Children(s, m) ==> s'.tokens[c].loop == s.tokens[c].loop;
    hide MoveTokens, Children;
    var now := SpecOf(h, s'.tokens[m]);
    if now.Some? && now.value.sequential && !SpecOf(g, s.tokens[m]).value.sequential {
      ToSequential(s, s', m);
    }
  }

  lemma ToSequential(s: Instance, s': Instance, m: TokenId)
    requires m in s.multi && Children(s', m) == Children(s, m) && s.multi[m].completed < s.multi[m].total
    requires forall c :: c in Children(s, m) ==> s'.tokens[c].loop == s.tokens[c].loop
    requires |Children(s, m)| == s.multi[m].total - s.multi[m].completed
    ensures (exists c :: Children(s', m) == {c} && s'.tokens[c].loop == s.multi[m].completed) <==>
      s.multi[m].completed + 1 == s.multi[m].total && forall c :: c in Children(s, m) ==> s.tokens[c].loop == s.multi[m].completed
  {
    if s.multi[m].completed + 1 == s.multi[m].total {
      var c :| c in Children(s, m);
      assert Children(s, m) == {c} by {
        assert |Children(s, m) - {c}| == 0;
      }
    }
  }

  lemma StuckMoves(g: Graph, h: Graph, plan: Plan, s: Instance)
    requires Core(g, s) && NoStuck(g, s, None, 0)
    ensures forall m :: m in MoveTokens(plan, s).multi ==> m in MoveTokens(plan, s).tokens
    ensures NoStuck(h, MoveTokens(plan, s), None, 0) <==> forall m :: m in s.multi && m != 0 ==> LoopFits(g, h, plan, s, m)
  {
    var s' := MoveTokens(plan, s);
    forall o | o in s'.tokens && ScopeWait(s'.tokens[o]) ensures Occupied(s', o) {
      assert s'.tokens[o] == MapToken(plan, s.tokens[o]) && Occupied(s, o);
      OccupiedMoves(plan, s, o);
    }
    forall m | m in s.multi && m != 0 ensures Accounted(h, s', m) <==> LoopFits(g, h, plan, s, m) {
      assert Accounted(g, s, m);
      BooksMove(g, h, plan, s, m);
    }
    assert s'.tokens.Keys == s.tokens.Keys;
  }

  /** A migration that applies keeps a running instance in order exactly when the scope tree
      survives, every running loop fits the target's loop characteristics, and every job and
      subscription lands on an element its trigger can use. Validation checks none of these
      beyond the tokens' own elements. */
  lemma MigrationKeepsInvExactly(g: Graph, h: Graph, plan: Plan, p: Persisted)
    requires Inv(g, p.inst) && p.inst.status.Running? && Migrate(g, h, plan, p).0.applied
    ensures Inv(h, Migrate(g, h, plan, p).1.inst) <==>
      && Compatible(g, h, plan, p.inst)
      && (forall m :: m in p.inst.multi ==> LoopFits(g, h, plan, p.inst, m))
      && (forall e :: e in p.inst.events ==> Lands(h, plan, p.inst, p.inst.events[e]))
  {
    hide Compatible, LoopFits, Lands, Linked, Routed, Migratable;
    OnlyCleanRunsWrite(g, h, plan, p);
    MigrationKeepsTree(g, h, plan, p);
    StuckMoves(g, h, plan, p.inst);
    MigrationKeepsLinks(g, h, plan, p);
    RoutesMove(g, h, plan, p.inst);
    assert 0 in p.inst.tokens ==> !TokenOk(g, p.inst, 0);
  }

  // ---- side records -------------------------------------------------------------------------------

  /** The record was made for the element its token stands on. */
  predicate MadeFor(p: Persisted, w: nat) {
    w in p.made && w in p.inst.waits && p.inst.waits[w].token in p.inst.tokens
    && p.made[w] == p.inst.tokens[p.inst.waits[w].token].element
  }

  /** An open record still agrees with its token after a migration exactly when it is a user
      task, or its element was not renamed. */
  lemma RecordsAgree(g: Graph, h: Graph, plan: Plan, p: Persisted, w: nat)
    requires Migrate(g, h, plan, p).0.applied && MadeFor(p, w) && p.inst.waits[w].open
    ensures MadeFor(Migrate(g, h, plan, p).1, w) <==>
      p.inst.waits[w].kind.TaskWait? || MapId(plan, p.made[w]) == p.made[w]
  {
  }

  /** Waiting tokens and open records keep corresponding. */
  lemma MigrationKeepsLinks(g: Graph, h: Graph, plan: Plan, p: Persisted)
    requires Linked(p.inst, 0)
    ensures Linked(Migrate(g, h, plan, p).1.inst, 0)
  {
    var s, s' := p.inst, MoveTokens(plan, p.inst);
    forall u | u in s'.tokens && u != 0 ensures Held(s', u) {
      assert Held(s, u);
    }
    forall w | w in s'.waits ensures Backed(s', w, 0) {
      assert Backed(s, w, 0);
    }
  }

  // ---- as the engine does it ------------------------------------------------------------------------

  class Migrator {
    const g: Graph
    const h: Graph
    var tokens: map<TokenId, Token>
    var events: map<nat, EventRecord>
    var made: map<nat, ElementId>
    const rest: Instance

    ghost function View(): Persisted
      reads this
    {
      Persisted(rest.(tokens := tokens, events := events), made)
    }

    constructor (g: Graph, h: Graph, p: Persisted)
      ensures this.g == g && this.h == h && View() == p
    {
      this.g, this.h, rest := g, h, p.inst;
      tokens, events, made := p.inst.tokens, p.inst.events, p.made;
    }

    /** The scope walk of validation, level by level. */
    method ScopeWalk(path: Path) returns (ok: bool)
      ensures ok <==> ScopesExist(h, path)
    {
      for i := 0 to |path|
        invariant forall k :: 0 < k <= i ==> path[..k] in h
      {
        if path[..i + 1] !in h {
          return false;
        }
      }
      ok := true;
    }

    method ValidateToken(plan: Plan, t: Token) returns (ok: bool)
      ensures ok <==> Migratable(g, h, plan, t)
    {
      var to, path := MapId(plan, t.element), MapPath(plan, t.path);
      var scopes := ScopeWalk(path);
      if !scopes || !HasElement(h, path, to) {
        return false;
      }
      var el := h[path].elements[to];
      var cur := ElementOf(g, t);
      ok := (cur.Some? ==> cur.value.etype == el.etype) && WaitFits(t, el);
    }

    method Validate(plan: Plan) returns (moves: map<TokenId, Relocation>, issues: set<TokenId>)
      ensures moves == Moves(g, h, plan, View().inst) && issues == Issues(g, h, plan, View().inst)
    {
      moves, issues := map[], {};
      var todo := tokens.Keys;
      while todo != {}
        invariant todo <= tokens.Keys
        invariant moves == map u | u in tokens && u !in todo && Migratable(g, h, plan, tokens[u])
                    :: Relocation(tokens[u].element, MapId(plan, tokens[u].element))
        invariant issues == set u | u in tokens && u !in todo && !Migratable(g, h, plan, tokens[u])
        decreases todo
      {
        var u :| u in todo;
        todo := todo - {u};
        var ok := ValidateToken(plan, tokens[u]);
        if ok {
          moves := moves[u := Relocation(tokens[u].element, MapId(plan, tokens[u].element))];
        } else {
          issues := issues + {u};
        }
      }
    }

    method Run(plan: Plan) returns (report: Report)
      modifies this
      ensures (report, View()) == Migrate(g, h, plan, old(View()))
    {
      hide Migratable, MapToken;
      var moves, issues := Validate(plan);
      if issues != {} || !plan.transformsOk || plan.dryRun {
        return Report(moves, issues, !plan.transformsOk, false);
      }
      ghost var p := View();
      ApplyTokens(plan);
      ApplyMade(plan);
      ApplyEvents(plan);
      assert View().inst == MoveTokens(plan, p.inst) && View().made == MoveMade(plan, p);
      report := Report(moves, issues, false, true);
    }

    method ApplyTokens(plan: Plan)
      modifies this`tokens
      ensures tokens == map u | u in old(tokens) :: MapToken(plan, old(tokens)[u])
    {
      var todo := tokens.Keys;
      while todo != {}
        invariant todo <= tokens.Keys == old(tokens).Keys
        invariant forall u :: u in tokens ==> tokens[u] == if u in todo then old(tokens)[u] else MapToken(plan, old(tokens)[u])
        decreases todo
      {
        var u :| u in todo;
        todo := todo - {u};
        tokens := tokens[u := MapToken(plan, tokens[u])];
      }
    }

    method ApplyMade(plan: Plan)
      modifies this`made
      ensures made == map w | w in old(made) ::
        if w in rest.waits && rest.waits[w].kind.TaskWait? && rest.waits[w].open then MapId(plan, old(made)[w]) else old(made)[w]
    {
      var todo := made.Keys;
      while todo != {}
        invariant todo <= made.Keys == old(made).Keys
        invariant forall w :: w in made ==>
          made[w] == if w !in todo && w in rest.waits && rest.waits[w].kind.TaskWait? && rest.waits[w].open
                     then MapId(plan, old(made)[w]) else old(made)[w]
        decreases todo
      {
        var w :| w in todo;
        todo := todo - {w};
        if w in rest.waits && rest.waits[w].kind.TaskWait? && rest.waits[w].open {
          made := made[w := MapId(plan, made[w])];
        }
      }
    }

    method ApplyEvents(plan: Plan)
      modifies this`events
      ensures events == map e | e in old(events) :: old(events)[e].(element := MapId(plan, old(events)[e].element))
    {
      var todo := events.Keys;
      while todo != {}
        invariant todo <= events.Keys == old(events).Keys
        invariant forall e :: e in events ==>
          events[e] == if e in todo then old(events)[e] else old(events)[e].(element := MapId(plan, old(events)[e].element))
        decreases todo
      {
        var e :| e in todo;
        todo := todo - {e};
        events := events[e := events[e].(element := MapId(plan, events[e].element))];
      }
    }
  }
}
