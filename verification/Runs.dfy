/** Whole runs of an instance: steps interleaved with anything the outside world does. */
module Runs {
  import opened StoreState
  import opened Bpmn
  import opened Instances
  import opened Engine
  import opened ScopeTree
  import opened Moves
  import opened Cancellation
  import opened Completion
  import opened Errors
  import opened Activities
  import opened Steps
  import opened Triggers

  /** An instance and the jobs the scheduler has claimed from the store but not yet run. */
  datatype World = World(inst: Instance, claimed: map<nat, EventRecord>)

  datatype Action =
    | Execute(token: TokenId, o: Oracle)
    | Overrun(token: TokenId)
    | Deliver(record: nat, o: Oracle)
    | Claim(record: nat)
    | FireTimer(record: nat, o: Oracle)
    | RunWork(record: nat)
    | FinishWait(wait: nat, o: Oracle)
    | FailWait(wait: nat, code: nat, o: Oracle)
    | ResolveIncident(incident: nat)
    | EndChild(token: TokenId, child: nat, o: Oracle)
    | LoseChild(token: TokenId, child: nat)
    | CancelInstance
    | Suspend
    | Resume

  /** A claimed job's element still exists; where its token stands is fixed, except for the
      owner of an event sub-process timer, which may have moved on. */
  ghost predicate ClaimOk(g: Graph, s: Instance, r: EventRecord) {
    r.token < s.nextId && (r.kind.WorkJob? || exists p: Path :: StaleRoute(g, s, r, p))
  }

  ghost predicate StaleRoute(g: Graph, s: Instance, r: EventRecord, p: Path) {
    && HasElement(g, p, r.element)
    && var el := g[p].elements[r.element];
       if el.etype.StartEvent? then p != [] && EventLevel(g, p, |p| - 1) && (r.token == 0 ==> |p| == 1)
       else RoutesTo(g, s, r, p)
  }

  /** The owner of a firing event sub-process timer still waits on the enclosing sub-process. */
  ghost predicate OwnerStands(g: Graph, s: Instance, r: EventRecord) {
    forall p: Path :: HasElement(g, p, r.element) && g[p].elements[r.element].etype.StartEvent? && r.token in s.tokens && p != [] ==>
      Owns(s, r.token, p[..|p| - 1])
  }

  lemma ClaimRoutes(g: Graph, s: Instance, r: EventRecord)
    requires ClaimOk(g, s, r) && OwnerStands(g, s, r)
    ensures RecordOk(g, s, r)
  {
    if !r.kind.WorkJob? {
      var p :| StaleRoute(g, s, r, p);
      assert RoutesTo(g, s, r, p);
    }
  }

  lemma RecordsClaimable(g: Graph, s: Instance, e: nat)
    requires Routed(g, s) && Fresh(s) && e in s.events
    ensures ClaimOk(g, s, s.events[e])
  {
    assert RecordOk(g, s, s.events[e]);
    if !s.events[e].kind.WorkJob? {
      var p :| RoutesTo(g, s, s.events[e], p);
      assert StaleRoute(g, s, s.events[e], p);
    }
  }

  lemma ClaimStays(g: Graph, s: Instance, s': Instance, r: EventRecord)
    requires ClaimOk(g, s, r) && Persists(s, s')
    ensures ClaimOk(g, s', r)
  {
    if !r.kind.WorkJob? {
      var p :| StaleRoute(g, s, r, p);
      assert StaleRoute(g, s', r, p);
    }
  }

  /** Firing a claimed timer leaves the instance in order exactly when the owner it names, if it
      names an event sub-process and the owner is still there, still stands. */
  lemma ClaimedTimerExactly(g: Graph, s: Instance, r: EventRecord, e: nat, o: Oracle)
    requires ValidGraph(g) && Inv(g, s) && s.status.Running? && ClaimOk(g, s, r) && !r.kind.WorkJob? && LoopAnswers(o)
    ensures Inv(g, TimerFired(g, s, r, e, o)) <==> OwnerStands(g, s, r)
  {
    hide TimerFired, Inv, StaleRoute;
    if OwnerStands(g, s, r) {
      ClaimRoutes(g, s, r);
      TimerFiredKeeps(g, s, r, e, o);
    } else {
      var p :| HasElement(g, p, r.element) && g[p].elements[r.element].etype.StartEvent? && r.token in s.tokens && p != []
               && !Owns(s, r.token, p[..|p| - 1]);
      var q :| StaleRoute(g, s, r, q);
      StaleTimerBreaks(g, s, r, p, q, e, o);
    }
  }

  lemma StaleTimerBreaks(g: Graph, s: Instance, r: EventRecord, p: Path, q: Path, e: nat, o: Oracle)
    requires ValidGraph(g) && Inv(g, s) && s.status.Running? && StaleRoute(g, s, r, q)
    requires HasElement(g, p, r.element) && g[p].elements[r.element].etype.StartEvent? && r.token in s.tokens && p != []
    requires !Owns(s, r.token, p[..|p| - 1])
    ensures !Inv(g, TimerFired(g, s, r, e, o))
  {
    hide Core, NoStuck, Linked, Routed, ValidGraph, EventSubTriggered;
    HomeOf(g, r.element, p);
    HomeOf(g, r.element, q);
    var s1 := if o.repeats && NonInterrupting(g, r.element) then Register(s, r.kind, r.token, r.element) else s;
    RegisteredTree(g, s, r);
    MovedOwnerBreaks(g, s1, r.token, p, r.element, g[p].elements[r.element].cancelActivity, e);
  }

  lemma RegisteredTree(g: Graph, s: Instance, r: EventRecord)
    requires Core(g, s) && r.token in s.tokens
    ensures Core(g, Register(s, r.kind, r.token, r.element))
  {
    assert TokenOk(g, s, r.token);
    SameTree(g, s, Register(s, r.kind, r.token, r.element));
  }

  lemma HomeOf(g: Graph, id: ElementId, p: Path)
    requires ValidGraph(g) && HasElement(g, p, id)
    ensures Home(g, id) == Some(p)
  {
    assert HasElement(g, Home(g, id).value, id);
  }

  // ---- the transition system ------------------------------------------------------------------

  /** What must hold for an action to happen: assumptions on evaluations, and for a claimed
      event sub-process timer, on its owner. */
  ghost predicate Enabled(g: Graph, w: World, a: Action) {
    var s := w.inst;
    s.status.Running? &&
    match a
    case Execute(id, o) => !s.suspended && id in s.tokens && s.tokens[id].state.Active? && StepAnswers(g, s, id, o)
    case Overrun(id) => !s.suspended && id in s.tokens && s.tokens[id].state.Active?
    case Deliver(e, o) => (e in s.events ==> s.events[e].kind.SubscriptionRecord?) && LoopAnswers(o)
    case Claim(e) => e in s.events && !s.events[e].kind.SubscriptionRecord?
    case FireTimer(j, o) => j in w.claimed && w.claimed[j].kind.TimerJob? && OwnerStands(g, s, w.claimed[j]) && LoopAnswers(o)
    case RunWork(j) => j in w.claimed && w.claimed[j].kind.WorkJob?
    case FinishWait(wait, o) =>
      LoopAnswers(o) && (o.outcome.Throws? && StillWaits(s, wait) ==>
        !Reenters(g, s.tokens[s.waits[wait].token].path, o.outcome.code))
    case FailWait(wait, code, o) =>
      StillWaits(s, wait) ==> !Reenters(g, s.tokens[s.waits[wait].token].path, code)
    case EndChild(_, _, o) => LoopAnswers(o)
    case _ => true
  }

  ghost function Next(g: Graph, w: World, a: Action): World
    requires Enabled(g, w, a)
  {
    var s := w.inst;
    match a
    case Execute(id, o) =>
      if |s.tokens[id].path| == |s.tokens[id].owners| then w.(inst := Step(g, s, id, o)) else w
    case Overrun(id) => w.(inst := RaiseIncident(s, id))
    case Deliver(e, o) => w.(inst := Delivered(g, s, e, o))
    case Claim(e) => World(DropEvent(s, e), w.claimed[e := s.events[e]])
    case FireTimer(j, o) => World(TimerFired(g, s, w.claimed[j], j, o), w.claimed - {j})
    case RunWork(j) => World(WorkResumed(s, w.claimed[j].token, j), w.claimed - {j})
    case FinishWait(wait, o) => w.(inst := WaitCompleted(g, s, wait, o))
    case FailWait(wait, code, o) => w.(inst := WaitFailed(g, s, wait, code, o))
    case ResolveIncident(i) => w.(inst := Resolved(s, i))
    case EndChild(id, child, o) => w.(inst := ChildEnded(g, s, id, child, o))
    case LoseChild(id, child) => w.(inst := ChildLost(s, id, child))
    case CancelInstance => w.(inst := TerminateInstance(s))
    case Suspend => w.(inst := s.(suspended := true))
    case Resume => w.(inst := s.(suspended := false))
  }

  ghost predicate WorldInv(g: Graph, w: World) {
    Inv(g, w.inst) && forall j :: j in w.claimed ==> ClaimOk(g, w.inst, w.claimed[j])
  }

  lemma SuspensionKeeps(g: Graph, s: Instance, on: bool)
    requires Inv(g, s) && s.status.Running?
    ensures Keeps(g, s, s.(suspended := on))
  {
    var s' := s.(suspended := on);
    NoZero(g, s);
    SameTree(g, s, s');
    forall m | m in s'.multi ensures m in s'.tokens && m != 0 {
      assert TokenOk(g, s, m);
    }
    NoStuckStays(g, s, s', 0, None, 0, None, 0);
    LinkedStays(s, s', 0);
    RoutedStays(g, s, s', 0);
  }

  /** The instance's part of every action. */
  lemma ActionKeeps(g: Graph, w: World, a: Action)
    requires ValidGraph(g) && WorldInv(g, w) && Enabled(g, w, a)
    ensures Continues(g, w.inst, Next(g, w, a).inst)
  {
    hide Step, Delivered, TimerFired, WaitCompleted, WaitFailed, ChildEnded, ChildLost, TerminateInstance, RaiseIncident,
         NoStuck, Linked, Routed, Persists, Numbers;
    var s := w.inst;
    NothingKeeps(g, s);
    match a {
      case Execute(id, o) => StepKeeps(g, s, id, o);
      case Overrun(id) =>
        LeafReady(g, s, id);
        RaiseIncidentKeeps(g, s, id);
      case Deliver(e, o) => DeliveredKeeps(g, s, e, o);
      case Claim(e) => DropEventKeeps(g, s, e);
      case FireTimer(j, o) =>
        ClaimRoutes(g, s, w.claimed[j]);
        TimerFiredKeeps(g, s, w.claimed[j], j, o);
      case RunWork(j) =>
        if WorkResumed(s, w.claimed[j].token, j) != s { ReactivatedKeeps(g, s, w.claimed[j].token); }
      case FinishWait(wait, o) => WaitCompletedKeeps(g, s, wait, o);
      case FailWait(wait, code, o) => WaitFailedKeeps(g, s, wait, code, o);
      case ResolveIncident(i) =>
        if Resolved(s, i) != s { ReactivatedKeeps(g, s, s.incidents[i]); }
      case EndChild(id, child, o) => ChildEndedKeeps(g, s, id, child, o);
      case LoseChild(id, child) => ChildLostKeeps(g, s, id, child);
      case CancelInstance => TerminateKeeps(g, s);
      case Suspend => SuspensionKeeps(g, s, true);
      case Resume => SuspensionKeeps(g, s, false);
    }
  }

  /** Every action keeps the invariant. */
  lemma NextKeeps(g: Graph, w: World, a: Action)
    requires ValidGraph(g) && WorldInv(g, w) && Enabled(g, w, a)
    ensures WorldInv(g, Next(g, w, a)) && Continues(g, w.inst, Next(g, w, a).inst)
  {
    ActionKeeps(g, w, a);
    var w' := Next(g, w, a);
    if a.Claim? {
      RecordsClaimable(g, w.inst, a.record);
    }
    forall j | j in w'.claimed ensures ClaimOk(g, w'.inst, w'.claimed[j]) {
      ClaimStays(g, w.inst, w'.inst, w'.claimed[j]);
    }
  }

  // ---- runs -----------------------------------------------------------------------------------------

  /** `worlds` is a run of the actions from a freshly started instance. */
  ghost predicate IsRun(g: Graph, worlds: seq<World>, actions: seq<Action>) {
    && |worlds| == |actions| + 1
    && (exists start, o :: HasElement(g, [], start) && g[[]].elements[start].etype.StartEvent?
                           && worlds[0] == World(Started(g, start, o), map[]))
    && forall n {:trigger Happens(g, worlds[n], actions[n], worlds[n + 1])} ::
         0 <= n < |actions| ==> Happens(g, worlds[n], actions[n], worlds[n + 1])
  }

  ghost predicate Happens(g: Graph, w: World, a: Action, w': World) {
    Enabled(g, w, a) && w' == Next(g, w, a)
  }

  lemma HappensAt(g: Graph, worlds: seq<World>, actions: seq<Action>, n: nat)
    requires IsRun(g, worlds, actions) && n < |actions|
    ensures Happens(g, worlds[n], actions[n], worlds[n + 1])
  {
  }

  /** In every world of every run: the scope tree holds, no scope or loop is stuck, loops
      keep their books, and wait records match waiting tokens one to one; once ended, an
      instance keeps no tokens, open waits, jobs or subscriptions. */
  lemma {:induction false} RunKeepsInv(g: Graph, worlds: seq<World>, actions: seq<Action>, n: nat)
    requires ValidGraph(g) && IsRun(g, worlds, actions) && n < |worlds|
    ensures WorldInv(g, worlds[n])
    decreases n
  {
    if n == 0 {
      var start, o :| HasElement(g, [], start) && g[[]].elements[start].etype.StartEvent?
                      && worlds[0] == World(Started(g, start, o), map[]);
      StartedInv(g, start, o);
    } else {
      RunKeepsInv(g, worlds, actions, n - 1);
      HappensAt(g, worlds, actions, n - 1);
      NextKeeps(g, worlds[n - 1], actions[n - 1]);
    }
  }

  /** A world some run leads to. */
  ghost predicate Reachable(g: Graph, w: World) {
    exists worlds, actions :: IsRun(g, worlds, actions) && worlds[|actions|] == w
  }

  lemma ReachableFirst(g: Graph, start: ElementId, o: Oracle)
    requires HasElement(g, [], start) && g[[]].elements[start].etype.StartEvent?
    ensures Reachable(g, World(Started(g, start, o), map[]))
  {
    var worlds, actions: seq<Action> := [World(Started(g, start, o), map[])], [];
    assert IsRun(g, worlds, actions) && worlds[|actions|] == World(Started(g, start, o), map[]);
  }

  lemma ReachableNext(g: Graph, w: World, a: Action)
    requires Reachable(g, w) && Enabled(g, w, a)
    ensures Reachable(g, Next(g, w, a))
  {
    var worlds, actions :| IsRun(g, worlds, actions) && worlds[|actions|] == w;
    var worlds', actions' := worlds + [Next(g, w, a)], actions + [a];
    forall n | 0 <= n < |actions'| ensures Happens(g, worlds'[n], actions'[n], worlds'[n + 1]) {
      if n < |actions| {
        HappensAt(g, worlds, actions, n);
      }
    }
    assert worlds'[0] == worlds[0];
    assert IsRun(g, worlds', actions') && worlds'[|actions'|] == Next(g, w, a);
  }

  lemma ReachableInv(g: Graph, w: World)
    requires ValidGraph(g) && Reachable(g, w)
    ensures WorldInv(g, w)
  {
    var worlds, actions :| IsRun(g, worlds, actions) && worlds[|actions|] == w;
    RunKeepsInv(g, worlds, actions, |actions|);
  }

  lemma StepContinues(g: Graph, worlds: seq<World>, actions: seq<Action>, n: nat)
    requires ValidGraph(g) && IsRun(g, worlds, actions) && n < |actions|
    ensures worlds[n].inst.status.Running? && Continues(g, worlds[n].inst, worlds[n + 1].inst)
  {
    RunKeepsInv(g, worlds, actions, n);
    HappensAt(g, worlds, actions, n);
    NextKeeps(g, worlds[n], actions[n]);
  }

  /** Consecutive worlds of a run, without saying which action led from one to the next. */
  ghost predicate Ongoing(g: Graph, worlds: seq<World>, n: nat)
    requires n + 1 < |worlds|
  {
    && Inv(g, worlds[n].inst) && worlds[n].inst.status.Running?
    && Continues(g, worlds[n].inst, worlds[n + 1].inst)
  }

  lemma RunOngoing(g: Graph, worlds: seq<World>, actions: seq<Action>)
    requires ValidGraph(g) && IsRun(g, worlds, actions)
    ensures |worlds| > 0 && forall n {:trigger Ongoing(g, worlds, n)} :: 0 <= n < |worlds| - 1 ==> Ongoing(g, worlds, n)
  {
    forall n | 0 <= n < |worlds| - 1 ensures Ongoing(g, worlds, n) {
      StepContinues(g, worlds, actions, n);
      RunKeepsInv(g, worlds, actions, n);
    }
  }

  lemma {:induction false} RunPersists(g: Graph, worlds: seq<World>, m: nat, n: nat)
    requires m <= n < |worlds|
    requires forall k {:trigger Ongoing(g, worlds, k)} :: m <= k < n ==> Ongoing(g, worlds, k)
    ensures Persists(worlds[m].inst, worlds[n].inst)
    decreases n
  {
    if m < n {
      RunPersists(g, worlds, m, n - 1);
      assert Ongoing(g, worlds, n - 1);
      PersistsTransitive(worlds[m].inst, worlds[n - 1].inst, worlds[n].inst);
    }
  }

  // ---- each wait is resolved at most once -------------------------------------------------------

  /** The call passes its checks under the instance lock and ends the wait. */
  ghost predicate Ends(g: Graph, w: World, a: Action, wait: nat) {
    || (a.FinishWait? && a.wait == wait && Answerable(g, w.inst, wait))
    || (a.FailWait? && a.wait == wait && StillWaits(w.inst, wait) && (a.code != 0 || !a.o.retriesLeft))
  }

  lemma EndedIsClosed(g: Graph, w: World, a: Action, wait: nat)
    requires ValidGraph(g) && WorldInv(g, w) && Enabled(g, w, a) && Ends(g, w, a, wait)
    ensures Closed(Next(g, w, a).inst, wait)
  {
    if a.FinishWait? {
      WaitCompletedKeeps(g, w.inst, wait, a.o);
    } else {
      WaitFailedKeeps(g, w.inst, wait, a.code, a.o);
    }
  }

  lemma ClosedNotAwaited(g: Graph, s: Instance, wait: nat)
    requires Inv(g, s) && s.status.Running? && Closed(s, wait)
    ensures !StillWaits(s, wait)
  {
    if StillWaits(s, wait) {
      ClosedReady(g, s, wait);
    }
  }

  /** Whatever stale copies callers read before taking the instance lock, and however their
      calls interleave with everything else, each wait ends at most once. */
  lemma WaitEndsOnce(g: Graph, worlds: seq<World>, actions: seq<Action>, m: nat, n: nat, wait: nat)
    requires ValidGraph(g) && IsRun(g, worlds, actions) && m < n < |actions|
    requires Ends(g, worlds[m], actions[m], wait)
    ensures !Ends(g, worlds[n], actions[n], wait)
  {
    EndsThere(g, worlds, actions, m, wait);
    RunOngoing(g, worlds, actions);
    RunPersists(g, worlds, m + 1, n);
    StaysClosed(worlds[m + 1].inst, worlds[n].inst, wait);
    assert Ongoing(g, worlds, n);
    ClosedNotAwaited(g, worlds[n].inst, wait);
  }

  lemma EndsThere(g: Graph, worlds: seq<World>, actions: seq<Action>, m: nat, wait: nat)
    requires ValidGraph(g) && IsRun(g, worlds, actions) && m < |actions|
    requires Ends(g, worlds[m], actions[m], wait)
    ensures Closed(worlds[m + 1].inst, wait)
  {
    HappensAt(g, worlds, actions, m);
    RunKeepsInv(g, worlds, actions, m);
    EndedIsClosed(g, worlds[m], actions[m], wait);
  }

  // ---- what this says in the engine's terms -----------------------------------------------------

  /** An instance is active exactly while it has tokens. */
  lemma ActiveExactlyWithTokens(g: Graph, worlds: seq<World>, actions: seq<Action>, n: nat)
    requires ValidGraph(g) && IsRun(g, worlds, actions) && n < |worlds|
    ensures worlds[n].inst.status.Running? <==> worlds[n].inst.tokens != map[]
  {
    RunKeepsInv(g, worlds, actions, n);
  }

  /** Path and owners of a live token run in parallel. Every owner named is a live token that
      waits on the path's element there, one level up; levels without one are event
      sub-processes; a parent is a live coordinator at the same element and scope. */
  lemma TokensHangTogether(g: Graph, worlds: seq<World>, actions: seq<Action>, n: nat, u: TokenId)
    requires ValidGraph(g) && IsRun(g, worlds, actions) && n < |worlds| && u in worlds[n].inst.tokens
    ensures var s := worlds[n].inst; var t := s.tokens[u];
      && HasElement(g, t.path, t.element) && |t.path| == |t.owners|
      && (forall i :: 0 <= i < |t.owners| ==>
            if t.owners[i] == 0 then EventLevel(g, t.path, i)
            else t.owners[i] in s.tokens && s.tokens[t.owners[i]].element == t.path[i] && s.tokens[t.owners[i]].state.WaitChild?
                 && s.tokens[t.owners[i]].path == t.path[..i] && s.tokens[t.owners[i]].owners == t.owners[..i])
      && (t.parent != 0 ==>
            t.parent in s.multi && t.parent in s.tokens && s.tokens[t.parent].state.WaitMulti?
            && s.tokens[t.parent].element == t.element && SameScope(s.tokens[t.parent], t))
  {
    RunKeepsInv(g, worlds, actions, n);
    var s := worlds[n].inst;
    var t := s.tokens[u];
    assert TokenOk(g, s, u);
    forall i | 0 <= i < |t.owners|
      ensures if t.owners[i] == 0 then EventLevel(g, t.path, i)
              else t.owners[i] in s.tokens && s.tokens[t.owners[i]].element == t.path[i] && s.tokens[t.owners[i]].state.WaitChild?
                   && s.tokens[t.owners[i]].path == t.path[..i] && s.tokens[t.owners[i]].owners == t.owners[..i]
    {
      assert LevelOk(g, s, t.path, t.owners, i);
    }
  }

  /** No token waits on an embedded scope that is empty. */
  lemma NoScopeStuck(g: Graph, worlds: seq<World>, actions: seq<Action>, n: nat, o: TokenId)
    requires ValidGraph(g) && IsRun(g, worlds, actions) && n < |worlds|
    requires o in worlds[n].inst.tokens && ScopeWait(worlds[n].inst.tokens[o])
    ensures exists u :: u in worlds[n].inst.tokens && o in worlds[n].inst.tokens[u].owners
  {
    RunKeepsInv(g, worlds, actions, n);
    var s := worlds[n].inst;
    assert Occupied(s, o);
    var u :| u in s.tokens && Inside(s.tokens[u], s.tokens[o], o);
    assert s.tokens[u].owners[|s.tokens[o].owners|] == o;
  }

  /** A running loop's books: in a parallel loop the live iterations are those not completed,
      in a sequential one a single iteration is live, the one after those completed; no
      index is live twice, and outputs number the completed. */
  lemma LoopBooks(g: Graph, worlds: seq<World>, actions: seq<Action>, n: nat, m: TokenId)
    requires ValidGraph(g) && IsRun(g, worlds, actions) && n < |worlds| && m in worlds[n].inst.multi
    requires worlds[n].inst.status.Running?
    ensures m in worlds[n].inst.tokens && SpecOf(g, worlds[n].inst.tokens[m]).Some?
    ensures var s := worlds[n].inst; var ms := s.multi[m]; var spec := SpecOf(g, s.tokens[m]).value;
      && Children(s, m) != {} && ms.completed < ms.total && (spec.hasOutput ==> ms.outputs == ms.completed)
      && (if spec.sequential then |Children(s, m)| == 1 && ms.nextIndex == ms.completed + 1
          else |Children(s, m)| == ms.total - ms.completed)
      && (forall c :: c in Children(s, m) ==> s.tokens[c].loop < ms.nextIndex)
      && (forall c, d :: c in Children(s, m) && d in Children(s, m) && s.tokens[c].loop == s.tokens[d].loop ==> c == d)
  {
    RunKeepsInv(g, worlds, actions, n);
    var s := worlds[n].inst;
    assert TokenOk(g, s, m) && Accounted(g, s, m);
  }

  /** While a loop runs, its iterations of a later world were there before or carry numbers
      not given out by then. */
  lemma {:induction false} LaterNumbers(g: Graph, worlds: seq<World>, i: nat, j: nat, m: TokenId, d: TokenId)
    requires i <= j < |worlds| && m != 0
    requires forall k {:trigger Ongoing(g, worlds, k)} :: i <= k < j ==> Ongoing(g, worlds, k)
    requires forall k :: i <= k <= j ==> m in worlds[k].inst.multi
    requires d in worlds[j].inst.tokens && worlds[j].inst.tokens[d].parent == m
    ensures Same(worlds[i].inst, worlds[j].inst, d) || worlds[i].inst.multi[m].nextIndex <= worlds[j].inst.tokens[d].loop
    decreases j
  {
    if i < j {
      assert Ongoing(g, worlds, j - 1);
      NumbersRise(g, worlds, i, j - 1, m);
      OlderOrLater(g, worlds[j - 1].inst, worlds[j].inst, m, d);
      if d in worlds[j - 1].inst.tokens {
        LaterNumbers(g, worlds, i, j - 1, m, d);
      }
    }
  }

  ghost predicate Same(s: Instance, s': Instance, d: TokenId)
    requires d in s'.tokens
  {
    d in s.tokens && s.tokens[d].parent == s'.tokens[d].parent && s.tokens[d].loop == s'.tokens[d].loop
  }

  lemma OlderOrLater(g: Graph, s: Instance, s': Instance, m: TokenId, d: TokenId)
    requires Inv(g, s) && s.status.Running? && Continues(g, s, s') && m != 0 && m in s.multi && m in s'.multi
    requires d in s'.tokens && s'.tokens[d].parent == m
    ensures if d in s.tokens then Same(s, s', d) else s.multi[m].nextIndex <= s'.tokens[d].loop
  {
    if d in s.tokens {
      assert TokenOk(g, s, d);
    } else {
      assert NewNumber(s, s', s'.tokens[d]);
    }
  }

  lemma {:induction false} NumbersRise(g: Graph, worlds: seq<World>, i: nat, j: nat, m: TokenId)
    requires i <= j < |worlds|
    requires forall k {:trigger Ongoing(g, worlds, k)} :: i <= k < j ==> Ongoing(g, worlds, k)
    requires forall k :: i <= k <= j ==> m in worlds[k].inst.multi
    ensures worlds[i].inst.multi[m].nextIndex <= worlds[j].inst.multi[m].nextIndex
    decreases j
  {
    if i < j {
      assert Ongoing(g, worlds, j - 1);
      NumbersRise(g, worlds, i, j - 1, m);
    }
  }

  /** Over the whole life of a loop each index is spawned at most once: two iterations with
      the same index, seen at whatever times while the loop runs, are one token. */
  lemma EachIndexOnce(g: Graph, worlds: seq<World>, actions: seq<Action>, i: nat, j: nat, m: TokenId, c: TokenId, d: TokenId)
    requires ValidGraph(g) && IsRun(g, worlds, actions) && i <= j < |worlds|
    requires forall k :: i <= k <= j ==> m in worlds[k].inst.multi
    requires c in Children(worlds[i].inst, m) && d in Children(worlds[j].inst, m)
    requires worlds[i].inst.tokens[c].loop == worlds[j].inst.tokens[d].loop
    ensures c == d
  {
    RunKeepsInv(g, worlds, actions, i);
    NoZero(g, worlds[i].inst);
    LoopBooks(g, worlds, actions, i, m);
    RunOngoing(g, worlds, actions);
    LaterNumbers(g, worlds, i, j, m, d);
  }

  /** A loop that is over leaves no iteration behind. */
  lemma FinishedLoopsAreGone(g: Graph, worlds: seq<World>, actions: seq<Action>, n: nat, m: TokenId)
    requires ValidGraph(g) && IsRun(g, worlds, actions) && n < |worlds|
    requires m != 0 && m !in worlds[n].inst.multi
    ensures Children(worlds[n].inst, m) == {}
  {
    RunKeepsInv(g, worlds, actions, n);
    forall u | u in worlds[n].inst.tokens ensures worlds[n].inst.tokens[u].parent != m {
      assert TokenOk(g, worlds[n].inst, u);
    }
  }

  /** Open user tasks, external tasks and agent jobs correspond one to one with the tokens
      that wait for them. */
  lemma WaitsMatchTokens(g: Graph, worlds: seq<World>, actions: seq<Action>, n: nat, w: nat)
    requires ValidGraph(g) && IsRun(g, worlds, actions) && n < |worlds| && w in worlds[n].inst.waits
    ensures var s := worlds[n].inst;
      && (s.waits[w].open <==> StillWaits(s, w))
      && (s.waits[w].open ==> forall u :: u in s.tokens && Awaits(s.tokens[u], s.waits[w].kind, w) ==> u == s.waits[w].token)
  {
    RunKeepsInv(g, worlds, actions, n);
    var s := worlds[n].inst;
    if s.status.Running? {
      assert Backed(s, w, 0);
      NoZero(g, s);
      if StillWaits(s, w) {
        ClosedReady(g, s, w);
      }
      forall u | u in s.tokens && s.waits[w].open && Awaits(s.tokens[u], s.waits[w].kind, w) ensures u == s.waits[w].token {
        assert Held(s, u);
      }
    }
  }

  /** An ended instance keeps no open wait, job or subscription. */
  lemma EndedIsClean(g: Graph, worlds: seq<World>, actions: seq<Action>, n: nat)
    requires ValidGraph(g) && IsRun(g, worlds, actions) && n < |worlds| && !worlds[n].inst.status.Running?
    ensures worlds[n].inst.events == map[] && forall w :: w in worlds[n].inst.waits ==> !worlds[n].inst.waits[w].open
  {
    RunKeepsInv(g, worlds, actions, n);
  }
}
