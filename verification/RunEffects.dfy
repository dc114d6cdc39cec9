/** Along every run, each action has exactly the effect described for it. */
module RunEffects {
  import opened StoreState
  import opened Bpmn
  import opened Instances
  import opened Engine
  import opened ScopeTree
  import opened Errors
  import opened Steps
  import opened Triggers
  import opened Runs
  import opened Routing
  import opened Outcomes
  import opened StepEffects
  import opened OutsideEffects

  /** The element a token stands on. */
  function Under(g: Graph, s: Instance, x: TokenId): Element
    requires x in s.tokens && ElementOf(g, s.tokens[x]).Some?
  {
    ElementOf(g, s.tokens[x]).value
  }

  ghost predicate AllStand(g: Graph, s: Instance) {
    forall x :: x in s.tokens ==> ElementOf(g, s.tokens[x]).Some? && |s.tokens[x].path| == |s.tokens[x].owners|
  }

  ghost predicate Delivers(g: Graph, s: Instance, s': Instance, e: nat, o: Oracle) {
    if e !in s.events then s' == s
    else exists p, out :: HasElement(g, p, s.events[e].element) && EventTakes(g, s, out, s.events[e], p, e, o)
                          && s' == OrElse(out, s.(events := s.events - {e}))
  }

  ghost predicate Rings(g: Graph, s: Instance, s': Instance, r: EventRecord, e: nat, o: Oracle) {
    exists p :: HasElement(g, p, r.element) && TakesTimer(g, s, s', r, p, e, o)
  }

  /** What an action makes of the instance and of the claimed jobs. */
  ghost predicate Does(g: Graph, w: World, a: Action, w': World)
    requires AllStand(g, w.inst)
  {
    var s, s' := w.inst, w'.inst;
    match a
    case Execute(id, o) => id in s.tokens && StepsTo(g, s, s', id, Under(g, s, id), o) && w'.claimed == w.claimed
    case Overrun(id) => id in s.tokens && OnIncident(s, s', id) && w'.claimed == w.claimed
    case Deliver(e, o) => Delivers(g, s, s', e, o) && w'.claimed == w.claimed
    case Claim(e) => e in s.events && s' == s.(events := s.events - {e}) && w'.claimed == w.claimed[e := s.events[e]]
    case FireTimer(j, o) => j in w.claimed && Rings(g, s, s', w.claimed[j], j, o) && w'.claimed == w.claimed - {j}
    case RunWork(j) =>
      && j in w.claimed && w'.claimed == w.claimed - {j}
      && var x := w.claimed[j].token;
         if x in s.tokens && s.tokens[x].state.WaitRetry? && s.tokens[x].ref == RecordRef(j) then Resumes(s, s', x) else s' == s
    case FinishWait(v, o) =>
      && w'.claimed == w.claimed
      && if ParkedOn(s, v) && (s.waits[v].kind.AgentWait? ==> Under(g, s, s.waits[v].token).agent.Some?)
         then Answered(g, s, s', v, Under(g, s, s.waits[v].token), o) else s' == s
    case FailWait(v, code, o) => w'.claimed == w.claimed && if ParkedOn(s, v) then Failed(g, s, s', v, code, o) else s' == s
    case ResolveIncident(i) =>
      && w'.claimed == w.claimed
      && if i in s.incidents && s.incidents[i] in s.tokens && s.tokens[s.incidents[i]].state.WaitRetry?
         then Resumes(s, s', s.incidents[i]) else s' == s
    case EndChild(id, child, o) =>
      w'.claimed == w.claimed && if AwaitsCall(s, id, child) then Finishes(g, s, s', id, Under(g, s, id), o) else s' == s
    case LoseChild(id, child) => w'.claimed == w.claimed && if AwaitsCall(s, id, child) then OnIncident(s, s', id) else s' == s
    case CancelInstance => w'.claimed == w.claimed && Terminates(s, s')
    case Suspend => w' == w.(inst := s.(suspended := true))
    case Resume => w' == w.(inst := s.(suspended := false))
  }

  lemma CoreStands(g: Graph, s: Instance)
    requires Core(g, s)
    ensures AllStand(g, s)
  {
    forall x | x in s.tokens ensures ElementOf(g, s.tokens[x]).Some? && |s.tokens[x].path| == |s.tokens[x].owners| {
      assert TokenOk(g, s, x);
    }
  }

  /** Every action of a run does what is said of it. */
  lemma ActionEffect(g: Graph, w: World, a: Action)
    requires ValidGraph(g) && WorldInv(g, w) && Enabled(g, w, a)
    ensures AllStand(g, w.inst) && Does(g, w, a, Next(g, w, a))
  {
    CoreStands(g, w.inst);
    hide Does, Next, Enabled, WorldInv, ValidGraph, AllStand;
    if a.Execute? || a.Overrun? || a.Deliver? || a.Claim? || a.FireTimer? || a.RunWork? {
      EngineAction(g, w, a);
    } else {
      CallerAction(g, w, a);
    }
  }

  lemma EngineAction(g: Graph, w: World, a: Action)
    requires ValidGraph(g) && WorldInv(g, w) && Enabled(g, w, a) && AllStand(g, w.inst)
    requires a.Execute? || a.Overrun? || a.Deliver? || a.Claim? || a.FireTimer? || a.RunWork?
    ensures Does(g, w, a, Next(g, w, a))
  {
    var s := w.inst;
    hide Step, Delivered, TimerFired, WorkResumed, Inv, ValidGraph, StepsTo, Rings, Delivers, OnIncident, Resumes, ClaimOk, OwnerStands,
         StepAnswers, RaiseIncident;
    match a {
      case Execute(id, o) => StepEffect(g, s, id, Under(g, s, id), o);
      case Overrun(id) => IncidentIs(s, id);
      case Deliver(e, o) => DeliversIs(g, s, e, o);
      case Claim(e) =>
      case FireTimer(j, o) => RingsIs(g, s, w.claimed[j], j, o);
      case RunWork(j) => ResumedEffect(s, w.claimed[j].token, j, 0);
      case _ =>
    }
  }

  lemma CallerAction(g: Graph, w: World, a: Action)
    requires ValidGraph(g) && WorldInv(g, w) && Enabled(g, w, a) && AllStand(g, w.inst)
    requires !(a.Execute? || a.Overrun? || a.Deliver? || a.Claim? || a.FireTimer? || a.RunWork?)
    ensures Does(g, w, a, Next(g, w, a))
  {
    var s := w.inst;
    hide WaitCompleted, WaitFailed, ChildEnded, ChildLost, Resolved, Inv, ValidGraph, Answered, Failed, Finishes, OnIncident, Resumes,
         Terminates, ClaimOk, Reenters, StillWaits;
    match a {
      case FinishWait(v, o) => WaitDone(g, s, v, o);
      case FailWait(v, code, o) => WaitFailedEffect(g, s, v, code, o);
      case ResolveIncident(i) => ResumedEffect(s, 0, 0, i);
      case EndChild(id, child, o) => ChildDone(g, s, id, child, o);
      case LoseChild(id, child) => ChildLostEffect(s, id, child);
      case CancelInstance => TerminatedEffect(s);
      case _ =>
    }
  }

  lemma IncidentIs(s: Instance, x: TokenId)
    requires x in s.tokens
    ensures OnIncident(s, RaiseIncident(s, x), x)
  {
  }

  lemma WaitDone(g: Graph, s: Instance, v: nat, o: Oracle)
    requires ValidGraph(g) && Inv(g, s) && s.status.Running? && AllStand(g, s)
    ensures var s' := WaitCompleted(g, s, v, o);
      if ParkedOn(s, v) && (s.waits[v].kind.AgentWait? ==> Under(g, s, s.waits[v].token).agent.Some?)
      then Answered(g, s, s', v, Under(g, s, s.waits[v].token), o) else s' == s
  {
    hide Answered, ValidGraph, Inv;
    if v in s.waits && s.waits[v].token in s.tokens {
      WaitCompletedEffect(g, s, v, Under(g, s, s.waits[v].token), o);
    } else {
      StaleCompletion(g, s, v, o);
    }
  }

  lemma ChildDone(g: Graph, s: Instance, x: TokenId, child: nat, o: Oracle)
    requires ValidGraph(g) && Inv(g, s) && s.status.Running? && AllStand(g, s)
    ensures var s' := ChildEnded(g, s, x, child, o);
      if AwaitsCall(s, x, child) then Finishes(g, s, s', x, Under(g, s, x), o) else s' == s
  {
    if x in s.tokens {
      hide Finishes, ValidGraph, Inv;
      ChildEndedEffect(g, s, x, child, Under(g, s, x), o);
    }
  }

  lemma DeliversIs(g: Graph, s: Instance, e: nat, o: Oracle)
    requires ValidGraph(g) && Inv(g, s) && s.status.Running? && (e in s.events ==> s.events[e].kind.SubscriptionRecord?)
    ensures Delivers(g, s, Delivered(g, s, e, o), e, o)
  {
    if e in s.events {
      assert RecordOk(g, s, s.events[e]);
      var p :| RoutesTo(g, s, s.events[e], p);
      hide EventTakes, Triggered, Inv, ValidGraph;
      DeliveredEffect(g, s, e, p, o);
    }
  }

  lemma RingsIs(g: Graph, s: Instance, r: EventRecord, e: nat, o: Oracle)
    requires ValidGraph(g) && Inv(g, s) && s.status.Running? && ClaimOk(g, s, r) && OwnerStands(g, s, r) && r.kind.TimerJob?
    ensures Rings(g, s, TimerFired(g, s, r, e, o), r, e, o)
  {
    ClaimRoutes(g, s, r);
    var p :| RoutesTo(g, s, r, p);
    hide TakesTimer, TimerFired, Inv, ValidGraph, OwnerStands;
    TimerFiredEffect(g, s, r, p, e, o);
    assert TakesTimer(g, s, TimerFired(g, s, r, e, o), r, p, e, o);
  }

  /** Along every run each action does exactly what is said of it. */
  lemma RunEffect(g: Graph, worlds: seq<World>, actions: seq<Action>, n: nat)
    requires ValidGraph(g) && IsRun(g, worlds, actions) && n < |actions|
    ensures AllStand(g, worlds[n].inst) && Does(g, worlds[n], actions[n], worlds[n + 1])
  {
    hide ValidGraph, WorldInv, Enabled, Next, Does, AllStand;
    RunKeepsInv(g, worlds, actions, n);
    HappensAt(g, worlds, actions, n);
    ActionEffect(g, worlds[n], actions[n]);
  }
}
