// How a session's start call waits for the gateway: its call is one task of the shared
// controller, begun, advanced step by step among the tasks of others, and collected.
module SessionGateway {
  import opened Errors
  import opened Gateway
  import opened SessionMachine
  import opened ConcurrentGateway
  import GC = GatewayController

  // The commands' outcomes come with the steps, not with the call.
  const UNSAID := GC.Exited(false)

  // The call a start makes at its current point.
  function GatewayCall(s: Session): Option<GC.Call> {
    match s.start
    case Driving(at) =>
      (match at
       case ConfigureGateway => Some(GC.DoConfigure(s.spec.Config(), UNSAID, UNSAID))
       case ApplyPolicy => Some(GC.DoApply(FailClosedPolicy(s.spec.Config()), UNSAID, UNSAID))
       case _ => None)
    case Failing(e) => if e.RequiresKillSwitch() then Some(GC.DoEngage(UNSAID)) else None
    case _ => None
  }

  // One turn of a waiting start: begin the call, let it take a step, or, when it is done,
  // collect its answer.
  datatype Turned = Turned(gateway: Shared, done: bool, answer: Option<Error>)

  function Turn(g: Shared, sid: nat, call: GC.Call, o: Outcome): Turned {
    var who := OfSession(sid);
    if who !in g.tasks then Turned(MoveOn(g, Move.Start(who, call)), false, None)
    else if !g.tasks[who].Returned? then Turned(MoveOn(g, Move.Advance(who, o)), false, None)
    else Turned(MoveOn(g, Collect(who)), true, g.tasks[who].answer)
  }

  // A session's task is the one its call began, for its own configuration and policy, and
  // an error comes after its cut.
  predicate TaskFits(g: Shared, s: Session, task: Task) {
    match s.start
    case Driving(at) =>
      (match at
       case ConfigureGateway =>
         || task == StartingBackend(s.spec.Config()) || (task.LoadingCut? && task.reason.Because?)
         || (task.RecordingCut? && task.answer.Some?)
         || (task.Returned? && (task.answer.Some? ==> task.cut) && (task.answer.None? ==> g.controller.config.Some?))
       case ApplyPolicy =>
         || ((task.LoadingRules? || task.RecordingRules?) && task.storing
             && task.policy == FailClosedPolicy(s.spec.Config()))
         || (task.LoadingCut? && task.reason.Because?)
         || (task.RecordingCut? && task.answer.Some?)
         || (task.Returned? && (task.answer.Some? ==> task.cut))
       case _ => false)
    case Failing(e) =>
      e.RequiresKillSwitch() && (task.LoadingCut? || task.RecordingCut? || (task.Returned? && task.cut))
    case _ => false
  }

  predicate Belongs(g: Shared, sid: nat, s: Session) {
    OfSession(sid) in g.tasks ==> TaskFits(g, s, g.tasks[OfSession(sid)])
  }

  lemma TaskMeansCall(g: Shared, s: Session, task: Task)
    requires TaskFits(g, s, task)
    ensures GatewayCall(s).Some?
  {}

  lemma BeganFits(g: Shared, sid: nat, s: Session)
    requires GatewayCall(s).Some? && OfSession(sid) !in g.tasks
    requires s.start == Driving(ApplyPolicy) ==> g.controller.config.Some?
    ensures Belongs(MoveOn(g, Move.Start(OfSession(sid), GatewayCall(s).value)), sid, s)
  {
    assert FailClosedPolicy(s.spec.Config()).Validates();
  }

  lemma AdvancedFits(g: Shared, sid: nat, s: Session, o: Outcome)
    requires Belongs(g, sid, s) && OfSession(sid) in g.tasks
    ensures Belongs(MoveOn(g, Move.Advance(OfSession(sid), o)), sid, s)
  {}

  // What a turn does: it keeps the controller's invariant and everyone else's tasks, and
  // an answer arrives with the promise its task made.
  lemma TurnKeeps(g: Shared, sid: nat, s: Session, o: Outcome)
    requires SharedInv(g) && Belongs(g, sid, s) && GatewayCall(s).Some?
    requires s.start == Driving(ApplyPolicy) ==> g.controller.config.Some?
    ensures var t := Turn(g, sid, GatewayCall(s).value, o);
            var g' := t.gateway;
            && SharedInv(g') && Grows(g.controller, g'.controller)
            && (forall who | who != OfSession(sid) ::
                  (who in g'.tasks <==> who in g.tasks) && (who in g.tasks ==> g'.tasks[who] == g.tasks[who]))
            && (!t.done ==> Belongs(g', sid, s))
            && (t.done ==>
                  && OfSession(sid) !in g'.tasks && g'.controller == g.controller
                  && (s.start == Driving(ConfigureGateway) && t.answer.None? ==> g'.controller.config.Some?))
  {
    hide SharedInv, TaskStep, Begin, Grows, Belongs, TaskFits;
    var who := OfSession(sid);
    if who !in g.tasks {
      MoveKeepsInv(g, Move.Start(who, GatewayCall(s).value));
      BeganFits(g, sid, s);
    } else if !g.tasks[who].Returned? {
      MoveKeepsInv(g, Move.Advance(who, o));
      AdvancedFits(g, sid, s, o);
    } else {
      MoveKeepsInv(g, Collect(who));
      AnswerIsTrue(g, sid, s);
    }
  }

  lemma AnswerIsTrue(g: Shared, sid: nat, s: Session)
    requires Belongs(g, sid, s) && OfSession(sid) in g.tasks && g.tasks[OfSession(sid)].Returned?
    ensures s.start == Driving(ConfigureGateway) && g.tasks[OfSession(sid)].answer.None? ==> g.controller.config.Some?
    ensures s.start.Failing? || g.tasks[OfSession(sid)].answer.Some? ==> g.tasks[OfSession(sid)].cut
  {}

  // A failed configure or apply, and an engage whatever its load answered, comes back
  // only after its own call recorded the switch Engaged; and Engaged it still is, unless
  // another call has recorded rules since.
  lemma FailureComesAfterItsCut(g: Shared, sid: nat, s: Session, o: Outcome)
    requires SharedInv(g) && Belongs(g, sid, s) && GatewayCall(s).Some?
    ensures var t := Turn(g, sid, GatewayCall(s).value, o);
            t.done && (s.start.Failing? || t.answer.Some?) ==>
              CutStands(g, OfSession(sid))
                && (t.gateway.controller.killSwitch == Engaged || g.cuts[OfSession(sid)] < g.epoch)
  {
    var who := OfSession(sid);
    if who in g.tasks && g.tasks[who].Returned? {
      AnswerIsTrue(g, sid, s);
    }
  }

  // Nothing else about a session's task depends on the rest of the gateway.
  lemma StillBelongs(g: Shared, g': Shared, sid: nat, s: Session, s': Session)
    requires Belongs(g, sid, s) && s'.start == s.start && s'.spec == s.spec
    requires Grows(g.controller, g'.controller)
    requires OfSession(sid) in g'.tasks ==>
               OfSession(sid) in g.tasks && g'.tasks[OfSession(sid)] == g.tasks[OfSession(sid)]
    ensures Belongs(g', sid, s')
  {}
}
