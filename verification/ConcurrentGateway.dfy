// The gateway controller called by several tasks at once. Its mutex guards only the
// reads and writes of the recorded state and is free across every command, so a call is
// a task that takes several steps: between two of them any other call may act.
module ConcurrentGateway {
  import opened Errors
  import opened Gateway
  import opened Firewall
  import opened GatewayController

  // Why a task is about to cut traffic: it was asked to, a command failed, or the tunnel
  // was seen to have failed. What it will answer depends on that.
  datatype Reason = Asked | Because(error: Error) | Noticed

  datatype Task =
    | StartingBackend(cfg: GatewayConfig)
    | LoadingRules(policy: FirewallPolicy, cfg: GatewayConfig, storing: bool)    // an apply stores its policy,
    | RecordingRules(policy: FirewallPolicy, cfg: GatewayConfig, storing: bool)  // a release does not
    | Probing
    | LoadingCut(reason: Reason)
    | RecordingCut(answer: Option<Error>, failed: bool)
    | Returned(answer: Option<Error>, cut: bool)

  // What the machine answers a step: the outcome of its command, or of its probe.
  datatype Outcome = Outcome(command: Command, probe: Result<TunnelState>)

  // The first critical section of a call, before it awaits anything.
  function Begin(g: Controller, c: Call): Task {
    match c
    case DoConfigure(cfg, _, _) => StartingBackend(cfg)
    case DoApply(policy, _, _) =>
      if !policy.Validates() then Returned(Some(Config), false)
      else if g.config.None? then Returned(Some(Precondition), false)
      else LoadingRules(policy, g.config.value, true)
    case DoTunnelStatus(_, _) => if g.config.None? then Returned(Some(Precondition), false) else Probing
    case DoEngage(_) => LoadingCut(Asked)
    case DoRelease(_, _) =>
      if g.config.None? || g.firewall.None? then Returned(Some(Precondition), false)
      else if !g.firewall.value.Validates() then LoadingCut(Because(Config))
      else LoadingRules(g.firewall.value, g.config.value, false)
    case DoHealth(_) => Returned(None, false)
  }

  function AnswerAfterCut(reason: Reason, loaded: Result<()>): Option<Error> {
    match reason
    case Asked => if loaded.Err? then Some(loaded.error) else None
    case Because(e) => Some(e)
    case Noticed => None
  }

  // One awaited command with its effect on the kernel, or one critical section.
  function TaskStep(g: Controller, task: Task, o: Outcome): (Controller, Task) {
    match task
    case StartingBackend(cfg) =>
      (match o.command.AsResult()
       case Err(e) => (g, LoadingCut(Because(e)))
       case Ok(_) => (g.(config := Some(cfg), accepted := g.accepted + {cfg}), Returned(None, false)))
    case LoadingRules(policy, cfg, storing) =>
      (match o.command.AsResult()
       case Err(e) => (g, LoadingCut(Because(e)))
       case Ok(_) => (Load(g, Compile(policy, cfg), o.command), RecordingRules(policy, cfg, storing)))
    case RecordingRules(policy, _, storing) =>
      (g.(firewall := if storing then Some(policy) else g.firewall, firewallApplied := true, killSwitch := Armed),
       Returned(None, false))
    case Probing =>
      (match o.probe
       case Err(e) => (g, LoadingCut(Because(e)))
       case Ok(status) => (g, if status == TunnelFailed then LoadingCut(Noticed) else Returned(None, false)))
    case LoadingCut(reason) =>
      var r := o.command.AsResult();
      (Load(g, KillSwitchRuleset(), o.command).(killLoadFailed := r.Err?),
       RecordingCut(AnswerAfterCut(reason, r), r.Err?))
    case RecordingCut(answer, _) => (g.(killSwitch := Engaged, firewallApplied := false), Returned(answer, true))
    case Returned(_, _) => (g, task)
  }

  // ---- any number of tasks -----------------------------------------------------------

  // Sessions have at most one call in flight each; others call from elsewhere.
  datatype Client = OfSession(sid: nat) | Other(id: nat)

  // `epoch` counts how often rules were recorded, and `cuts` remembers in which epoch a
  // client's call recorded its cut; neither decides anything.
  datatype Shared = Shared(controller: Controller, tasks: map<Client, Task>, epoch: nat, cuts: map<Client, nat>)

  datatype Move =
    | Start(who: Client, call: Call)
    | Advance(who: Client, o: Outcome)
    | Collect(who: Client)             // the caller takes the answer of a returned call

  function MoveOn(s: Shared, m: Move): Shared {
    match m
    case Start(who, call) =>
      if who in s.tasks then s
      else s.(tasks := s.tasks[who := Begin(s.controller, call)], cuts := s.cuts - {who})
    case Advance(who, o) =>
      if who !in s.tasks then s
      else
        var (g, task) := TaskStep(s.controller, s.tasks[who], o);
        Shared(g, s.tasks[who := task],
               if s.tasks[who].RecordingRules? then s.epoch + 1 else s.epoch,
               if s.tasks[who].RecordingCut? then s.cuts[who := s.epoch] else s.cuts)
    case Collect(who) =>
      if who in s.tasks && s.tasks[who].Returned? then s.(tasks := s.tasks - {who}) else s
  }

  function MoveAll(s: Shared, moves: seq<Move>): Shared
    decreases |moves|
  {
    if moves == [] then s else MoveAll(MoveOn(s, moves[0]), moves[1..])
  }

  const NEW := Shared(INITIAL, map[], 0, map[])

  // ---- what survives every interleaving -------------------------------------------------

  // The rules of a validated policy under a configuration accepted earlier.
  ghost predicate Sanctioned(g: Controller, rs: Ruleset) {
    exists policy: FirewallPolicy, cfg: GatewayConfig ::
      policy.Validates() && cfg in g.accepted && rs == Compile(policy, cfg)
  }

  ghost predicate RecordInv(g: Controller) {
    && (g.firewall.Some? ==> g.firewall.value.Validates())
    && (g.config.Some? ==> g.config.value in g.accepted)
    && (g.firewallApplied ==> g.killSwitch == Armed && g.firewall.Some? && g.kernel.Some?)
    && (g.killSwitch == Engaged ==> !g.firewallApplied)
    && (g.kernel.Some? ==> g.kernel.value == KillSwitchRuleset() || Sanctioned(g, g.kernel.value))
  }

  predicate TaskInv(g: Controller, task: Task) {
    match task
    case LoadingRules(policy, cfg, storing) =>
      policy.Validates() && cfg in g.accepted && (!storing ==> g.firewall.Some?)
    case RecordingRules(policy, cfg, storing) =>
      policy.Validates() && cfg in g.accepted && (!storing ==> g.firewall.Some?) && g.kernel.Some?
    case _ => true
  }

  // A recorded cut stands until some call records rules after it.
  predicate CutStands(s: Shared, who: Client) {
    who in s.cuts && s.cuts[who] <= s.epoch && (s.cuts[who] == s.epoch ==> s.controller.killSwitch == Engaged)
  }

  ghost predicate SharedInv(s: Shared) {
    && RecordInv(s.controller)
    && (forall who | who in s.tasks :: TaskInv(s.controller, s.tasks[who]))
    && (forall who | who in s.cuts :: CutStands(s, who))
    && (forall who | who in s.tasks && s.tasks[who].Returned? && s.tasks[who].cut :: who in s.cuts)
  }

  // What no step takes away.
  predicate Grows(g: Controller, g': Controller) {
    && g.accepted <= g'.accepted
    && (g.config.Some? ==> g'.config.Some?)
    && (g.firewall.Some? ==> g'.firewall.Some?)
    && (g.kernel.Some? ==> g'.kernel.Some?)
  }

  lemma StepGrows(g: Controller, task: Task, o: Outcome)
    ensures Grows(g, TaskStep(g, task, o).0)
  {}

  lemma NothingGrows(g: Controller)
    ensures Grows(g, g)
  {}

  lemma SanctionedGrows(g: Controller, g': Controller, rs: Ruleset)
    requires Sanctioned(g, rs) && g.accepted <= g'.accepted
    ensures Sanctioned(g', rs)
  {
    hide Compile;
    var policy: FirewallPolicy, cfg: GatewayConfig :|
      policy.Validates() && cfg in g.accepted && rs == Compile(policy, cfg);
  }

  lemma StepKeepsRecords(g: Controller, task: Task, o: Outcome)
    requires RecordInv(g) && TaskInv(g, task)
    ensures var (g', task') := TaskStep(g, task, o); RecordInv(g') && TaskInv(g', task')
  {
    hide Compile, KillSwitchRuleset, Sanctioned;
    var g' := TaskStep(g, task, o).0;
    if task.LoadingRules? && g' != g {
      LoadSanctions(g', task.policy, task.cfg);
    }
    if g.kernel.Some? && g.kernel.value != KillSwitchRuleset() {
      SanctionedGrows(g, g', g.kernel.value);
    }
  }

  lemma LoadSanctions(g: Controller, policy: FirewallPolicy, cfg: GatewayConfig)
    requires policy.Validates() && cfg in g.accepted
    ensures Sanctioned(g, Compile(policy, cfg))
  {}

  lemma BeginKeepsRecords(g: Controller, c: Call)
    requires RecordInv(g)
    ensures TaskInv(g, Begin(g, c)) && !(Begin(g, c).Returned? && Begin(g, c).cut)
  {}

  // The switch is armed only by recording rules, and only a recorded cut is reported.
  lemma StepMovesSwitch(g: Controller, task: Task, o: Outcome)
    ensures var (g', task') := TaskStep(g, task, o);
            && (g'.killSwitch == g.killSwitch || task.RecordingRules?
              || (task.RecordingCut? && g'.killSwitch == Engaged))
            && (task.RecordingCut? ==> g'.killSwitch == Engaged)
            && (task'.Returned? && task'.cut ==> task.RecordingCut? || task' == task)
  {}

  lemma MoveKeepsInv(s: Shared, m: Move)
    requires SharedInv(s)
    ensures SharedInv(MoveOn(s, m)) && Grows(s.controller, MoveOn(s, m).controller)
  {
    hide RecordInv, TaskStep, Begin;
    match m {
      case Start(who, call) => BeginKeepsRecords(s.controller, call);
      case Advance(who, o) =>
        if who in s.tasks {
          StepKeepsRecords(s.controller, s.tasks[who], o);
          StepGrows(s.controller, s.tasks[who], o);
          StepMovesSwitch(s.controller, s.tasks[who], o);
        }
      case Collect(_) =>
    }
  }

  lemma {:induction false} MovesKeepInv(s: Shared, moves: seq<Move>)
    requires SharedInv(s)
    ensures SharedInv(MoveAll(s, moves)) && Grows(s.controller, MoveAll(s, moves).controller)
    decreases |moves|
  {
    hide SharedInv, MoveOn;
    if moves != [] {
      MoveKeepsInv(s, moves[0]);
      MovesKeepInv(MoveOn(s, moves[0]), moves[1..]);
    }
  }
}
