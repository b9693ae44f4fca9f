// What concurrent gateway calls keep in every interleaving, which loads must not cross for
// the sequential controller's invariant to hold, and what happens when they do.
module GatewayInterleavings {
  import opened Errors
  import opened Gateway
  import opened Firewall
  import opened GatewayController
  import opened ConcurrentGateway

  // ---- in every interleaving ----------------------------------------------------------------

  // In every interleaving of calls and outcomes: the recorded flags never contradict each
  // other, a stored policy validates, and whatever the kernel holds is the total block or
  // the rules of a validated policy under a configuration accepted earlier. A health
  // report is made of the record as it was read, before its probe was awaited: if it says
  // ready, the kernel held one of these when it was read.
  lemma EveryInterleavingIsSanctioned(moves: seq<Move>, probe: Result<TunnelState>)
    ensures var g := MoveAll(NEW, moves).controller;
            && RecordInv(g)
            && (Health(g, probe).IsReady() ==> probe == Ok(Up) && g.config.Some? && g.kernel.Some?)
  {
    MovesKeepInv(NEW, moves);
  }

  // ---- engaged until rules are recorded ----------------------------------------------------

  predicate RecordsRules(s: Shared, m: Move) {
    m.Advance? && m.who in s.tasks && s.tasks[m.who].RecordingRules?
  }

  ghost predicate NeverRecordsRules(s: Shared, moves: seq<Move>)
    decreases |moves|
  {
    moves != [] ==> !RecordsRules(s, moves[0]) && NeverRecordsRules(MoveOn(s, moves[0]), moves[1..])
  }

  // Once engaged, readiness stays false along every interleaving in which no apply or
  // release gets as far as recording its success.
  lemma {:induction false} EngagedUntilRulesRecorded(s: Shared, moves: seq<Move>, probe: Result<TunnelState>)
    requires s.controller.killSwitch == Engaged && NeverRecordsRules(s, moves)
    ensures MoveAll(s, moves).controller.killSwitch == Engaged
    ensures !Health(MoveAll(s, moves).controller, probe).IsReady()
    decreases |moves|
  {
    if moves != [] {
      EngagedUntilRulesRecorded(MoveOn(s, moves[0]), moves[1..], probe);
    }
  }

  // ---- a call that nothing overlaps is atomic ----------------------------------------------

  // What the commands of a call answer, step by step.
  function OutcomeFor(c: Call, task: Task): Outcome {
    var dud := Exited(false);
    match c
    case DoConfigure(_, backend, kill) => Outcome(if task.StartingBackend? then backend else kill, Err(System))
    case DoApply(_, nft, kill) => Outcome(if task.LoadingRules? then nft else kill, Err(System))
    case DoTunnelStatus(probe, kill) => Outcome(kill, probe)
    case DoEngage(nft) => Outcome(nft, Err(System))
    case DoRelease(nft, kill) => Outcome(if task.LoadingRules? then nft else kill, Err(System))
    case DoHealth(_) => Outcome(dud, Err(System))
  }

  function StepsLeft(task: Task): nat {
    match task
    case StartingBackend(_) => 3
    case LoadingRules(_, _, _) => 3
    case Probing => 3
    case LoadingCut(_) => 2
    case RecordingRules(_, _, _) => 1
    case RecordingCut(_, _) => 1
    case Returned(_, _) => 0
  }

  function Finish(g: Controller, task: Task, c: Call): (Controller, Option<Error>)
    decreases StepsLeft(task)
  {
    if task.Returned? then (g, task.answer)
    else
      var (g', task') := TaskStep(g, task, OutcomeFor(c, task));
      Finish(g', task', c)
  }

  function ErrorOf(g: Controller, c: Call): Option<Error> {
    match c
    case DoConfigure(cfg, backend, kill) => AsError(Configure(g, cfg, backend, kill).1)
    case DoApply(policy, nft, kill) => AsError(ApplyFirewall(g, policy, nft, kill).1)
    case DoTunnelStatus(probe, kill) =>
      (match TunnelStatus(g, probe, kill).1 case Ok(_) => None case Err(e) => Some(e))
    case DoEngage(nft) => AsError(Engage(g, nft).1)
    case DoRelease(nft, kill) => AsError(Release(g, nft, kill).1)
    case DoHealth(_) => None
  }

  function AsError(r: Result<()>): Option<Error> {
    if r.Err? then Some(r.error) else None
  }

  lemma FinishNow(g: Controller, answer: Option<Error>, cut: bool, c: Call)
    ensures Finish(g, Returned(answer, cut), c) == (g, answer)
  {}

  lemma FinishCut(g: Controller, reason: Reason, c: Call)
    ensures var kill := OutcomeFor(c, LoadingCut(reason)).command;
            Finish(g, LoadingCut(reason), c) == (EngageSwitch(g, kill), AnswerAfterCut(reason, kill.AsResult()))
  {
    hide KillSwitchRuleset;
    var (g1, t1) := TaskStep(g, LoadingCut(reason), OutcomeFor(c, LoadingCut(reason)));
    var (g2, t2) := TaskStep(g1, t1, OutcomeFor(c, t1));
    FinishNow(g2, t1.answer, true, c);
    assert Finish(g, LoadingCut(reason), c) == Finish(g1, t1, c) == Finish(g2, t2, c);
  }

  lemma FinishRecord(g: Controller, policy: FirewallPolicy, cfg: GatewayConfig, storing: bool, c: Call)
    ensures Finish(g, RecordingRules(policy, cfg, storing), c)
         == (g.(firewall := if storing then Some(policy)
           else g.firewall, firewallApplied := true, killSwitch := Armed), None)
  {
    var (g1, t1) := TaskStep(g, RecordingRules(policy, cfg, storing),
      OutcomeFor(c, RecordingRules(policy, cfg, storing)));
    FinishNow(g1, None, false, c);
  }

  // Run from start to finish with nothing in between, a call is the one step of the
  // sequential controller, with the same answer.
  lemma AloneIsAtomic(g: Controller, c: Call)
    ensures Finish(g, Begin(g, c), c) == (GatewayController.Step(g, c), ErrorOf(g, c))
  {
    hide Compile, KillSwitchRuleset;
    var task := Begin(g, c);
    if task.Returned? {
      FinishNow(g, task.answer, task.cut, c);
    } else if task.LoadingCut? {
      FinishCut(g, task.reason, c);
    } else {
      var (g1, t1) := TaskStep(g, task, OutcomeFor(c, task));
      assert Finish(g, task, c) == Finish(g1, t1, c);
      match t1 {
        case LoadingCut(reason) => FinishCut(g1, reason, c);
        case RecordingRules(policy, cfg, storing) => FinishRecord(g1, policy, cfg, storing, c);
        case Returned(answer, cut) => FinishNow(g1, answer, cut, c);
      }
    }
  }

  // ---- when loads do not cross ---------------------------------------------------------------

  // Between a successful load and its record: rules, or the block.
  predicate RecordsSoon(s: Shared, who: Client) {
    who in s.tasks && s.tasks[who].RecordingRules?
  }

  predicate CutsSoon(s: Shared, who: Client) {
    who in s.tasks && s.tasks[who].RecordingCut?
  }

  ghost predicate InWindow(s: Shared) {
    exists who :: RecordsSoon(s, who) || CutsSoon(s, who)
  }

  // Only a load that succeeds matters. Rules are not loaded while others wait to be
  // recorded, nor while a block does unless the latest load of one failed, and a release
  // loads the policy that is still the stored one; a block is not loaded while rules wait.
  // Everything else may overlap anything.
  ghost predicate Clear(s: Shared, m: Move) {
    m.Advance? && m.who in s.tasks && m.o.command.AsResult().Ok? ==>
      && (s.tasks[m.who].LoadingRules? ==>
            && (s.tasks[m.who].storing || s.controller.firewall == Some(s.tasks[m.who].policy))
            && (forall a :: !RecordsSoon(s, a))
            && ((exists a :: CutsSoon(s, a)) ==> s.controller.killLoadFailed))
      && (s.tasks[m.who].LoadingCut? ==> forall a :: !RecordsSoon(s, a))
  }

  ghost predicate AllClear(s: Shared, moves: seq<Move>)
    decreases |moves|
  {
    moves != [] ==> Clear(s, moves[0]) && AllClear(MoveOn(s, moves[0]), moves[1..])
  }

  predicate Blocked(g: Controller) {
    g.kernel == Some(KillSwitchRuleset()) || g.killLoadFailed
  }

  // The controller's own invariant, as it stands while calls are in flight.
  ghost predicate WindowInv(s: Shared) {
    var g := s.controller;
    && (forall a, b :: RecordsSoon(s, a) && RecordsSoon(s, b) ==> a == b)
    && (forall a ::
          && (RecordsSoon(s, a) ==>
                && g.kernel == Some(Compile(s.tasks[a].policy, s.tasks[a].cfg)) && s.tasks[a].cfg in g.accepted
                && (s.tasks[a].storing || g.firewall == Some(s.tasks[a].policy)))
          && (CutsSoon(s, a) ==> Blocked(g)))
    && (g.killSwitch == Engaged ==> !g.firewallApplied && (Blocked(g) || exists a :: RecordsSoon(s, a)))
    && (g.firewallApplied ==> g.killSwitch == Armed && g.firewall.Some?
                              && (InWindow(s) || exists cfg | cfg in g.accepted :: LoadedUnder(g, cfg)))
  }

  // A step that leaves the record and the kernel alone and opens no window.
  lemma IdleKeepsWindow(s: Shared, s': Shared)
    requires WindowInv(s)
    requires forall a :: (RecordsSoon(s', a) <==> RecordsSoon(s, a)) && (CutsSoon(s', a) <==> CutsSoon(s, a))
    requires forall a :: RecordsSoon(s, a) ==> a in s'.tasks && s'.tasks[a] == s.tasks[a]
    requires s.controller.accepted <= s'.controller.accepted
    requires s'.controller == s.controller.(config := s'.controller.config, accepted := s'.controller.accepted)
    ensures WindowInv(s')
  {
    hide Compile, KillSwitchRuleset, LoadedUnder;
    assert InWindow(s) <==> InWindow(s');
    if s.controller.firewallApplied && !InWindow(s) {
      var cfg :| cfg in s.controller.accepted && LoadedUnder(s.controller, cfg);
      SameLoaded(s.controller, s'.controller, cfg);
    }
  }

  lemma SameLoaded(g: Controller, g': Controller, cfg: GatewayConfig)
    requires LoadedUnder(g, cfg) && g'.kernel == g.kernel && g'.firewall == g.firewall
    ensures LoadedUnder(g', cfg)
  {}

  lemma RulesLoadKeepsWindow(s: Shared, who: Client, o: Outcome)
    requires SharedInv(s) && WindowInv(s) && Clear(s, Move.Advance(who, o))
    requires who in s.tasks && s.tasks[who].LoadingRules? && o.command.AsResult().Ok?
    ensures WindowInv(MoveOn(s, Move.Advance(who, o)))
  {
    hide Compile, KillSwitchRuleset, RecordInv;
    var s' := MoveOn(s, Move.Advance(who, o));
    assert RecordsSoon(s', who);
    assert forall a :: a != who ==> RecordsSoon(s', a) == RecordsSoon(s, a) && CutsSoon(s', a) == CutsSoon(s, a);
  }

  lemma BlockLoadKeepsWindow(s: Shared, who: Client, o: Outcome)
    requires WindowInv(s) && Clear(s, Move.Advance(who, o))
    requires who in s.tasks && s.tasks[who].LoadingCut?
    ensures WindowInv(MoveOn(s, Move.Advance(who, o)))
  {
    hide Compile, KillSwitchRuleset;
    var s' := MoveOn(s, Move.Advance(who, o));
    assert CutsSoon(s', who);
    assert forall a :: a != who ==> RecordsSoon(s', a) == RecordsSoon(s, a) && CutsSoon(s', a) == CutsSoon(s, a);
  }

  lemma RulesRecordKeepsWindow(s: Shared, who: Client, o: Outcome)
    requires WindowInv(s) && who in s.tasks && s.tasks[who].RecordingRules?
    ensures WindowInv(MoveOn(s, Move.Advance(who, o)))
  {
    hide Compile, KillSwitchRuleset;
    var s' := MoveOn(s, Move.Advance(who, o));
    assert RecordsSoon(s, who);
    assert forall a :: a != who ==> RecordsSoon(s', a) == RecordsSoon(s, a) && CutsSoon(s', a) == CutsSoon(s, a);
    assert LoadedUnder(s'.controller, s.tasks[who].cfg);
  }

  lemma BlockRecordKeepsWindow(s: Shared, who: Client, o: Outcome)
    requires WindowInv(s) && who in s.tasks && s.tasks[who].RecordingCut?
    ensures WindowInv(MoveOn(s, Move.Advance(who, o)))
  {
    hide Compile, KillSwitchRuleset;
    var s' := MoveOn(s, Move.Advance(who, o));
    assert CutsSoon(s, who);
    assert forall a :: a != who ==> RecordsSoon(s', a) == RecordsSoon(s, a) && CutsSoon(s', a) == CutsSoon(s, a);
  }

  lemma OtherAdvanceIsIdle(s: Shared, who: Client, o: Outcome)
    requires WindowInv(s) && who in s.tasks
    requires var t := s.tasks[who];
             t.StartingBackend? || t.Probing? || t.Returned? || (t.LoadingRules? && o.command.AsResult().Err?)
    ensures WindowInv(MoveOn(s, Move.Advance(who, o)))
  {
    hide WindowInv, Compile, KillSwitchRuleset;
    var s' := MoveOn(s, Move.Advance(who, o));
    forall a
      ensures (RecordsSoon(s', a) <==> RecordsSoon(s, a)) && (CutsSoon(s', a) <==> CutsSoon(s, a))
      ensures RecordsSoon(s, a) ==> s'.tasks[a] == s.tasks[a]
    {
    }
    IdleKeepsWindow(s, s');
  }

  lemma BeginOpensNoWindow(g: Controller, c: Call)
    ensures !Begin(g, c).RecordingRules? && !Begin(g, c).RecordingCut?
  {}

  lemma ClearMove(s: Shared, m: Move)
    requires SharedInv(s) && WindowInv(s) && Clear(s, m)
    ensures WindowInv(MoveOn(s, m))
  {
    hide SharedInv, WindowInv, Clear, TaskStep, Begin;
    var s' := MoveOn(s, m);
    match m {
      case Start(who, call) =>
        BeginOpensNoWindow(s.controller, call);
        IdleKeepsWindow(s, s');
      case Collect(who) => IdleKeepsWindow(s, s');
      case Advance(who, o) =>
        if who in s.tasks {
          match s.tasks[who] {
            case RecordingRules(_, _, _) => RulesRecordKeepsWindow(s, who, o);
            case RecordingCut(_, _) => BlockRecordKeepsWindow(s, who, o);
            case LoadingCut(_) => BlockLoadKeepsWindow(s, who, o);
            case LoadingRules(_, _, _) =>
              if o.command.AsResult().Ok? {
                RulesLoadKeepsWindow(s, who, o);
              } else {
                OtherAdvanceIsIdle(s, who, o);
              }
            case _ => OtherAdvanceIsIdle(s, who, o);
          }
        }
    }
  }

  lemma {:induction false} ClearMoves(s: Shared, moves: seq<Move>)
    requires SharedInv(s) && WindowInv(s) && AllClear(s, moves)
    ensures SharedInv(MoveAll(s, moves)) && WindowInv(MoveAll(s, moves))
    decreases |moves|
  {
    hide SharedInv, WindowInv, MoveOn, Clear;
    if moves != [] {
      MoveKeepsInv(s, moves[0]);
      ClearMove(s, moves[0]);
      ClearMoves(MoveOn(s, moves[0]), moves[1..]);
    }
  }

  // As long as no successful load crosses another one on its way to the record, the full
  // invariant of the sequential controller holds at every moment at which no load waits to
  // be recorded, whatever else overlaps.
  lemma ClearRunsKeepInv(moves: seq<Move>)
    requires AllClear(NEW, moves) && !InWindow(MoveAll(NEW, moves))
    ensures Inv(MoveAll(NEW, moves).controller)
  {
    ClearMoves(NEW, moves);
  }

  // And then a record read at such a moment is ready only over the rules of the stored policy.
  lemma ClearReadyMeansProtected(moves: seq<Move>, probe: Result<TunnelState>)
    requires AllClear(NEW, moves) && !InWindow(MoveAll(NEW, moves))
    requires Health(MoveAll(NEW, moves).controller, probe).IsReady()
    ensures var g := MoveAll(NEW, moves).controller;
            && probe == Ok(Up) && g.firewall.Some? && g.firewall.value.Validates()
            && exists cfg | cfg in g.accepted :: LoadedUnder(g, cfg)
  {
    ClearRunsKeepInv(moves);
  }

  // ---- and so when no two calls overlap -------------------------------------------------------

  predicate Busy(s: Shared, who: Client) {
    who in s.tasks && !s.tasks[who].Returned?
  }

  ghost predicate NobodyBusy(s: Shared) {
    forall who | who in s.tasks :: s.tasks[who].Returned?
  }

  // A call starts only when no other is in flight.
  ghost predicate Orderly(s: Shared, m: Move) {
    m.Start? && m.who !in s.tasks ==> NobodyBusy(s)
  }

  ghost predicate AllOrderly(s: Shared, moves: seq<Move>)
    decreases |moves|
  {
    moves != [] ==> Orderly(s, moves[0]) && AllOrderly(MoveOn(s, moves[0]), moves[1..])
  }

  // At most one call is in flight, and a release finds the policy it read still stored.
  ghost predicate OneAtATime(s: Shared) {
    && (forall a, b :: Busy(s, a) && Busy(s, b) ==> a == b)
    && (forall a :: a in s.tasks && s.tasks[a].LoadingRules? && !s.tasks[a].storing ==>
          s.controller.firewall == Some(s.tasks[a].policy))
  }

  lemma OrderlyIsClear(s: Shared, m: Move)
    requires OneAtATime(s)
    ensures Clear(s, m)
  {
    hide TaskStep;
    if m.Advance? && m.who in s.tasks && (s.tasks[m.who].LoadingRules? || s.tasks[m.who].LoadingCut?) {
      assert Busy(s, m.who);
      forall a ensures !RecordsSoon(s, a) && !CutsSoon(s, a) {
        assert a in s.tasks && !s.tasks[a].Returned? ==> Busy(s, a);
      }
    }
  }

  lemma OrderlyMove(s: Shared, m: Move)
    requires OneAtATime(s) && Orderly(s, m)
    ensures OneAtATime(MoveOn(s, m))
  {
    hide Compile, KillSwitchRuleset;
    var s' := MoveOn(s, m);
    if !m.Start? {
      assert forall a :: Busy(s', a) ==> Busy(s, a);
      forall a | a in s'.tasks && s'.tasks[a].LoadingRules? && !s'.tasks[a].storing
        ensures s'.controller.firewall == Some(s'.tasks[a].policy)
      {
        assert s.tasks[a] == s'.tasks[a] && Busy(s, a);
        assert m.Advance? && m.who in s.tasks && s.tasks[m.who].RecordingRules? ==> Busy(s, m.who);
      }
    } else if m.who !in s.tasks {
      assert forall a :: Busy(s', a) ==> a == m.who;
    }
  }

  lemma {:induction false} OrderlyMoves(s: Shared, moves: seq<Move>)
    requires OneAtATime(s) && AllOrderly(s, moves)
    ensures AllClear(s, moves)
    decreases |moves|
  {
    hide OneAtATime, MoveOn, Orderly, Clear;
    if moves != [] {
      OrderlyIsClear(s, moves[0]);
      OrderlyMove(s, moves[0]);
      OrderlyMoves(MoveOn(s, moves[0]), moves[1..]);
    }
  }

  lemma OrderlyRunsKeepInv(moves: seq<Move>)
    requires AllOrderly(NEW, moves) && NobodyBusy(MoveAll(NEW, moves))
    ensures Inv(MoveAll(NEW, moves).controller)
  {
    hide MoveAll;
    OrderlyMoves(NEW, moves);
    ClearRunsKeepInv(moves);
  }

  // ---- and when they do ----------------------------------------------------------------------

  const SUCCEEDS := Outcome(Exited(true), Ok(Up))
  const OK := Exited(true)

  lemma {:induction false} OneMoveMore(s: Shared, moves: seq<Move>, m: Move)
    ensures MoveAll(s, moves + [m]) == MoveOn(MoveAll(s, moves), m)
    decreases |moves|
  {
    hide MoveOn;
    if moves == [] {
      assert moves + [m] == [m] && [m][1..] == [];
    } else {
      OneMoveMore(MoveOn(s, moves[0]), moves[1..], m);
      assert (moves + [m])[1..] == moves[1..] + [m];
    }
  }

  lemma Go(moves: seq<Move>, s: Shared, m: Move) returns (moves': seq<Move>, s': Shared)
    requires s == MoveAll(NEW, moves)
    ensures s' == MoveAll(NEW, moves') && s' == MoveOn(s, m)
  {
    OneMoveMore(NEW, moves, m);
    moves', s' := moves + [m], MoveOn(s, m);
  }

  lemma Configured(cfg: GatewayConfig) returns (moves: seq<Move>, s: Shared)
    ensures s == MoveAll(NEW, moves) && s.controller.config == Some(cfg) && s.controller.accepted == {cfg}
    ensures s.tasks == map[] && !s.controller.killLoadFailed && s.controller.firewall == None
  {
    hide MoveAll;
    assert MoveAll(NEW, []) == NEW by { NoMoves(); }
    moves, s := Go([], NEW, Start(Other(0), DoConfigure(cfg, OK, OK)));
    moves, s := Go(moves, s, Move.Advance(Other(0), SUCCEEDS));
    moves, s := Go(moves, s, Collect(Other(0)));
    assert s.tasks == map[];
  }

  lemma NoMoves()
    ensures MoveAll(NEW, []) == NEW
  {}

  // A call from its start up to its first load.
  lemma Loads(moves: seq<Move>, s: Shared, who: Client, call: Call) returns (moves': seq<Move>, s': Shared)
    requires s == MoveAll(NEW, moves) && who !in s.tasks
    ensures s' == MoveAll(NEW, moves')
         && s' == MoveOn(MoveOn(s, Start(who, call)), Move.Advance(who, SUCCEEDS))
  {
    hide MoveOn, MoveAll;
    moves', s' := Go(moves, s, Start(who, call));
    moves', s' := Go(moves', s', Move.Advance(who, SUCCEEDS));
  }

  // An engage loads the block, an apply loads and records its rules, the engage records:
  // no call is left in flight, the switch is recorded Engaged, its latest load did not
  // fail, and the kernel forwards by the rules of the policy.
  lemma OverlapDisarmsTheSwitch(cfg: GatewayConfig) returns (moves: seq<Move>)
    ensures var s := MoveAll(NEW, moves);
            && NobodyBusy(s) && s.controller.killSwitch == Engaged && !s.controller.killLoadFailed
            && s.controller.kernel == Some(Compile(FailClosedPolicy(cfg), cfg))
            && !Inv(s.controller)
  {
    hide MoveAll, Compile, KillSwitchRuleset;
    var s: Shared;
    moves, s := Configured(cfg);
    moves, s := Loads(moves, s, Other(1), DoEngage(OK));
    moves, s := Loads(moves, s, Other(2), DoApply(FailClosedPolicy(cfg), OK, OK));
    moves, s := Go(moves, s, Move.Advance(Other(2), SUCCEEDS));
    moves, s := Go(moves, s, Move.Advance(Other(1), SUCCEEDS));
    CompiledIsNotTheBlock(FailClosedPolicy(cfg), cfg);
  }

  lemma CompiledIsNotTheBlock(policy: FirewallPolicy, cfg: GatewayConfig)
    ensures Compile(policy, cfg) != KillSwitchRuleset()
  {
    assert |Compile(policy, cfg)| == 4 && |KillSwitchRuleset()| == 3;
  }

  // The other ways loads can cross: an engage inside an apply leaves the firewall recorded
  // applied over the block;
  lemma EngageInsideApply(cfg: GatewayConfig) returns (moves: seq<Move>)
    ensures var s := MoveAll(NEW, moves);
            && NobodyBusy(s) && s.controller.firewallApplied && s.controller.kernel == Some(KillSwitchRuleset())
            && !Inv(s.controller)
  {
    hide MoveAll, Compile, KillSwitchRuleset;
    var s: Shared;
    moves, s := Configured(cfg);
    moves, s := Loads(moves, s, Other(2), DoApply(FailClosedPolicy(cfg), OK, OK));
    moves, s := Loads(moves, s, Other(1), DoEngage(OK));
    moves, s := Go(moves, s, Move.Advance(Other(1), SUCCEEDS));
    moves, s := Go(moves, s, Move.Advance(Other(2), SUCCEEDS));
    CompiledIsNotTheBlock(FailClosedPolicy(cfg), cfg);
  }

  // an apply inside an apply leaves the rules of the inner policy under the outer record;
  lemma ApplyInsideApply(cfg: GatewayConfig, p: FirewallPolicy, q: FirewallPolicy) returns (moves: seq<Move>)
    requires p.Validates() && q.Validates() && Compile(p, cfg) != Compile(q, cfg)
    ensures var s := MoveAll(NEW, moves);
            && NobodyBusy(s) && s.controller.firewall == Some(p) && s.controller.kernel == Some(Compile(q, cfg))
            && s.controller.firewallApplied && !Inv(s.controller)
  {
    hide MoveAll, Compile, KillSwitchRuleset;
    var s: Shared;
    moves, s := Configured(cfg);
    moves, s := Loads(moves, s, Other(1), DoApply(p, OK, OK));
    moves, s := Loads(moves, s, Other(2), DoApply(q, OK, OK));
    moves, s := Go(moves, s, Move.Advance(Other(2), SUCCEEDS));
    moves, s := Go(moves, s, Move.Advance(Other(1), SUCCEEDS));
  }

  // and an apply between a release's reading and its load leaves the old policy's rules
  // under the new record.
  lemma ApplyInsideRelease(cfg: GatewayConfig, p: FirewallPolicy, q: FirewallPolicy) returns (moves: seq<Move>)
    requires p.Validates() && q.Validates() && Compile(p, cfg) != Compile(q, cfg)
    ensures var s := MoveAll(NEW, moves);
            && NobodyBusy(s) && s.controller.firewall == Some(q) && s.controller.kernel == Some(Compile(p, cfg))
            && s.controller.firewallApplied && !Inv(s.controller)
  {
    hide MoveAll, Compile, KillSwitchRuleset;
    var s: Shared;
    moves, s := Configured(cfg);
    moves, s := Loads(moves, s, Other(1), DoApply(p, OK, OK));
    moves, s := Go(moves, s, Move.Advance(Other(1), SUCCEEDS));
    moves, s := Go(moves, s, Start(Other(2), DoRelease(OK, OK)));
    moves, s := Loads(moves, s, Other(3), DoApply(q, OK, OK));
    moves, s := Go(moves, s, Move.Advance(Other(3), SUCCEEDS));
    moves, s := Go(moves, s, Move.Advance(Other(2), SUCCEEDS));
    moves, s := Go(moves, s, Move.Advance(Other(2), SUCCEEDS));
  }
}
