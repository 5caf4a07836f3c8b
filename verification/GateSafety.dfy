/** What every run of the gate keeps: the motor interlock, the position, the two
    timers, and the absence of motion from an unverified position. */
module GateSafety {
  import opened GateMachine
  import opened CommandTracking
  import opened VirtualGates
  import opened Words

  // --- One event, summed up ---------------------------------------------------

  /** The state one event settles in, including a reverse-on-beam re-entry. */
  function Settled(g: Gate, ev: Event): State {
    if Reversal(g, ev) then Opening
    else Target(g.machine.state, Latch(g.machine.beamClear, ev), ev)
  }

  /** A close refused at the open limit restarts the auto-close countdown. */
  predicate Refused(g: Gate, ev: Event) {
    ev.CommandClose? && g.machine.state.Open? && !g.machine.beamClear
  }

  predicate Reversal(g: Gate, ev: Event) {
    g.cfg.reverseOnBeam && ev.SafetyBeamTripped? && g.machine.state.Closing?
  }

  predicate SamePlace(g: Gate, h: Gate) {
    h.cfg == g.cfg && h.now == g.now && h.position == g.position && h.beamBlocked == g.beamBlocked
  }

  /** The tracker's part of a step touches nothing else. */
  lemma ListenFrame(g: Gate, out: Outputs)
    ensures var h := Listen(g, out); h == g.(tracker := h.tracker, acks := h.acks)
  {
    hide AfterGateEvent;
  }

  lemma ArmedFrame(g: Gate, id: string, c: Command)
    ensures var h := Armed(g, id, c); h == g.(tracker := h.tracker, acks := h.acks)
  {
    hide AfterArm;
  }

  lemma TickFrame(g: Gate, dt: uint32)
    ensures var h := Tick(g, dt); h == g.(now := g.now + dt, tracker := h.tracker, acks := h.acks)
  {
    hide AfterTick;
  }

  lemma PowerCycledIs(g: Gate)
    ensures PowerCycled(g) == g.(motorOpen := false, motorClose := false, watchdog := 0, autoclose := 0,
                                 machine := Machine(Initializing, NoReason, !g.beamBlocked))
  {
  }

  /** A beam stop under the policy continues as the open it re-enters with. */
  lemma ApplyReverses(g: Gate, out: Outputs)
    requires Reverses(g.cfg, out)
    ensures var h := Listen(Timers(Motors(g, out), out), out);
            var r := Step(h.machine, CommandOpen);
            Apply(g, out) == Apply(h.(machine := r.0), r.1)
  {
    hide Listen, Timers, Motors, Step;
  }

  lemma ApplyOnce(g: Gate, out: Outputs)
    requires !Reverses(g.cfg, out)
    ensures var h := Apply(g, out);
            && SamePlace(g, h) && h.machine == g.machine
            && h.motorOpen == Motors(g, out).motorOpen && h.motorClose == Motors(g, out).motorClose
            && h.watchdog == Timers(g, out).watchdog
            && h.autoclose == (if Retries(g.cfg, out) then g.now + g.cfg.autoClose else Timers(g, out).autoclose)
  {
    hide Listen, Step;
    ListenFrame(Timers(Motors(g, out), out), out);
  }

  /** A broken beam stops a closing gate, and the next open starts it opening. */
  lemma ReversalSteps(m: Machine, ev: Event)
    requires ev.SafetyBeamTripped? && m.state.Closing?
    ensures var stopped := Machine(StoppedClose, SafetyBeamObstacle, false);
            && Step(m, ev) == (stopped, Entering(StoppedClose, SafetyBeamObstacle))
            && Step(stopped, CommandOpen) == (Machine(Opening, NoReason, false), Entering(Opening, NoReason))
  {
  }

  lemma ReversalSettles(g: Gate, ev: Event)
    requires Reversal(g, ev)
    ensures var h := Handle(g, ev);
            && SamePlace(g, h) && h.machine == Machine(Opening, NoReason, false)
            && h.motorOpen && !h.motorClose && h.watchdog == g.now + g.cfg.motorTimeout && h.autoclose == 0
  {
    hide Apply, Listen, Step;
    ReversalSteps(g.machine, ev);
    var (m, o) := Step(g.machine, ev);
    var g0 := g.(machine := m);
    var g1 := Listen(Timers(Motors(g0, o), o), o);
    ListenFrame(Timers(Motors(g0, o), o), o);
    ApplyReverses(g0, o);
    var (m', o') := Step(m, CommandOpen);
    ApplyOnce(g1.(machine := m'), o');
  }

  /** How `h` follows `g` when one event settles in state `s`. */
  predicate Follows(g: Gate, h: Gate, ev: Event, s: State) {
    && SamePlace(g, h)
    && h.machine.state == s && h.machine.beamClear == Latch(g.machine.beamClear, ev)
    && (h.machine.reason == MotorTimedOut ==>
          g.machine.reason == MotorTimedOut || (ev.MotorTimeout? && g.machine.state.Moving()))
    && (if s == g.machine.state then
          && h.motorOpen == g.motorOpen && h.motorClose == g.motorClose && h.watchdog == g.watchdog
          && h.machine.reason == g.machine.reason
          && h.autoclose == (if Refused(g, ev) && g.cfg.autoClose > 0 then g.now + g.cfg.autoClose else g.autoclose)
        else
          && h.motorOpen == (if s.Initializing? then g.motorOpen else s.Opening?)
          && h.motorClose == (if s.Initializing? then g.motorClose else s.Closing?)
          && h.watchdog == (if s.Moving() then g.now + g.cfg.motorTimeout else 0)
          && h.autoclose == (if s.Open? && g.cfg.autoClose > 0 then g.now + g.cfg.autoClose else 0))
  }

  lemma StepPolicies(g: Gate, ev: Event)
    ensures var o := Step(g.machine, ev).1;
            && (Reverses(g.cfg, o) <==> Reversal(g, ev))
            && (Retries(g.cfg, o) <==> Refused(g, ev) && g.cfg.autoClose > 0)
  {
  }

  lemma StepFacts(m: Machine, ev: Event)
    ensures var r := Step(m, ev);
            var t := Target(m.state, Latch(m.beamClear, ev), ev);
            && r.0.state == t && r.1.newState == t && (r.1.transitioned <==> t != m.state)
            && r.0.beamClear == Latch(m.beamClear, ev)
            && (t == m.state ==> r.0.reason == m.reason)
            && (r.0.reason == MotorTimedOut ==>
                  m.reason == MotorTimedOut || (ev.MotorTimeout? && m.state.Moving()))
  {
  }

  lemma ApplyFollows(g: Gate, m: Machine, o: Outputs, ev: Event, s: State)
    requires !Reverses(g.cfg, o)
    requires Retries(g.cfg, o) <==> Refused(g, ev) && g.cfg.autoClose > 0
    requires m.state == s && m.beamClear == Latch(g.machine.beamClear, ev)
    requires o.newState == s && (o.transitioned <==> s != g.machine.state)
    requires s == g.machine.state ==> m.reason == g.machine.reason
    requires m.reason == MotorTimedOut ==>
               g.machine.reason == MotorTimedOut || (ev.MotorTimeout? && g.machine.state.Moving())
    ensures Follows(g, Apply(g.(machine := m), o), ev, s)
  {
    hide Apply;
    ApplyOnce(g.(machine := m), o);
  }

  lemma HandleSettles(g: Gate, ev: Event)
    ensures Follows(g, Handle(g, ev), ev, Settled(g, ev))
  {
    hide Apply, Step;
    if Reversal(g, ev) {
      ReversalSettles(g, ev);
    } else {
      StepPolicies(g, ev);
      StepFacts(g.machine, ev);
      var (m, o) := Step(g.machine, ev);
      ApplyFollows(g, m, o, ev, Settled(g, ev));
    }
  }

  /** Without a reversal the machine is where one step leaves it. */
  lemma HandleMachine(g: Gate, ev: Event)
    requires !Reversal(g, ev)
    ensures Handle(g, ev).machine == Step(g.machine, ev).0
  {
    hide Apply, Step;
    StepPolicies(g, ev);
    var (m, o) := Step(g.machine, ev);
    ApplyOnce(g.(machine := m), o);
  }

  lemma ResolveSettles(g: Gate)
    ensures var h := Resolve(g);
            var s := if g.position <= 0 then Closed else if g.position >= g.cfg.travel then Open else Faulted;
            && h.cfg == g.cfg && h.now == g.now && h.position == g.position && h.beamBlocked == g.beamBlocked
            && h.machine == Machine(s, if s.Faulted? then LimitSwitchConflict else NoReason, g.machine.beamClear)
            && !h.motorOpen && !h.motorClose && h.watchdog == 0
            && h.autoclose == (if s.Open? && g.cfg.autoClose > 0 then g.now + g.cfg.autoClose else 0)
  {
    hide Apply;
    var (m, o) := if g.position <= 0 then InitClosed(g.machine)
                  else if g.position >= g.cfg.travel then InitOpen(g.machine)
                  else InitUnknown(g.machine);
    ApplyOnce(g.(machine := m), o);
  }

  // --- The safety invariant -----------------------------------------------------

  /** Outputs follow the state, so never both; the gate is where the state says. */
  predicate Located(g: Gate) {
    && (g.motorOpen <==> g.machine.state.Opening?)
    && (g.motorClose <==> g.machine.state.Closing?)
    && 0 <= g.position <= g.cfg.travel
    && (g.machine.state.Closed? ==> g.position == 0)
    && (g.machine.state.Open? ==> g.position == g.cfg.travel)
  }

  predicate Safe(g: Gate) {
    && Located(g)
    && g.machine.beamClear == !g.beamBlocked
    && !(g.motorClose && g.beamBlocked)
  }

  /** Events that a gate in `g` can truthfully deliver. */
  predicate Truthful(g: Gate, ev: Event) {
    && Latch(g.machine.beamClear, ev) == !g.beamBlocked
    && (g.machine.state.Closing? && g.beamBlocked ==> ev.SafetyBeamTripped?)
    && (ev.LimitOpenHit? ==> g.position == g.cfg.travel)
    && (ev.LimitClosedHit? ==> g.position == 0)
  }

  lemma HandleKeepsSafe(g: Gate, ev: Event)
    requires Located(g) && Truthful(g, ev)
    ensures Safe(Handle(g, ev)) && Handle(g, ev).cfg == g.cfg && Handle(g, ev).now == g.now
  {
    hide Handle;
    HandleSettles(g, ev);
  }

  lemma TravelKeepsSafe(g: Gate, dt: uint32)
    requires Safe(g)
    ensures var h := Travel(g, dt); Safe(h) && h.cfg == g.cfg && h.now == g.now
  {
    hide Handle;
    if g.motorOpen && g.position + dt >= g.cfg.travel {
      HandleKeepsSafe(g.(position := g.cfg.travel), LimitOpenHit);
    } else if !g.motorOpen && g.motorClose && g.position - dt <= 0 {
      HandleKeepsSafe(g.(position := 0), LimitClosedHit);
    }
  }

  lemma WatchdogKeepsSafe(g: Gate)
    requires Safe(g)
    ensures var h := Watchdog(g); Safe(h) && h.cfg == g.cfg && h.now == g.now
  {
    hide Handle;
    HandleKeepsSafe(g.(watchdog := 0), MotorTimeout);
  }

  lemma AutoCloseKeepsSafe(g: Gate)
    requires Safe(g)
    ensures var h := AutoClose(g); Safe(h) && h.cfg == g.cfg && h.now == g.now
  {
    hide Handle;
    HandleKeepsSafe(g.(autoclose := 0), CommandClose);
  }

  lemma AdvanceKeepsSafe(g: Gate, dt: uint32)
    requires Safe(g)
    ensures Safe(Advance(g, dt)) && Advance(g, dt).cfg == g.cfg && Advance(g, dt).now == g.now + dt
  {
    hide Tick, Travel, Watchdog, AutoClose;
    TickFrame(g, dt);
    var g1 := Tick(g, dt);
    TravelKeepsSafe(g1, dt);
    var g2 := Travel(g1, dt);
    WatchdogKeepsSafe(g2);
    AutoCloseKeepsSafe(Watchdog(g2));
  }

  lemma ResolveKeepsSafe(g: Gate)
    requires 0 <= g.position <= g.cfg.travel && g.machine.beamClear == !g.beamBlocked
    ensures Safe(Resolve(g)) && Resolve(g).cfg == g.cfg && Resolve(g).now == g.now
  {
    hide Resolve;
    ResolveSettles(g);
  }

  /** Every public method, reboot and the reverse-on-beam re-entry included, keeps
      the invariant. */
  lemma DoKeepsSafe(g: Gate, op: Op)
    requires Safe(g)
    ensures Safe(Do(g, op)) && Do(g, op).cfg == g.cfg
    ensures Do(g, op).now == g.now + if op.DoAdvance? then op.dt else 0
  {
    hide Handle, Resolve, Advance, BootClosed, Armed, PowerCycled;
    PowerCycledIs(g);
    if op.DoIssue? { ArmedFrame(g, op.id, op.command); }
    match op
    case DoBootClosed => BootSettles(g);
    case DoIssue(id, c) => HandleKeepsSafe(Armed(g, id, c), c.Event());
    case DoLocalOpen => HandleKeepsSafe(g, CommandOpen);
    case DoLocalClose => HandleKeepsSafe(g, CommandClose);
    case DoStop => HandleKeepsSafe(g, CommandStop);
    case DoClearFault =>
      HandleKeepsSafe(g, FaultCleared);
      ResolveKeepsSafe(Handle(g, FaultCleared));
    case DoReboot => ResolveKeepsSafe(PowerCycled(g));
    case DoTripBeam => HandleKeepsSafe(g.(beamBlocked := true), SafetyBeamTripped);
    case DoClearBeam => HandleKeepsSafe(g.(beamBlocked := false), SafetyBeamCleared);
    case DoAdvance(dt) => AdvanceKeepsSafe(g, dt);
    case DoDrainAcks =>
  }

  lemma BootSettles(g: Gate)
    ensures var h := BootClosed(g);
            && h.cfg == g.cfg && h.now == g.now && h.position == 0 && h.beamBlocked == g.beamBlocked
            && h.machine == Machine(Closed, NoReason, g.machine.beamClear)
            && !h.motorOpen && !h.motorClose && h.watchdog == 0 && h.autoclose == 0
  {
    hide Apply;
    ApplyOnce(g.(position := 0, machine := InitClosed(g.machine).0), InitClosed(g.machine).1);
  }

  lemma {:induction false} RunIsSafe(cfg: Config, ops: seq<Op>)
    ensures Safe(Run(NewGate(cfg), ops)) && Run(NewGate(cfg), ops).cfg == cfg
  {
    hide Do;
    if ops != [] {
      RunIsSafe(cfg, ops[..|ops| - 1]);
      DoKeepsSafe(Run(NewGate(cfg), ops[..|ops| - 1]), ops[|ops| - 1]);
    }
  }

  // --- The timers -------------------------------------------------------------

  /** Each timer is armed exactly in the states it times, at most one period out. */
  predicate Armable(g: Gate) {
    && (g.watchdog != 0 <==> g.machine.state.Moving())
    && g.watchdog <= g.now + g.cfg.motorTimeout
    && (g.autoclose != 0 <==> g.machine.state.Open? && g.cfg.autoClose > 0)
    && g.autoclose <= g.now + g.cfg.autoClose
  }

  /** Between calls no armed timer is due. */
  predicate Timed(g: Gate) {
    && Armable(g)
    && (g.watchdog != 0 ==> g.now < g.watchdog)
    && (g.autoclose != 0 ==> g.now < g.autoclose)
  }

  lemma HandleKeepsArmable(g: Gate, ev: Event)
    requires g.cfg.motorTimeout > 0 && Armable(g)
    ensures Armable(Handle(g, ev)) && (Timed(g) ==> Timed(Handle(g, ev))) && SamePlace(g, Handle(g, ev))
  {
    hide Handle;
    HandleSettles(g, ev);
  }

  lemma WatchdogFires(g: Gate)
    requires g.cfg.motorTimeout > 0 && Armable(g)
    ensures var h := Watchdog(g);
            && Armable(h) && (h.watchdog != 0 ==> h.now < h.watchdog) && SamePlace(g, h)
  {
    hide Handle;
    HandleSettles(g.(watchdog := 0), MotorTimeout);
  }

  lemma AutoCloseFires(g: Gate)
    requires g.cfg.motorTimeout > 0 && Armable(g) && (g.watchdog != 0 ==> g.now < g.watchdog)
    ensures Timed(AutoClose(g)) && SamePlace(g, AutoClose(g))
  {
    hide Handle;
    HandleSettles(g.(autoclose := 0), CommandClose);
  }

  lemma TravelKeepsArmable(g: Gate, dt: uint32)
    requires g.cfg.motorTimeout > 0 && Armable(g)
    ensures Armable(Travel(g, dt)) && Travel(g, dt).cfg == g.cfg
  {
    hide Handle;
    HandleKeepsArmable(g.(position := g.cfg.travel), LimitOpenHit);
    HandleKeepsArmable(g.(position := 0), LimitClosedHit);
  }

  lemma AdvanceKeepsTimed(g: Gate, dt: uint32)
    requires g.cfg.motorTimeout > 0 && Timed(g)
    ensures Timed(Advance(g, dt))
  {
    hide Tick, Travel, Watchdog, AutoClose;
    TickFrame(g, dt);
    var g1 := Tick(g, dt);
    TravelKeepsArmable(g1, dt);
    var g2 := Travel(g1, dt);
    WatchdogFires(g2);
    AutoCloseFires(Watchdog(g2));
  }

  lemma DoKeepsTimed(g: Gate, op: Op)
    requires g.cfg.motorTimeout > 0 && Timed(g)
    ensures Timed(Do(g, op))
  {
    hide Handle, Resolve, Advance, BootClosed, Armed, PowerCycled;
    PowerCycledIs(g);
    if op.DoIssue? { ArmedFrame(g, op.id, op.command); }
    match op
    case DoBootClosed => BootSettles(g);
    case DoIssue(id, c) => HandleKeepsArmable(Armed(g, id, c), c.Event());
    case DoLocalOpen => HandleKeepsArmable(g, CommandOpen);
    case DoLocalClose => HandleKeepsArmable(g, CommandClose);
    case DoStop => HandleKeepsArmable(g, CommandStop);
    case DoClearFault =>
      HandleKeepsArmable(g, FaultCleared);
      ResolveSettles(Handle(g, FaultCleared));
    case DoReboot => ResolveSettles(PowerCycled(g));
    case DoTripBeam => HandleKeepsArmable(g.(beamBlocked := true), SafetyBeamTripped);
    case DoClearBeam => HandleKeepsArmable(g.(beamBlocked := false), SafetyBeamCleared);
    case DoAdvance(dt) => AdvanceKeepsTimed(g, dt);
    case DoDrainAcks =>
  }

  /** Over every run: the watchdog deadline lies in (now, now + timeout] exactly
      when the gate moves, the auto-close one in (now, now + period] exactly when
      the gate is Open and auto-close is on. */
  lemma {:induction false} RunIsTimed(cfg: Config, ops: seq<Op>)
    requires cfg.motorTimeout > 0
    ensures Timed(Run(NewGate(cfg), ops))
  {
    hide Do;
    if ops != [] {
      RunIsTimed(cfg, ops[..|ops| - 1]);
      RunIsSafe(cfg, ops[..|ops| - 1]);
      DoKeepsTimed(Run(NewGate(cfg), ops[..|ops| - 1]), ops[|ops| - 1]);
    }
  }

  // --- Time alone -------------------------------------------------------------

  function Ticks(g: Gate, dts: seq<uint32>): Gate {
    if dts == [] then g else Advance(Ticks(g, dts[..|dts| - 1]), dts[|dts| - 1])
  }

  function Sum(dts: seq<uint32>): nat {
    if dts == [] then 0 else Sum(dts[..|dts| - 1]) + dts[|dts| - 1]
  }

  lemma OpenTick(g: Gate, dt: uint32)
    requires g.cfg.motorTimeout > 0 && g.cfg.autoClose > 0
    requires Safe(g) && Timed(g) && g.machine.state.Open? && !g.beamBlocked
    ensures var h := Advance(g, dt);
            && SamePlace(g.(now := g.now + dt), h)
            && (g.now + dt < g.autoclose ==>
                  h.machine == g.machine && h.autoclose == g.autoclose && Safe(h) && Timed(h))
            && (g.now + dt >= g.autoclose ==> h.machine.state.Closing? && h.motorClose)
  {
    hide Handle, Tick;
    TickFrame(g, dt);
    AdvanceKeepsSafe(g, dt);
    AdvanceKeepsTimed(g, dt);
    var g1 := Tick(g, dt);
    assert Watchdog(Travel(g1, dt)) == g1;
    HandleSettles(g1.(autoclose := 0), CommandClose);
  }

  /** An undisturbed open gate with a clear beam stays open until the first tick
      that reaches its auto-close deadline, and closes at that tick, however time
      is cut into ticks. */
  lemma {:induction false} AutoClosesOnTime(g: Gate, dts: seq<uint32>)
    requires g.cfg.motorTimeout > 0 && g.cfg.autoClose > 0
    requires Safe(g) && Timed(g) && g.machine.state.Open? && !g.beamBlocked
    requires dts != [] ==> Sum(dts[..|dts| - 1]) < g.autoclose - g.now
    ensures var h := Ticks(g, dts);
            && SamePlace(g.(now := g.now + Sum(dts)), h)
            && (Sum(dts) < g.autoclose - g.now ==>
                  h.machine == g.machine && h.autoclose == g.autoclose && Safe(h) && Timed(h))
            && (Sum(dts) >= g.autoclose - g.now ==> h.machine.state.Closing? && h.motorClose)
    decreases |dts|
  {
    hide Advance;
    if dts != [] {
      var front := dts[..|dts| - 1];
      if front != [] {
        assert Sum(front) == Sum(front[..|front| - 1]) + front[|front| - 1];
      }
      AutoClosesOnTime(g, front);
      OpenTick(Ticks(g, front), dts[|dts| - 1]);
    }
  }

  // --- The watchdog never trips a gate given time to travel ---------------------

  /** A moving gate reaches its limit no later than its watchdog deadline. */
  predicate Ahead(g: Gate) {
    && g.machine.reason != MotorTimedOut
    && (g.machine.state.Opening? && g.watchdog != 0 ==> g.watchdog - g.now >= g.cfg.travel - g.position)
    && (g.machine.state.Closing? && g.watchdog != 0 ==> g.watchdog - g.now >= g.position)
  }

  lemma HandleKeepsAhead(g: Gate, ev: Event)
    requires g.cfg.motorTimeout >= g.cfg.travel && 0 <= g.position <= g.cfg.travel
    requires Ahead(g) && !ev.MotorTimeout?
    ensures Ahead(Handle(g, ev))
  {
    hide Handle;
    HandleSettles(g, ev);
  }

  lemma TravelKeepsAhead(g: Gate, dt: uint32)
    requires g.cfg.motorTimeout >= g.cfg.travel && Safe(g) && Ahead(g)
    ensures var g2 := Travel(Tick(g, dt), dt);
            && Ahead(g2) && g2.cfg == g.cfg && 0 <= g2.position <= g2.cfg.travel
            && (g2.machine.state.Moving() && g2.watchdog != 0 ==> g2.now < g2.watchdog)
  {
    hide Handle, Tick;
    TickFrame(g, dt);
    var g1 := Tick(g, dt);
    HandleSettles(g1.(position := g1.cfg.travel), LimitOpenHit);
    HandleSettles(g1.(position := 0), LimitClosedHit);
  }

  lemma AdvanceKeepsAhead(g: Gate, dt: uint32)
    requires g.cfg.motorTimeout >= g.cfg.travel && Safe(g) && Ahead(g)
    ensures Ahead(Advance(g, dt))
  {
    hide Handle, Tick, Travel;
    TravelKeepsAhead(g, dt);
    var g2 := Travel(Tick(g, dt), dt);
    HandleSettles(g2.(watchdog := 0), MotorTimeout);
    var g3 := Watchdog(g2);
    assert Ahead(g3) && SamePlace(g2, g3);
    HandleKeepsAhead(g3.(autoclose := 0), CommandClose);
  }

  lemma DoKeepsAhead(g: Gate, op: Op)
    requires g.cfg.motorTimeout >= g.cfg.travel && Safe(g) && Ahead(g)
    ensures Ahead(Do(g, op))
  {
    hide Handle, Resolve, Advance, BootClosed, Armed, PowerCycled;
    PowerCycledIs(g);
    if op.DoIssue? { ArmedFrame(g, op.id, op.command); }
    match op
    case DoBootClosed => BootSettles(g);
    case DoIssue(id, c) => HandleKeepsAhead(Armed(g, id, c), c.Event());
    case DoLocalOpen => HandleKeepsAhead(g, CommandOpen);
    case DoLocalClose => HandleKeepsAhead(g, CommandClose);
    case DoStop => HandleKeepsAhead(g, CommandStop);
    case DoClearFault =>
      HandleKeepsAhead(g, FaultCleared);
      ResolveSettles(Handle(g, FaultCleared));
    case DoReboot => ResolveSettles(PowerCycled(g));
    case DoTripBeam => HandleKeepsAhead(g.(beamBlocked := true), SafetyBeamTripped);
    case DoClearBeam => HandleKeepsAhead(g.(beamBlocked := false), SafetyBeamCleared);
    case DoAdvance(dt) => AdvanceKeepsAhead(g, dt);
    case DoDrainAcks =>
  }

  lemma {:induction false} RunIsAhead(cfg: Config, ops: seq<Op>)
    requires cfg.motorTimeout >= cfg.travel
    ensures Ahead(Run(NewGate(cfg), ops))
  {
    hide Do;
    if ops != [] {
      RunIsAhead(cfg, ops[..|ops| - 1]);
      RunIsSafe(cfg, ops[..|ops| - 1]);
      DoKeepsAhead(Run(NewGate(cfg), ops[..|ops| - 1]), ops[|ops| - 1]);
    }
  }

  /** A watchdog shorter than the stroke trips a gate opened from its closed limit
      and left alone. */
  lemma ShortWatchdogTrips(cfg: Config)
    requires cfg.motorTimeout < cfg.travel
    ensures Run(NewGate(cfg), [DoBootClosed, DoAdvance(1), DoLocalOpen, DoAdvance(cfg.motorTimeout)]).machine
              == Machine(Faulted, MotorTimedOut, true)
  {
    hide Run, Advance;
    var g := OpenedFromClosed(cfg);
    TimeoutTrips(g);
    var ops, wait := [DoBootClosed, DoAdvance(1), DoLocalOpen], DoAdvance(cfg.motorTimeout);
    RunStep(NewGate(cfg), ops, wait);
    assert ops + [wait] == [DoBootClosed, DoAdvance(1), DoLocalOpen, wait];
  }

  lemma BootedAndWaited(cfg: Config) returns (g: Gate)
    ensures g == Run(NewGate(cfg), [DoBootClosed, DoAdvance(1)])
    ensures && g.cfg == cfg && g.machine == Machine(Closed, NoReason, true) && g.position == 0
            && g.now == 1 && g.watchdog == 0 && g.autoclose == 0
  {
    hide Run, Handle, BootClosed, Tick;
    var g0 := NewGate(cfg);
    var g1 := BootClosed(g0);
    BootSettles(g0);
    RunStep(g0, [], DoBootClosed);
    RunNothing(g0);
    g := Advance(g1, 1);
    TickFrame(g1, 1);
    assert g == Tick(g1, 1);
    RunStep(g0, [DoBootClosed], DoAdvance(1));
    assert [] + [DoBootClosed] == [DoBootClosed] && [DoBootClosed] + [DoAdvance(1)] == [DoBootClosed, DoAdvance(1)];
  }

  lemma OpenedFromClosed(cfg: Config) returns (g: Gate)
    ensures g == Run(NewGate(cfg), [DoBootClosed, DoAdvance(1), DoLocalOpen])
    ensures && g.cfg == cfg && g.machine.state.Opening? && g.machine.beamClear && g.motorOpen && g.position == 0
            && g.now == 1 && g.watchdog == 1 + cfg.motorTimeout && g.autoclose == 0
  {
    hide Run, Handle;
    var g2 := BootedAndWaited(cfg);
    g := Handle(g2, CommandOpen);
    HandleSettles(g2, CommandOpen);
    RunStep(NewGate(cfg), [DoBootClosed, DoAdvance(1)], DoLocalOpen);
    assert [DoBootClosed, DoAdvance(1)] + [DoLocalOpen] == [DoBootClosed, DoAdvance(1), DoLocalOpen];
  }

  lemma TimeoutTrips(g: Gate)
    requires g.machine.state.Opening? && g.motorOpen && g.position + g.cfg.motorTimeout < g.cfg.travel
    requires g.watchdog == g.now + g.cfg.motorTimeout && g.watchdog > 0 && g.autoclose == 0
    ensures Advance(g, g.cfg.motorTimeout).machine == Machine(Faulted, MotorTimedOut, g.machine.beamClear)
  {
    hide Handle, Tick;
    var dt := g.cfg.motorTimeout;
    TickFrame(g, dt);
    var g2 := Travel(Tick(g, dt), dt);
    assert g2.machine == g.machine && g2.now >= g2.watchdog > 0;
    HandleSettles(g2.(watchdog := 0), MotorTimeout);
    HandleMachine(g2.(watchdog := 0), MotorTimeout);
  }

  lemma RunNothing(g: Gate)
    ensures Run(g, []) == g
  {
  }

  lemma RunStep(g: Gate, ops: seq<Op>, op: Op)
    ensures Run(g, ops + [op]) == Do(Run(g, ops), op)
  {
    hide Do;
    assert (ops + [op])[..|ops|] == ops;
  }

  /** No run ever faults on the watchdog, whatever the tick sizes, stops and
      resumes, exactly when the watchdog allows a full stroke. */
  lemma NeverTimesOutIff(cfg: Config)
    ensures (forall ops :: Run(NewGate(cfg), ops).machine.reason != MotorTimedOut)
              <==> cfg.motorTimeout >= cfg.travel
  {
    hide Run;
    if cfg.motorTimeout >= cfg.travel {
      forall ops ensures Run(NewGate(cfg), ops).machine.reason != MotorTimedOut {
        RunIsAhead(cfg, ops);
      }
    } else {
      ShortWatchdogTrips(cfg);
    }
  }

  // --- No motion from an unverified position ------------------------------------

  predicate Stuck(g: Gate) {
    g.machine.state.Faulted? && 0 < g.position < g.cfg.travel && !g.motorOpen && !g.motorClose
  }

  lemma HandleKeepsStuck(g: Gate, ev: Event)
    requires Stuck(g) && !ev.FaultCleared?
    ensures Stuck(Handle(g, ev)) && Handle(g, ev).position == g.position && Handle(g, ev).cfg == g.cfg
  {
    hide Handle;
    HandleSettles(g, ev);
  }

  lemma AdvanceKeepsStuck(g: Gate, dt: uint32)
    requires Stuck(g)
    ensures Stuck(Advance(g, dt)) && Advance(g, dt).position == g.position
  {
    hide Handle, Tick;
    TickFrame(g, dt);
    var g2 := Travel(Tick(g, dt), dt);
    HandleKeepsStuck(g2.(watchdog := 0), MotorTimeout);
    HandleKeepsStuck(Watchdog(g2).(autoclose := 0), CommandClose);
  }

  lemma DoKeepsStuck(g: Gate, op: Op)
    requires Stuck(g) && !op.DoBootClosed?
    ensures Stuck(Do(g, op)) && Do(g, op).position == g.position
  {
    hide Handle, Resolve, Advance, BootClosed, Armed, PowerCycled;
    PowerCycledIs(g);
    if op.DoIssue? { ArmedFrame(g, op.id, op.command); }
    match op
    case DoIssue(id, c) => HandleKeepsStuck(Armed(g, id, c), c.Event());
    case DoLocalOpen => HandleKeepsStuck(g, CommandOpen);
    case DoLocalClose => HandleKeepsStuck(g, CommandClose);
    case DoStop => HandleKeepsStuck(g, CommandStop);
    case DoClearFault =>
      HandleSettles(g, FaultCleared);
      ResolveSettles(Handle(g, FaultCleared));
    case DoReboot => ResolveSettles(PowerCycled(g));
    case DoTripBeam => HandleKeepsStuck(g.(beamBlocked := true), SafetyBeamTripped);
    case DoClearBeam => HandleKeepsStuck(g.(beamBlocked := false), SafetyBeamCleared);
    case DoAdvance(dt) => AdvanceKeepsStuck(g, dt);
    case DoDrainAcks =>
  }

  /** Once faulted between its limits, no commands, beam events, ticks, fault
      clears or reboots ever energise a motor or move the gate. */
  lemma {:induction false} FaultedMidTravelStaysPut(cfg: Config, before: seq<Op>, after: seq<Op>)
    requires var g := Run(NewGate(cfg), before); g.machine.state.Faulted? && 0 < g.position < cfg.travel
    requires forall op <- after :: !op.DoBootClosed?
    ensures var g := Run(NewGate(cfg), before);
            var h := Run(g, after);
            h.machine.state.Faulted? && h.position == g.position && !h.motorOpen && !h.motorClose && h.cfg == cfg
    decreases |after|
  {
    hide Do;
    RunIsSafe(cfg, before);
    var g := Run(NewGate(cfg), before);
    if after != [] {
      var front := after[..|after| - 1];
      FaultedMidTravelStaysPut(cfg, before, front);
      DoKeepsStuck(Run(g, front), after[|after| - 1]);
      RunAppends(NewGate(cfg), before, after);
      RunIsSafe(cfg, before + after);
    }
  }

  lemma {:induction false} RunAppends(g: Gate, a: seq<Op>, b: seq<Op>)
    ensures Run(g, a + b) == Run(Run(g, a), b)
  {
    hide Do;
    if b == [] {
      assert a + b == a;
    } else {
      assert (a + b)[..|a + b| - 1] == a + b[..|b| - 1];
      RunAppends(g, a, b[..|b| - 1]);
    }
  }
}
