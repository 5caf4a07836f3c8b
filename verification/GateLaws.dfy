/** What each call does, in terms of what can be seen: the motors, the position, the
    beam, the timers, the state and its reason, and the acknowledgements recorded.

    `CallLaw` and `AckLaw` are a reference for the whole gate that mentions neither the
    transition table nor the tracker's rules; every call after every run obeys both. */
module GateLaws {
  import opened GateMachine
  import opened CommandTracking
  import opened VirtualGates
  import opened GateSafety
  import opened GateAcks
  import opened Words

  datatype Option<T> = None | Some(value: T)

  // --- What a gate looks like between calls -------------------------------------------

  /** A reason is held exactly while stopped or faulted, and says which of the ways in
      it was; timers rest outside the states they time. */
  predicate Rested(g: Gate) {
    && (match g.machine.state
        case StoppedOpen => g.machine.reason == OperatorStop
        case StoppedClose => g.machine.reason == OperatorStop || g.machine.reason == SafetyBeamObstacle
        case Faulted => g.machine.reason == MotorTimedOut || g.machine.reason == LimitSwitchConflict
        case _ => g.machine.reason == NoReason)
    && (!g.machine.state.Moving() ==> g.watchdog == 0)
    && (g.autoclose != 0 <==> g.machine.state.Open? && g.cfg.autoClose > 0)
  }

  predicate Driving(g: Gate) { g.motorOpen || g.motorClose }

  // --- The laws -------------------------------------------------------------------------

  /** State, motors and timers are as they were. */
  predicate Same(g: Gate, h: Gate) {
    && h.machine == g.machine && h.motorOpen == g.motorOpen && h.motorClose == g.motorClose
    && h.watchdog == g.watchdog && h.autoclose == g.autoclose
  }

  /** At rest in `m`, both motors off; the auto-close countdown runs exactly at Open. */
  predicate AtRest(g: Gate, h: Gate, m: Machine) {
    && h.machine == m && !h.motorOpen && !h.motorClose && h.watchdog == 0
    && h.autoclose == (if m.state.Open? && g.cfg.autoClose > 0 then h.now + g.cfg.autoClose else 0)
  }

  /** Driving one way with a fresh watchdog. */
  predicate UnderPower(g: Gate, h: Gate, toOpen: bool) {
    && h.machine == Machine(if toOpen then Opening else Closing, NoReason, h.machine.beamClear)
    && h.motorOpen == toOpen && h.motorClose == !toOpen
    && h.watchdog == h.now + g.cfg.motorTimeout && h.autoclose == 0
  }

  /** A stop stops. */
  predicate StopLaw(g: Gate, h: Gate) {
    SamePlace(g, h) &&
    if g.motorOpen then AtRest(g, h, Machine(StoppedOpen, OperatorStop, !g.beamBlocked))
    else if g.motorClose then AtRest(g, h, Machine(StoppedClose, OperatorStop, !g.beamBlocked))
    else Same(g, h)
  }

  /** An open starts a closed or stopped gate, whatever the beam. */
  predicate OpenLaw(g: Gate, h: Gate) {
    SamePlace(g, h) &&
    if g.machine.state.Closed? || g.machine.state.Stopped()
    then UnderPower(g, h, true) && h.machine.beamClear == !g.beamBlocked
    else Same(g, h)
  }

  /** A close starts an open or stopped gate past a clear beam; refused at the open
      limit, it restarts the countdown. */
  predicate CloseLaw(g: Gate, h: Gate) {
    SamePlace(g, h) &&
    if (g.machine.state.Open? || g.machine.state.Stopped()) && !g.beamBlocked
    then UnderPower(g, h, false) && h.machine.beamClear
    else if g.machine.state.Open? then AtRest(g, h, g.machine)
    else Same(g, h)
  }

  /** A broken beam stops a closing gate, or turns it round, and is latched. */
  predicate TripLaw(g: Gate, h: Gate) {
    SamePlace(g.(beamBlocked := true), h) &&
    if g.motorClose && g.cfg.reverseOnBeam then UnderPower(g, h, true) && !h.machine.beamClear
    else if g.motorClose then AtRest(g, h, Machine(StoppedClose, SafetyBeamObstacle, false))
    else Same(g.(machine := g.machine.(beamClear := false)), h)
  }

  predicate ClearLaw(g: Gate, h: Gate) {
    SamePlace(g.(beamBlocked := false), h) && Same(g.(machine := g.machine.(beamClear := true)), h)
  }

  /** The limits place the gate; between them it is faulted. */
  predicate PlacedLaw(g: Gate, h: Gate) {
    SamePlace(g, h) &&
    AtRest(g, h, Machine(if g.position == 0 then Closed else if g.position == g.cfg.travel then Open else Faulted,
                         if 0 < g.position < g.cfg.travel then LimitSwitchConflict else NoReason,
                         !g.beamBlocked))
  }

  predicate ClearFaultLaw(g: Gate, h: Gate) {
    if g.machine.state.Faulted? || g.machine.state.Initializing? then PlacedLaw(g, h)
    else SamePlace(g, h) && Same(g, h)
  }

  /** Time moves a driven gate and stops it at the limit; a due watchdog faults one that
      is not there yet; a due countdown closes an open one. */
  predicate TickLaw(g: Gate, h: Gate, dt: uint32) {
    var now := g.now + dt;
    var late := g.watchdog != 0 && now >= g.watchdog;
    if g.motorOpen && g.position + dt >= g.cfg.travel then
      SamePlace(g.(now := now, position := g.cfg.travel), h) &&
      AtRest(g, h, Machine(Open, NoReason, !g.beamBlocked))
    else if g.motorClose && g.position - dt <= 0 then
      SamePlace(g.(now := now, position := 0), h) && AtRest(g, h, Machine(Closed, NoReason, !g.beamBlocked))
    else if Driving(g) then
      SamePlace(g.(now := now, position := if g.motorOpen then g.position + dt else g.position - dt), h) &&
      if late then AtRest(g, h, Machine(Faulted, MotorTimedOut, !g.beamBlocked)) else Same(g, h)
    else if g.autoclose != 0 && now >= g.autoclose then CloseLaw(g.(now := now), h)
    else SamePlace(g.(now := now), h) && Same(g, h)
  }

  predicate CallLaw(g: Gate, h: Gate, op: Op) {
    match op
    case DoBootClosed => PlacedLaw(g.(position := 0), h)
    case DoIssue(_, c) => if c.OpenGate? then OpenLaw(g, h) else CloseLaw(g, h)
    case DoLocalOpen => OpenLaw(g, h)
    case DoLocalClose => CloseLaw(g, h)
    case DoStop => StopLaw(g, h)
    case DoClearFault => ClearFaultLaw(g, h)
    case DoReboot => PlacedLaw(g, h)
    case DoTripBeam => TripLaw(g, h)
    case DoClearBeam => ClearLaw(g, h)
    case DoAdvance(dt) => TickLaw(g, h, dt)
    case DoDrainAcks => SamePlace(g, h) && Same(g, h)
  }

  // --- One event --------------------------------------------------------------------

  lemma StopStops(g: Gate)
    requires Safe(g) && Rested(g)
    ensures StopLaw(g, Handle(g, CommandStop))
  {
    hide Handle;
    HandleSettles(g, CommandStop);
    HandleMachine(g, CommandStop);
  }

  lemma OpenOpens(g: Gate)
    requires Safe(g) && Rested(g)
    ensures OpenLaw(g, Handle(g, CommandOpen))
  {
    hide Handle;
    HandleSettles(g, CommandOpen);
    HandleMachine(g, CommandOpen);
  }

  lemma CloseCloses(g: Gate)
    requires Safe(g) && Rested(g)
    ensures CloseLaw(g, Handle(g, CommandClose))
  {
    hide Handle;
    HandleSettles(g, CommandClose);
    HandleMachine(g, CommandClose);
  }

  lemma TripTrips(g: Gate)
    requires Safe(g) && Rested(g)
    ensures TripLaw(g, Handle(g.(beamBlocked := true), SafetyBeamTripped))
  {
    hide Handle;
    var b := g.(beamBlocked := true);
    if Reversal(b, SafetyBeamTripped) {
      ReversalSettles(b, SafetyBeamTripped);
    } else {
      HandleSettles(b, SafetyBeamTripped);
      HandleMachine(b, SafetyBeamTripped);
    }
  }

  lemma ClearClears(g: Gate)
    requires Safe(g) && Rested(g)
    ensures ClearLaw(g, Handle(g.(beamBlocked := false), SafetyBeamCleared))
  {
    hide Handle;
    var b := g.(beamBlocked := false);
    HandleSettles(b, SafetyBeamCleared);
    HandleMachine(b, SafetyBeamCleared);
  }

  lemma ResolvePlaces(g: Gate)
    requires 0 <= g.position <= g.cfg.travel && g.machine.beamClear == !g.beamBlocked
    ensures PlacedLaw(g, Resolve(g))
  {
    hide Resolve;
    ResolveSettles(g);
  }

  lemma ClearFaultPlaces(g: Gate)
    requires Safe(g) && Rested(g)
    ensures ClearFaultLaw(g, ClearFault(g))
  {
    hide Handle, Resolve;
    HandleSettles(g, FaultCleared);
    HandleMachine(g, FaultCleared);
    var h := Handle(g, FaultCleared);
    if h.machine.state.Initializing? {
      ResolvePlaces(h);
    }
  }

  // --- One tick ---------------------------------------------------------------------

  /** A gate at its limit, or one neither driven nor due, is left by the timers. */
  lemma TimersRest(g: Gate)
    requires g.watchdog == 0 && (g.autoclose == 0 || g.now < g.autoclose)
    ensures AutoClose(Watchdog(g)) == g
  {
  }

  lemma ArrivesAtLimit(g: Gate, dt: uint32)
    requires Safe(g) && Rested(g)
    requires (g.motorOpen && g.position + dt >= g.cfg.travel) || (g.motorClose && g.position - dt <= 0)
    ensures TickLaw(g, Advance(g, dt), dt)
  {
    hide Handle, Tick, Watchdog, AutoClose;
    TickFrame(g, dt);
    var g1 := Tick(g, dt);
    var hit := if g.motorOpen then LimitOpenHit else LimitClosedHit;
    var b := g1.(position := if g.motorOpen then g.cfg.travel else 0);
    HandleSettles(b, hit);
    HandleMachine(b, hit);
    TimersRest(Travel(g1, dt));
  }

  lemma MovesOn(g: Gate, dt: uint32)
    requires Safe(g) && Rested(g) && Driving(g)
    requires !(g.motorOpen && g.position + dt >= g.cfg.travel) && !(g.motorClose && g.position - dt <= 0)
    ensures TickLaw(g, Advance(g, dt), dt)
  {
    hide Handle, Tick;
    TickFrame(g, dt);
    var g1 := Tick(g, dt);
    var g2 := Travel(g1, dt);
    assert g2 == g1.(position := if g.motorOpen then g.position + dt else g.position - dt);
    var b := g2.(watchdog := 0);
    HandleSettles(b, MotorTimeout);
    HandleMachine(b, MotorTimeout);
  }

  lemma WaitsAtRest(g: Gate, dt: uint32)
    requires Safe(g) && Rested(g) && !Driving(g)
    ensures TickLaw(g, Advance(g, dt), dt)
  {
    hide Handle, Tick, CloseLaw;
    TickFrame(g, dt);
    var g1 := Tick(g, dt);
    assert Watchdog(Travel(g1, dt)) == g1;
    if g.autoclose != 0 && g1.now >= g.autoclose {
      var b := g1.(autoclose := 0);
      CountdownCloses(g.(now := g1.now), b);
    }
  }

  /** The countdown closes as a command would, though it has disarmed itself. */
  lemma CountdownCloses(g: Gate, b: Gate)
    requires Safe(g) && Rested(g) && g.machine.state.Open?
    requires b == g.(autoclose := 0, tracker := b.tracker, acks := b.acks)
    ensures CloseLaw(g, Handle(b, CommandClose))
  {
    hide Handle;
    HandleSettles(b, CommandClose);
    HandleMachine(b, CommandClose);
  }

  lemma TickTicks(g: Gate, dt: uint32)
    requires Safe(g) && Rested(g)
    ensures TickLaw(g, Advance(g, dt), dt)
  {
    hide Advance, TickLaw;
    if (g.motorOpen && g.position + dt >= g.cfg.travel) || (g.motorClose && g.position - dt <= 0) {
      ArrivesAtLimit(g, dt);
    } else if Driving(g) {
      MovesOn(g, dt);
    } else {
      WaitsAtRest(g, dt);
    }
  }

  // --- Every call -------------------------------------------------------------------

  lemma DoObeys(g: Gate, op: Op)
    requires Safe(g) && Rested(g)
    ensures CallLaw(g, Do(g, op), op)
  {
    hide Handle, Resolve, Advance, BootClosed, ClearFault, Armed, PowerCycled, Safe, Rested;
    hide StopLaw, OpenLaw, CloseLaw, TripLaw, ClearLaw, ClearFaultLaw, TickLaw;
    match op
    case DoBootClosed => BootPlaces(g);
    case DoIssue(id, c) => IssueObeys(g, id, c);
    case DoLocalOpen => OpenOpens(g);
    case DoLocalClose => CloseCloses(g);
    case DoStop => StopStops(g);
    case DoClearFault => ClearFaultPlaces(g);
    case DoReboot => RebootPlaces(g);
    case DoTripBeam => TripTrips(g);
    case DoClearBeam => ClearClears(g);
    case DoAdvance(dt) => TickTicks(g, dt);
    case DoDrainAcks =>
  }

  lemma BootPlaces(g: Gate)
    requires Safe(g)
    ensures PlacedLaw(g.(position := 0), BootClosed(g))
  {
    hide BootClosed;
    BootSettles(g);
  }

  lemma RebootPlaces(g: Gate)
    requires Safe(g)
    ensures PlacedLaw(g, Reboot(g))
  {
    hide Resolve, PowerCycled;
    PowerCycledIs(g);
    ResolvePlaces(PowerCycled(g));
  }

  lemma IssueObeys(g: Gate, id: string, c: Command)
    requires Safe(g) && Rested(g)
    ensures if c.OpenGate? then OpenLaw(g, Issue(g, id, c)) else CloseLaw(g, Issue(g, id, c))
  {
    hide Handle, Armed;
    ArmedFrame(g, id, c);
    var a := Armed(g, id, c);
    if c.OpenGate? {
      OpenOpens(a);
    } else {
      CloseCloses(a);
    }
  }

  /** Whatever obeys the law rests again: the law is complete. */
  lemma LawRests(g: Gate, h: Gate, op: Op)
    requires Safe(g) && Rested(g) && CallLaw(g, h, op)
    ensures Rested(h)
  {
  }

  /** After every run, every next call obeys the law. */
  lemma EveryCallIsLawful(cfg: Config, ops: seq<Op>, op: Op)
    ensures var g := Run(NewGate(cfg), ops); Rested(g) && CallLaw(g, Do(g, op), op)
  {
    hide Do, CallLaw, Safe;
    RunRests(cfg, ops);
    RunIsSafe(cfg, ops);
    DoObeys(Run(NewGate(cfg), ops), op);
  }

  lemma {:induction false} RunRests(cfg: Config, ops: seq<Op>)
    ensures Rested(Run(NewGate(cfg), ops))
  {
    hide Do, CallLaw;
    if ops != [] {
      var front, op := ops[..|ops| - 1], ops[|ops| - 1];
      RunRests(cfg, front);
      RunIsSafe(cfg, front);
      var g := Run(NewGate(cfg), front);
      DoObeys(g, op);
      LawRests(g, Do(g, op), op);
    }
  }

  /** An operator's stop, after every run: both motors off, position and beam as they
      were, no watchdog, and a driven gate stopped with that reason. */
  lemma StopAlwaysStops(cfg: Config, ops: seq<Op>)
    ensures var g := Run(NewGate(cfg), ops);
            var h := Do(g, DoStop);
            && !h.motorOpen && !h.motorClose && h.position == g.position && h.watchdog == 0
            && (g.motorOpen ==> h.machine.state.StoppedOpen? && h.machine.reason == OperatorStop)
            && (g.motorClose ==> h.machine.state.StoppedClose? && h.machine.reason == OperatorStop)
            && (!g.motorOpen && !g.motorClose ==> h.machine == g.machine)
  {
    hide Run, Do;
    RunIsSafe(cfg, ops);
    EveryCallIsLawful(cfg, ops, DoStop);
  }

  // --- Exactly the acknowledgements -----------------------------------------------------

  /** Calls that place the gate anew. */
  predicate Relocates(g: Gate, op: Op) {
    || op.DoBootClosed? || op.DoReboot?
    || (op.DoClearFault? && (g.machine.state.Faulted? || g.machine.state.Initializing?))
  }

  /** A close is attempted against a blocked beam at the open limit. */
  predicate Refuses(g: Gate, h: Gate, op: Op) {
    g.machine.state.Open? && g.beamBlocked &&
    (op.DoLocalClose? || (op.DoAdvance? && g.autoclose != 0 && h.now >= g.autoclose))
  }

  /** The answer the pending command of `g` gets from a call that leaves the gate as
      `h`: late, turned back by the beam, arrived, halted with the reason the gate
      gives, refused, or none. */
  function Answer(g: Gate, h: Gate, op: Op): Option<AckError> {
    var there := h.machine.state == g.tracker.terminalOk;
    if op.DoAdvance? && Expired(h.now % TWO_32, g.tracker.deadline) then Some(DeadlineExceeded)
    else if op.DoTripBeam? && g.motorClose then Some(Halted(SafetyBeamObstacle))
    else if there && (Relocates(g, op) || h.machine.state != g.machine.state) then Some(NoError)
    else if (Relocates(g, op) || Driving(g)) && (h.machine.state.Stopped() || h.machine.state.Faulted?)
    then Some(Halted(h.machine.reason))
    else if Refuses(g, h, op) then Some(RejectedByBeam)
    else None
  }

  /** The command pending in `g`, if any, gets answer `a`; without one nothing is
      recorded and it stays. */
  predicate Records(g: Gate, h: Gate, a: Option<AckError>) {
    if g.tracker.armed && a.Some? then
      && h.tracker == g.tracker.(armed := false)
      && h.acks == g.acks + [Ack(g.tracker.id, a.value.NoError?, a.value)]
    else h.tracker == g.tracker && h.acks == g.acks
  }

  /** What a call records and what it leaves pending, exactly. */
  predicate AckLaw(g: Gate, h: Gate, op: Op) {
    match op
    case DoDrainAcks => h.acks == [] && h.tracker == g.tracker
    case DoIssue(id, c) =>
      var refused := c.CloseGate? && g.machine.state.Open? && g.beamBlocked;
      && h.tracker == Tracker(Cut(id), c.Terminal(), (g.now + g.cfg.commandDeadline) % TWO_32, !refused)
      && h.acks == g.acks + (if g.tracker.armed then [Ack(g.tracker.id, false, Superseded)] else [])
                   + (if refused then [Ack(Cut(id), false, RejectedByBeam)] else [])
    case _ => Records(g, h, Answer(g, h, op))
  }

  lemma HandleRecords(g: Gate, ev: Event, a: Option<AckError>)
    requires Heard(g, ev) ==
               if g.tracker.armed && a.Some? then AfterResolve(g.tracker, a.value.NoError?, a.value)
               else (g.tracker, Pending)
    ensures Records(g, Handle(g, ev), a)
  {
    hide Handle, Heard;
    HandleAcks(g, ev);
  }

  /** Two steps answer once: a disarmed tracker hears nothing more. */
  lemma RecordsTwice(g: Gate, h: Gate, k: Gate, a: Option<AckError>, b: Option<AckError>)
    requires Records(g, h, a) && Records(h, k, b)
    ensures Records(g, k, if a.Some? then a else b)
  {
  }

  lemma StopAnswered(g: Gate)
    requires Safe(g) && Rested(g) && Motion(g.tracker)
    ensures var h := Handle(g, CommandStop); Records(g, h, Answer(g, h, DoStop))
  {
    hide Handle, Records, Expired;
    StopStops(g);
    HandleRecords(g, CommandStop, Answer(g, Handle(g, CommandStop), DoStop));
  }

  lemma OpenAnswered(g: Gate)
    requires Safe(g) && Rested(g) && Motion(g.tracker)
    ensures var h := Handle(g, CommandOpen); Records(g, h, Answer(g, h, DoLocalOpen))
  {
    hide Handle, Records, Expired;
    OpenOpens(g);
    HandleRecords(g, CommandOpen, Answer(g, Handle(g, CommandOpen), DoLocalOpen));
  }

  lemma CloseAnswered(g: Gate)
    requires Safe(g) && Rested(g) && Motion(g.tracker)
    ensures var h := Handle(g, CommandClose); Records(g, h, Answer(g, h, DoLocalClose))
  {
    hide Handle, Records, Expired;
    CloseCloses(g);
    HandleRecords(g, CommandClose, Answer(g, Handle(g, CommandClose), DoLocalClose));
  }

  lemma TripAnswered(g: Gate)
    requires Safe(g) && Rested(g) && Motion(g.tracker)
    ensures var h := Handle(g.(beamBlocked := true), SafetyBeamTripped); Records(g, h, Answer(g, h, DoTripBeam))
  {
    hide Handle, Records, Expired;
    TripTrips(g);
    var b := g.(beamBlocked := true);
    var a := Answer(g, Handle(b, SafetyBeamTripped), DoTripBeam);
    HandleRecords(b, SafetyBeamTripped, a);
    RecordsFrom(g, b, Handle(b, SafetyBeamTripped), a);
  }

  lemma ClearAnswered(g: Gate)
    requires Safe(g) && Rested(g) && Motion(g.tracker)
    ensures var h := Handle(g.(beamBlocked := false), SafetyBeamCleared); Records(g, h, Answer(g, h, DoClearBeam))
  {
    hide Handle, Records, Expired;
    ClearClears(g);
    var b := g.(beamBlocked := false);
    var a := Answer(g, Handle(b, SafetyBeamCleared), DoClearBeam);
    HandleRecords(b, SafetyBeamCleared, a);
    RecordsFrom(g, b, Handle(b, SafetyBeamCleared), a);
  }

  lemma RecordsFrom(g: Gate, b: Gate, h: Gate, a: Option<AckError>)
    requires b.tracker == g.tracker && b.acks == g.acks && Records(b, h, a)
    ensures Records(g, h, a)
  {
  }

  /** Placing the gate answers a command for that place, or halts it with the fault. */
  function Placed(g: Gate, h: Gate): Option<AckError> {
    if h.machine.state == g.tracker.terminalOk then Some(NoError)
    else if h.machine.state.Faulted? then Some(Halted(h.machine.reason))
    else None
  }

  lemma ResolveAnswered(g: Gate)
    requires 0 <= g.position <= g.cfg.travel && g.machine.beamClear == !g.beamBlocked && Motion(g.tracker)
    ensures Records(g, Resolve(g), Placed(g, Resolve(g)))
  {
    hide Apply;
    var (m, o) := if g.position <= 0 then InitClosed(g.machine)
                  else if g.position >= g.cfg.travel then InitOpen(g.machine)
                  else InitUnknown(g.machine);
    ApplyAcks(g.(machine := m), o);
    ResolveSettles(g);
  }

  lemma BootAnswered(g: Gate)
    requires Safe(g) && Motion(g.tracker)
    ensures var h := BootClosed(g); Records(g, h, Answer(g, h, DoBootClosed))
  {
    hide Apply;
    ApplyAcks(g.(position := 0, machine := InitClosed(g.machine).0), InitClosed(g.machine).1);
    BootSettles(g);
  }

  lemma RebootAnswered(g: Gate)
    requires Safe(g) && Motion(g.tracker)
    ensures var h := Reboot(g); Records(g, h, Answer(g, h, DoReboot))
  {
    hide Resolve, PowerCycled, Records;
    PowerCycledIs(g);
    var b := PowerCycled(g);
    ResolveAnswered(b);
    ResolveSettles(b);
    RecordsFrom(g, b, Resolve(b), Placed(b, Resolve(b)));
  }

  lemma ClearFaultAnswered(g: Gate)
    requires Safe(g) && Rested(g) && Motion(g.tracker)
    ensures var h := ClearFault(g); Records(g, h, Answer(g, h, DoClearFault))
  {
    hide Handle, Resolve, Records, Heard;
    HandleSettles(g, FaultCleared);
    HandleAcks(g, FaultCleared);
    FaultClearedIsQuiet(g);
    var b := Handle(g, FaultCleared);
    if b.machine.state.Initializing? {
      ResolveAnswered(b);
      ResolveSettles(b);
      RecordsFrom(g, b, Resolve(b), Placed(b, Resolve(b)));
    } else {
      NothingRecorded(g, b);
    }
  }

  lemma NothingRecorded(g: Gate, h: Gate)
    requires h.tracker == g.tracker && h.acks == g.acks
    ensures Records(g, h, None)
  {
  }

  // --- A tick's acknowledgement -------------------------------------------------------

  function Lateness(g: Gate, now: nat): Option<AckError> {
    if Expired(now % TWO_32, g.tracker.deadline) then Some(DeadlineExceeded) else None
  }

  lemma TickRecords(g: Gate, dt: uint32)
    ensures Records(g, Tick(g, dt), Lateness(g, g.now + dt))
  {
    hide Expired;
  }

  /** After the tick, the rest of a call that leaves the gate as `h` answers `b`. */
  lemma AfterTheTick(g: Gate, dt: uint32, h: Gate, b: Option<AckError>)
    requires Safe(g) && Rested(g) && h == Advance(g, dt) && Records(Tick(g, dt), h, b)
    requires g.tracker.armed && !Expired(h.now % TWO_32, g.tracker.deadline) ==> b == Answer(g, h, DoAdvance(dt))
    ensures Records(g, h, Answer(g, h, DoAdvance(dt)))
  {
    hide Advance, Tick, Records, Expired, Answer, Safe;
    AdvanceKeepsSafe(g, dt);
    TickRecords(g, dt);
    RecordsTwice(g, Tick(g, dt), h, Lateness(g, g.now + dt), b);
    if Expired(h.now % TWO_32, g.tracker.deadline) {
      LateAnswer(g, h, dt);
    }
    if !g.tracker.armed {
      UnarmedRecords(g, h, if Lateness(g, g.now + dt).Some? then Lateness(g, g.now + dt) else b,
                     Answer(g, h, DoAdvance(dt)));
    }
  }

  lemma UnarmedRecords(g: Gate, h: Gate, a: Option<AckError>, b: Option<AckError>)
    requires !g.tracker.armed && Records(g, h, a)
    ensures Records(g, h, b)
  {
  }

  lemma LateAnswer(g: Gate, h: Gate, dt: uint32)
    requires Expired(h.now % TWO_32, g.tracker.deadline)
    ensures Answer(g, h, DoAdvance(dt)) == Some(DeadlineExceeded)
  {
  }

  lemma ArrivalAnswered(g: Gate, dt: uint32)
    requires Safe(g) && Rested(g) && Motion(g.tracker)
    requires (g.motorOpen && g.position + dt >= g.cfg.travel) || (g.motorClose && g.position - dt <= 0)
    ensures var h := Advance(g, dt); Records(g, h, Answer(g, h, DoAdvance(dt)))
  {
    hide Handle, Tick, Watchdog, AutoClose, Records, Expired;
    TickFrame(g, dt);
    TickKeepsGoal(g, dt);
    ArrivesAtLimit(g, dt);
    var g1 := Tick(g, dt);
    var hit := if g.motorOpen then LimitOpenHit else LimitClosedHit;
    var b := g1.(position := if g.motorOpen then g.cfg.travel else 0);
    HandleSettles(b, hit);
    TimersRest(Travel(g1, dt));
    var h := Advance(g, dt);
    var a: Option<AckError> := if h.machine.state == g.tracker.terminalOk then Some(NoError) else None;
    HandleRecords(b, hit, a);
    RecordsFrom(g1, b, h, a);
    AfterTheTick(g, dt, h, a);
  }

  lemma TickKeepsGoal(g: Gate, dt: uint32)
    ensures Tick(g, dt).tracker == g.tracker || Tick(g, dt).tracker == g.tracker.(armed := false)
  {
    hide Expired;
  }

  lemma MotionAnswered(g: Gate, dt: uint32)
    requires Safe(g) && Rested(g) && Motion(g.tracker) && Driving(g)
    requires !(g.motorOpen && g.position + dt >= g.cfg.travel) && !(g.motorClose && g.position - dt <= 0)
    ensures var h := Advance(g, dt); Records(g, h, Answer(g, h, DoAdvance(dt)))
  {
    hide Handle, Tick, Records, Expired;
    TickFrame(g, dt);
    TickKeepsGoal(g, dt);
    MovesOn(g, dt);
    var g1 := Tick(g, dt);
    var g2 := g1.(position := if g.motorOpen then g.position + dt else g.position - dt);
    assert Travel(g1, dt) == g2;
    var h := Advance(g, dt);
    if g2.watchdog != 0 && g2.now >= g2.watchdog {
      var b := g2.(watchdog := 0);
      var k := Handle(b, MotorTimeout);
      HandleSettles(b, MotorTimeout);
      assert h == k;
      HandleRecords(b, MotorTimeout, Some(Halted(MotorTimedOut)));
      RecordsFrom(g1, b, h, Some(Halted(MotorTimedOut)));
      AfterTheTick(g, dt, h, Some(Halted(MotorTimedOut)));
    } else {
      assert h == g2;
      NothingRecorded(g1, h);
      AfterTheTick(g, dt, h, None);
    }
  }

  lemma WaitAnswered(g: Gate, dt: uint32)
    requires Safe(g) && Rested(g) && Motion(g.tracker) && !Driving(g)
    ensures var h := Advance(g, dt); Records(g, h, Answer(g, h, DoAdvance(dt)))
  {
    hide Handle, Tick, Records, Expired;
    TickFrame(g, dt);
    TickKeepsGoal(g, dt);
    WaitsAtRest(g, dt);
    var g1 := Tick(g, dt);
    assert Watchdog(Travel(g1, dt)) == g1;
    var h := Advance(g, dt);
    if g.autoclose != 0 && g1.now >= g.autoclose {
      var b := g1.(autoclose := 0);
      var a: Option<AckError> := if g.beamBlocked then Some(RejectedByBeam) else None;
      HandleRecords(b, CommandClose, a);
      RecordsFrom(g1, b, h, a);
      AfterTheTick(g, dt, h, a);
    } else {
      NothingRecorded(g1, h);
      AfterTheTick(g, dt, h, None);
    }
  }

  lemma TickAnswered(g: Gate, dt: uint32)
    requires Safe(g) && Rested(g) && Motion(g.tracker)
    ensures var h := Advance(g, dt); Records(g, h, Answer(g, h, DoAdvance(dt)))
  {
    hide Advance, Records, Answer;
    if (g.motorOpen && g.position + dt >= g.cfg.travel) || (g.motorClose && g.position - dt <= 0) {
      ArrivalAnswered(g, dt);
    } else if Driving(g) {
      MotionAnswered(g, dt);
    } else {
      WaitAnswered(g, dt);
    }
  }

  // --- Every acknowledgement ----------------------------------------------------------

  lemma ArmRecords(g: Gate, id: string, c: Command)
    ensures Armed(g, id, c).acks ==
              g.acks + if g.tracker.armed then [Ack(g.tracker.id, false, Superseded)] else []
  {
    hide Cut;
  }

  lemma IssueAnswered(g: Gate, id: string, c: Command)
    requires Safe(g) && Rested(g)
    ensures AckLaw(g, Issue(g, id, c), DoIssue(id, c))
  {
    hide Handle, Armed, Cut, Heard;
    ArmedFrame(g, id, c);
    ArmedTracker(g, id, c);
    ArmRecords(g, id, c);
    var b := Armed(g, id, c);
    var a: Option<AckError> :=
      if c.CloseGate? && g.machine.state.Open? && g.beamBlocked then Some(RejectedByBeam) else None;
    IssueHeard(b, c, a);
    HandleRecords(b, c.Event(), a);
  }

  lemma IssueHeard(g: Gate, c: Command, a: Option<AckError>)
    requires Safe(g) && g.tracker.armed && g.tracker.terminalOk == c.Terminal()
    requires a == if c.CloseGate? && g.machine.state.Open? && g.beamBlocked then Some(RejectedByBeam) else None
    ensures Heard(g, c.Event()) ==
              if a.Some? then AfterResolve(g.tracker, a.value.NoError?, a.value) else (g.tracker, Pending)
  {
  }

  lemma DoAnswered(g: Gate, op: Op)
    requires Safe(g) && Rested(g) && Motion(g.tracker)
    ensures AckLaw(g, Do(g, op), op)
  {
    hide Handle, Resolve, Advance, BootClosed, ClearFault, Reboot, Issue, Safe, Rested, Records, Answer;
    match op
    case DoBootClosed => BootAnswered(g);
    case DoIssue(id, c) => IssueAnswered(g, id, c);
    case DoLocalOpen => OpenAnswered(g);
    case DoLocalClose => CloseAnswered(g);
    case DoStop => StopAnswered(g);
    case DoClearFault => ClearFaultAnswered(g);
    case DoReboot => RebootAnswered(g);
    case DoTripBeam => TripAnswered(g);
    case DoClearBeam => ClearAnswered(g);
    case DoAdvance(dt) => TickAnswered(g, dt);
    case DoDrainAcks =>
  }

  /** After every run, every next call records exactly the acknowledgements the law
      names: none early, none missing. */
  lemma EveryAckIsLawful(cfg: Config, ops: seq<Op>, op: Op)
    ensures var g := Run(NewGate(cfg), ops); AckLaw(g, Do(g, op), op)
  {
    hide Do, Run, Watch, AckLaw, Conserved, Safe, Rested;
    RunRests(cfg, ops);
    AcksConserved(cfg, ops);
    DoAnswered(Run(NewGate(cfg), ops), op);
  }

  /** A pending command whose gate stops or faults under way is answered in that very
      call, once, with the gate's reason, unless the call finds it late. */
  lemma HaltIsAnswered(cfg: Config, ops: seq<Op>, op: Op)
    requires !op.DoIssue? && !op.DoDrainAcks?
    requires var g := Run(NewGate(cfg), ops);
             var h := Do(g, op);
             g.tracker.armed && Driving(g) && (h.machine.state.Stopped() || h.machine.state.Faulted?)
    ensures var g := Run(NewGate(cfg), ops);
            var h := Do(g, op);
            var late := op.DoAdvance? && Expired(h.now % TWO_32, g.tracker.deadline);
            && !h.tracker.armed && h.machine.reason != NoReason
            && h.acks == g.acks + [Ack(g.tracker.id, false, if late then DeadlineExceeded
                                                            else Halted(h.machine.reason))]
  {
    hide Do, Run, Expired;
    var g := Run(NewGate(cfg), ops);
    RunIsSafe(cfg, ops);
    AcksConserved(cfg, ops);
    hide Watch;
    EveryCallIsLawful(cfg, ops, op);
    EveryAckIsLawful(cfg, ops, op);
    RunStep(NewGate(cfg), ops, op);
    RunRests(cfg, ops + [op]);
  }

  /** A pending command to close, refused at the open limit by a blocked beam, is
      answered in that very call. */
  lemma RefusalIsAnswered(cfg: Config, ops: seq<Op>)
    requires var g := Run(NewGate(cfg), ops); g.tracker.armed && g.machine.state.Open? && g.beamBlocked
    ensures var g := Run(NewGate(cfg), ops);
            var h := Do(g, DoLocalClose);
            !h.tracker.armed && h.acks == g.acks + [Ack(g.tracker.id, false, RejectedByBeam)]
  {
    hide Do, Run, Expired;
    RunIsSafe(cfg, ops);
    EveryCallIsLawful(cfg, ops, DoLocalClose);
    EveryAckIsLawful(cfg, ops, DoLocalClose);
  }
}
