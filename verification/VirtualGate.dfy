/** The virtual gate: the state machine and the command tracker wired to a motor
    that moves a position, a motor watchdog, an auto-close timer and the
    reverse-on-beam policy.

    `Do` gives the effect of each public method on a gate value, `Run` the effect
    of any sequence of them.  `VirtualGate` is the object; every method's contract
    says it does exactly what `Do` says. */
module VirtualGates {
  import opened GateMachine
  import opened CommandTracking
  import opened Words

  datatype Config = Config(
    travel: uint32,
    motorTimeout: uint32,
    autoClose: uint32,
    reverseOnBeam: bool,
    commandDeadline: uint32)

  datatype Command = OpenGate | CloseGate {
    /** The state that completes the command, and the event that starts it. */
    function Terminal(): State { if OpenGate? then Open else Closed }
    function Event(): Event { if OpenGate? then CommandOpen else CommandClose }
  }

  /** Time is in milliseconds; position 0 is the closed limit and `cfg.travel` the
      open one.  A deadline of 0 is disarmed. */
  datatype Gate = Gate(
    cfg: Config,
    machine: Machine,
    tracker: Tracker,
    now: nat,
    position: int,
    motorOpen: bool,
    motorClose: bool,
    beamBlocked: bool,
    watchdog: nat,
    autoclose: nat,
    acks: seq<Ack>)

  function NewGate(cfg: Config): Gate {
    Gate(cfg, Fresh, Idle, 0, 0, false, false, false, 0, 0, [])
  }

  // --- One step: execute, timers, listener, policies --------------------------

  /** The outputs the machine can emit: entry actions on a transition, at most a
      telemetry beat otherwise. */
  predicate Emitted(out: Outputs) {
    if out.transitioned then out.actions == EntryActions(out.newState)
    else out.actions == [] || out.actions == [EmitTelemetry]
  }

  /** Every entry but Initializing sets both motor outputs. */
  function Motors(g: Gate, out: Outputs): Gate {
    if out.transitioned && !out.newState.Initializing?
    then g.(motorOpen := out.newState.Opening?, motorClose := out.newState.Closing?)
    else g
  }

  function Timers(g: Gate, out: Outputs): Gate {
    if out.transitioned then
      g.(watchdog := if out.newState.Moving() then g.now + g.cfg.motorTimeout else 0,
         autoclose := if out.newState.Open? && g.cfg.autoClose > 0 then g.now + g.cfg.autoClose else 0)
    else g
  }

  function Record(g: Gate, v: (Tracker, Verdict)): Gate {
    g.(tracker := v.0, acks := if v.1.Fire? then g.acks + [v.1.ack] else g.acks)
  }

  function Listen(g: Gate, out: Outputs): Gate {
    if out.transitioned || out.reason != NoReason
    then Record(g, AfterGateEvent(g.tracker, out.newState, out.reason, out.transitioned))
    else g
  }

  predicate Reverses(cfg: Config, out: Outputs) {
    cfg.reverseOnBeam && out.transitioned && out.newState.StoppedClose? && out.reason == SafetyBeamObstacle
  }

  predicate Retries(cfg: Config, out: Outputs) {
    !out.transitioned && out.newState.Open? && out.reason == SafetyBeamObstacle && cfg.autoClose > 0
  }

  /** Carry out one step's outputs; a beam stop may re-enter with CommandOpen. */
  function Apply(g: Gate, out: Outputs): Gate
    decreases if Reverses(g.cfg, out) then 1 else 0
  {
    var g1 := Listen(Timers(Motors(g, out), out), out);
    if Reverses(g.cfg, out) then
      var (m, o) := Step(g1.machine, CommandOpen);
      Apply(g1.(machine := m), o)
    else if Retries(g.cfg, out) then
      g1.(autoclose := g1.now + g1.cfg.autoClose)
    else g1
  }

  function Handle(g: Gate, ev: Event): Gate {
    var (m, o) := Step(g.machine, ev);
    Apply(g.(machine := m), o)
  }

  /** Re-read the limits: closed, open, or a fault in between. */
  function Resolve(g: Gate): Gate {
    var (m, o) := if g.position <= 0 then InitClosed(g.machine)
                  else if g.position >= g.cfg.travel then InitOpen(g.machine)
                  else InitUnknown(g.machine);
    Apply(g.(machine := m), o)
  }

  // --- The public methods -----------------------------------------------------

  function Tick(g: Gate, dt: uint32): Gate {
    var g1 := g.(now := g.now + dt);
    Record(g1, AfterTick(g1.tracker, g1.now % TWO_32))
  }

  function Travel(g: Gate, dt: uint32): Gate {
    if g.motorOpen then
      if g.position + dt >= g.cfg.travel
      then Handle(g.(position := g.cfg.travel), LimitOpenHit)
      else g.(position := g.position + dt)
    else if g.motorClose then
      if g.position - dt <= 0
      then Handle(g.(position := 0), LimitClosedHit)
      else g.(position := g.position - dt)
    else g
  }

  function Watchdog(g: Gate): Gate {
    if g.watchdog != 0 && g.now >= g.watchdog then Handle(g.(watchdog := 0), MotorTimeout) else g
  }

  function AutoClose(g: Gate): Gate {
    if g.autoclose != 0 && g.now >= g.autoclose then Handle(g.(autoclose := 0), CommandClose) else g
  }

  function Advance(g: Gate, dt: uint32): Gate {
    AutoClose(Watchdog(Travel(Tick(g, dt), dt)))
  }

  function Armed(g: Gate, id: string, c: Command): Gate {
    var due := (g.now % TWO_32 + g.cfg.commandDeadline) % TWO_32;
    Record(g, AfterArm(g.tracker, id, c.Terminal(), due))
  }

  function Issue(g: Gate, id: string, c: Command): Gate {
    Handle(Armed(g, id, c), c.Event())
  }

  function ClearFault(g: Gate): Gate {
    var g1 := Handle(g, FaultCleared);
    if g1.machine.state.Initializing? then Resolve(g1) else g1
  }

  /** A reboot loses volatile state but neither the position nor a broken beam. */
  function PowerCycled(g: Gate): Gate {
    var m := if g.beamBlocked then Step(Fresh, SafetyBeamTripped).0 else Fresh;
    g.(motorOpen := false, motorClose := false, watchdog := 0, autoclose := 0, machine := m)
  }

  function Reboot(g: Gate): Gate {
    Resolve(PowerCycled(g))
  }

  function BootClosed(g: Gate): Gate {
    var (m, o) := InitClosed(g.machine);
    Apply(g.(position := 0, machine := m), o)
  }

  datatype Op =
    | DoBootClosed
    | DoIssue(id: string, command: Command)
    | DoLocalOpen
    | DoLocalClose
    | DoStop
    | DoClearFault
    | DoReboot
    | DoTripBeam
    | DoClearBeam
    | DoAdvance(dt: uint32)
    | DoDrainAcks

  function Do(g: Gate, op: Op): Gate {
    match op
    case DoBootClosed => BootClosed(g)
    case DoIssue(id, c) => Issue(g, id, c)
    case DoLocalOpen => Handle(g, CommandOpen)
    case DoLocalClose => Handle(g, CommandClose)
    case DoStop => Handle(g, CommandStop)
    case DoClearFault => ClearFault(g)
    case DoReboot => Reboot(g)
    case DoTripBeam => Handle(g.(beamBlocked := true), SafetyBeamTripped)
    case DoClearBeam => Handle(g.(beamBlocked := false), SafetyBeamCleared)
    case DoAdvance(dt) => Advance(g, dt)
    case DoDrainAcks => g.(acks := [])
  }

  function Run(g: Gate, ops: seq<Op>): Gate {
    if ops == [] then g else Do(Run(g, ops[..|ops| - 1]), ops[|ops| - 1])
  }

  // --- The object -------------------------------------------------------------

  class VirtualGate {
    const cfg: Config
    const machine: StateMachine
    const tracker: CommandTracker
    var now: nat
    var position: int
    var motorOpen: bool
    var motorClose: bool
    var beamBlocked: bool
    var watchdog: nat
    var autoclose: nat
    var acks: seq<Ack>

    ghost predicate Valid()
      reads this, tracker, tracker.id
    {
      tracker.Valid()
    }

    function Value(): Gate
      reads this, machine, tracker, tracker.id
    {
      Gate(cfg, machine.Value(), tracker.Value(), now, position, motorOpen, motorClose,
           beamBlocked, watchdog, autoclose, acks)
    }

    constructor (cfg: Config)
      ensures Valid() && Value() == NewGate(cfg)
      ensures fresh(machine) && fresh(tracker) && fresh(tracker.id)
    {
      this.cfg := cfg;
      machine := new StateMachine();
      tracker := new CommandTracker();
      now, position := 0, 0;
      motorOpen, motorClose, beamBlocked := false, false, false;
      watchdog, autoclose := 0, 0;
      acks := [];
    }

    method RecordVerdict(v: Verdict)
      modifies this`acks
      ensures Value() == Record(old(Value()), (old(Value()).tracker, v))
    {
      if v.Fire? {
        acks := acks + [v.ack];
      }
    }

    method Execute(out: Outputs)
      requires Valid() && Emitted(out)
      modifies this`motorOpen, this`motorClose
      ensures Value() == Motors(old(Value()), out)
    {
      for i := 0 to |out.actions|
        invariant i == 0 ==> motorOpen == old(motorOpen) && motorClose == old(motorClose)
        invariant i > 0 ==> motorOpen == Motors(old(Value()), out).motorOpen
        invariant i > 0 ==> motorClose == Motors(old(Value()), out).motorClose
      {
        match out.actions[i] {
          case DriveMotorOpen =>
            motorClose := false;
            motorOpen := true;
          case DriveMotorClose =>
            motorOpen := false;
            motorClose := true;
          case StopMotor =>
            motorOpen := false;
            motorClose := false;
          case _ =>
        }
      }
    }

    method ManageTimers(out: Outputs)
      modifies this`watchdog, this`autoclose
      ensures Value() == Timers(old(Value()), out)
    {
      if out.transitioned {
        var moving := out.newState == Opening || out.newState == Closing;
        watchdog := if moving then now + cfg.motorTimeout else 0;
        autoclose := if out.newState == Open && cfg.autoClose > 0 then now + cfg.autoClose else 0;
      }
    }

    method NotifyTracker(out: Outputs)
      requires Valid()
      modifies this`acks, tracker`armed
      ensures Valid() && Value() == Listen(old(Value()), out)
    {
      hide AfterGateEvent;
      if out.transitioned || out.reason != NoReason {
        var v := tracker.OnGateEvent(out.newState, out.reason, out.transitioned);
        RecordVerdict(v);
      }
    }

    method ApplyLocked(out: Outputs)
      requires Valid() && Emitted(out)
      modifies this, machine, tracker, tracker.id
      ensures Valid() && Value() == Apply(old(Value()), out)
      decreases if Reverses(cfg, out) then 2 else 0
    {
      hide Motors, Timers, Listen;
      Execute(out);
      ManageTimers(out);
      NotifyTracker(out);
      if cfg.reverseOnBeam && out.transitioned && out.newState == StoppedClose
         && out.reason == SafetyBeamObstacle {
        StepLocked(CommandOpen);
        return;
      }
      if !out.transitioned && out.newState == Open && out.reason == SafetyBeamObstacle
         && cfg.autoClose > 0 {
        autoclose := now + cfg.autoClose;
      }
    }

    method StepLocked(ev: Event)
      requires Valid()
      modifies this, machine, tracker, tracker.id
      ensures Valid() && Value() == Handle(old(Value()), ev)
      decreases if ev == CommandOpen then 1 else 3
    {
      hide Apply;
      var out := machine.Handle(ev);
      ApplyLocked(out);
    }

    method ResolvePosition()
      requires Valid()
      modifies this, machine, tracker, tracker.id
      ensures Valid() && Value() == Resolve(old(Value()))
    {
      hide Apply;
      var out;
      if position <= 0 {
        out := machine.BootClosed();
      } else if position >= cfg.travel {
        out := machine.BootOpen();
      } else {
        out := machine.BootUnknown();
      }
      ApplyLocked(out);
    }

    method BootAtClosed()
      requires Valid()
      modifies this, machine, tracker, tracker.id
      ensures Valid() && Value() == Do(old(Value()), DoBootClosed)
    {
      hide Apply;
      position := 0;
      var out := machine.BootClosed();
      ApplyLocked(out);
    }

    method ArmTracker(id: string, c: Command)
      requires Valid()
      modifies this`acks, tracker, tracker.id
      ensures Valid()
      ensures Value() == Armed(old(Value()), id, c)
    {
      hide Cut;
      var terminal := if c == OpenGate then Open else Closed;
      var v := tracker.Arm(id, terminal, (now % TWO_32 + cfg.commandDeadline) % TWO_32);
      RecordVerdict(v);
    }

    method IssueCommand(id: string, c: Command)
      requires Valid()
      modifies this, machine, tracker, tracker.id
      ensures Valid() && Value() == Do(old(Value()), DoIssue(id, c))
    {
      hide Handle, Armed;
      ArmTracker(id, c);
      StepLocked(if c == OpenGate then CommandOpen else CommandClose);
    }

    method LocalOpen()
      requires Valid()
      modifies this, machine, tracker, tracker.id
      ensures Valid() && Value() == Do(old(Value()), DoLocalOpen)
    {
      hide Handle;
      StepLocked(CommandOpen);
    }

    method LocalClose()
      requires Valid()
      modifies this, machine, tracker, tracker.id
      ensures Valid() && Value() == Do(old(Value()), DoLocalClose)
    {
      hide Handle;
      StepLocked(CommandClose);
    }

    method OperatorStops()
      requires Valid()
      modifies this, machine, tracker, tracker.id
      ensures Valid() && Value() == Do(old(Value()), DoStop)
    {
      hide Handle;
      StepLocked(CommandStop);
    }

    method ClearsFault()
      requires Valid()
      modifies this, machine, tracker, tracker.id
      ensures Valid() && Value() == Do(old(Value()), DoClearFault)
    {
      hide Handle, Resolve;
      StepLocked(FaultCleared);
      if machine.state == Initializing {
        ResolvePosition();
      }
    }

    method ResetVolatile()
      requires Valid()
      modifies this, machine
      ensures Valid() && Value() == PowerCycled(old(Value()))
    {
      motorOpen, motorClose := false, false;
      watchdog, autoclose := 0, 0;
      machine.Reset();
      if beamBlocked {
        var _ := machine.Handle(SafetyBeamTripped);
      }
    }

    method Reboots()
      requires Valid()
      modifies this, machine, tracker, tracker.id
      ensures Valid() && Value() == Do(old(Value()), DoReboot)
    {
      hide Resolve, PowerCycled;
      ResetVolatile();
      ResolvePosition();
    }

    method TripBeam()
      requires Valid()
      modifies this, machine, tracker, tracker.id
      ensures Valid() && Value() == Do(old(Value()), DoTripBeam)
    {
      hide Handle;
      beamBlocked := true;
      StepLocked(SafetyBeamTripped);
    }

    method ClearBeam()
      requires Valid()
      modifies this, machine, tracker, tracker.id
      ensures Valid() && Value() == Do(old(Value()), DoClearBeam)
    {
      hide Handle;
      beamBlocked := false;
      StepLocked(SafetyBeamCleared);
    }

    method TickClock(dt: uint32)
      requires Valid()
      modifies this`now, this`acks, tracker`armed
      ensures Valid() && Value() == Tick(old(Value()), dt)
    {
      hide AfterTick;
      now := now + dt;
      var v := tracker.OnTick(now % TWO_32);
      RecordVerdict(v);
    }

    method Move(dt: uint32)
      requires Valid()
      modifies this, machine, tracker, tracker.id
      ensures Valid() && Value() == Travel(old(Value()), dt)
    {
      hide Handle;
      if motorOpen {
        position := position + dt;
        if position >= cfg.travel {
          position := cfg.travel;
          StepLocked(LimitOpenHit);
        }
      } else if motorClose {
        position := position - dt;
        if position <= 0 {
          position := 0;
          StepLocked(LimitClosedHit);
        }
      }
    }

    method CheckWatchdog()
      requires Valid()
      modifies this, machine, tracker, tracker.id
      ensures Valid() && Value() == Watchdog(old(Value()))
    {
      hide Handle;
      if watchdog != 0 && now >= watchdog {
        watchdog := 0;
        StepLocked(MotorTimeout);
      }
    }

    method CheckAutoClose()
      requires Valid()
      modifies this, machine, tracker, tracker.id
      ensures Valid() && Value() == AutoClose(old(Value()))
    {
      hide Handle;
      if autoclose != 0 && now >= autoclose {
        autoclose := 0;
        StepLocked(CommandClose);
      }
    }

    method AdvanceBy(dt: uint32)
      requires Valid()
      modifies this, machine, tracker, tracker.id
      ensures Valid() && Value() == Do(old(Value()), DoAdvance(dt))
    {
      hide Tick, Travel, Watchdog, AutoClose;
      TickClock(dt);
      Move(dt);
      CheckWatchdog();
      CheckAutoClose();
    }

    method DrainAcks() returns (out: seq<Ack>)
      requires Valid()
      modifies this`acks
      ensures Valid() && Value() == Do(old(Value()), DoDrainAcks)
      ensures out == old(acks)
    {
      out := acks;
      acks := [];
    }
  }
}
