/** The gate state machine: eight states, eleven edge-triggered events.

    `Step` is the transition table, written as a table: where an event leads,
    why, and what entering a state makes the drivers do.  `StateMachine` is the
    firmware's object, whose `Handle` works through a nest of early returns and
    pushes actions one by one; its contract ties it to the table. */
module GateMachine {

  datatype State =
    | Initializing
    | Closed
    | Opening
    | Open
    | Closing
    | StoppedOpen
    | StoppedClose
    | Faulted
  {
    predicate Moving() { Opening? || Closing? }
    predicate Stopped() { StoppedOpen? || StoppedClose? }
  }

  datatype Event =
    | CommandOpen
    | CommandClose
    | CommandStop
    | LimitOpenHit
    | LimitOpenReleased
    | LimitClosedHit
    | LimitClosedReleased
    | SafetyBeamTripped
    | SafetyBeamCleared
    | MotorTimeout
    | FaultCleared

  datatype Action =
    | DriveMotorOpen
    | DriveMotorClose
    | StopMotor
    | SetLedClosed
    | SetLedOpening
    | SetLedOpen
    | SetLedClosing
    | SetLedStopped
    | SetLedFault
    | EmitTelemetry

  datatype Reason =
    | NoReason
    | OperatorStop
    | SafetyBeamObstacle
    | MotorTimedOut
    | LimitSwitchConflict

  const MAX_ACTIONS := 3

  datatype Outputs = Outputs(actions: seq<Action>, newState: State, transitioned: bool, reason: Reason)

  datatype Machine = Machine(state: State, reason: Reason, beamClear: bool)

  const Fresh := Machine(Initializing, NoReason, true)

  // --- The transition table ---------------------------------------------------

  /** The beam latch follows the beam in every state. */
  function Latch(beamClear: bool, ev: Event): bool {
    ev.SafetyBeamCleared? || (beamClear && !ev.SafetyBeamTripped?)
  }

  /** Where `ev` leads from `s`; `s` itself when the event is ignored. */
  function Target(s: State, beamClear: bool, ev: Event): State {
    match ev
    case CommandOpen => if s.Closed? || s.Stopped() then Opening else s
    case CommandClose => if (s.Open? || s.Stopped()) && beamClear then Closing else s
    case CommandStop => if s.Opening? then StoppedOpen else if s.Closing? then StoppedClose else s
    case LimitOpenHit => if s.Opening? then Open else s
    case LimitClosedHit => if s.Closing? then Closed else s
    case SafetyBeamTripped => if s.Closing? then StoppedClose else s
    case MotorTimeout => if s.Moving() then Faulted else s
    case FaultCleared => if s.Faulted? then Initializing else s
    case _ => s
  }

  /** The reason a step reports: why motion ended, or why a close was refused. */
  function Cause(s: State, beamClear: bool, ev: Event): Reason {
    if ev.CommandStop? && s.Moving() then OperatorStop
    else if ev.MotorTimeout? && s.Moving() then MotorTimedOut
    else if ev.SafetyBeamTripped? && s.Closing? then SafetyBeamObstacle
    else if ev.CommandClose? && s.Open? && !beamClear then SafetyBeamObstacle
    else NoReason
  }

  /** What the drivers are told on entering `s`. */
  function EntryActions(s: State): seq<Action> {
    match s
    case Initializing => [EmitTelemetry]
    case Closed => [StopMotor, SetLedClosed, EmitTelemetry]
    case Opening => [DriveMotorOpen, SetLedOpening, EmitTelemetry]
    case Open => [StopMotor, SetLedOpen, EmitTelemetry]
    case Closing => [DriveMotorClose, SetLedClosing, EmitTelemetry]
    case StoppedOpen => [StopMotor, SetLedStopped, EmitTelemetry]
    case StoppedClose => [StopMotor, SetLedStopped, EmitTelemetry]
    case Faulted => [StopMotor, SetLedFault, EmitTelemetry]
  }

  /** The states an indicator stands for. */
  function Shows(a: Action): set<State> {
    match a
    case SetLedClosed => {Closed}
    case SetLedOpening => {Opening}
    case SetLedOpen => {Open}
    case SetLedClosing => {Closing}
    case SetLedStopped => {StoppedOpen, StoppedClose}
    case SetLedFault => {Faulted}
    case _ => {}
  }

  /** Entering a state drives the motor its way or stops it, shows an indicator that
      stands for it and none that does not, and tells the server; finding the position
      again leaves motor and indicator alone. */
  lemma EntryIsApt(s: State)
    ensures EmitTelemetry in EntryActions(s)
    ensures DriveMotorOpen in EntryActions(s) <==> s.Opening?
    ensures DriveMotorClose in EntryActions(s) <==> s.Closing?
    ensures StopMotor in EntryActions(s) <==> !s.Moving() && !s.Initializing?
    ensures forall a <- EntryActions(s) :: Shows(a) != {} ==> s in Shows(a)
    ensures !s.Initializing? ==> exists a <- EntryActions(s) :: s in Shows(a)
  {
    assert !s.Initializing? ==> s in Shows(EntryActions(s)[1]);
  }

  function Entering(s: State, why: Reason): Outputs {
    Outputs(EntryActions(s), s, true, why)
  }

  /** One event: the machine after it and what it emits.  The stored reason
      changes only on a stop, a fault, a fault reset, or a resume. */
  function Step(m: Machine, ev: Event): (r: (Machine, Outputs)) {
    var clear := Latch(m.beamClear, ev);
    var t := Target(m.state, clear, ev);
    var why := Cause(m.state, clear, ev);
    if t != m.state then
      var stored := if why != NoReason then why
                    else if m.state.Stopped() || m.state.Faulted? then NoReason
                    else m.reason;
      (Machine(t, stored, clear), Entering(t, why))
    else
      (Machine(m.state, m.reason, clear),
       Outputs(if why != NoReason then [EmitTelemetry] else [], m.state, false, why))
  }

  function InitClosed(m: Machine): (Machine, Outputs) {
    (m.(state := Closed, reason := NoReason), Entering(Closed, NoReason))
  }

  function InitOpen(m: Machine): (Machine, Outputs) {
    (m.(state := Open, reason := NoReason), Entering(Open, NoReason))
  }

  function InitUnknown(m: Machine): (Machine, Outputs) {
    (m.(state := Faulted, reason := LimitSwitchConflict), Entering(Faulted, LimitSwitchConflict))
  }

  // --- The object -------------------------------------------------------------

  /** The action buffer is fixed-size: a push past its end is dropped. */
  function Push(o: Outputs, a: Action): Outputs {
    if |o.actions| < MAX_ACTIONS then o.(actions := o.actions + [a]) else o
  }

  class StateMachine {
    var state: State
    var reason: Reason
    var beamClear: bool

    constructor ()
      ensures Value() == Fresh
    {
      state, reason, beamClear := Initializing, NoReason, true;
    }

    function Value(): Machine
      reads this
    {
      Machine(state, reason, beamClear)
    }

    /** What a newly assigned machine overwrites. */
    method Reset()
      modifies this
      ensures Value() == Fresh
    {
      state, reason, beamClear := Initializing, NoReason, true;
    }

    method BootClosed() returns (o: Outputs)
      modifies this
      ensures (Value(), o) == InitClosed(old(Value()))
    {
      o := Enter(Closed, NoReason, StopMotor, SetLedClosed);
      reason := NoReason;
    }

    method BootOpen() returns (o: Outputs)
      modifies this
      ensures (Value(), o) == InitOpen(old(Value()))
    {
      o := Enter(Open, NoReason, StopMotor, SetLedOpen);
      reason := NoReason;
    }

    method BootUnknown() returns (o: Outputs)
      modifies this
      ensures (Value(), o) == InitUnknown(old(Value()))
    {
      o := Enter(Faulted, LimitSwitchConflict, StopMotor, SetLedFault);
      reason := LimitSwitchConflict;
    }

    /** Move to `s`, reporting `why`, and push the three actions. */
    method Enter(s: State, why: Reason, motor: Action, led: Action) returns (o: Outputs)
      modifies this`state
      ensures state == s
      ensures o == Outputs([motor, led, EmitTelemetry], s, true, why)
    {
      state := s;
      o := Outputs([], s, true, why);
      o := Push(Push(Push(o, motor), led), EmitTelemetry);
    }

    method Handle(ev: Event) returns (o: Outputs)
      modifies this
      ensures (Value(), o) == Step(old(Value()), ev)
    {
      o := Outputs([], state, false, NoReason);

      if ev == SafetyBeamTripped {
        beamClear := false;
      } else if ev == SafetyBeamCleared {
        beamClear := true;
      }

      if ev == CommandStop {
        if state == Opening {
          o := Enter(StoppedOpen, OperatorStop, StopMotor, SetLedStopped);
          reason := OperatorStop;
        } else if state == Closing {
          o := Enter(StoppedClose, OperatorStop, StopMotor, SetLedStopped);
          reason := OperatorStop;
        }
        return;
      }

      if ev == FaultCleared {
        if state != Faulted {
          return;
        }
        state, reason := Initializing, NoReason;
        o := Push(Outputs([], state, true, NoReason), EmitTelemetry);
        assert o.actions == [EmitTelemetry];
        return;
      }

      if ev == MotorTimeout {
        if state == Opening || state == Closing {
          o := Enter(Faulted, MotorTimedOut, StopMotor, SetLedFault);
          reason := MotorTimedOut;
        }
        return;
      }

      o := HandleInState(ev);
    }

    /** A stopped gate resumes either way, closing only past a clear beam. */
    method HandleStopped(ev: Event) returns (o: Outputs)
      requires state.Stopped() && beamClear == Latch(beamClear, ev)
      requires ev != CommandStop && ev != FaultCleared && ev != MotorTimeout
      modifies this
      ensures (Value(), o) == Step(old(Value()), ev)
    {
      o := Outputs([], state, false, NoReason);
      if ev == CommandOpen {
        o := Enter(Opening, NoReason, DriveMotorOpen, SetLedOpening);
        reason := NoReason;
      } else if ev == CommandClose && beamClear {
        o := Enter(Closing, NoReason, DriveMotorClose, SetLedClosing);
        reason := NoReason;
      }
    }

    /** The events each state takes on its own, with the latch already updated. */
    method HandleInState(ev: Event) returns (o: Outputs)
      requires beamClear == Latch(beamClear, ev)
      requires ev != CommandStop && ev != FaultCleared && ev != MotorTimeout
      modifies this
      ensures (Value(), o) == Step(old(Value()), ev)
    {
      o := Outputs([], state, false, NoReason);
      match state {
        case Closed =>
          if ev == CommandOpen {
            o := Enter(Opening, NoReason, DriveMotorOpen, SetLedOpening);
          }
        case Opening =>
          if ev == LimitOpenHit {
            o := Enter(Open, NoReason, StopMotor, SetLedOpen);
          }
        case Open =>
          if ev == CommandClose {
            if !beamClear {
              o := Push(o, EmitTelemetry).(reason := SafetyBeamObstacle);
              assert o.actions == [EmitTelemetry];
              return;
            }
            o := Enter(Closing, NoReason, DriveMotorClose, SetLedClosing);
          }
        case Closing =>
          if ev == LimitClosedHit {
            o := Enter(Closed, NoReason, StopMotor, SetLedClosed);
          } else if ev == SafetyBeamTripped {
            o := Enter(StoppedClose, SafetyBeamObstacle, StopMotor, SetLedStopped);
            reason := SafetyBeamObstacle;
          }
        case StoppedOpen => o := HandleStopped(ev);
        case StoppedClose => o := HandleStopped(ev);
        case Faulted =>
        case Initializing =>
      }
    }
  }
}
