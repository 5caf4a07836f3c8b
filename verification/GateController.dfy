/** The firmware's controller: the same wiring as the virtual gate, driven by an
    event queue, two motor relays and two one-shot timers.

    `Pump` takes one event off the queue; `GateController` is the object.  The last
    part puts the controller on a simulated gate whose limit switches report edges
    and says exactly when it agrees with the virtual gate. */
module GateControl {
  import opened GateMachine
  import opened CommandTracking
  import opened VirtualGates
  import opened GateSafety
  import opened Words

  const QUEUE_DEPTH := 16

  datatype Timer = Off | Due(at: nat)

  datatype Controller = Controller(
    cfg: Config,
    machine: Machine,
    relayOpen: bool,
    relayClose: bool,
    watchdog: Timer,
    autoclose: Timer,
    queue: seq<Event>)

  /** What the debounced limit switches read, and the time. */
  datatype Inputs = Inputs(now: nat, openActive: bool, closedActive: bool)

  // --- One event ----------------------------------------------------------------

  /** A full queue drops the event. */
  function Post(c: Controller, ev: Event): Controller {
    if |c.queue| < QUEUE_DEPTH then c.(queue := c.queue + [ev]) else c
  }

  function Relays(c: Controller, out: Outputs): Controller {
    if out.transitioned && !out.newState.Initializing?
    then c.(relayOpen := out.newState.Opening?, relayClose := out.newState.Closing?)
    else c
  }

  function StartStop(c: Controller, out: Outputs, now: nat): Controller {
    if out.transitioned then
      c.(watchdog := if out.newState.Moving() && c.cfg.motorTimeout > 0 then Due(now + c.cfg.motorTimeout) else Off,
         autoclose := if out.newState.Open? && c.cfg.autoClose > 0 then Due(now + c.cfg.autoClose) else Off)
    else c
  }

  function Policies(c: Controller, out: Outputs, now: nat): Controller {
    if Reverses(c.cfg, out) then Post(c, CommandOpen)
    else if Retries(c.cfg, out) then c.(autoclose := Due(now + c.cfg.autoClose))
    else c
  }

  /** Exactly one limit asserted places the gate; anything else is a fault. */
  function Locate(c: Controller, i: Inputs): Controller {
    var (m, o) := if i.closedActive && !i.openActive then InitClosed(c.machine)
                  else if i.openActive && !i.closedActive then InitOpen(c.machine)
                  else InitUnknown(c.machine);
    StartStop(Relays(c.(machine := m), o), o, i.now)
  }

  function Pump(c: Controller, i: Inputs): Controller
    requires c.queue != []
  {
    var ev := c.queue[0];
    var (m, o) := Step(c.machine, ev);
    var c1 := Relays(c.(machine := m, queue := c.queue[1..]), o);
    var c2 := Policies(StartStop(c1, o, i.now), o, i.now);
    if ev.FaultCleared? && o.transitioned && o.newState.Initializing? then Locate(c2, i) else c2
  }

  /** Pumping always ends: only a beam trip posts, and what it posts does not. */
  function Weight(q: seq<Event>): nat {
    if q == [] then 0 else (if q[0].SafetyBeamTripped? then 2 else 1) + Weight(q[1..])
  }

  lemma {:induction false} WeightAppends(q: seq<Event>, ev: Event)
    ensures Weight(q + [ev]) == Weight(q) + if ev.SafetyBeamTripped? then 2 else 1
  {
    if q != [] {
      assert (q + [ev])[1..] == q[1..] + [ev];
      WeightAppends(q[1..], ev);
    }
  }

  /** Only a broken beam makes the policy post. */
  lemma StepPosts(m: Machine, ev: Event, cfg: Config)
    ensures Reverses(cfg, Step(m, ev).1) ==> ev.SafetyBeamTripped?
  {
  }

  lemma PumpShrinks(c: Controller, i: Inputs)
    requires c.queue != []
    ensures Weight(Pump(c, i).queue) < Weight(c.queue)
  {
    hide Step;
    StepPosts(c.machine, c.queue[0], c.cfg);
    WeightAppends(c.queue[1..], CommandOpen);
  }

  function Drain(c: Controller, i: Inputs): Controller
    decreases Weight(c.queue)
  {
    if c.queue == [] then c else PumpShrinks(c, i); Drain(Pump(c, i), i)
  }

  // --- The relays, write by write --------------------------------------------------

  datatype RelayWrite = SetOpen(on: bool) | SetClose(on: bool)

  /** Break before make. */
  function Writes(a: Action): seq<RelayWrite> {
    match a
    case DriveMotorOpen => [SetClose(false), SetOpen(true)]
    case DriveMotorClose => [SetOpen(false), SetClose(true)]
    case StopMotor => [SetOpen(false), SetClose(false)]
    case _ => []
  }

  function Write(r: (bool, bool), w: RelayWrite): (bool, bool) {
    match w
    case SetOpen(on) => (on, r.1)
    case SetClose(on) => (r.0, on)
  }

  /** Every pair of relay levels seen while writing, the starting pair first. */
  function Levels(r: (bool, bool), ws: seq<RelayWrite>): seq<(bool, bool)>
    decreases |ws|
  {
    if ws == [] then [r] else [r] + Levels(Write(r, ws[0]), ws[1..])
  }

  function WritesOf(actions: seq<Action>): seq<RelayWrite> {
    if actions == [] then [] else Writes(actions[0]) + WritesOf(actions[1..])
  }

  /** Whatever actions arrive in whatever order, the two contactors are never
      energised together, not even between two writes of one action. */
  lemma {:induction false} NeverBothOn(r: (bool, bool), actions: seq<Action>, k: nat)
    requires !(r.0 && r.1) && k < |Levels(r, WritesOf(actions))|
    ensures var l := Levels(r, WritesOf(actions))[k]; !(l.0 && l.1)
    decreases |actions|
  {
    if actions != [] {
      var ws := Writes(actions[0]);
      var rest := WritesOf(actions[1..]);
      if ws == [] {
        assert WritesOf(actions) == rest;
        NeverBothOn(r, actions[1..], k);
      } else {
        var all := WritesOf(actions);
        assert all == [ws[0], ws[1]] + rest;
        assert all[1..] == [ws[1]] + rest && all[1..][1..] == rest;
        var r1 := Write(r, ws[0]);
        var r2 := Write(r1, ws[1]);
        assert Levels(r, all) == [r] + Levels(r1, all[1..]);
        assert Levels(r1, all[1..]) == [r1] + Levels(r2, rest);
        if k >= 2 {
          NeverBothOn(r2, actions[1..], k - 2);
        }
      }
    }
  }

  /** The writes end where `Relays` says. */
  lemma LevelsEnd(c: Controller, out: Outputs)
    requires Emitted(out)
    ensures var l := Levels((c.relayOpen, c.relayClose), WritesOf(out.actions));
            l != [] && l[|l| - 1] == (Relays(c, out).relayOpen, Relays(c, out).relayClose)
  {
    var r := (c.relayOpen, c.relayClose);
    if !out.transitioned {
      QuietWrites(r, out.actions);
    } else if out.newState.Initializing? {
      QuietWrites(r, [EmitTelemetry]);
    } else {
      MotorWrites(r, out.actions[0], out.actions);
    }
  }

  lemma QuietWrites(r: (bool, bool), actions: seq<Action>)
    requires actions == [] || actions == [EmitTelemetry]
    ensures Levels(r, WritesOf(actions)) == [r]
  {
    if actions != [] {
      assert WritesOf(actions[1..]) == [];
    }
  }

  lemma MotorWrites(r: (bool, bool), a: Action, actions: seq<Action>)
    requires |actions| == 3 && actions[0] == a && Writes(a) != []
    requires Writes(actions[1]) == [] && Writes(actions[2]) == []
    ensures var r1 := Write(r, Writes(a)[0]);
            Levels(r, WritesOf(actions)) == [r, r1, Write(r1, Writes(a)[1])]
  {
    var ws := Writes(a);
    assert WritesOf(actions[1..][1..]) == [] by {
      assert actions[1..][1..][1..] == [];
    }
    assert WritesOf(actions[1..]) == [];
    assert WritesOf(actions) == ws;
    var r1 := Write(r, ws[0]);
    var r2 := Write(r1, ws[1]);
    assert Levels(r2, ws[1..][1..]) == [r2];
    assert Levels(r1, ws[1..]) == [r1] + [r2];
  }

  datatype Happening = Arrives(ev: Event) | WatchdogFires | AutoCloseFires | Pumps(inputs: Inputs)

  /** Producers post, timers fire and the pump turns, in any order. */
  function Happens(c: Controller, h: Happening): Controller {
    match h
    case Arrives(ev) => Post(c, ev)
    case WatchdogFires => Post(c.(watchdog := Off), MotorTimeout)
    case AutoCloseFires => Post(c.(autoclose := Off), CommandClose)
    case Pumps(i) => if c.queue == [] then c else Pump(c, i)
  }

  function HappensAll(c: Controller, hs: seq<Happening>): Controller {
    if hs == [] then c else Happens(HappensAll(c, hs[..|hs| - 1]), hs[|hs| - 1])
  }

  function Pair(c: Controller): (bool, bool) { (c.relayOpen, c.relayClose) }

  lemma PumpedPair(c: Controller, i: Inputs)
    requires c.queue != []
    ensures var o := Step(c.machine, c.queue[0]).1;
            Pair(Pump(c, i)) == Pair(Relays(c, if Relocates(c) then Reading(i) else o))
  {
    hide Step;
  }

  /** The pump re-reads the position after this event. */
  predicate Relocates(c: Controller)
    requires c.queue != []
  {
    var o := Step(c.machine, c.queue[0]).1;
    c.queue[0].FaultCleared? && o.transitioned && o.newState.Initializing?
  }

  /** The outputs of re-reading the position: entry to the state the limits show. */
  function Reading(i: Inputs): Outputs {
    if i.closedActive && !i.openActive then Entering(Closed, NoReason)
    else if i.openActive && !i.closedActive then Entering(Open, NoReason)
    else Entering(Faulted, LimitSwitchConflict)
  }

  /** Every pair of relay levels seen during one happening, write by write. */
  function TurnLevels(c: Controller, h: Happening): seq<(bool, bool)> {
    if h.Pumps? && c.queue != [] then
      var o := Step(c.machine, c.queue[0]).1;
      Levels(Pair(c), WritesOf(o.actions)) +
      if Relocates(c) then Levels(Pair(Relays(c, o)), WritesOf(Reading(h.inputs).actions)) else []
    else [Pair(c)]
  }

  /** Every pair of relay levels seen over a whole run. */
  function RunLevels(c: Controller, hs: seq<Happening>): seq<(bool, bool)> {
    if hs == [] then [Pair(c)]
    else RunLevels(c, hs[..|hs| - 1]) + TurnLevels(HappensAll(c, hs[..|hs| - 1]), hs[|hs| - 1])
  }

  predicate OneAtMost(levels: seq<(bool, bool)>) { forall l <- levels :: !(l.0 && l.1) }

  lemma StepEmits(m: Machine, ev: Event)
    ensures Emitted(Step(m, ev).1)
  {
  }

  lemma LevelsApart(c: Controller, out: Outputs)
    requires Emitted(out) && !(c.relayOpen && c.relayClose)
    ensures var ls := Levels(Pair(c), WritesOf(out.actions));
            OneAtMost(ls) && ls != [] && ls[|ls| - 1] == Pair(Relays(c, out))
  {
    hide Levels, WritesOf, Emitted, Relays;
    var ls := Levels(Pair(c), WritesOf(out.actions));
    forall l | l in ls ensures !(l.0 && l.1) {
      var k: nat :| k < |ls| && ls[k] == l;
      NeverBothOn(Pair(c), out.actions, k);
    }
    LevelsEnd(c, out);
  }

  /** One happening never has both relays on, and ends at the levels it leaves. */
  lemma TurnApart(c: Controller, h: Happening)
    requires !(c.relayOpen && c.relayClose)
    ensures var ls := TurnLevels(c, h);
            OneAtMost(ls) && ls != [] && ls[|ls| - 1] == Pair(Happens(c, h))
  {
    hide Step, Levels, WritesOf, Emitted, Relays, Pump, Relocates;
    if h.Pumps? && c.queue != [] {
      var o := Step(c.machine, c.queue[0]).1;
      PumpedPair(c, h.inputs);
      StepEmits(c.machine, c.queue[0]);
      LevelsApart(c, o);
      if Relocates(c) {
        var c1 := c.(relayOpen := Relays(c, o).relayOpen, relayClose := Relays(c, o).relayClose);
        var ls := Levels(Pair(c), WritesOf(o.actions));
        assert ls[|ls| - 1] in ls;
        ReadingEmits(c, c1, h.inputs);
        LevelsApart(c1, Reading(h.inputs));
      }
    }
  }

  lemma ReadingEmits(c: Controller, c1: Controller, i: Inputs)
    ensures Emitted(Reading(i)) && Pair(Relays(c1, Reading(i))) == Pair(Relays(c, Reading(i)))
  {
  }

  /** Under any order of posts, timer firings and pump turns, the two contactors are
      never energised together at any write of the whole run; and the levels written
      end where the controller is. */
  lemma {:induction false} RunNeverBothOn(c: Controller, hs: seq<Happening>)
    requires !(c.relayOpen && c.relayClose)
    ensures var ls := RunLevels(c, hs);
            OneAtMost(ls) && ls != [] && ls[|ls| - 1] == Pair(HappensAll(c, hs))
    decreases |hs|
  {
    hide Happens, TurnLevels;
    if hs != [] {
      RunNeverBothOn(c, hs[..|hs| - 1]);
      var d, ls := HappensAll(c, hs[..|hs| - 1]), RunLevels(c, hs[..|hs| - 1]);
      assert ls[|ls| - 1] in ls;
      TurnApart(d, hs[|hs| - 1]);
    }
  }

  // --- The object ------------------------------------------------------------------

  function NewController(cfg: Config): Controller {
    Controller(cfg, Fresh, false, false, Off, Off, [])
  }

  /** Latch a blocked beam, then locate the gate. */
  function Begin(c: Controller, beamBlocked: bool, i: Inputs): Controller {
    Locate(if beamBlocked then c.(machine := Step(c.machine, SafetyBeamTripped).0) else c, i)
  }

  function Started(cfg: Config, beamBlocked: bool, i: Inputs): Controller {
    Begin(NewController(cfg), beamBlocked, i)
  }

  class GateController {
    const cfg: Config
    const machine: StateMachine
    var relayOpen: bool
    var relayClose: bool
    var watchdog: Timer
    var autoclose: Timer
    var queue: seq<Event>
    var started: bool

    function Value(): Controller
      reads this, machine
    {
      Controller(cfg, machine.Value(), relayOpen, relayClose, watchdog, autoclose, queue)
    }

    constructor (cfg: Config)
      ensures Value() == NewController(cfg) && !started && fresh(machine)
    {
      this.cfg := cfg;
      machine := new StateMachine();
      relayOpen, relayClose := false, false;
      watchdog, autoclose := Off, Off;
      queue := [];
      started := false;
    }

    method PostEvent(ev: Event)
      modifies this`queue
      ensures Value() == Post(old(Value()), ev)
    {
      if |queue| < QUEUE_DEPTH {
        queue := queue + [ev];
      }
    }

    /** One relay write.  Energising a coil demands that the other is already off. */
    method SetRelayOpen(on: bool)
      requires on ==> !relayClose
      modifies this`relayOpen
      ensures relayOpen == on
    {
      relayOpen := on;
    }

    method SetRelayClose(on: bool)
      requires on ==> !relayOpen
      modifies this`relayClose
      ensures relayClose == on
    {
      relayClose := on;
    }

    method Execute(out: Outputs)
      requires Emitted(out)
      modifies this`relayOpen, this`relayClose
      ensures Value() == Relays(old(Value()), out)
    {
      for i := 0 to |out.actions|
        invariant i == 0 ==> relayOpen == old(relayOpen) && relayClose == old(relayClose)
        invariant i > 0 ==> relayOpen == Relays(old(Value()), out).relayOpen
        invariant i > 0 ==> relayClose == Relays(old(Value()), out).relayClose
      {
        match out.actions[i] {
          case DriveMotorOpen =>
            SetRelayClose(false);
            SetRelayOpen(true);
          case DriveMotorClose =>
            SetRelayOpen(false);
            SetRelayClose(true);
          case StopMotor =>
            SetRelayOpen(false);
            SetRelayClose(false);
          case _ =>
        }
      }
    }

    method ManageTimers(out: Outputs, now: nat)
      modifies this`watchdog, this`autoclose
      ensures Value() == StartStop(old(Value()), out, now)
    {
      if !out.transitioned {
        return;
      }
      var moving := out.newState == Opening || out.newState == Closing;
      if watchdog.Due? {
        watchdog := Off;
      }
      if moving && cfg.motorTimeout > 0 {
        watchdog := Due(now + cfg.motorTimeout);
      }
      if autoclose.Due? {
        autoclose := Off;
      }
      if out.newState == Open && cfg.autoClose > 0 {
        autoclose := Due(now + cfg.autoClose);
      }
    }

    method ApplyPolicies(out: Outputs, now: nat)
      modifies this`queue, this`autoclose
      ensures Value() == Policies(old(Value()), out, now)
    {
      if cfg.reverseOnBeam && out.transitioned && out.newState == StoppedClose
         && out.reason == SafetyBeamObstacle {
        PostEvent(CommandOpen);
        return;
      }
      if !out.transitioned && out.newState == Open && out.reason == SafetyBeamObstacle
         && cfg.autoClose > 0 {
        if autoclose.Due? {
          autoclose := Off;
        }
        autoclose := Due(now + cfg.autoClose);
      }
    }

    method ResolveBootPosition(i: Inputs)
      modifies this, machine
      ensures Value() == Locate(old(Value()), i) && started == old(started)
    {
      var out;
      if i.closedActive && !i.openActive {
        out := machine.BootClosed();
      } else if i.openActive && !i.closedActive {
        out := machine.BootOpen();
      } else {
        out := machine.BootUnknown();
      }
      Execute(out);
      ManageTimers(out, i.now);
    }

    /** One turn of the pump task with an event waiting. */
    method PumpOne(i: Inputs)
      requires queue != []
      modifies this, machine
      ensures Value() == Pump(old(Value()), i) && started == old(started)
    {
      var ev := queue[0];
      queue := queue[1..];
      var out := machine.Handle(ev);
      Execute(out);
      ManageTimers(out, i.now);
      ApplyPolicies(out, i.now);
      if ev == FaultCleared && out.transitioned && out.newState == Initializing {
        ResolveBootPosition(i);
      }
    }

    /** The pump task until it blocks on an empty queue. */
    method PumpUntilIdle(i: Inputs)
      modifies this, machine
      ensures Value() == Drain(old(Value()), i) && queue == [] && started == old(started)
    {
      while queue != []
        invariant started == old(started)
        invariant Drain(Value(), i) == Drain(old(Value()), i)
        decreases Weight(queue)
      {
        PumpShrinks(Value(), i);
        PumpOne(i);
      }
    }

    /** Refused the second time. */
    method Start(i: Inputs, beamBlocked: bool) returns (ok: bool)
      modifies this, machine
      ensures started && ok == !old(started)
      ensures Value() == if ok then Begin(old(Value()), beamBlocked, i) else old(Value())
    {
      if started {
        return false;
      }
      started := true;
      if beamBlocked {
        var _ := machine.Handle(SafetyBeamTripped);
      }
      ResolveBootPosition(i);
      return true;
    }
  }

  // --- What a started controller keeps ------------------------------------------------

  /** Each relay is on exactly in its state, and the queue never outgrows its 16 slots. */
  predicate Driven(c: Controller) {
    && (c.relayOpen <==> c.machine.state.Opening?) && (c.relayClose <==> c.machine.state.Closing?)
    && |c.queue| <= 16
  }

  lemma PumpDriven(c: Controller, i: Inputs)
    requires Driven(c) && c.queue != []
    ensures Driven(Pump(c, i))
  {
    hide Step;
    StepFacts(c.machine, c.queue[0]);
  }

  lemma HappensDriven(c: Controller, h: Happening)
    requires Driven(c)
    ensures Driven(Happens(c, h))
  {
    hide Pump;
    if h.Pumps? && c.queue != [] {
      PumpDriven(c, h.inputs);
    }
  }

  /** The limits place a starting controller, with both relays off and the beam latched;
      none or both of them asserted is a fault. */
  lemma StartPlaces(cfg: Config, beamBlocked: bool, i: Inputs)
    ensures var c := Started(cfg, beamBlocked, i);
            && !c.relayOpen && !c.relayClose && c.watchdog == Off && c.queue == []
            && c.machine.beamClear == !beamBlocked
            && (c.machine.state.Closed? <==> i.closedActive && !i.openActive)
            && (c.machine.state.Open? <==> i.openActive && !i.closedActive)
            && (c.machine.state.Faulted? <==> i.openActive == i.closedActive)
            && (c.machine.reason == if c.machine.state.Faulted? then LimitSwitchConflict else NoReason)
            && c.autoclose == (if c.machine.state.Open? && cfg.autoClose > 0 then Due(i.now + cfg.autoClose) else Off)
  {
  }

  lemma {:induction false} RunDriven(cfg: Config, beamBlocked: bool, i: Inputs, hs: seq<Happening>)
    ensures Driven(HappensAll(Started(cfg, beamBlocked, i), hs))
    decreases |hs|
  {
    hide Happens, Started;
    if hs == [] {
      StartPlaces(cfg, beamBlocked, i);
    } else {
      RunDriven(cfg, beamBlocked, i, hs[..|hs| - 1]);
      HappensDriven(HappensAll(Started(cfg, beamBlocked, i), hs[..|hs| - 1]), hs[|hs| - 1]);
    }
  }

  /** After every run of a started controller, the turn that takes a stop leaves both
      relays off, stops the machine if one was on, and takes nothing else. */
  lemma StopTurnStops(cfg: Config, beamBlocked: bool, i: Inputs, hs: seq<Happening>, now: Inputs)
    requires var c := HappensAll(Started(cfg, beamBlocked, i), hs); c.queue != [] && c.queue[0].CommandStop?
    ensures var c := HappensAll(Started(cfg, beamBlocked, i), hs);
            var d := Pump(c, now);
            && !d.relayOpen && !d.relayClose && d.queue == c.queue[1..]
            && (c.relayOpen ==> d.machine == Machine(StoppedOpen, OperatorStop, c.machine.beamClear))
            && (c.relayClose ==> d.machine == Machine(StoppedClose, OperatorStop, c.machine.beamClear))
            && (c.relayOpen || c.relayClose ==> d.watchdog == Off && d.autoclose == Off)
            && (!c.relayOpen && !c.relayClose ==> d == c.(queue := c.queue[1..]))
  {
    hide HappensAll, Started;
    RunDriven(cfg, beamBlocked, i, hs);
  }

  /** The queue takes events first in, first out, and drops one that finds 16 waiting. */
  lemma QueueTakesSixteen(c: Controller, ev: Event)
    ensures |c.queue| < 16 ==> Post(c, ev) == c.(queue := c.queue + [ev])
    ensures |c.queue| >= 16 ==> Post(c, ev) == c
  {
  }

  // --- Agreement with the virtual gate ----------------------------------------------

  /** The controller on a gate whose position its relays move.  Beam and limit
      drivers post an event only when their level changes. */
  datatype Rig = Rig(ctl: Controller, now: nat, position: int, beamBlocked: bool) {
    predicate OpenActive() { position >= ctl.cfg.travel }
    predicate ClosedActive() { position <= 0 }
    function Sense(): Inputs { Inputs(now, OpenActive(), ClosedActive()) }
  }

  /** One event, drained before the next. */
  function Inject(r: Rig, ev: Event): Rig {
    r.(ctl := Drain(Post(r.ctl, ev), r.Sense()))
  }

  function Coast(r: Rig, dt: uint32): Rig {
    if r.ctl.relayOpen then
      r.(position := if r.position + dt >= r.ctl.cfg.travel then r.ctl.cfg.travel else r.position + dt)
    else if r.ctl.relayClose then
      r.(position := if r.position - dt <= 0 then 0 else r.position - dt)
    else r
  }

  function Edges(before: Rig, r: Rig): Rig {
    var r1 := if before.ClosedActive() && !r.ClosedActive() then Inject(r, LimitClosedReleased)
              else if !before.ClosedActive() && r.ClosedActive() then Inject(r, LimitClosedHit)
              else r;
    if before.OpenActive() && !r.OpenActive() then Inject(r1, LimitOpenReleased)
    else if !before.OpenActive() && r.OpenActive() then Inject(r1, LimitOpenHit)
    else r1
  }

  function ExpireWatchdog(r: Rig): Rig {
    if r.ctl.watchdog.Due? && r.now >= r.ctl.watchdog.at
    then Inject(r.(ctl := r.ctl.(watchdog := Off)), MotorTimeout) else r
  }

  function ExpireAutoClose(r: Rig): Rig {
    if r.ctl.autoclose.Due? && r.now >= r.ctl.autoclose.at
    then Inject(r.(ctl := r.ctl.(autoclose := Off)), CommandClose) else r
  }

  function RigAdvance(r: Rig, dt: uint32): Rig {
    var r1 := r.(now := r.now + dt);
    ExpireAutoClose(ExpireWatchdog(Edges(r1, Coast(r1, dt))))
  }

  function RigDo(r: Rig, op: Op): Rig
    requires !op.DoBootClosed?
  {
    match op
    case DoIssue(_, c) => Inject(r, c.Event())
    case DoLocalOpen => Inject(r, CommandOpen)
    case DoLocalClose => Inject(r, CommandClose)
    case DoStop => Inject(r, CommandStop)
    case DoClearFault => Inject(r, FaultCleared)
    case DoReboot => r.(ctl := Started(r.ctl.cfg, r.beamBlocked, r.Sense()))
    case DoTripBeam => if r.beamBlocked then r else Inject(r.(beamBlocked := true), SafetyBeamTripped)
    case DoClearBeam => if r.beamBlocked then Inject(r.(beamBlocked := false), SafetyBeamCleared) else r
    case DoAdvance(dt) => RigAdvance(r, dt)
    case DoDrainAcks => r
  }

  function Deadline(d: nat): Timer { if d == 0 then Off else Due(d) }

  /** Same state, same energised relay, same armed timers, nothing queued. */
  predicate Agree(r: Rig, g: Gate) {
    && r.ctl == Controller(g.cfg, g.machine, g.motorOpen, g.motorClose,
                           Deadline(g.watchdog), Deadline(g.autoclose), [])
    && r.now == g.now && r.position == g.position && r.beamBlocked == g.beamBlocked
  }

  lemma PumpAgrees(r: Rig, g: Gate, ev: Event)
    requires Agree(r, g) && g.cfg.motorTimeout > 0 && !Reversal(g, ev) && !ev.FaultCleared?
    ensures Agree(r.(ctl := Pump(r.ctl.(queue := [ev]), r.Sense())), Handle(g, ev))
  {
    hide Step, Apply;
    StepPolicies(g, ev);
    var (m, o) := Step(g.machine, ev);
    ApplyOnce(g.(machine := m), o);
    var c := r.ctl.(queue := [ev]);
    assert c.queue[1..] == [];
  }

  lemma DrainOne(c: Controller, ev: Event, i: Inputs)
    requires c.queue == [] && Pump(c.(queue := [ev]), i).queue == []
    ensures Drain(Post(c, ev), i) == Pump(c.(queue := [ev]), i)
  {
    hide Pump;
    assert Post(c, ev) == c.(queue := [ev]);
    PumpShrinks(c.(queue := [ev]), i);
  }

  lemma DrainTwo(c: Controller, ev: Event, ev': Event, i: Inputs)
    requires c.queue == [] && Pump(c.(queue := [ev]), i).queue == [ev']
    requires var c1 := Pump(c.(queue := [ev]), i); Pump(c1, i).queue == []
    ensures Drain(Post(c, ev), i) == Pump(Pump(c.(queue := [ev]), i), i)
  {
    hide Pump;
    assert Post(c, ev) == c.(queue := [ev]);
    PumpShrinks(c.(queue := [ev]), i);
    var c1 := Pump(c.(queue := [ev]), i);
    PumpShrinks(c1, i);
    assert Drain(c1, i) == Drain(Pump(c1, i), i);
  }

  lemma TripPumps(c: Controller, i: Inputs)
    requires c.queue == [SafetyBeamTripped] && c.machine.state.Closing? && c.cfg.reverseOnBeam
    ensures Pump(c, i) == Controller(c.cfg, Machine(StoppedClose, SafetyBeamObstacle, false), false, false, Off, Off,
                                     [CommandOpen])
  {
    hide Step;
    ReversalSteps(c.machine, SafetyBeamTripped);
    assert c.queue[1..] == [];
    assert [] + [CommandOpen] == [CommandOpen];
  }

  lemma ReopenPumps(c: Controller, i: Inputs)
    requires c.queue == [CommandOpen] && c.machine == Machine(StoppedClose, SafetyBeamObstacle, false)
    requires c.cfg.motorTimeout > 0
    ensures Pump(c, i) == Controller(c.cfg, Machine(Opening, NoReason, false), true, false,
                                     Due(i.now + c.cfg.motorTimeout), Off, [])
  {
    hide Step;
    ReversalSteps(Machine(Closing, NoReason, true), SafetyBeamTripped);
    assert c.queue[1..] == [];
  }

  lemma ReversalAgrees(r: Rig, g: Gate)
    requires Agree(r, g) && g.cfg.motorTimeout > 0 && Reversal(g, SafetyBeamTripped)
    ensures Agree(Inject(r, SafetyBeamTripped), Handle(g, SafetyBeamTripped))
  {
    hide Pump, Drain, Handle;
    ReversalSettles(g, SafetyBeamTripped);
    var c0 := r.ctl.(queue := [SafetyBeamTripped]);
    TripPumps(c0, r.Sense());
    ReopenPumps(Pump(c0, r.Sense()), r.Sense());
    DrainTwo(r.ctl, SafetyBeamTripped, CommandOpen, r.Sense());
  }

  /** Any event but a fault reset, drained before the next, moves the controller
      exactly as it moves the virtual gate. */
  lemma InjectAgrees(r: Rig, g: Gate, ev: Event)
    requires Agree(r, g) && g.cfg.motorTimeout > 0 && !ev.FaultCleared?
    ensures Agree(Inject(r, ev), Handle(g, ev))
  {
    hide Pump, Drain, Handle;
    if Reversal(g, ev) {
      ReversalAgrees(r, g);
    } else {
      PumpAgrees(r, g, ev);
      DrainOne(r.ctl, ev, r.Sense());
    }
  }

  /** A gate that has been booted and is between calls. */
  predicate Ready(g: Gate) {
    && g.cfg.travel > 0 && g.cfg.motorTimeout > 0
    && Safe(g) && Timed(g) && !g.machine.state.Initializing?
  }

  lemma IgnoredAgrees(r: Rig, g: Gate, ev: Event)
    requires Agree(r, g) && g.cfg.motorTimeout > 0 && (ev.LimitOpenReleased? || ev.LimitClosedReleased?)
    ensures Agree(Inject(r, ev), g)
  {
    hide Inject, Handle;
    InjectAgrees(r, g, ev);
    HandleSettles(g, ev);
  }

  lemma ClearFaultAgrees(r: Rig, g: Gate)
    requires Agree(r, g) && Ready(g)
    ensures Agree(Inject(r, FaultCleared), ClearFault(g))
  {
    hide Pump, Apply, Step;
    if g.machine.state.Faulted? {
      FaultPumps(r.ctl.(queue := [FaultCleared]), r.Sense());
      HandleSettles(g, FaultCleared);
      ResolveSettles(Handle(g, FaultCleared));
    } else {
      QuietPumps(r.ctl.(queue := [FaultCleared]), r.Sense());
      HandleSettles(g, FaultCleared);
    }
    DrainOne(r.ctl, FaultCleared, r.Sense());
  }

  lemma QuietPumps(c: Controller, i: Inputs)
    requires c.queue == [FaultCleared] && !c.machine.state.Faulted?
    ensures Pump(c, i) == c.(queue := [])
  {
    assert c.queue[1..] == [];
  }

  lemma FaultPumps(c: Controller, i: Inputs)
    requires c.queue == [FaultCleared] && c.machine.state.Faulted?
    ensures Pump(c, i) == Locate(Controller(c.cfg, Machine(Initializing, NoReason, c.machine.beamClear),
                                            c.relayOpen, c.relayClose, Off, Off, []), i)
  {
    assert c.queue[1..] == [];
  }

  lemma RebootAgrees(r: Rig, g: Gate)
    requires Agree(r, g) && Ready(g)
    ensures Agree(RigDo(r, DoReboot), Reboot(g))
  {
    hide Resolve, PowerCycled;
    PowerCycledIs(g);
    ResolveSettles(PowerCycled(g));
  }

  lemma WatchdogAgrees(r: Rig, g: Gate)
    requires Agree(r, g) && g.cfg.motorTimeout > 0
    ensures Agree(ExpireWatchdog(r), Watchdog(g)) && Watchdog(g).cfg == g.cfg
  {
    hide Inject, Handle;
    InjectAgrees(r.(ctl := r.ctl.(watchdog := Off)), g.(watchdog := 0), MotorTimeout);
    HandleSettles(g.(watchdog := 0), MotorTimeout);
  }

  lemma AutoCloseAgrees(r: Rig, g: Gate)
    requires Agree(r, g) && g.cfg.motorTimeout > 0
    ensures Agree(ExpireAutoClose(r), AutoClose(g))
  {
    hide Inject, Handle;
    InjectAgrees(r.(ctl := r.ctl.(autoclose := Off)), g.(autoclose := 0), CommandClose);
  }

  /** The motor is driving into a limit switch that is already active. */
  predicate Pinned(g: Gate) {
    || (g.motorOpen && g.position == g.cfg.travel)
    || (g.motorClose && g.position == 0)
  }

  lemma OpeningEdges(r: Rig, g: Gate, dt: uint32)
    requires Agree(r, g) && g.motorOpen && 0 <= g.position < g.cfg.travel && g.cfg.motorTimeout > 0
    ensures Agree(Edges(r, Coast(r, dt)), Travel(g, dt))
  {
    hide Inject, Handle;
    var r1 := Coast(r, dt);
    var g1 := g.(position := r1.position);
    assert Agree(r1, g1);
    IgnoredAgrees(r1, g1, LimitClosedReleased);
    if r1.OpenActive() {
      if r.ClosedActive() {
        InjectAgrees(Inject(r1, LimitClosedReleased), g1, LimitOpenHit);
      } else {
        InjectAgrees(r1, g1, LimitOpenHit);
      }
    }
  }

  lemma ClosingEdges(r: Rig, g: Gate, dt: uint32)
    requires Agree(r, g) && g.motorClose && !g.motorOpen && 0 < g.position <= g.cfg.travel && g.cfg.motorTimeout > 0
    ensures Agree(Edges(r, Coast(r, dt)), Travel(g, dt))
  {
    hide Inject, Handle;
    var r1 := Coast(r, dt);
    var g1 := g.(position := r1.position);
    assert Agree(r1, g1);
    if r1.ClosedActive() {
      InjectAgrees(r1, g1, LimitClosedHit);
      HandleSettles(g1, LimitClosedHit);
      IgnoredAgrees(Inject(r1, LimitClosedHit), Handle(g1, LimitClosedHit), LimitOpenReleased);
    } else {
      IgnoredAgrees(r1, g1, LimitOpenReleased);
    }
  }

  lemma EdgesAgree(r: Rig, g: Gate, dt: uint32)
    requires Agree(r, g) && Located(g) && !Pinned(g) && g.cfg.motorTimeout > 0
    ensures Agree(Edges(r, Coast(r, dt)), Travel(g, dt))
  {
    hide Inject, Handle;
    if g.motorOpen {
      OpeningEdges(r, g, dt);
    } else if g.motorClose {
      ClosingEdges(r, g, dt);
    }
  }

  lemma AdvanceAgrees(r: Rig, g: Gate, dt: uint32)
    requires Agree(r, g) && Ready(g) && !Pinned(g)
    ensures Agree(RigAdvance(r, dt), Advance(g, dt))
  {
    hide Inject, Edges, Coast, Tick, Travel, Watchdog, AutoClose, ExpireWatchdog, ExpireAutoClose;
    TickFrame(g, dt);
    var r1 := r.(now := r.now + dt);
    var g1 := Tick(g, dt);
    EdgesAgree(r1, g1, dt);
    var r2 := Edges(r1, Coast(r1, dt));
    var g2 := Travel(g1, dt);
    TravelKeepsArmable(g1, dt);
    WatchdogAgrees(r2, g2);
    AutoCloseAgrees(ExpireWatchdog(r2), Watchdog(g2));
  }

  /** Pinned, the switch never releases, so it never reports a hit: the virtual gate
      arrives, the controller keeps driving until its watchdog faults it. */
  lemma PinnedDiverges(r: Rig, g: Gate, dt: uint32)
    requires Agree(r, g) && Ready(g) && Pinned(g)
    ensures var s := Advance(g, dt).machine.state;
            var t := RigAdvance(r, dt).ctl.machine.state;
            && s == (if g.motorOpen then Open else Closed)
            && t == (if g.now + dt < g.watchdog then g.machine.state else Faulted)
  {
    hide Inject, Edges, Coast, Handle, Tick, Advance, ExpireWatchdog, ExpireAutoClose;
    TickFrame(g, dt);
    PinnedArrives(g, dt);
    PinnedDrives(r.(now := r.now + dt), Tick(g, dt), dt);
  }

  lemma PinnedDrives(r: Rig, g: Gate, dt: uint32)
    requires Agree(r, g) && g.cfg.motorTimeout > 0 && g.cfg.travel > 0 && Located(g) && Pinned(g)
    requires g.watchdog > 0 && g.autoclose == 0
    ensures var t := ExpireAutoClose(ExpireWatchdog(Edges(r, Coast(r, dt)))).ctl.machine.state;
            t == if g.now < g.watchdog then g.machine.state else Faulted
  {
    hide Inject, Handle;
    assert Edges(r, Coast(r, dt)) == r;
    WatchdogAgrees(r, g);
    HandleSettles(g.(watchdog := 0), MotorTimeout);
    assert Watchdog(g).autoclose == 0;
  }

  lemma PinnedArrives(g: Gate, dt: uint32)
    requires Ready(g) && Pinned(g)
    ensures Advance(g, dt).machine.state == (if g.motorOpen then Open else Closed)
  {
    hide Handle, Tick;
    TickFrame(g, dt);
    var g1 := Tick(g, dt);
    if g.motorOpen {
      HandleSettles(g1.(position := g1.cfg.travel), LimitOpenHit);
    } else {
      HandleSettles(g1.(position := 0), LimitClosedHit);
    }
    var g2 := Travel(g1, dt);
    assert AutoClose(Watchdog(g2)) == g2;
  }

  /** The controller and the virtual gate agree on state, energised relay and armed
      timers after a call exactly when the call does not pass time with the motor
      driving into an active limit. */
  lemma StepAgreesIff(r: Rig, g: Gate, op: Op)
    requires Agree(r, g) && Ready(g) && !op.DoBootClosed?
    ensures Agree(RigDo(r, op), Do(g, op)) <==> !(op.DoAdvance? && Pinned(g))
  {
    hide Inject, Handle, Armed, ClearFault, Reboot, RigAdvance, Advance, Started;
    if op.DoIssue? { ArmedFrame(g, op.id, op.command); }
    match op
    case DoIssue(id, c) => InjectAgrees(r, Armed(g, id, c), c.Event());
    case DoLocalOpen => InjectAgrees(r, g, CommandOpen);
    case DoLocalClose => InjectAgrees(r, g, CommandClose);
    case DoStop => InjectAgrees(r, g, CommandStop);
    case DoClearFault => ClearFaultAgrees(r, g);
    case DoReboot => RebootAgrees(r, g);
    case DoTripBeam =>
      if r.beamBlocked {
        HandleSettles(g, SafetyBeamTripped);
      } else {
        InjectAgrees(r.(beamBlocked := true), g.(beamBlocked := true), SafetyBeamTripped);
      }
    case DoClearBeam =>
      if r.beamBlocked {
        InjectAgrees(r.(beamBlocked := false), g.(beamBlocked := false), SafetyBeamCleared);
      } else {
        HandleSettles(g, SafetyBeamCleared);
      }
    case DoAdvance(dt) =>
      if Pinned(g) {
        PinnedDiverges(r, g, dt);
      } else {
        AdvanceAgrees(r, g, dt);
      }
    case DoDrainAcks =>
  }

  lemma HandleStaysBooted(g: Gate, ev: Event)
    requires !g.machine.state.Initializing? && !ev.FaultCleared?
    ensures !Handle(g, ev).machine.state.Initializing?
  {
    hide Handle;
    HandleSettles(g, ev);
  }

  lemma AdvanceStaysBooted(g: Gate, dt: uint32)
    requires !g.machine.state.Initializing?
    ensures !Advance(g, dt).machine.state.Initializing?
  {
    hide Handle, Tick;
    TickFrame(g, dt);
    var g1 := Tick(g, dt);
    HandleStaysBooted(g1.(position := g1.cfg.travel), LimitOpenHit);
    HandleStaysBooted(g1.(position := 0), LimitClosedHit);
    var g2 := Travel(g1, dt);
    HandleStaysBooted(g2.(watchdog := 0), MotorTimeout);
    HandleStaysBooted(Watchdog(g2).(autoclose := 0), CommandClose);
  }

  lemma DoKeepsReady(g: Gate, op: Op)
    requires Ready(g)
    ensures Ready(Do(g, op)) && Do(g, op).cfg == g.cfg
  {
    hide Handle, Resolve, Advance, BootClosed, Armed, PowerCycled, Safe, Timed;
    DoKeepsSafe(g, op);
    DoKeepsTimed(g, op);
    PowerCycledIs(g);
    if op.DoIssue? { ArmedFrame(g, op.id, op.command); }
    match op
    case DoBootClosed => BootSettles(g);
    case DoIssue(id, c) => HandleStaysBooted(Armed(g, id, c), c.Event());
    case DoLocalOpen => HandleStaysBooted(g, CommandOpen);
    case DoLocalClose => HandleStaysBooted(g, CommandClose);
    case DoStop => HandleStaysBooted(g, CommandStop);
    case DoClearFault => ResolveSettles(Handle(g, FaultCleared));
    case DoReboot => ResolveSettles(PowerCycled(g));
    case DoTripBeam => HandleStaysBooted(g.(beamBlocked := true), SafetyBeamTripped);
    case DoClearBeam => HandleStaysBooted(g.(beamBlocked := false), SafetyBeamCleared);
    case DoAdvance(dt) => AdvanceStaysBooted(g, dt);
    case DoDrainAcks =>
  }

  /** Both gates after booting on the closed limit. */
  function BootedGate(cfg: Config): Gate { BootClosed(NewGate(cfg)) }

  function BootedRig(cfg: Config): Rig {
    var r := Rig(Controller(cfg, Fresh, false, false, Off, Off, []), 0, 0, false);
    r.(ctl := Started(cfg, false, r.Sense()))
  }

  function RigRun(r: Rig, ops: seq<Op>): Rig
    requires forall op <- ops :: !op.DoBootClosed?
  {
    if ops == [] then r else RigDo(RigRun(r, ops[..|ops| - 1]), ops[|ops| - 1])
  }

  /** No time passes while the motor drives into an active limit. */
  ghost predicate NeverPinned(g: Gate, ops: seq<Op>) {
    forall i | 0 <= i < |ops| && ops[i].DoAdvance? :: !Pinned(Run(g, ops[..i]))
  }

  lemma BootAgrees(cfg: Config)
    requires cfg.travel > 0 && cfg.motorTimeout > 0
    ensures Agree(BootedRig(cfg), BootedGate(cfg)) && Ready(BootedGate(cfg)) && BootedGate(cfg).cfg == cfg
  {
    BootSettles(NewGate(cfg));
  }

  /** The queue-pumped controller refines the virtual gate: over every run that never
      passes time pinned, they agree after every call. */
  lemma {:induction false} ControllerRefinesGate(cfg: Config, ops: seq<Op>)
    requires cfg.travel > 0 && cfg.motorTimeout > 0
    requires forall op <- ops :: !op.DoBootClosed?
    requires NeverPinned(BootedGate(cfg), ops)
    ensures Agree(RigRun(BootedRig(cfg), ops), Run(BootedGate(cfg), ops)) && Ready(Run(BootedGate(cfg), ops))
    decreases |ops|
  {
    hide RigDo, Do, BootedGate, BootedRig, Agree, Ready;
    if ops == [] {
      BootAgrees(cfg);
    } else {
      var front, op := ops[..|ops| - 1], ops[|ops| - 1];
      var g := Run(BootedGate(cfg), front);
      assert NeverPinned(BootedGate(cfg), front) by {
        forall i | 0 <= i < |front| && front[i].DoAdvance? ensures !Pinned(Run(BootedGate(cfg), front[..i])) {
          assert front[..i] == ops[..i];
        }
      }
      ControllerRefinesGate(cfg, front);
      StepAgreesIff(RigRun(BootedRig(cfg), front), g, op);
      DoKeepsReady(g, op);
    }
  }

  /** Stopping right after an open starts and then closing pins any gate on its closed
      limit: the virtual gate is Closed at the next tick, the controller still drives
      the close relay. */
  lemma PinnedIsReachable(cfg: Config)
    requires cfg.travel > 0 && cfg.motorTimeout > 0
    ensures var g := Do(Do(Do(BootedGate(cfg), DoLocalOpen), DoStop), DoLocalClose);
            && Pinned(g) && g.machine.state.Closing? && g.motorClose
            && Do(g, DoAdvance(0)).machine.state.Closed?
            && RigDo(RigDo(RigDo(RigDo(BootedRig(cfg), DoLocalOpen), DoStop), DoLocalClose), DoAdvance(0))
                 .ctl.machine.state.Closing?
  {
    hide Apply, Step, Pump, Drain, RigAdvance, Advance, BootedRig, Agree, Ready;
    var g0, r0 := BootedGate(cfg), BootedRig(cfg);
    BootAgrees(cfg);
    BootSettles(NewGate(cfg));
    var g1, r1 := Do(g0, DoLocalOpen), RigDo(r0, DoLocalOpen);
    StepAgreesIff(r0, g0, DoLocalOpen);
    DoKeepsReady(g0, DoLocalOpen);
    HandleSettles(g0, CommandOpen);
    var g2, r2 := Do(g1, DoStop), RigDo(r1, DoStop);
    StepAgreesIff(r1, g1, DoStop);
    DoKeepsReady(g1, DoStop);
    HandleSettles(g1, CommandStop);
    var g3, r3 := Do(g2, DoLocalClose), RigDo(r2, DoLocalClose);
    StepAgreesIff(r2, g2, DoLocalClose);
    DoKeepsReady(g2, DoLocalClose);
    HandleSettles(g2, CommandClose);
    assert Pinned(g3) && g3.watchdog == g3.now + cfg.motorTimeout;
    PinnedDiverges(r3, g3, 0);
  }
}
