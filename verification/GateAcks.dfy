/** What the gate tells the server about its commands: every issued command is
    acknowledged once, in order, by its deadline, and truthfully. */
module GateAcks {
  import opened GateMachine
  import opened CommandTracking
  import opened VirtualGates
  import opened GateSafety
  import opened Words

  // --- How one event answers the pending command ----------------------------------

  /** What the tracker makes of one event. */
  function Heard(g: Gate, ev: Event): (Tracker, Verdict) {
    var o := Step(g.machine, ev).1;
    if o.transitioned || o.reason != NoReason
    then AfterGateEvent(g.tracker, o.newState, o.reason, o.transitioned)
    else (g.tracker, Pending)
  }

  lemma ApplyAcks(g: Gate, o: Outputs)
    requires !Reverses(g.cfg, o)
    ensures var h := Apply(g, o);
            h.tracker == Listen(g, o).tracker && h.acks == Listen(g, o).acks
  {
    hide AfterGateEvent, Step;
  }

  lemma HandleAcks(g: Gate, ev: Event)
    ensures var h := Handle(g, ev);
            var v := Heard(g, ev);
            h.tracker == v.0 && h.acks == Record(g, v).acks
  {
    hide Apply, Step, AfterGateEvent;
    StepPolicies(g, ev);
    if Reversal(g, ev) {
      ReversalAcks(g, ev);
    } else {
      var (m, o) := Step(g.machine, ev);
      ApplyAcks(g.(machine := m), o);
    }
  }

  /** A reversal answers once, for the stop; the open it re-enters with finds the
      tracker disarmed. */
  lemma ReversalAcks(g: Gate, ev: Event)
    requires Reversal(g, ev)
    ensures var h := Handle(g, ev);
            var v := Heard(g, ev);
            h.tracker == v.0 && h.acks == Record(g, v).acks
  {
    hide Apply, Step;
    ReversalSteps(g.machine, ev);
    var (m, o) := Step(g.machine, ev);
    var g0 := g.(machine := m);
    ApplyReverses(g0, o);
    var g1 := Listen(Timers(Motors(g0, o), o), o);
    ListenFrame(Timers(Motors(g0, o), o), o);
    var (m', o') := Step(m, CommandOpen);
    ApplyAcks(g1.(machine := m'), o');
  }

  /** Why an acknowledgement of command `t`, recorded by the step that left the
      gate as `h`, is true. */
  predicate Justified(a: Ack, t: Tracker, h: Gate) {
    && a.id == t.id
    && (a.success <==> a.error.NoError?)
    && match a.error
       case NoError =>
         && h.machine.state == t.terminalOk && !h.motorOpen && !h.motorClose
         && h.position == (if t.terminalOk.Open? then h.cfg.travel else 0)
       case Halted(why) => why != NoReason && (why == SafetyBeamObstacle ==> h.beamBlocked)
       case RejectedByBeam => h.beamBlocked
       case DeadlineExceeded => Expired(h.now % TWO_32, t.deadline)
       case Superseded => false
  }

  /** `h` answers the command pending in `g` at most once, and truthfully. */
  predicate Answers(g: Gate, h: Gate) {
    || (h.tracker == g.tracker && h.acks == g.acks)
    || (&& g.tracker.armed && h.tracker == g.tracker.(armed := false)
        && |h.acks| == |g.acks| + 1 && g.acks == h.acks[..|g.acks|]
        && Justified(h.acks[|g.acks|], g.tracker, h))
  }

  predicate Motion(t: Tracker) {
    t.armed ==> t.terminalOk.Open? || t.terminalOk.Closed?
  }

  lemma HeardIsTrue(g: Gate, ev: Event)
    requires Motion(g.tracker) && g.tracker.armed && Heard(g, ev).1.Fire?
    ensures var a := Heard(g, ev).1.ack;
            var s := Target(g.machine.state, Latch(g.machine.beamClear, ev), ev);
            && Heard(g, ev).0 == g.tracker.(armed := false) && a.id == g.tracker.id
            && (a.success <==> a.error.NoError?) && !a.error.Superseded? && !a.error.DeadlineExceeded?
            && (a.success ==> s == g.tracker.terminalOk && s != g.machine.state)
            && (a.error.Halted? ==>
                  && a.error.why != NoReason
                  && (a.error.why == SafetyBeamObstacle ==> ev.SafetyBeamTripped?))
            && (a.error.RejectedByBeam? ==> Refused(g, ev) || (ev.SafetyBeamTripped? && g.machine.state.Closing?))
  {
  }

  lemma HeardQuiet(g: Gate, ev: Event)
    ensures !(g.tracker.armed && Heard(g, ev).1.Fire?) ==> Heard(g, ev) == (g.tracker, Pending)
  {
    hide Step;
  }

  lemma HandleAnswers(g: Gate, ev: Event)
    requires Located(g) && Truthful(g, ev) && Motion(g.tracker)
    ensures Answers(g, Handle(g, ev)) && Motion(Handle(g, ev).tracker)
  {
    hide Handle, Heard;
    HandleAcks(g, ev);
    HandleKeepsSafe(g, ev);
    HandleSettles(g, ev);
    HeardQuiet(g, ev);
    if g.tracker.armed && Heard(g, ev).1.Fire? {
      HeardIsTrue(g, ev);
    }
  }

  /** Two steps in a row answer once, if what the first recorded is still true
      after the second. */
  lemma AnswersTwice(g: Gate, h: Gate, k: Gate)
    requires Answers(g, h) && Answers(h, k)
    requires h.acks != g.acks ==> Justified(h.acks[|g.acks|], g.tracker, k)
    ensures Answers(g, k)
  {
    hide Justified;
  }

  lemma TickAnswers(g: Gate, dt: uint32)
    requires Motion(g.tracker)
    ensures var h := Tick(g, dt);
            && Answers(g, h) && Motion(h.tracker)
            && (h.acks != g.acks ==> h.acks[|g.acks|].error.DeadlineExceeded?)
            && (h.acks == g.acks && g.tracker.armed ==> !Expired(h.now % TWO_32, h.tracker.deadline))
  {
  }

  lemma TravelAnswers(g: Gate, dt: uint32)
    requires Safe(g) && Motion(g.tracker)
    ensures var h := Travel(g, dt);
            && Answers(g, h) && Motion(h.tracker) && Safe(h)
            && h.now == g.now && h.beamBlocked == g.beamBlocked && h.cfg == g.cfg
            && (h.acks != g.acks ==> AutoClose(Watchdog(h)) == h)
  {
    hide Handle;
    if g.motorOpen && g.position + dt >= g.cfg.travel {
      var g' := g.(position := g.cfg.travel);
      HandleAnswers(g', LimitOpenHit);
      HandleSettles(g', LimitOpenHit);
      HandleKeepsSafe(g', LimitOpenHit);
    } else if !g.motorOpen && g.motorClose && g.position - dt <= 0 {
      var g' := g.(position := 0);
      HandleAnswers(g', LimitClosedHit);
      HandleSettles(g', LimitClosedHit);
      HandleKeepsSafe(g', LimitClosedHit);
    }
  }

  lemma WatchdogAnswers(g: Gate)
    requires Safe(g) && Motion(g.tracker)
    ensures var h := Watchdog(g);
            && Answers(g, h) && Motion(h.tracker) && Safe(h)
            && h.now == g.now && h.beamBlocked == g.beamBlocked
            && (h.acks != g.acks ==> !h.acks[|g.acks|].success)
  {
    hide Handle, Heard;
    var g1 := g.(watchdog := 0);
    HandleAnswers(g1, MotorTimeout);
    HandleSettles(g1, MotorTimeout);
    HandleKeepsSafe(g1, MotorTimeout);
    HandleAcks(g1, MotorTimeout);
    HeardQuiet(g1, MotorTimeout);
    if g.tracker.armed && Heard(g1, MotorTimeout).1.Fire? {
      HeardIsTrue(g1, MotorTimeout);
    }
  }

  lemma AutoCloseAnswers(g: Gate)
    requires Safe(g) && Motion(g.tracker)
    ensures var h := AutoClose(g);
            && Answers(g, h) && Motion(h.tracker)
            && h.now == g.now && h.beamBlocked == g.beamBlocked
  {
    hide Handle;
    var g1 := g.(autoclose := 0);
    HandleAnswers(g1, CommandClose);
    HandleSettles(g1, CommandClose);
  }

  lemma FiringAnswers(g: Gate)
    requires Safe(g) && Motion(g.tracker)
    ensures var h := AutoClose(Watchdog(g));
            && Answers(g, h) && Motion(h.tracker)
            && h.now == g.now && h.beamBlocked == g.beamBlocked
  {
    hide Watchdog, AutoClose, Safe;
    WatchdogAnswers(g);
    var g1 := Watchdog(g);
    AutoCloseAnswers(g1);
    AnswersTwice(g, g1, AutoClose(g1));
  }

  lemma AdvanceAnswers(g: Gate, dt: uint32)
    requires Safe(g) && Motion(g.tracker)
    ensures Answers(g, Advance(g, dt)) && Motion(Advance(g, dt).tracker)
  {
    hide Tick, Travel, Watchdog, AutoClose;
    TickFrame(g, dt);
    var g1 := Tick(g, dt);
    TickAnswers(g, dt);
    TravelAnswers(g1, dt);
    var g2 := Travel(g1, dt);
    AnswersTwice(g, g1, g2);
    FiringAnswers(g2);
    AnswersTwice(g, g2, Advance(g, dt));
  }

  lemma ResolveAnswers(g: Gate)
    requires 0 <= g.position <= g.cfg.travel && g.machine.beamClear == !g.beamBlocked && Motion(g.tracker)
    ensures Answers(g, Resolve(g)) && Motion(Resolve(g).tracker)
  {
    hide Apply;
    var (m, o) := if g.position <= 0 then InitClosed(g.machine)
                  else if g.position >= g.cfg.travel then InitOpen(g.machine)
                  else InitUnknown(g.machine);
    ApplyAcks(g.(machine := m), o);
    ResolveSettles(g);
  }

  lemma BootAnswers(g: Gate)
    requires Motion(g.tracker)
    ensures Answers(g, BootClosed(g)) && Motion(BootClosed(g).tracker)
  {
    hide Apply;
    ApplyAcks(g.(position := 0, machine := InitClosed(g.machine).0), InitClosed(g.machine).1);
    BootSettles(g);
  }

  /** Only the tracker and the acknowledgements matter of where an answer starts. */
  lemma AnswersFrom(g: Gate, g': Gate, h: Gate)
    requires g'.tracker == g.tracker && g'.acks == g.acks && Answers(g', h)
    ensures Answers(g, h)
  {
    hide Justified;
  }

  /** Every public method but `issue` answers at most the pending command. */
  lemma DoAnswers(g: Gate, op: Op)
    requires Safe(g) && Motion(g.tracker) && !op.DoIssue? && !op.DoDrainAcks?
    ensures Answers(g, Do(g, op)) && Motion(Do(g, op).tracker)
  {
    hide Handle, Resolve, Advance, BootClosed, ClearFault, PowerCycled, Answers;
    PowerCycledIs(g);
    match op
    case DoBootClosed => BootAnswers(g);
    case DoLocalOpen => HandleAnswers(g, CommandOpen);
    case DoLocalClose => HandleAnswers(g, CommandClose);
    case DoStop => HandleAnswers(g, CommandStop);
    case DoClearFault => ClearFaultAnswers(g);
    case DoReboot =>
      ResolveAnswers(PowerCycled(g));
      AnswersFrom(g, PowerCycled(g), Do(g, op));
    case DoTripBeam =>
      HandleAnswers(g.(beamBlocked := true), SafetyBeamTripped);
      AnswersFrom(g, g.(beamBlocked := true), Do(g, op));
    case DoClearBeam =>
      HandleAnswers(g.(beamBlocked := false), SafetyBeamCleared);
      AnswersFrom(g, g.(beamBlocked := false), Do(g, op));
    case DoAdvance(dt) => AdvanceAnswers(g, dt);
  }

  lemma ClearFaultAnswers(g: Gate)
    requires Safe(g) && Motion(g.tracker)
    ensures Answers(g, ClearFault(g)) && Motion(ClearFault(g).tracker)
  {
    hide Handle, Resolve, Answers, Heard;
    HandleAcks(g, FaultCleared);
    FaultClearedIsQuiet(g);
    HandleKeepsSafe(g, FaultCleared);
    var h := Handle(g, FaultCleared);
    if h.machine.state.Initializing? {
      ResolveAnswers(h);
      AnswersFrom(g, h, Resolve(h));
    } else {
      HandleAnswers(g, FaultCleared);
    }
  }

  lemma FaultClearedIsQuiet(g: Gate)
    ensures Heard(g, FaultCleared).0 == g.tracker && Record(g, Heard(g, FaultCleared)).acks == g.acks
    requires Motion(g.tracker)
  {
  }

  // --- Whole sessions -------------------------------------------------------------

  datatype Issued = Issued(id: string, command: Command, at: nat)

  /** A gate, the acknowledgements already drained from it, and the commands issued. */
  datatype Session = Session(gate: Gate, drained: seq<Ack>, issued: seq<Issued>) {
    function Acks(): seq<Ack> { drained + gate.acks }
  }

  function Observe(s: Session, op: Op): Session {
    Session(Do(s.gate, op),
            if op.DoDrainAcks? then s.drained + s.gate.acks else s.drained,
            if op.DoIssue? then s.issued + [Issued(op.id, op.command, s.gate.now)] else s.issued)
  }

  function Watch(cfg: Config, ops: seq<Op>): Session {
    if ops == [] then Session(NewGate(cfg), [], [])
    else Observe(Watch(cfg, ops[..|ops| - 1]), ops[|ops| - 1])
  }

  /** The acknowledged ids are the issued ids, cut, in issue order; the last one is
      missing exactly while its command is pending. */
  predicate Conserved(s: Session) {
    var t := s.gate.tracker;
    && |s.issued| == |s.Acks()| + (if t.armed then 1 else 0)
    && (forall k | 0 <= k < |s.Acks()| :: s.Acks()[k].id == Cut(s.issued[k].id))
    && (t.armed ==>
          var last := s.issued[|s.issued| - 1];
          && t.id == Cut(last.id) && t.terminalOk == last.command.Terminal()
          && t.deadline == (last.at + s.gate.cfg.commandDeadline) % TWO_32)
  }

  lemma DueAdds(now: nat, d: uint32)
    ensures (now % TWO_32 + d) % TWO_32 == (now + d) % TWO_32
  {
    ModShift(now + d, now / TWO_32);
    assert now % TWO_32 + d == now + d - TWO_32 * (now / TWO_32);
  }

  /** What acknowledgement `a` of command `c` says about the gate `h` that sent it. */
  predicate Holds(a: Ack, c: Issued, h: Gate) {
    && a.id == Cut(c.id)
    && (a.success <==> a.error.NoError?)
    && match a.error
       case NoError =>
         && h.machine.state == c.command.Terminal() && !h.motorOpen && !h.motorClose
         && h.position == (if c.command.OpenGate? then h.cfg.travel else 0)
       case Halted(why) => why != NoReason && (why == SafetyBeamObstacle ==> h.beamBlocked)
       case RejectedByBeam => h.beamBlocked
       case DeadlineExceeded => Expired(h.now % TWO_32, (c.at + h.cfg.commandDeadline) % TWO_32)
       case Superseded => true
  }

  /** One observed call: acknowledgements are only appended; each new one is
      truthful, and a superseded command is one a newer command replaced. */
  predicate Progresses(s: Session, s': Session, op: Op) {
    && s.Acks() <= s'.Acks() && Conserved(s')
    && (forall k | |s.Acks()| <= k < |s'.Acks()| ::
          && Holds(s'.Acks()[k], s'.issued[k], s'.gate)
          && (s'.Acks()[k].error.Superseded? ==> op.DoIssue? && k == |s'.issued| - 2))
  }

  lemma SameAcksProgress(s: Session, s': Session, op: Op)
    requires Conserved(s) && s'.Acks() == s.Acks() && s'.issued == s.issued
    requires s'.gate.tracker == s.gate.tracker && s'.gate.cfg == s.gate.cfg
    ensures Progresses(s, s', op)
  {
    hide Cut, Holds;
  }

  lemma NewAckProgress(s: Session, s': Session, op: Op, a: Ack)
    requires Conserved(s) && s'.Acks() == s.Acks() + [a] && s'.issued == s.issued
    requires s.gate.tracker.armed && s'.gate.tracker == s.gate.tracker.(armed := false)
    requires Holds(a, s.issued[|s.Acks()|], s'.gate) && !a.error.Superseded?
    ensures Progresses(s, s', op)
  {
    hide Cut, Expired;
    forall k | 0 <= k < |s'.Acks()| ensures s'.Acks()[k].id == Cut(s'.issued[k].id) {
      if k < |s.Acks()| {
        assert s'.Acks()[k] == s.Acks()[k];
      }
    }
  }

  lemma ObserveQuiet(s: Session, op: Op)
    requires Conserved(s) && Safe(s.gate) && Motion(s.gate.tracker) && !op.DoIssue?
    ensures Progresses(s, Observe(s, op), op) && Motion(Observe(s, op).gate.tracker)
  {
    hide Do, Safe, Conserved, Progresses, Answers;
    if op.DoDrainAcks? {
      ObserveDrain(s);
    } else {
      DoKeepsSafe(s.gate, op);
      DoAnswers(s.gate, op);
      QuietProgress(s, Observe(s, op), op);
    }
  }

  lemma ObserveDrain(s: Session)
    requires Conserved(s) && Motion(s.gate.tracker)
    ensures Progresses(s, Observe(s, DoDrainAcks), DoDrainAcks) && Motion(Observe(s, DoDrainAcks).gate.tracker)
  {
    hide Conserved, Progresses;
    var s' := Observe(s, DoDrainAcks);
    assert s'.Acks() == s.Acks();
    SameAcksProgress(s, s', DoDrainAcks);
  }

  lemma QuietProgress(s: Session, s': Session, op: Op)
    requires Conserved(s) && Answers(s.gate, s'.gate) && s'.drained == s.drained && s'.issued == s.issued
    requires s'.gate.cfg == s.gate.cfg
    ensures Progresses(s, s', op)
  {
    hide Conserved, Progresses, Justified, Holds;
    if s'.gate.acks == s.gate.acks {
      SameAcksProgress(s, s', op);
    } else {
      var a := s'.gate.acks[|s.gate.acks|];
      assert s'.gate.acks == s.gate.acks + [a];
      assert s'.Acks() == s.Acks() + [a];
      JustifiedHolds(s, s'.gate, a);
      NewAckProgress(s, s', op, a);
    }
  }

  lemma JustifiedHolds(s: Session, h: Gate, a: Ack)
    requires Conserved(s) && s.gate.tracker.armed && Justified(a, s.gate.tracker, h) && h.cfg == s.gate.cfg
    ensures |s.Acks()| < |s.issued| && Holds(a, s.issued[|s.Acks()|], h) && !a.error.Superseded?
  {
    hide Cut, Expired;
  }

  /** The session between arming the tracker and stepping the machine. */
  function ObserveArm(s: Session, id: string, c: Command): Session {
    Session(Armed(s.gate, id, c), s.drained, s.issued + [Issued(id, c, s.gate.now)])
  }

  lemma ArmedAcks(s: Session, id: string, c: Command)
    requires s.gate.tracker.armed
    ensures ObserveArm(s, id, c).Acks() == s.Acks() + [Ack(s.gate.tracker.id, false, Superseded)]
  {
    hide Cut;
    var a := Ack(s.gate.tracker.id, false, Superseded);
    assert s.drained + (s.gate.acks + [a]) == s.drained + s.gate.acks + [a];
  }

  lemma ArmProgress(s: Session, id: string, c: Command)
    requires Conserved(s)
    ensures Progresses(s, ObserveArm(s, id, c), DoIssue(id, c)) && Motion(Armed(s.gate, id, c).tracker)
  {
    hide Cut, Expired;
    var s' := ObserveArm(s, id, c);
    DueAdds(s.gate.now, s.gate.cfg.commandDeadline);
    if s.gate.tracker.armed {
      ArmedAcks(s, id, c);
    } else {
      assert s'.Acks() == s.Acks();
    }
  }

  lemma ObserveIssue(s: Session, id: string, c: Command)
    requires Conserved(s) && Safe(s.gate)
    ensures var op := DoIssue(id, c);
            Progresses(s, Observe(s, op), op) && Motion(Observe(s, op).gate.tracker)
  {
    hide Handle, Armed, Conserved, Progresses, Holds, Answers;
    ArmedFrame(s.gate, id, c);
    ArmSupersedes(s, id, c);
    var op := DoIssue(id, c);
    ArmProgress(s, id, c);
    var m := ObserveArm(s, id, c);
    HandleAnswers(m.gate, c.Event());
    HandleKeepsSafe(m.gate, c.Event());
    ProgressConserves(s, m, op);
    QuietProgress(m, Observe(s, op), op);
    IssueProgress(s, m, Observe(s, op), op);
  }

  /** Arming records nothing but the failure of a command it supersedes. */
  lemma ArmSupersedes(s: Session, id: string, c: Command)
    ensures var m := ObserveArm(s, id, c);
            forall k | |s.Acks()| <= k < |m.Acks()| :: m.Acks()[k].error.Superseded?
  {
    hide Cut;
    var m := ObserveArm(s, id, c);
    if s.gate.tracker.armed {
      ArmedAcks(s, id, c);
    } else {
      assert m.Acks() == s.Acks();
    }
  }

  lemma ProgressConserves(s: Session, s': Session, op: Op)
    requires Progresses(s, s', op)
    ensures Conserved(s')
  {
  }

  lemma IssueProgress(s: Session, m: Session, s': Session, op: Op)
    requires op.DoIssue? && Progresses(s, m, op) && Progresses(m, s', op) && m.issued == s'.issued
    requires forall k | |s.Acks()| <= k < |m.Acks()| :: m.Acks()[k].error.Superseded?
    ensures Progresses(s, s', op)
  {
    hide Conserved, Cut, Expired;
  }

  lemma ObserveProgress(s: Session, op: Op)
    requires Conserved(s) && Safe(s.gate) && Motion(s.gate.tracker)
    ensures Progresses(s, Observe(s, op), op)
    ensures Safe(Observe(s, op).gate) && Motion(Observe(s, op).gate.tracker)
  {
    hide Do, Safe, Conserved, Progresses;
    DoKeepsSafe(s.gate, op);
    if op.DoIssue? {
      ObserveIssue(s, op.id, op.command);
    } else {
      ObserveQuiet(s, op);
    }
  }

  /** Over every run: the recorded acknowledgements are exactly the issued commands,
      ids cut to 39 bytes, in issue order, minus the last iff it is still pending. */
  lemma {:induction false} AcksConserved(cfg: Config, ops: seq<Op>)
    ensures var s := Watch(cfg, ops);
            Conserved(s) && Safe(s.gate) && Motion(s.gate.tracker) && s.gate == Run(NewGate(cfg), ops)
  {
    hide Do;
    if ops != [] {
      AcksConserved(cfg, ops[..|ops| - 1]);
      ObserveProgress(Watch(cfg, ops[..|ops| - 1]), ops[|ops| - 1]);
    }
  }

  /** After every run, whatever is called next: each acknowledgement it records is
      truthful.  A success finds the gate on the commanded limit with both motors
      off; a beam failure finds the beam blocked; a stop or fault carries a reason. */
  lemma AcksTruthful(cfg: Config, ops: seq<Op>, op: Op)
    ensures var s := Watch(cfg, ops);
            Progresses(s, Observe(s, op), op)
  {
    hide Watch, Observe, Progresses, Conserved, Safe;
    AcksConserved(cfg, ops);
    ObserveProgress(Watch(cfg, ops), op);
  }

  // --- Deadlines ------------------------------------------------------------------

  /** Ticks that a wrapping 32-bit clock can tell from its past. */
  predicate Paced(ops: seq<Op>) {
    forall op <- ops :: op.DoAdvance? ==> op.dt <= TWO_31
  }

  lemma PacedPrefix(ops: seq<Op>, op: Op)
    requires Paced(ops + [op])
    ensures Paced(ops) && (op.DoAdvance? ==> op.dt <= TWO_31)
  {
    assert op in ops + [op];
    assert forall o <- ops :: o in ops + [op];
  }

  predicate Prompt(s: Session) {
    s.gate.tracker.armed && s.issued != [] ==>
      var last := s.issued[|s.issued| - 1];
      last.at <= s.gate.now < last.at + s.gate.cfg.commandDeadline
  }

  lemma AdvanceExpires(g: Gate, dt: uint32)
    requires Safe(g) && Motion(g.tracker)
    ensures var h := Advance(g, dt);
            h.tracker.armed ==> g.tracker == h.tracker && !Expired(h.now % TWO_32, h.tracker.deadline)
  {
    hide Tick, Travel, Watchdog, AutoClose, Justified, Expired;
    TickAnswers(g, dt);
    TickFrame(g, dt);
    var g1 := Tick(g, dt);
    TravelAnswers(g1, dt);
    FiringAnswers(Travel(g1, dt));
  }

  lemma ObservePrompt(s: Session, op: Op)
    requires Conserved(s) && Safe(s.gate) && Motion(s.gate.tracker) && Prompt(s)
    requires s.gate.cfg.commandDeadline > 0 && (op.DoAdvance? ==> op.dt <= TWO_31)
    ensures Prompt(Observe(s, op))
  {
    hide Do, Safe, Conserved, Justified;
    DoKeepsSafe(s.gate, op);
    if op.DoAdvance? {
      TickPrompt(s, op.dt);
    } else if op.DoDrainAcks? {
      DrainFrame(s.gate);
    } else if !op.DoIssue? {
      DoAnswers(s.gate, op);
    }
  }

  lemma DrainFrame(g: Gate)
    ensures Do(g, DoDrainAcks) == g.(acks := [])
  {
  }

  lemma TickPrompt(s: Session, dt: uint32)
    requires Conserved(s) && Safe(s.gate) && Motion(s.gate.tracker) && Prompt(s)
    requires s.gate.cfg.commandDeadline > 0 && dt <= TWO_31
    ensures Prompt(Observe(s, DoAdvance(dt)))
  {
    hide Advance, Safe, Expired, Cut;
    var h := Advance(s.gate, dt);
    AdvanceKeepsSafe(s.gate, dt);
    AdvanceExpires(s.gate, dt);
    if h.tracker.armed {
      var due := s.issued[|s.issued| - 1].at + s.gate.cfg.commandDeadline;
      if due <= h.now {
        ExpiredIffReached(h.now, due);
      }
    }
  }

  /** Every command is acknowledged no later than the first tick that reaches its
      deadline, across wraps of the 32-bit clock: none is pending past it. */
  lemma {:induction false} AckedByDeadline(cfg: Config, ops: seq<Op>)
    requires cfg.commandDeadline > 0 && Paced(ops)
    ensures Prompt(Watch(cfg, ops))
  {
    hide Observe, Conserved, Safe;
    if ops != [] {
      var front, op := ops[..|ops| - 1], ops[|ops| - 1];
      assert ops == front + [op];
      PacedPrefix(front, op);
      AckedByDeadline(cfg, front);
      AcksConserved(cfg, front);
      RunIsSafe(cfg, front);
      ObservePrompt(Watch(cfg, front), op);
    }
  }

  /** Commands are issued before they are looked at. */
  predicate Past(s: Session) {
    forall k | 0 <= k < |s.issued| :: s.issued[k].at <= s.gate.now
  }

  lemma {:induction false} IssuedInThePast(cfg: Config, ops: seq<Op>)
    ensures Past(Watch(cfg, ops))
  {
    hide Do, Safe;
    if ops != [] {
      var front := ops[..|ops| - 1];
      IssuedInThePast(cfg, front);
      AcksConserved(cfg, front);
      DoKeepsSafe(Watch(cfg, front).gate, ops[|ops| - 1]);
    }
  }

  /** Each deadline failure recorded between `s` and `s'` is of a command whose
      deadline has truly passed. */
  predicate LateOnly(s: Session, s': Session) {
    forall k | |s.Acks()| <= k < |s'.Acks()| && s'.Acks()[k].error.DeadlineExceeded? ::
      k < |s'.issued| && s'.issued[k].at + s'.gate.cfg.commandDeadline <= s'.gate.now
  }

  lemma DeadlineAckIsLate(s: Session, op: Op, k: nat)
    requires Conserved(s) && Safe(s.gate) && Prompt(s) && Progresses(s, Observe(s, op), op)
    requires 0 < s.gate.cfg.commandDeadline <= TWO_31 && (op.DoAdvance? ==> op.dt <= TWO_31)
    requires |s.Acks()| <= k < |Observe(s, op).Acks()| && Observe(s, op).Acks()[k].error.DeadlineExceeded?
    ensures var s' := Observe(s, op);
            k < |s'.issued| && s'.issued[k].at + s'.gate.cfg.commandDeadline <= s'.gate.now
  {
    hide Do, Safe, Cut, Expired;
    var s' := Observe(s, op);
    DoKeepsSafe(s.gate, op);
    LateByClock(s'.issued[k], s'.Acks()[k], s'.gate, s.gate.now);
  }

  lemma LateByClock(c: Issued, a: Ack, h: Gate, before: nat)
    requires Holds(a, c, h) && a.error.DeadlineExceeded?
    requires 0 < h.cfg.commandDeadline <= TWO_31
    requires c.at <= before < c.at + h.cfg.commandDeadline && before <= h.now <= before + TWO_31
    ensures c.at + h.cfg.commandDeadline <= h.now
  {
    hide Expired, Cut;
    ExpiredIffReached(h.now, c.at + h.cfg.commandDeadline);
  }

  /** With deadlines of at most 2^31 ms, a deadline failure is recorded only once the
      deadline has truly passed. */
  lemma DeadlineAcksAreLate(cfg: Config, ops: seq<Op>, op: Op)
    requires cfg.commandDeadline <= TWO_31 && Paced(ops + [op])
    ensures LateOnly(Watch(cfg, ops), Observe(Watch(cfg, ops), op))
  {
    hide Watch, Observe, Safe;
    var s := Watch(cfg, ops);
    var s' := Observe(s, op);
    AcksTruthful(cfg, ops, op);
    AcksConserved(cfg, ops);
    ObserveFrame(cfg, ops, op);
    PacedPrefix(ops, op);
    if cfg.commandDeadline > 0 {
      AckedByDeadline(cfg, ops);
      forall k | |s.Acks()| <= k < |s'.Acks()| && s'.Acks()[k].error.DeadlineExceeded?
        ensures k < |s'.issued| && s'.issued[k].at + s'.gate.cfg.commandDeadline <= s'.gate.now
      {
        DeadlineAckIsLate(s, op, k);
      }
    }
  }

  lemma ObserveFrame(cfg: Config, ops: seq<Op>, op: Op)
    ensures Watch(cfg, ops).gate.cfg == cfg && Observe(Watch(cfg, ops), op).gate.cfg == cfg
    ensures Past(Observe(Watch(cfg, ops), op))
  {
    hide Observe;
    RunIsSafe(cfg, ops);
    AcksConserved(cfg, ops);
    assert (ops + [op])[..|ops|] == ops;
    IssuedInThePast(cfg, ops + [op]);
    RunIsSafe(cfg, ops + [op]);
    AcksConserved(cfg, ops + [op]);
  }

  /** Past half the clock's range the comparison turns over: a command whose
      deadline is `d` away counts as expired `e < d` after it was issued exactly when
      more than 2^31 ms remain. */
  lemma LongDeadlineExpiresEarly(at: nat, d: uint32, e: nat)
    requires e < d
    ensures Expired((at + e) % TWO_32, (at + d) % TWO_32) <==> d - e > TWO_31
  {
    hide Expired;
    if d - e <= TWO_31 {
      ExpiredIffReached(at + e, at + d);
    } else {
      ExpiredIffReached(at + e + TWO_32, at + d);
      ModShift(at + e + TWO_32, 1);
    }
  }

  /** So a command with a longer deadline fails at once: an open issued on a closed
      gate is reported late by the next tick, before any time has passed. */
  lemma EarlyDeadlineAck(cfg: Config, id: string)
    requires cfg.commandDeadline > TWO_31
    ensures var s := Watch(cfg, [DoBootClosed, DoIssue(id, OpenGate)]);
            var s' := Observe(s, DoAdvance(0));
            && s.Acks() == [] && s'.Acks() == [Ack(Cut(id), false, DeadlineExceeded)]
            && s'.issued == [Issued(id, OpenGate, 0)] && s'.gate.now == 0 && s'.gate.cfg == cfg
  {
    hide Watch, Issue, Advance, Cut, BootClosed, Armed;
    var g0 := NewGate(cfg);
    var g1 := BootClosed(g0);
    BootSettles(g0);
    BootIsQuiet(g0);
    var g2 := Issue(g1, id, OpenGate);
    IssueStarts(g1, id, OpenGate);
    UnarmedArms(g1, id, OpenGate);
    OverdueTick(g2, g1, id);
    var issue := DoIssue(id, OpenGate);
    WatchNext(cfg, [], DoBootClosed);
    WatchNext(cfg, [DoBootClosed], issue);
    WatchNothing(cfg);
    assert [] + [DoBootClosed] == [DoBootClosed] && [DoBootClosed] + [issue] == [DoBootClosed, issue];
  }

  lemma WatchNothing(cfg: Config)
    ensures Watch(cfg, []) == Session(NewGate(cfg), [], [])
  {
  }

  lemma WatchNext(cfg: Config, ops: seq<Op>, op: Op)
    ensures Watch(cfg, ops + [op]) == Observe(Watch(cfg, ops), op)
  {
    hide Observe;
    assert (ops + [op])[..|ops|] == ops;
  }

  lemma BootIsQuiet(g: Gate)
    requires !g.tracker.armed
    ensures BootClosed(g).tracker == g.tracker && BootClosed(g).acks == g.acks
  {
    hide Apply;
    ApplyAcks(g.(position := 0, machine := InitClosed(g.machine).0), InitClosed(g.machine).1);
  }

  lemma UnarmedArms(g: Gate, id: string, c: Command)
    requires !g.tracker.armed
    ensures Armed(g, id, c).acks == g.acks
  {
    hide Cut;
  }

  /** A tick of no time on a command far from its deadline. */
  lemma OverdueTick(g: Gate, from: Gate, id: string)
    requires Underway(from, id, OpenGate, g, 0) && from.now == 0 && from.position == 0 && g.machine.beamClear
    requires from.cfg.commandDeadline > TWO_31 && g.acks == [] && !g.beamBlocked
    ensures var h := Advance(g, 0);
            h.acks == [Ack(Cut(id), false, DeadlineExceeded)] && h.now == 0 && h.cfg == from.cfg
  {
    hide Travel, Watchdog, AutoClose, Cut, Expired, Justified;
    LongDeadlineExpiresEarly(0, from.cfg.commandDeadline, 0);
    var g1 := Tick(g, 0);
    assert g1 == g.(tracker := g.tracker.(armed := false), acks := [Ack(Cut(id), false, DeadlineExceeded)]);
    AdvanceKeepsSafe(g, 0);
    TravelAnswers(g1, 0);
    FiringAnswers(Travel(g1, 0));
  }

  /** Whatever is called, in ticks the clock can tell apart, only late deadline
      failures are recorded. */
  predicate LateAfter(cfg: Config, ops: seq<Op>, op: Op) {
    Paced(ops + [op]) ==> LateOnly(Watch(cfg, ops), Observe(Watch(cfg, ops), op))
  }

  /** No run reports a deadline before it has passed, exactly when the configured
      deadline is at most 2^31 ms. */
  lemma DeadlineFailuresLateIff(cfg: Config)
    ensures (forall ops, op :: LateAfter(cfg, ops, op)) <==> cfg.commandDeadline <= TWO_31
  {
    hide Watch, Observe;
    if cfg.commandDeadline <= TWO_31 {
      forall ops, op ensures LateAfter(cfg, ops, op) {
        if Paced(ops + [op]) {
          DeadlineAcksAreLate(cfg, ops, op);
        }
      }
    } else {
      EarlyDeadlineAck(cfg, "");
      var ops := [DoBootClosed, DoIssue("", OpenGate)];
      var s' := Observe(Watch(cfg, ops), DoAdvance(0));
      assert s'.Acks()[0].error.DeadlineExceeded? && s'.issued[0].at == 0;
      assert !LateAfter(cfg, ops, DoAdvance(0));
    }
  }

  // --- Progress -------------------------------------------------------------------

  /** The state a command drives in, how far it has to go, and where it is after `e`
      ms. */
  function Toward(c: Command): State { if c.OpenGate? then Opening else Closing }

  function Stroke(g: Gate, c: Command): int { if c.OpenGate? then g.cfg.travel - g.position else g.position }

  function Moved(g: Gate, c: Command, e: nat): int { if c.OpenGate? then g.position + e else g.position - e }

  /** A gate the command sets in motion. */
  predicate Startable(g: Gate, c: Command) {
    if c.OpenGate? then g.machine.state.Closed? || g.machine.state.Stopped()
    else (g.machine.state.Open? || g.machine.state.Stopped()) && g.machine.beamClear
  }

  /** `h` has been moving for `e` ms since the tracked command was issued on `g`. */
  predicate Underway(g: Gate, id: string, c: Command, h: Gate, e: nat) {
    && h.cfg == g.cfg && h.machine.state == Toward(c) && h.motorOpen == c.OpenGate? && h.motorClose == c.CloseGate?
    && h.position == Moved(g, c, e) && h.now == g.now + e && h.machine.beamClear == g.machine.beamClear
    && h.beamBlocked == g.beamBlocked && h.watchdog == g.now + g.cfg.motorTimeout && h.autoclose == 0
    && h.tracker == Tracker(Cut(id), c.Terminal(), (g.now + g.cfg.commandDeadline) % TWO_32, true)
    && h.acks == Armed(g, id, c).acks
  }

  /** `h` has arrived on the commanded limit and said so, once. */
  predicate Arrived(g: Gate, id: string, c: Command, h: Gate) {
    && h.cfg == g.cfg && h.machine.state == c.Terminal() && !h.motorOpen && !h.motorClose
    && h.position == (if c.OpenGate? then g.cfg.travel else 0)
    && !h.tracker.armed && h.acks == Armed(g, id, c).acks + [Ack(Cut(id), true, NoError)]
  }

  lemma ArmedTracker(g: Gate, id: string, c: Command)
    ensures Armed(g, id, c).tracker ==
              Tracker(Cut(id), c.Terminal(), (g.now + g.cfg.commandDeadline) % TWO_32, true)
  {
    hide Cut;
    DueAdds(g.now, g.cfg.commandDeadline);
  }

  lemma StartHeard(g: Gate, c: Command)
    requires Startable(g, c) && g.tracker.armed && g.tracker.terminalOk == c.Terminal()
    ensures Heard(g, c.Event()) == (g.tracker, Pending)
  {
  }

  lemma IssueStarts(g: Gate, id: string, c: Command)
    requires Startable(g, c)
    ensures Underway(g, id, c, Issue(g, id, c), 0)
  {
    hide Handle, Heard, Armed, Cut;
    var a := Armed(g, id, c);
    ArmedTracker(g, id, c);
    ArmedFrame(g, id, c);
    HandleSettles(a, c.Event());
    HandleAcks(a, c.Event());
    StartHeard(a, c);
  }

  lemma EarlyTick(h: Gate, dt: uint32, due: nat)
    requires h.tracker.deadline == due % TWO_32 && h.now + dt < due <= h.now + dt + TWO_31
    ensures Tick(h, dt) == h.(now := h.now + dt)
  {
    hide Expired;
    ExpiredIffReached(h.now + dt, due);
  }

  lemma UnderwayTick(g: Gate, id: string, c: Command, h: Gate, e: nat, dt: uint32)
    requires Underway(g, id, c, h, e) && Stroke(g, c) <= g.cfg.motorTimeout
    requires e + dt < g.cfg.commandDeadline <= TWO_31
    ensures if e + dt < Stroke(g, c) then Underway(g, id, c, Advance(h, dt), e + dt)
            else Arrived(g, id, c, Advance(h, dt))
  {
    hide Handle, Tick, Armed, Cut;
    EarlyTick(h, dt, g.now + g.cfg.commandDeadline);
    var h1 := Tick(h, dt);
    if e + dt >= Stroke(g, c) {
      LimitArrives(g, id, c, h1.(position := if c.OpenGate? then h.cfg.travel else 0));
    } else {
      assert Travel(h1, dt) == h1.(position := Moved(g, c, e + dt));
    }
  }

  lemma LimitHeard(h: Gate, c: Command)
    requires h.machine.state == Toward(c) && h.tracker.armed && h.tracker.terminalOk == c.Terminal()
    ensures Heard(h, if c.OpenGate? then LimitOpenHit else LimitClosedHit) ==
              AfterResolve(h.tracker, true, NoError)
  {
  }

  lemma LimitArrives(g: Gate, id: string, c: Command, h: Gate)
    requires h.cfg == g.cfg && h.machine.state == Toward(c)
    requires h.position == if c.OpenGate? then h.cfg.travel else 0
    requires h.tracker.armed && h.tracker.terminalOk == c.Terminal() && h.tracker.id == Cut(id)
    requires h.acks == Armed(g, id, c).acks
    ensures var k := Handle(h, if c.OpenGate? then LimitOpenHit else LimitClosedHit);
            Arrived(g, id, c, k) && AutoClose(Watchdog(k)) == k
  {
    hide Handle, Heard, Armed, Cut;
    var hit := if c.OpenGate? then LimitOpenHit else LimitClosedHit;
    HandleSettles(h, hit);
    HandleAcks(h, hit);
    LimitHeard(h, c);
  }

  /** A command issued on a gate it sets in motion and left alone moves it one
      millisecond per millisecond, and it arrives, with one success acknowledgement, at
      the first tick whose cumulative time covers the stroke, however that time is cut
      into ticks. */
  lemma {:induction false} MovesInTime(g: Gate, id: string, c: Command, dts: seq<uint32>)
    requires Startable(g, c) && Stroke(g, c) <= g.cfg.motorTimeout
    requires Sum(dts) < g.cfg.commandDeadline <= TWO_31
    requires |dts| > 1 ==> Sum(dts[..|dts| - 1]) < Stroke(g, c)
    ensures var h := Ticks(Issue(g, id, c), dts);
            if dts == [] || Sum(dts) < Stroke(g, c) then Underway(g, id, c, h, Sum(dts)) else Arrived(g, id, c, h)
    decreases |dts|
  {
    hide Issue, Advance, Underway, Arrived, Startable, Stroke;
    IssueStarts(g, id, c);
    if dts != [] {
      var front := dts[..|dts| - 1];
      if |front| > 1 {
        assert Sum(front) == Sum(front[..|front| - 1]) + front[|front| - 1];
      }
      MovesInTime(g, id, c, front);
      UnderwayTick(g, id, c, Ticks(Issue(g, id, c), front), Sum(front), dts[|dts| - 1]);
    }
  }

  /** An open from Closed or a stop: position plus elapsed time, then Open. */
  lemma OpensInTime(g: Gate, id: string, dts: seq<uint32>)
    requires g.machine.state.Closed? || g.machine.state.Stopped()
    requires 0 <= g.position && g.cfg.travel <= g.cfg.motorTimeout
    requires Sum(dts) < g.cfg.commandDeadline <= TWO_31
    requires |dts| > 1 ==> g.position + Sum(dts[..|dts| - 1]) < g.cfg.travel
    ensures var h := Ticks(Issue(g, id, OpenGate), dts);
            if dts == [] || g.position + Sum(dts) < g.cfg.travel
            then Underway(g, id, OpenGate, h, Sum(dts))
            else Arrived(g, id, OpenGate, h)
  {
    hide Ticks, Issue, Underway, Arrived;
    MovesInTime(g, id, OpenGate, dts);
  }

  /** A close from Open or a stop with the beam clear: position minus elapsed time,
      then Closed. */
  lemma ClosesInTime(g: Gate, id: string, dts: seq<uint32>)
    requires (g.machine.state.Open? || g.machine.state.Stopped()) && g.machine.beamClear
    requires g.position <= g.cfg.travel <= g.cfg.motorTimeout
    requires Sum(dts) < g.cfg.commandDeadline <= TWO_31
    requires |dts| > 1 ==> Sum(dts[..|dts| - 1]) < g.position
    ensures var h := Ticks(Issue(g, id, CloseGate), dts);
            if dts == [] || Sum(dts) < g.position
            then Underway(g, id, CloseGate, h, Sum(dts))
            else Arrived(g, id, CloseGate, h)
  {
    hide Ticks, Issue, Underway, Arrived;
    MovesInTime(g, id, CloseGate, dts);
  }
}
