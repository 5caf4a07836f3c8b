/** Detections and latches under every interleaving.  A submission reads its gate's
    override, then the blocklist, then the allowlist, each under its own lock; then it
    publishes the decision; then it dispatches the open.  Latches and store changes can
    fall between any two of these. */
module AuthRaces {
  import opened Allowlist
  import opened Fusion
  import opened AuthRuns

  /** What an observer sees, in the order it happens: a latch, a submission reading its
      gate's override, a decision published, an open dispatched. */
  datatype Mark =
    | Latched(gate: string, override: Override)
    | Began(job: nat, gate: string)
    | Told(job: nat, decision: Decision)
    | Opened(job: nat, gate: string, actor: string)

  /** A submission: its input, what it has read so far, and when it began and told. */
  datatype Job = Job(
    frame: Frame,
    clock: Clock,
    id: string,
    override: Override,
    beganAt: nat,
    blocked: Option<set<Key>>,
    decision: Option<Decision>,
    toldAt: Option<nat>,
    dispatched: bool)

  datatype Floor = Floor(
    cfg: Config,
    site: string,
    tables: Tables,
    blocked: set<Key>,
    overrides: map<string, Override>,
    jobs: seq<Job>,
    trace: seq<Mark>)

  datatype Step =
    | ReadOverride(frame: Frame, clock: Clock, id: string)
    | ReadBlocklist(job: nat)
    | ReadAllowlist(job: nat)
    | Publish(job: nat)
    | Dispatch(job: nat)
    | SetLatch(gate: string, override: Override)
    | Refill(tables: Tables, blocked: set<Key>)

  predicate CanBlock(s: Floor, n: nat) { n < |s.jobs| && s.jobs[n].blocked.None? }

  predicate CanDecide(s: Floor, n: nat) {
    n < |s.jobs| && s.jobs[n].blocked.Some? && s.jobs[n].decision.None?
  }

  predicate CanPublish(s: Floor, n: nat) {
    n < |s.jobs| && s.jobs[n].decision.Some? && s.jobs[n].toldAt.None?
  }

  predicate CanDispatch(s: Floor, n: nat) {
    n < |s.jobs| && s.jobs[n].toldAt.Some? && !s.jobs[n].dispatched
    && s.jobs[n].decision.Some? && s.jobs[n].decision.value.verdict == Authorized
  }

  /** The decision on the override, the blocklist and the allowlist as each was read. */
  function Ruled(s: Floor, job: Job): Decision
    requires Consistent(s.tables) && job.blocked.Some?
  {
    Decide(s.cfg, job.override, s.tables, job.blocked.value, Submission(s.site, job.frame), job.clock, job.id)
  }

  function Change(s: Floor, n: nat, job: Job, marks: seq<Mark>): Floor
    requires n < |s.jobs|
  {
    s.(jobs := s.jobs[n := job], trace := s.trace + marks)
  }

  function Take(s: Floor, step: Step): (r: Floor)
    requires Consistent(s.tables)
    ensures Consistent(r.tables)
  {
    match step
    case ReadOverride(frame, clock, id) =>
      if frame.gate == "" then s
      else
        var job := Job(frame, clock, id, Get(s.overrides, frame.gate), |s.trace|, None, None, None, false);
        s.(jobs := s.jobs + [job], trace := s.trace + [Began(|s.jobs|, frame.gate)])
    case ReadBlocklist(n) =>
      if CanBlock(s, n) then Change(s, n, s.jobs[n].(blocked := Some(s.blocked)), []) else s
    case ReadAllowlist(n) =>
      if CanDecide(s, n) then Change(s, n, s.jobs[n].(decision := Some(Ruled(s, s.jobs[n]))), []) else s
    case Publish(n) =>
      if CanPublish(s, n) then
        Change(s, n, s.jobs[n].(toldAt := Some(|s.trace|)), [Told(n, s.jobs[n].decision.value)])
      else s
    case Dispatch(n) =>
      if CanDispatch(s, n) then
        var d := s.jobs[n].decision.value;
        Change(s, n, s.jobs[n].(dispatched := true), [Opened(n, d.gate, AUTO_PREFIX + d.id)])
      else s
    case SetLatch(gate, o) =>
      s.(overrides := Set(s.overrides, gate, o), trace := s.trace + [Latched(gate, o)])
    case Refill(tables, blocked) =>
      if Consistent(tables) then s.(tables := tables, blocked := blocked) else s
  }

  function Play(s: Floor, steps: seq<Step>): (r: Floor)
    requires Consistent(s.tables)
    ensures Consistent(r.tables)
  {
    if steps == [] then s else Take(Play(s, steps[..|steps| - 1]), steps[|steps| - 1])
  }

  function Start(cfg: Config, site: string): Floor {
    Floor(cfg, site, Tables(map[], map[], map[]), {}, map[], [], [])
  }

  /** The override in force for the gate after the trace. */
  function InForce(trace: seq<Mark>, gate: string): Override {
    if trace == [] then Normal
    else
      var last := trace[|trace| - 1];
      if last.Latched? && last.gate == gate then last.override else InForce(trace[..|trace| - 1], gate)
  }

  // --- What every interleaving keeps ------------------------------------------------

  /** A decision taken with an override in hand respects it. */
  predicate Respects(d: Decision, gate: string, o: Override) {
    d.gate == gate && (d.verdict == Authorized ==> o != ForceClose)
  }

  predicate Grounded(trace: seq<Mark>, n: nat, job: Job) {
    && job.beganAt < |trace| && trace[job.beganAt] == Began(n, job.frame.gate)
    && job.override == InForce(trace[..job.beganAt], job.frame.gate)
    && (job.decision.Some? ==> Respects(job.decision.value, job.frame.gate, job.override))
    && (job.toldAt.Some? ==>
          && job.decision.Some? && job.beganAt < job.toldAt.value < |trace|
          && trace[job.toldAt.value] == Told(n, job.decision.value))
  }

  /** The publication at `k` is of a decision that authorizes the open at `i`. */
  predicate Authorizes(trace: seq<Mark>, i: nat, k: nat)
    requires i < |trace| && trace[i].Opened?
  {
    && k < i && trace[k].Told? && trace[k].job == trace[i].job
    && trace[k].decision.verdict == Authorized && trace[k].decision.gate == trace[i].gate
    && trace[i].actor == AUTO_PREFIX + trace[k].decision.id
  }

  /** The open at `i` comes from a submission that read its override at `j`, when its
      gate was not in lockdown, and published its authorizing decision in between. */
  ghost predicate CausedBy(trace: seq<Mark>, i: nat, j: nat)
    requires i < |trace| && trace[i].Opened?
  {
    && j < i && trace[j] == Began(trace[i].job, trace[i].gate)
    && InForce(trace[..j], trace[i].gate) != ForceClose
    && exists k: nat :: j < k && Authorizes(trace, i, k)
  }

  ghost predicate Caused(trace: seq<Mark>, i: nat)
    requires i < |trace|
  {
    trace[i].Opened? ==> exists j: nat :: CausedBy(trace, i, j)
  }

  ghost predicate Held(s: Floor) {
    && (forall gate :: Get(s.overrides, gate) == InForce(s.trace, gate))
    && (forall n | 0 <= n < |s.jobs| :: Grounded(s.trace, n, s.jobs[n]))
    && (forall i | 0 <= i < |s.trace| :: Caused(s.trace, i))
  }

  lemma GroundedNext(trace: seq<Mark>, m: Mark, n: nat, job: Job)
    requires Grounded(trace, n, job)
    ensures Grounded(trace + [m], n, job)
  {
    hide InForce, Respects;
    assert (trace + [m])[..job.beganAt] == trace[..job.beganAt];
  }

  lemma CausedNext(trace: seq<Mark>, m: Mark)
    requires forall i | 0 <= i < |trace| :: Caused(trace, i)
    requires Caused(trace + [m], |trace|)
    ensures forall i | 0 <= i < |trace| + 1 :: Caused(trace + [m], i)
  {
    hide InForce;
    var next := trace + [m];
    forall i | 0 <= i < |trace| ensures Caused(next, i) {
      assert Caused(trace, i);
      if trace[i].Opened? {
        var j: nat :| CausedBy(trace, i, j);
        var k: nat :| j < k && Authorizes(trace, i, k);
        assert next[..j] == trace[..j] && Authorizes(next, i, k);
        assert CausedBy(next, i, j);
      }
    }
  }

  lemma InForceNext(trace: seq<Mark>, m: Mark, gate: string)
    ensures InForce(trace + [m], gate) == if m.Latched? && m.gate == gate then m.override else InForce(trace, gate)
  {
    assert (trace + [m])[..|trace|] == trace;
  }

  lemma RuledRespects(s: Floor, job: Job)
    requires Consistent(s.tables) && job.blocked.Some?
    ensures Respects(Ruled(s, job), job.frame.gate, job.override)
  {
    hide Normalize, AllowedNow, Best, ClassAllowed, Combined, Alpr, Lidar;
  }

  lemma ReadOverrideHolds(s: Floor, frame: Frame, clock: Clock, id: string)
    requires Consistent(s.tables) && Held(s) && frame.gate != ""
    ensures Held(Take(s, ReadOverride(frame, clock, id)))
  {
    hide InForce;
    var m := Began(|s.jobs|, frame.gate);
    assert (s.trace + [m])[..|s.trace|] == s.trace;
    forall n | 0 <= n < |s.jobs| { GroundedNext(s.trace, m, n, s.jobs[n]); }
    forall gate { InForceNext(s.trace, m, gate); }
    CausedNext(s.trace, m);
  }

  /** Replacing one grounded job, with at most one new mark, keeps everything. */
  lemma QuietHolds(s: Floor, n: nat, job: Job)
    requires Held(s) && n < |s.jobs| && Grounded(s.trace, n, job)
    ensures Held(Change(s, n, job, []))
  {
    hide InForce, Grounded, Caused;
    assert s.trace + [] == s.trace;
  }

  lemma MarkHolds(s: Floor, n: nat, job: Job, m: Mark)
    requires Held(s) && n < |s.jobs| && !m.Latched?
    requires Grounded(s.trace + [m], n, job) && Caused(s.trace + [m], |s.trace|)
    ensures Held(Change(s, n, job, [m]))
  {
    hide InForce, Grounded, Caused;
    forall k | 0 <= k < |s.jobs| { GroundedNext(s.trace, m, k, s.jobs[k]); }
    forall gate { InForceNext(s.trace, m, gate); }
    CausedNext(s.trace, m);
  }

  lemma ReadBlocklistHolds(s: Floor, n: nat)
    requires Consistent(s.tables) && Held(s) && CanBlock(s, n)
    ensures Held(Take(s, ReadBlocklist(n)))
  {
    hide InForce, Caused;
    QuietHolds(s, n, s.jobs[n].(blocked := Some(s.blocked)));
  }

  lemma ReadAllowlistHolds(s: Floor, n: nat)
    requires Consistent(s.tables) && Held(s) && CanDecide(s, n)
    ensures Held(Take(s, ReadAllowlist(n)))
  {
    hide InForce, Caused, Ruled, Respects;
    RuledRespects(s, s.jobs[n]);
    QuietHolds(s, n, s.jobs[n].(decision := Some(Ruled(s, s.jobs[n]))));
  }

  lemma PublishHolds(s: Floor, n: nat)
    requires Consistent(s.tables) && Held(s) && CanPublish(s, n)
    ensures Held(Take(s, Publish(n)))
  {
    hide InForce, Respects;
    var m := Told(n, s.jobs[n].decision.value);
    GroundedNext(s.trace, m, n, s.jobs[n]);
    MarkHolds(s, n, s.jobs[n].(toldAt := Some(|s.trace|)), m);
  }

  lemma DispatchHolds(s: Floor, n: nat)
    requires Consistent(s.tables) && Held(s) && CanDispatch(s, n)
    ensures Held(Take(s, Dispatch(n)))
  {
    hide InForce;
    var job := s.jobs[n];
    var m := Opened(n, job.decision.value.gate, AUTO_PREFIX + job.decision.value.id);
    var next := s.trace + [m];
    GroundedNext(s.trace, m, n, job);
    assert Grounded(s.trace, n, job);
    assert next[..job.beganAt] == s.trace[..job.beganAt];
    assert Authorizes(next, |s.trace|, job.toldAt.value);
    assert CausedBy(next, |s.trace|, job.beganAt);
    MarkHolds(s, n, job.(dispatched := true), m);
  }

  lemma SetLatchHolds(s: Floor, gate: string, o: Override)
    requires Consistent(s.tables) && Held(s)
    ensures Held(Take(s, SetLatch(gate, o)))
  {
    hide InForce, Grounded;
    var m := Latched(gate, o);
    forall k | 0 <= k < |s.jobs| { GroundedNext(s.trace, m, k, s.jobs[k]); }
    forall g { InForceNext(s.trace, m, g); }
    CausedNext(s.trace, m);
  }

  lemma RefillHolds(s: Floor, tables: Tables, blocked: set<Key>)
    requires Consistent(s.tables) && Held(s)
    ensures Held(Take(s, Refill(tables, blocked)))
  {
    hide InForce, Grounded, Caused;
  }

  lemma StartHolds(cfg: Config, site: string)
    ensures Held(Start(cfg, site))
  {
  }

  lemma TakeHolds(s: Floor, step: Step)
    requires Consistent(s.tables) && Held(s)
    ensures Held(Take(s, step))
  {
    hide Held, Ruled, Change;
    match step
    case ReadOverride(frame, clock, id) => if frame.gate != "" { ReadOverrideHolds(s, frame, clock, id); }
    case ReadBlocklist(n) => if CanBlock(s, n) { ReadBlocklistHolds(s, n); }
    case ReadAllowlist(n) => if CanDecide(s, n) { ReadAllowlistHolds(s, n); }
    case Publish(n) => if CanPublish(s, n) { PublishHolds(s, n); }
    case Dispatch(n) => if CanDispatch(s, n) { DispatchHolds(s, n); }
    case SetLatch(gate, o) => SetLatchHolds(s, gate, o);
    case Refill(tables, blocked) => RefillHolds(s, tables, blocked);
  }

  /** Whatever the interleaving, every automatic open goes back to a published decision
      that authorized its gate, by a submission that found it not in lockdown. */
  lemma {:induction false} PlayHolds(cfg: Config, site: string, steps: seq<Step>)
    ensures Held(Play(Start(cfg, site), steps))
  {
    hide Held, Take;
    if steps == [] {
      StartHolds(cfg, site);
    } else {
      PlayHolds(cfg, site, steps[..|steps| - 1]);
      TakeHolds(Play(Start(cfg, site), steps[..|steps| - 1]), steps[|steps| - 1]);
    }
  }

  // --- Exactly when an open slips into a lockdown --------------------------------------

  /** The gate was latched closed at `l` and not latched again before `i`. */
  predicate ClosedSince(trace: seq<Mark>, gate: string, l: nat, i: nat)
    requires i <= |trace|
  {
    l < i && trace[l] == Latched(gate, ForceClose)
    && forall k | l < k < i :: !(trace[k].Latched? && trace[k].gate == gate)
  }

  lemma {:induction false} LockdownIff(trace: seq<Mark>, gate: string, i: nat)
    requires i <= |trace|
    ensures InForce(trace[..i], gate) == ForceClose <==> exists l: nat :: ClosedSince(trace, gate, l, i)
  {
    if i > 0 {
      LockdownIff(trace, gate, i - 1);
      var m := trace[i - 1];
      InForceNext(trace[..i - 1], m, gate);
      assert trace[..i] == trace[..i - 1] + [m];
      hide InForce;
      if m.Latched? && m.gate == gate {
        if m.override == ForceClose {
          assert ClosedSince(trace, gate, i - 1, i);
        }
      } else if InForce(trace[..i], gate) == ForceClose {
        var l: nat :| ClosedSince(trace, gate, l, i - 1);
        assert ClosedSince(trace, gate, l, i);
      } else {
        forall l: nat ensures !ClosedSince(trace, gate, l, i) {
          assert !ClosedSince(trace, gate, l, i - 1);
        }
      }
    }
  }

  lemma ClosedEarlier(trace: seq<Mark>, gate: string, j: nat, i: nat)
    requires j <= i <= |trace|
    ensures forall l: nat | l < j && ClosedSince(trace, gate, l, i) :: ClosedSince(trace, gate, l, j)
  {
  }

  /** An automatic open is published during a lockdown of its gate if and only if the
      lockdown began after the submission behind it had read the override. */
  lemma OpenInLockdownIff(cfg: Config, site: string, steps: seq<Step>, i: nat)
    returns (j: nat)
    requires i < |Play(Start(cfg, site), steps).trace| && Play(Start(cfg, site), steps).trace[i].Opened?
    ensures var trace := Play(Start(cfg, site), steps).trace;
            && CausedBy(trace, i, j)
            && (InForce(trace[..i], trace[i].gate) == ForceClose <==>
                  exists l: nat :: j < l && ClosedSince(trace, trace[i].gate, l, i))
  {
    hide InForce, Play, Grounded;
    var trace := Play(Start(cfg, site), steps).trace;
    var gate := trace[i].gate;
    PlayHolds(cfg, site, steps);
    assert Caused(trace, i);
    j :| CausedBy(trace, i, j);
    LockdownIff(trace, gate, i);
    LockdownIff(trace, gate, j);
    ClosedEarlier(trace, gate, j, i);
    if InForce(trace[..i], gate) == ForceClose {
      var l: nat :| ClosedSince(trace, gate, l, i);
      assert l != j;
    }
  }

  lemma LatchedOpenAdmits(s: Floor, job: Job)
    requires Consistent(s.tables) && job.blocked.Some? && job.override == ForceOpen
    requires |job.frame.plates| == 1 && job.frame.plates[0].detection == 1.0
    ensures Ruled(s, job).verdict == Authorized && Ruled(s, job).gate == job.frame.gate
  {
    hide Normalize, Best, Combined, Lookup;
    PlateReadable(job.frame);
    assert job.frame.plates[0] in job.frame.plates;
  }

  lemma PlayOne(s: Floor, step: Step)
    requires Consistent(s.tables)
    ensures Play(s, [step]) == Take(s, step)
  {
    hide Take;
    assert Play(s, [step][..0]) == s;
  }

  lemma PlayNext(s: Floor, steps: seq<Step>, step: Step)
    requires Consistent(s.tables)
    ensures Play(s, steps + [step]) == Take(Play(s, steps), step)
  {
    hide Take;
    assert (steps + [step])[..|steps|] == steps;
  }

  /** A submission up to its decision, on a gate latched open. */
  lemma DecidedOpen(cfg: Config, site: string, clock: Clock, frame: Frame) returns (steps: seq<Step>, d: Decision)
    requires frame.gate != "" && |frame.plates| == 1 && frame.plates[0].detection == 1.0
    ensures d.verdict == Authorized && d.gate == frame.gate
    ensures var s := Play(Start(cfg, site), steps);
            && |s.jobs| == 1 && s.jobs[0].decision == Some(d) && s.jobs[0].toldAt.None? && !s.jobs[0].dispatched
            && s.trace == [Latched(frame.gate, ForceOpen), Began(0, frame.gate)]
  {
    hide Ruled, Play;
    var s0 := Start(cfg, site);
    var q1 := [SetLatch(frame.gate, ForceOpen)];
    var q2 := q1 + [ReadOverride(frame, clock, "d")];
    var q3 := q2 + [ReadBlocklist(0)];
    PlayOne(s0, SetLatch(frame.gate, ForceOpen));
    PlayNext(s0, q1, ReadOverride(frame, clock, "d"));
    PlayNext(s0, q2, ReadBlocklist(0));
    PlayNext(s0, q3, ReadAllowlist(0));
    steps := q3 + [ReadAllowlist(0)];
    var s3 := Play(s0, q3);
    LatchedOpenAdmits(s3, s3.jobs[0]);
    d := Ruled(s3, s3.jobs[0]);
  }

  /** Such a race exists: decide, latch closed, publish, open. */
  lemma RaceExists(cfg: Config, site: string, clock: Clock)
    returns (steps: seq<Step>)
    ensures var trace := Play(Start(cfg, site), steps).trace;
            |trace| == 5 && trace[4].Opened? && InForce(trace[..4], trace[4].gate) == ForceClose
  {
    hide Ruled, InForce, Play;
    var q4, d := DecidedOpen(cfg, site, clock, Frame("g", "f", [Plate("A", 1.0, 1.0)], []));
    var s0, c := Start(cfg, site), SetLatch("g", ForceClose);
    var q5 := q4 + [c];
    var q6 := q5 + [Publish(0)];
    steps := q6 + [Dispatch(0)];
    PlayNext(s0, q4, c);
    PlayNext(s0, q5, Publish(0));
    PlayNext(s0, q6, Dispatch(0));
    var trace := Play(s0, steps).trace;
    assert trace[2] == Latched("g", ForceClose) && trace[3] == Told(0, d);
    assert ClosedSince(trace, "g", 2, 4);
    LockdownIff(trace, "g", 4);
  }
}
