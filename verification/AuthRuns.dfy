/** The server's handlers that decide and command: a detection submitted by a gate, a
    command or an authorization request from a dashboard, each as one step, over every
    run. */
module AuthRuns {
  import opened Allowlist
  import opened Fusion

  datatype Kind = Unspecified | OpenGate | CloseGate | PulseRelay | LatchOpen | LatchClose | ReleaseLatch | Reboot
                | BeginOta | LedPattern

  datatype Command = Command(id: string, gate: string, kind: Kind, actor: string, issued: int)

  /** What goes out on the event bus.  `auto` marks a command the server dispatched by
      itself; its text could equally be sent by a dashboard. */
  datatype Post =
    | DecisionPost(site: string, decision: Decision)
    | CommandPost(site: string, command: Command, auto: bool)
    | AckPost(site: string, gate: string, commandId: string)

  datatype Status = Ok | InvalidArgument

  const SUBMIT_ACTOR := "firmware-submit"
  const AUTO_PREFIX := "auto:"

  /** The override a latch command asks for. */
  function Latch(kind: Kind): Option<Override> {
    match kind
    case LatchOpen => Some(ForceOpen)
    case LatchClose => Some(ForceClose)
    case ReleaseLatch => Some(Normal)
    case _ => None
  }

  function AutoOpen(frame: Frame, d: Decision, commandId: string, now: int): Command {
    Command(commandId, frame.gate, OpenGate, AUTO_PREFIX + d.id, now)
  }

  function Stamped(c: Command, freshId: string, now: int): Command {
    c.(id := if c.id == "" then freshId else c.id, issued := if c.issued == 0 then now else c.issued)
  }

  function Submission(site: string, frame: Frame): Request { Request(frame, site, SUBMIT_ACTOR, false) }

  // --- The handlers as steps --------------------------------------------------------

  datatype World = World(
    cfg: Config,
    site: string,
    tables: Tables,
    blocked: set<Key>,
    overrides: map<string, Override>,
    bus: seq<Post>)

  predicate Sound(w: World) { Consistent(w.tables) }

  function Ruling(w: World, req: Request, clock: Clock, id: string): Decision
    requires Sound(w)
  {
    Decide(w.cfg, Get(w.overrides, req.frame.gate), w.tables, w.blocked, req, clock, id)
  }

  function SubmitPosts(site: string, frame: Frame, d: Decision, commandId: string, now: int): seq<Post> {
    [DecisionPost(site, d)] +
    (if d.verdict == Authorized then [CommandPost(site, AutoOpen(frame, d, commandId, now), true)] else [])
  }

  function IssuePosts(site: string, c: Command): seq<Post> {
    [CommandPost(site, c, false), AckPost(site, c.gate, c.id)]
  }

  function AfterLatch(overrides: map<string, Override>, c: Command): map<string, Override> {
    if Latch(c.kind).Some? then Set(overrides, c.gate, Latch(c.kind).value) else overrides
  }

  datatype Op =
    | Submit(frame: Frame, clock: Clock, decisionId: string, commandId: string, now: int)
    | Issue(command: Command, freshId: string, now: int)
    | Authorize(req: Request, clock: Clock, decisionId: string)
    | Restock(tables: Tables, blocked: set<Key>)

  function Do(w: World, op: Op): (r: World)
    requires Sound(w)
    ensures Sound(r)
  {
    match op
    case Submit(frame, clock, id, commandId, now) =>
      if frame.gate == "" then w
      else
        var d := Ruling(w, Submission(w.site, frame), clock, id);
        w.(bus := w.bus + SubmitPosts(w.site, frame, d, commandId, now))
    case Issue(c, freshId, now) =>
      if c.gate == "" || c.kind == Unspecified then w
      else w.(overrides := AfterLatch(w.overrides, c), bus := w.bus + IssuePosts(w.site, Stamped(c, freshId, now)))
    case Authorize(req, clock, id) =>
      if req.site == "" || req.frame.gate == "" then w
      else w.(bus := w.bus + [DecisionPost(req.site, Ruling(w, req, clock, id))])
    case Restock(tables, blocked) =>
      if Consistent(tables) then w.(tables := tables, blocked := blocked) else w
  }

  function Run(w: World, ops: seq<Op>): (r: World)
    requires Sound(w)
    ensures Sound(r)
  {
    if ops == [] then w else Do(Run(w, ops[..|ops| - 1]), ops[|ops| - 1])
  }

  function Boot(cfg: Config, site: string): World {
    World(cfg, site, Tables(map[], map[], map[]), {}, map[], [])
  }

  // --- The objects ----------------------------------------------------------------------

  class Services {
    const fusion: FusionEngine
    const site: string
    var bus: seq<Post>

    constructor (fusion: FusionEngine, site: string)
      ensures this.fusion == fusion && this.site == site && bus == []
    {
      this.fusion, this.site, bus := fusion, site, [];
    }

    function Value(): World
      reads this, fusion, fusion.store
    {
      World(fusion.cfg, site, fusion.store.Value(), fusion.store.blocklist.Keys, fusion.overrides, bus)
    }

    method SubmitDetection(frame: Frame, clock: Clock, decisionId: string, commandId: string, now: int)
      returns (status: Status, d: Option<Decision>)
      requires Sound(Value())
      modifies this`bus
      ensures Value() == Do(old(Value()), Submit(frame, clock, decisionId, commandId, now))
      ensures status == InvalidArgument <==> frame.gate == ""
      ensures d == if frame.gate == "" then None
                   else Some(old(Ruling(Value(), Submission(site, frame), clock, decisionId)))
    {
      hide Decide;
      if frame.gate == "" {
        return InvalidArgument, None;
      }
      var r := fusion.DecideAt(Request(frame, site, SUBMIT_ACTOR, false), clock, decisionId);
      bus := bus + [DecisionPost(site, r)];
      if r.verdict == Authorized {
        var open := Command(commandId, frame.gate, OpenGate, AUTO_PREFIX + r.id, now);
        bus := bus + [CommandPost(site, open, true)];
      }
      return Ok, Some(r);
    }

    /** Latch commands change the gate's override; others leave it. */
    method ApplyLatch(c: Command)
      modifies fusion`overrides
      ensures fusion.overrides == AfterLatch(old(fusion.overrides), c)
    {
      hide Set;
      match c.kind {
        case LatchOpen => fusion.SetOverride(c.gate, ForceOpen);
        case LatchClose => fusion.SetOverride(c.gate, ForceClose);
        case ReleaseLatch => fusion.SetOverride(c.gate, Normal);
        case _ =>
      }
    }

    method IssueCommand(req: Command, freshId: string, now: int) returns (status: Status, commandId: string)
      modifies this`bus, fusion`overrides
      ensures Sound(old(Value())) ==> Value() == Do(old(Value()), Issue(req, freshId, now))
      ensures status == InvalidArgument <==> req.gate == "" || req.kind == Unspecified
      ensures status == Ok ==> commandId == Stamped(req, freshId, now).id
    {
      hide Set, Decide;
      if req.gate == "" {
        return InvalidArgument, "";
      }
      if req.kind == Unspecified {
        return InvalidArgument, "";
      }
      var c := req;
      if c.id == "" {
        c := c.(id := freshId);
      }
      if c.issued == 0 {
        c := c.(issued := now);
      }
      ApplyLatch(c);
      bus := bus + [CommandPost(site, c, false)];
      bus := bus + [AckPost(site, c.gate, c.id)];
      return Ok, c.id;
    }

    method AuthorizeRequest(req: Request, clock: Clock, decisionId: string) returns (status: Status)
      requires Sound(Value())
      modifies this`bus
      ensures Value() == Do(old(Value()), Authorize(req, clock, decisionId))
      ensures status == InvalidArgument <==> req.site == "" || req.frame.gate == ""
    {
      hide Decide;
      if req.site == "" {
        return InvalidArgument;
      }
      if req.frame.gate == "" {
        return InvalidArgument;
      }
      var d := fusion.DecideAt(req, clock, decisionId);
      bus := bus + [DecisionPost(req.site, d)];
      return Ok;
    }
  }

  // --- What every run keeps -----------------------------------------------------------

  /** What one post says about a gate's latch. */
  function LatchIn(p: Post, gate: string): Option<Override> {
    if p.CommandPost? && !p.auto && p.command.gate == gate then Latch(p.command.kind) else None
  }

  /** The last latch published for the gate. */
  function LatchOf(bus: seq<Post>, gate: string): Override {
    if bus == [] then Normal
    else if LatchIn(bus[|bus| - 1], gate).Some? then LatchIn(bus[|bus| - 1], gate).value
    else LatchOf(bus[..|bus| - 1], gate)
  }

  lemma LatchOfNext(bus: seq<Post>, p: Post, gate: string)
    ensures LatchOf(bus + [p], gate) == if LatchIn(p, gate).Some? then LatchIn(p, gate).value else LatchOf(bus, gate)
  {
    assert (bus + [p])[..|bus|] == bus;
  }

  ghost predicate Mirrors(w: World) { forall gate :: Get(w.overrides, gate) == LatchOf(w.bus, gate) }

  /** Post `i` respects the latches before it: an authorized decision or an automatic
      open is never for a gate in lockdown, and an automatic open directly follows the
      authorized decision for its gate that it names. */
  predicate Lawful(bus: seq<Post>, i: nat)
    requires i < |bus|
  {
    && (bus[i].DecisionPost? && bus[i].decision.verdict == Authorized ==>
          LatchOf(bus[..i], bus[i].decision.gate) != ForceClose)
    && (bus[i].CommandPost? && bus[i].auto ==>
          && LatchOf(bus[..i], bus[i].command.gate) != ForceClose
          && bus[i].command.kind == OpenGate
          && i > 0 && bus[i - 1].DecisionPost?
          && bus[i - 1].site == bus[i].site
          && bus[i - 1].decision.verdict == Authorized
          && bus[i - 1].decision.gate == bus[i].command.gate
          && bus[i].command.actor == AUTO_PREFIX + bus[i - 1].decision.id)
  }

  predicate AllLawful(bus: seq<Post>) { forall i | 0 <= i < |bus| :: Lawful(bus, i) }

  lemma LawfulNext(bus: seq<Post>, p: Post)
    requires AllLawful(bus) && Lawful(bus + [p], |bus|)
    ensures AllLawful(bus + [p])
  {
    hide LatchOf;
    var next := bus + [p];
    forall i | 0 <= i < |next| ensures Lawful(next, i) {
      if i < |bus| {
        assert Lawful(bus, i) && next[..i] == bus[..i];
      }
    }
  }

  lemma RulingRespects(w: World, req: Request, clock: Clock, id: string)
    requires Sound(w)
    ensures var d := Ruling(w, req, clock, id);
            d.id == id && d.gate == req.frame.gate
            && (d.verdict == Authorized ==> Get(w.overrides, d.gate) != ForceClose)
  {
    hide Normalize, AllowedNow, Best, ClassAllowed, Combined, Alpr, Lidar;
  }

  lemma DecisionKeeps(bus: seq<Post>, site: string, d: Decision)
    requires AllLawful(bus) && (d.verdict == Authorized ==> LatchOf(bus, d.gate) != ForceClose)
    ensures AllLawful(bus + [DecisionPost(site, d)])
    ensures forall gate :: LatchOf(bus + [DecisionPost(site, d)], gate) == LatchOf(bus, gate)
  {
    var p := DecisionPost(site, d);
    assert (bus + [p])[..|bus|] == bus;
    LawfulNext(bus, p);
    forall gate { LatchOfNext(bus, p, gate); }
  }

  lemma SubmitKeeps(w: World, frame: Frame, clock: Clock, id: string, commandId: string, now: int)
    requires Sound(w) && Mirrors(w) && AllLawful(w.bus) && frame.gate != ""
    ensures var r := Do(w, Submit(frame, clock, id, commandId, now)); Mirrors(r) && AllLawful(r.bus)
  {
    hide Ruling, LatchOf;
    var d := Ruling(w, Submission(w.site, frame), clock, id);
    RulingRespects(w, Submission(w.site, frame), clock, id);
    DecisionKeeps(w.bus, w.site, d);
    var told := w.bus + [DecisionPost(w.site, d)];
    if d.verdict == Authorized {
      var p := CommandPost(w.site, AutoOpen(frame, d, commandId, now), true);
      assert (told + [p])[..|told|] == told;
      assert LatchOf(told, frame.gate) == Get(w.overrides, frame.gate);
      LawfulNext(told, p);
      forall gate { LatchOfNext(told, p, gate); }
      assert told + [p] == w.bus + SubmitPosts(w.site, frame, d, commandId, now);
    } else {
      assert told == w.bus + SubmitPosts(w.site, frame, d, commandId, now);
    }
  }

  lemma IssueKeeps(w: World, c: Command, freshId: string, now: int)
    requires Sound(w) && Mirrors(w) && AllLawful(w.bus) && c.gate != "" && c.kind != Unspecified
    ensures var r := Do(w, Issue(c, freshId, now)); Mirrors(r) && AllLawful(r.bus)
  {
    hide LatchOf;
    var s := Stamped(c, freshId, now);
    var p, q := CommandPost(w.site, s, false), AckPost(w.site, s.gate, s.id);
    LawfulNext(w.bus, p);
    LawfulNext(w.bus + [p], q);
    assert w.bus + [p] + [q] == w.bus + IssuePosts(w.site, s);
    forall gate ensures LatchOf(w.bus + [p] + [q], gate) == Get(AfterLatch(w.overrides, c), gate) {
      LatchOfNext(w.bus, p, gate);
      LatchOfNext(w.bus + [p], q, gate);
    }
  }

  lemma AuthorizeKeeps(w: World, req: Request, clock: Clock, id: string)
    requires Sound(w) && Mirrors(w) && AllLawful(w.bus) && req.site != "" && req.frame.gate != ""
    ensures var r := Do(w, Authorize(req, clock, id)); Mirrors(r) && AllLawful(r.bus)
  {
    hide Ruling, LatchOf;
    RulingRespects(w, req, clock, id);
    DecisionKeeps(w.bus, req.site, Ruling(w, req, clock, id));
  }

  lemma RestockKeeps(w: World, tables: Tables, blocked: set<Key>)
    requires Sound(w) && Mirrors(w)
    ensures Mirrors(Do(w, Restock(tables, blocked)))
  {
    hide LatchOf, Decide;
  }

  lemma DoKeeps(w: World, op: Op)
    requires Sound(w) && Mirrors(w) && AllLawful(w.bus)
    ensures Mirrors(Do(w, op)) && AllLawful(Do(w, op).bus)
  {
    hide Ruling, LatchOf, Mirrors, AllLawful;
    match op
    case Submit(frame, clock, id, commandId, now) =>
      if frame.gate != "" { SubmitKeeps(w, frame, clock, id, commandId, now); }
    case Issue(c, freshId, now) =>
      if c.gate != "" && c.kind != Unspecified { IssueKeeps(w, c, freshId, now); }
    case Authorize(req, clock, id) =>
      if req.site != "" && req.frame.gate != "" { AuthorizeKeeps(w, req, clock, id); }
    case Restock(tables, blocked) =>
      RestockKeeps(w, tables, blocked);
  }

  /** In every run each gate's override is the last latch published for it; no gate in
      lockdown is authorized or opened automatically; and every automatic open names
      the authorized decision, for that gate, published just before it. */
  lemma {:induction false} RunIsLawful(cfg: Config, site: string, ops: seq<Op>)
    ensures var w := Run(Boot(cfg, site), ops); Mirrors(w) && AllLawful(w.bus)
  {
    hide Do;
    if ops != [] {
      RunIsLawful(cfg, site, ops[..|ops| - 1]);
      DoKeeps(Run(Boot(cfg, site), ops[..|ops| - 1]), ops[|ops| - 1]);
    }
  }

  predicate IsLatch(p: Post, gate: string, kind: Kind) {
    p.CommandPost? && !p.auto && p.command.gate == gate && p.command.kind == kind
  }

  /** Once closed, a gate's latch stays closed until one of the other latch commands. */
  lemma {:induction false} StaysLatched(bus: seq<Post>, i: nat, j: nat, gate: string)
    requires i < j <= |bus| && IsLatch(bus[i], gate, LatchClose)
    requires forall k | i < k < j :: !IsLatch(bus[k], gate, LatchOpen) && !IsLatch(bus[k], gate, ReleaseLatch)
    ensures LatchOf(bus[..j], gate) == ForceClose
    decreases j
  {
    LatchOfNext(bus[..j - 1], bus[j - 1], gate);
    assert bus[..j - 1] + [bus[j - 1]] == bus[..j];
    if j - 1 > i {
      StaysLatched(bus, i, j - 1, gate);
    }
  }

  /** No automatic open for a gate is published between its LATCH_CLOSE and the next
      LATCH_OPEN or RELEASE_LATCH. */
  lemma NoAutoOpenInLockdown(cfg: Config, site: string, ops: seq<Op>, i: nat, j: nat, gate: string)
    requires i < j < |Run(Boot(cfg, site), ops).bus|
    requires var bus := Run(Boot(cfg, site), ops).bus;
             && IsLatch(bus[i], gate, LatchClose)
             && forall k | i < k < j :: !IsLatch(bus[k], gate, LatchOpen) && !IsLatch(bus[k], gate, ReleaseLatch)
    ensures var p := Run(Boot(cfg, site), ops).bus[j]; !(p.CommandPost? && p.auto && p.command.gate == gate)
  {
    hide Run, LatchOf;
    var bus := Run(Boot(cfg, site), ops).bus;
    RunIsLawful(cfg, site, ops);
    StaysLatched(bus, i, j, gate);
    assert Lawful(bus, j);
  }

  // --- Who is let in -------------------------------------------------------------------

  /** What a submission needs for its gate to open by itself: no lockdown, a plate some
      detection reads, and then a gate latched open, or enough confidence in a plate that
      is not blocked and has an entry that allows its vehicle now.  No one vouches. */
  predicate LetIn(w: World, frame: Frame, clock: Clock)
    requires Sound(w)
  {
    var o := Get(w.overrides, frame.gate);
    && frame.gate != "" && o != ForceClose && HasPlate(frame)
    && (o == ForceOpen
        || (&& Combined(w.cfg, frame) >= w.cfg.threshold
            && Key(w.site, Normalize(BestPlate(frame).text)) !in w.blocked
            && Lookup(w.tables, w.site, BestPlate(frame).text).Some?
            && AllowedNow(Lookup(w.tables, w.site, BestPlate(frame).text).value, ClassOf(frame), clock)))
  }

  /** The last command a step dispatched by itself, if any. */
  predicate Dispatches(w: World, r: World) {
    |r.bus| > |w.bus| && r.bus[|r.bus| - 1].CommandPost? && r.bus[|r.bus| - 1].auto
  }

  lemma RulingLetsIn(w: World, frame: Frame, clock: Clock, id: string)
    requires Sound(w) && frame.gate != ""
    ensures var d := Ruling(w, Submission(w.site, frame), clock, id);
            && (d.verdict == Authorized <==> LetIn(w, frame, clock))
            && d.id == id && d.gate == frame.gate && d.actor == "firmware-submit"
  {
    hide Decide, Normalize, AllowedNow, Best, Combined, ClassOf, Lookup, Consistent;
    var req, o := Submission(w.site, frame), Get(w.overrides, frame.gate);
    AuthorizedIff(w.cfg, o, w.tables, w.blocked, req, clock, id);
    DecisionCarries(w.cfg, o, w.tables, w.blocked, req, clock, id);
  }

  /** A submission is published as a decision under the server's site, and opens its
      gate by itself if and only if the vehicle is to be let in; the command then is that
      open, for that gate, with the id and time given. */
  lemma AutoOpenIff(w: World, frame: Frame, clock: Clock, id: string, commandId: string, now: int)
    requires Sound(w)
    ensures var r := Do(w, Submit(frame, clock, id, commandId, now));
            && (Dispatches(w, r) <==> LetIn(w, frame, clock))
            && w.bus <= r.bus && r == w.(bus := r.bus)
            && (frame.gate == "" ==> r == w)
            && (frame.gate != "" ==>
                  && |r.bus| == |w.bus| + (if LetIn(w, frame, clock) then 2 else 1)
                  && r.bus[|w.bus|].DecisionPost? && r.bus[|w.bus|].site == w.site
                  && r.bus[|w.bus|].decision.gate == frame.gate)
            && (LetIn(w, frame, clock) ==>
                  r.bus[|r.bus| - 1] ==
                    CommandPost(w.site, Command(commandId, frame.gate, OpenGate, "auto:" + id, now), true))
  {
    hide Ruling, LetIn;
    if frame.gate == "" {
      NoGateNoEntry(w, frame, clock);
    } else {
      RulingLetsIn(w, frame, clock, id);
    }
  }

  lemma NoGateNoEntry(w: World, frame: Frame, clock: Clock)
    requires Sound(w) && frame.gate == ""
    ensures !LetIn(w, frame, clock)
  {
  }

  /** So after every run, a submission of a plate the tables do not hold opens no gate
      whose last published latch is not LATCH_OPEN. */
  lemma UnlistedStaysOut(cfg: Config, site: string, ops: seq<Op>, frame: Frame, clock: Clock,
                         id: string, commandId: string, now: int)
    requires HasPlate(frame) && LatchOf(Run(Boot(cfg, site), ops).bus, frame.gate) != ForceOpen
    requires var w := Run(Boot(cfg, site), ops); Key(w.site, Normalize(BestPlate(frame).text)) !in w.tables.rows
    ensures var w := Run(Boot(cfg, site), ops); !Dispatches(w, Do(w, Submit(frame, clock, id, commandId, now)))
  {
    hide Run, Do, LatchOf, Normalize, AllowedNow, Best, Combined, ClassOf;
    var w := Run(Boot(cfg, site), ops);
    RunIsLawful(cfg, site, ops);
    AutoOpenIff(w, frame, clock, id, commandId, now);
    assert Get(w.overrides, frame.gate) == LatchOf(w.bus, frame.gate);
  }

  /** What a dashboard's request is answered: here a guard's word counts, past the
      blocklist check; nothing is commanded. */
  lemma AuthorizeAnswers(w: World, req: Request, clock: Clock, id: string)
    requires Sound(w)
    ensures var r := Do(w, Authorize(req, clock, id));
            if req.site == "" || req.frame.gate == "" then r == w
            else
              && r == w.(bus := r.bus) && |r.bus| == |w.bus| + 1 && w.bus <= r.bus
              && r.bus[|w.bus|].DecisionPost? && r.bus[|w.bus|].site == req.site
              && r.bus[|w.bus|].decision.gate == req.frame.gate && r.bus[|w.bus|].decision.actor == req.actor
              && (r.bus[|w.bus|].decision.verdict == Authorized <==>
                    Admissible(w.cfg, Get(w.overrides, req.frame.gate), w.tables, w.blocked, req, clock))
  {
    hide Decide, Admissible;
    var o := Get(w.overrides, req.frame.gate);
    AuthorizedIff(w.cfg, o, w.tables, w.blocked, req, clock, id);
    DecisionCarries(w.cfg, o, w.tables, w.blocked, req, clock, id);
  }

  /** A command is published as it was issued, with an id and a time if it had none, and
      its receipt follows. */
  lemma IssueTells(w: World, c: Command, freshId: string, now: int)
    requires Sound(w)
    ensures var r := Do(w, Issue(c, freshId, now));
            if c.gate == "" || c.kind == Unspecified then r == w
            else
              && |r.bus| == |w.bus| + 2 && w.bus <= r.bus
              && r.bus[|w.bus|].CommandPost? && !r.bus[|w.bus|].auto && r.bus[|w.bus|].site == w.site
              && (var sent := r.bus[|w.bus|].command;
                  && sent.gate == c.gate && sent.kind == c.kind && sent.actor == c.actor
                  && (if c.id == "" then sent.id == freshId else sent.id == c.id)
                  && (if c.issued == 0 then sent.issued == now else sent.issued == c.issued)
                  && r.bus[|w.bus| + 1] == AckPost(w.site, c.gate, sent.id))
  {
    hide AfterLatch;
  }

  /** After LATCH_OPEN any readable plate opens the gate; after LATCH_CLOSE none does;
      after RELEASE_LATCH only one that is let in on its own.  Other gates, and other
      commands, change nothing. */
  lemma LatchesLatch(w: World, c: Command, freshId: string, now: int, frame: Frame, clock: Clock)
    requires Sound(w) && c.gate != "" && c.kind != Unspecified && frame.gate != "" && HasPlate(frame)
    ensures var r := Do(w, Issue(c, freshId, now));
            && (c.kind == LatchOpen && c.gate == frame.gate ==> LetIn(r, frame, clock))
            && (c.kind == LatchClose && c.gate == frame.gate ==> !LetIn(r, frame, clock))
            && (c.kind == ReleaseLatch && c.gate == frame.gate ==>
                  (LetIn(r, frame, clock) <==> LetIn(w.(overrides := map[]), frame, clock)))
            && (c.gate != frame.gate || c.kind !in {LatchOpen, LatchClose, ReleaseLatch} ==>
                  (LetIn(r, frame, clock) <==> LetIn(w, frame, clock)))
  {
    hide Normalize, AllowedNow, Best, Combined, ClassOf, Lookup, Consistent;
  }
}
