/** The authorization verdict: camera and LiDAR confidences, per-gate overrides, the
    blocklist and the allowlist. */
module Fusion {
  import opened Allowlist

  datatype Plate = Plate(text: string, detection: real, ocr: real)
  datatype Vehicle = Vehicle(cls: int, conf: real)
  datatype Frame = Frame(gate: string, id: string, plates: seq<Plate>, vehicles: seq<Vehicle>)
  datatype Request = Request(frame: Frame, site: string, actor: string, bypass: bool)

  datatype Override = Normal | ForceOpen | ForceClose
  datatype Verdict = Authorized | Denied | LowConfidence | ManualReview
  datatype Reason = NoReason | ForcedClosed | NoPlateFound | LowAlpr | LowLidar | Blocklisted | NotOnAllowlist
                  | ClassMismatch | OutsideWindow

  datatype Decision = Decision(
    id: string,
    ts: int,
    gate: string,
    frame: string,
    actor: string,
    plate: string,
    cls: int,
    combined: real,
    verdict: Verdict,
    reason: Reason)

  datatype Config = Config(alprWeight: real, lidarWeight: real, threshold: real, missing: real)

  const UNKNOWN_CLASS := 0

  // --- Picking the best detection ---------------------------------------------------

  /** `k` is the first of the greatest confidences above -1, or -1 if none is above. */
  predicate IsBest(confs: seq<real>, k: int) {
    if k == -1 then forall i | 0 <= i < |confs| :: confs[i] <= -1.0
    else
      && 0 <= k < |confs| && confs[k] > -1.0
      && (forall i | 0 <= i < k :: confs[i] < confs[k])
      && (forall i | k <= i < |confs| :: confs[i] <= confs[k])
  }

  function Best(confs: seq<real>): (k: int)
    ensures IsBest(confs, k)
  {
    if confs == [] then -1
    else
      var n := |confs| - 1;
      var k := Best(confs[..n]);
      assert k != -1 ==> confs[..n][k] == confs[k];
      assert forall i | 0 <= i < n :: confs[..n][i] == confs[i];
      if confs[n] > (if k == -1 then -1.0 else confs[k]) then n else k
  }

  lemma BestUnique(confs: seq<real>, k: int)
    requires IsBest(confs, k)
    ensures k == Best(confs)
  {
    assert IsBest(confs, Best(confs));
  }

  /** A later confidence displaces the best only if it is greater. */
  lemma BestNext(confs: seq<real>, k: int, s: real)
    requires IsBest(confs, k)
    ensures IsBest(confs + [s], if s > (if k == -1 then -1.0 else confs[k]) then |confs| else k)
  {
  }

  function Detections(ps: seq<Plate>): (r: seq<real>) { seq(|ps|, i requires 0 <= i < |ps| => ps[i].detection) }

  function Classifications(vs: seq<Vehicle>): (r: seq<real>) { seq(|vs|, i requires 0 <= i < |vs| => vs[i].conf) }

  method PickBestPlate(ps: seq<Plate>) returns (best: int)
    ensures best == Best(Detections(ps))
  {
    best := -1;
    var score := -1.0;
    for i := 0 to |ps|
      invariant IsBest(Detections(ps)[..i], best)
      invariant score == if best == -1 then -1.0 else Detections(ps)[best]
    {
      BestNext(Detections(ps)[..i], best, ps[i].detection);
      assert Detections(ps)[..i + 1] == Detections(ps)[..i] + [ps[i].detection];
      var s := ps[i].detection;
      if s > score {
        best, score := i, s;
      }
    }
    assert Detections(ps)[..|ps|] == Detections(ps);
    BestUnique(Detections(ps), best);
  }

  method PickBestVehicle(vs: seq<Vehicle>) returns (best: int)
    ensures best == Best(Classifications(vs))
  {
    best := -1;
    var score := -1.0;
    for i := 0 to |vs|
      invariant IsBest(Classifications(vs)[..i], best)
      invariant score == if best == -1 then -1.0 else Classifications(vs)[best]
    {
      BestNext(Classifications(vs)[..i], best, vs[i].conf);
      assert Classifications(vs)[..i + 1] == Classifications(vs)[..i] + [vs[i].conf];
      var s := vs[i].conf;
      if s > score {
        best, score := i, s;
      }
    }
    assert Classifications(vs)[..|vs|] == Classifications(vs);
    BestUnique(Classifications(vs), best);
  }

  // --- The verdict --------------------------------------------------------------------

  function Max0(x: real): real { if x > 0.0 then x else 0.0 }

  function Alpr(p: Plate): real { 0.5 * Max0(p.detection) + 0.5 * Max0(p.ocr) }

  function Lidar(cfg: Config, f: Frame): real {
    var v := Best(Classifications(f.vehicles));
    if v == -1 then cfg.missing else f.vehicles[v].conf
  }

  function ClassOf(f: Frame): int {
    var v := Best(Classifications(f.vehicles));
    if v == -1 then UNKNOWN_CLASS else f.vehicles[v].cls
  }

  predicate HasPlate(f: Frame) { Best(Detections(f.plates)) != -1 }

  function BestPlate(f: Frame): Plate
    requires HasPlate(f)
  {
    f.plates[Best(Detections(f.plates))]
  }

  /** The linear blend of the two confidences. */
  function Blend(cfg: Config, alpr: real, lidar: real): real { cfg.alprWeight * alpr + cfg.lidarWeight * lidar }

  function Combined(cfg: Config, f: Frame): real
    requires HasPlate(f)
  {
    Blend(cfg, Alpr(BestPlate(f)), Lidar(cfg, f))
  }

  /** The camera side is the mean of its two confidences, a negative one counting as
      nothing. */
  lemma AlprIsMean(p: Plate)
    ensures p.detection >= 0.0 && p.ocr >= 0.0 ==> Alpr(p) == (p.detection + p.ocr) / 2.0
    ensures p.detection < 0.0 && p.ocr >= 0.0 ==> Alpr(p) == p.ocr / 2.0
    ensures p.detection >= 0.0 && p.ocr < 0.0 ==> Alpr(p) == p.detection / 2.0
    ensures p.detection < 0.0 && p.ocr < 0.0 ==> Alpr(p) == 0.0
  {
  }

  /** Each weight weighs its own side. */
  lemma WeightsWeigh(cfg: Config, alpr: real, lidar: real)
    ensures Blend(cfg.(alprWeight := 1.0, lidarWeight := 0.0), alpr, lidar) == alpr
    ensures Blend(cfg.(alprWeight := 0.0, lidarWeight := 1.0), alpr, lidar) == lidar
    ensures Blend(cfg.(alprWeight := 0.5, lidarWeight := 0.5), alpr, lidar) == (alpr + lidar) / 2.0
  {
  }

  lemma Scales(w: real, a: real, b: real)
    requires w >= 0.0 && a <= b
    ensures w * a <= w * b
  {
  }

  /** More confidence on either side never lowers the blend. */
  lemma BlendMonotone(cfg: Config, a: real, a': real, l: real, l': real)
    requires cfg.alprWeight >= 0.0 && cfg.lidarWeight >= 0.0 && a <= a' && l <= l'
    ensures Blend(cfg, a, l) <= Blend(cfg, a', l')
  {
    Scales(cfg.alprWeight, a, a');
    Scales(cfg.lidarWeight, l, l');
  }

  /** The LiDAR side speaks for the first most confident vehicle; with none, the class is
      unknown and the configured confidence stands in. */
  lemma LidarSpeaks(cfg: Config, f: Frame)
    ensures (forall v <- f.vehicles :: v.conf <= -1.0) ==> Lidar(cfg, f) == cfg.missing && ClassOf(f) == 0
    ensures (exists v <- f.vehicles :: v.conf > -1.0) ==>
              exists i | 0 <= i < |f.vehicles| ::
                && IsBest(Classifications(f.vehicles), i)
                && Lidar(cfg, f) == f.vehicles[i].conf && ClassOf(f) == f.vehicles[i].cls
  {
    var cs := Classifications(f.vehicles);
    var k := Best(cs);
    assert forall i | 0 <= i < |f.vehicles| :: cs[i] == f.vehicles[i].conf;
    if k != -1 {
      assert f.vehicles[k] in f.vehicles;
    }
  }

  /** The entry for the plate read, if any. */
  function EntryFor(t: Tables, req: Request): Option<Entry>
    requires Consistent(t) && HasPlate(req.frame)
  {
    Lookup(t, req.site, BestPlate(req.frame).text)
  }

  predicate IsBlocklisted(blocked: set<Key>, req: Request)
    requires HasPlate(req.frame)
  {
    Key(req.site, Normalize(BestPlate(req.frame).text)) in blocked
  }

  /** The ladder of rules, first match wins. */
  function Judge(cfg: Config, o: Override, t: Tables, blocked: set<Key>, req: Request, clock: Clock): (Verdict, Reason)
    requires Consistent(t)
  {
    if o == ForceClose then (Denied, ForcedClosed)
    else if !HasPlate(req.frame) then (Denied, NoPlateFound)
    else if o == ForceOpen then (Authorized, NoReason)
    else if Combined(cfg, req.frame) < cfg.threshold then
      (LowConfidence, if Alpr(BestPlate(req.frame)) <= Lidar(cfg, req.frame) then LowAlpr else LowLidar)
    else if IsBlocklisted(blocked, req) then (Denied, Blocklisted)
    else if req.bypass then (Authorized, NoReason)
    else if EntryFor(t, req).None? then (Denied, NotOnAllowlist)
    else if AllowedNow(EntryFor(t, req).value, ClassOf(req.frame), clock) then (Authorized, NoReason)
    else if !ClassAllowed(EntryFor(t, req).value, ClassOf(req.frame)) then (ManualReview, ClassMismatch)
    else (Denied, OutsideWindow)
  }

  function Decide(cfg: Config, o: Override, t: Tables, blocked: set<Key>, req: Request, clock: Clock, id: string)
    : Decision
    requires Consistent(t)
  {
    var (verdict, reason) := Judge(cfg, o, t, blocked, req, clock);
    var read := o != ForceClose && HasPlate(req.frame);
    Decision(id, clock.unix, req.frame.gate, req.frame.id, req.actor,
             if read then Normalize(BestPlate(req.frame).text) else "",
             if read then ClassOf(req.frame) else UNKNOWN_CLASS,
             if read then Combined(cfg, req.frame) else 0.0,
             verdict, reason)
  }

  function Get(overrides: map<string, Override>, gate: string): Override {
    if gate in overrides then overrides[gate] else Normal
  }

  function Set(overrides: map<string, Override>, gate: string, o: Override): map<string, Override> {
    if o == Normal then overrides - {gate} else overrides[gate := o]
  }

  class FusionEngine {
    const store: AllowlistStore
    const cfg: Config
    var overrides: map<string, Override>

    constructor (store: AllowlistStore, cfg: Config)
      ensures this.store == store && this.cfg == cfg && overrides == map[]
    {
      this.store, this.cfg, overrides := store, cfg, map[];
    }

    method SetOverride(gate: string, o: Override)
      modifies this`overrides
      ensures overrides == Set(old(overrides), gate, o)
      ensures forall g :: Get(overrides, g) == if g == gate then o else Get(old(overrides), g)
    {
      if o == Normal {
        overrides := overrides - {gate};
      } else {
        overrides := overrides[gate := o];
      }
    }

    method DecideAt(req: Request, clock: Clock, id: string) returns (d: Decision)
      requires Consistent(store.Value())
      ensures d == Decide(cfg, Get(overrides, req.frame.gate), store.Value(), store.blocklist.Keys, req, clock, id)
    {
      hide Normalize, AllowedNow, Best, ClassAllowed, Blend, Alpr, Read;
      d := Decision(id, clock.unix, req.frame.gate, req.frame.id, req.actor, "", UNKNOWN_CLASS, 0.0, Denied, NoReason);
      var o := Get(overrides, req.frame.gate);
      if o == ForceClose {
        return d.(reason := ForcedClosed);
      }
      var best := PickBestPlate(req.frame.plates);
      if best < 0 {
        return d.(reason := NoPlateFound);
      }
      var plate := req.frame.plates[best];
      var normalized := NormalizePlate(plate.text);
      NormalizeIdempotent(plate.text);
      var lidar, cls := cfg.missing, UNKNOWN_CLASS;
      var v := PickBestVehicle(req.frame.vehicles);
      if v >= 0 {
        lidar, cls := req.frame.vehicles[v].conf, req.frame.vehicles[v].cls;
      }
      var alpr := Alpr(plate);
      var combined := Blend(cfg, alpr, lidar);
      d := d.(plate := normalized, cls := cls, combined := combined);
      if o == ForceOpen {
        return d.(verdict := Authorized);
      }
      if combined < cfg.threshold {
        return d.(verdict := LowConfidence, reason := if alpr <= lidar then LowAlpr else LowLidar);
      }
      var blocked := store.IsBlocked(req.site, normalized);
      if blocked {
        return d.(reason := Blocklisted);
      }
      if req.bypass {
        return d.(verdict := Authorized);
      }
      var entry := store.Find(req.site, normalized);
      if entry.None? {
        return d.(reason := NotOnAllowlist);
      }
      if !AllowedNow(entry.value, cls, clock) {
        if !ClassAllowed(entry.value, cls) {
          return d.(verdict := ManualReview, reason := ClassMismatch);
        }
        return d.(reason := OutsideWindow);
      }
      return d.(verdict := Authorized);
    }
  }

  // --- When a vehicle is let in ---------------------------------------------------------

  /** Who gets in: no lockdown, a readable plate, and then either a latched-open gate
      or enough confidence, no blocklisting, and a guard's word or a current entry. */
  predicate Admissible(cfg: Config, o: Override, t: Tables, blocked: set<Key>, req: Request, clock: Clock)
    requires Consistent(t)
  {
    && o != ForceClose
    && HasPlate(req.frame)
    && (o == ForceOpen
        || (&& Combined(cfg, req.frame) >= cfg.threshold
            && !IsBlocklisted(blocked, req)
            && (req.bypass
                || (EntryFor(t, req).Some? && AllowedNow(EntryFor(t, req).value, ClassOf(req.frame), clock)))))
  }

  lemma PlateReadable(f: Frame)
    ensures HasPlate(f) <==> exists p <- f.plates :: p.detection > -1.0
  {
    var ds := Detections(f.plates);
    var k := Best(ds);
    if k != -1 {
      assert f.plates[k] in f.plates && ds[k] == f.plates[k].detection;
    } else {
      assert forall i | 0 <= i < |f.plates| :: ds[i] == f.plates[i].detection;
    }
  }

  lemma AuthorizedIff(cfg: Config, o: Override, t: Tables, blocked: set<Key>, req: Request, clock: Clock, id: string)
    requires Consistent(t)
    ensures Decide(cfg, o, t, blocked, req, clock, id).verdict == Authorized <==>
              Admissible(cfg, o, t, blocked, req, clock)
    ensures var d := Decide(cfg, o, t, blocked, req, clock, id);
            d.reason == NoReason <==> d.verdict == Authorized
  {
    hide Normalize, AllowedNow, ClassAllowed, Combined, ClassOf, EntryFor, IsBlocklisted, Alpr, Lidar;
  }

  /** Every reason is given exactly for its cause. */
  lemma ReasonIff(cfg: Config, o: Override, t: Tables, blocked: set<Key>, req: Request, clock: Clock, id: string)
    requires Consistent(t)
    ensures var d := Decide(cfg, o, t, blocked, req, clock, id);
            && (d.reason == ForcedClosed <==> o == ForceClose)
            && (d.reason == NoPlateFound <==> o != ForceClose && !HasPlate(req.frame))
            && (d.verdict == LowConfidence <==>
                  o == Normal && HasPlate(req.frame) && Combined(cfg, req.frame) < cfg.threshold)
            && (d.reason == LowAlpr <==>
                  d.verdict == LowConfidence && Alpr(BestPlate(req.frame)) <= Lidar(cfg, req.frame))
            && (d.reason == LowLidar <==>
                  d.verdict == LowConfidence && Alpr(BestPlate(req.frame)) > Lidar(cfg, req.frame))
            && (d.reason == Blocklisted <==> Confident(cfg, o, req) && IsBlocklisted(blocked, req))
            && (d.reason == NotOnAllowlist <==>
                  Confident(cfg, o, req) && !IsBlocklisted(blocked, req) && !req.bypass && EntryFor(t, req).None?)
            && (d.reason == OutsideWindow <==>
                  && Confident(cfg, o, req) && !IsBlocklisted(blocked, req) && !req.bypass && EntryFor(t, req).Some?
                  && ClassAllowed(EntryFor(t, req).value, ClassOf(req.frame))
                  && !AllowedNow(EntryFor(t, req).value, ClassOf(req.frame), clock))
            && (d.verdict == Denied <==>
                  d.reason in {ForcedClosed, NoPlateFound, Blocklisted, NotOnAllowlist, OutsideWindow})
            && (d.reason == ClassMismatch <==> d.verdict == ManualReview)
            && (d.reason == NoReason <==> d.verdict == Authorized)
  {
    hide Normalize, InDates, InWindows, ClassAllowed, Combined, ClassOf, EntryFor, IsBlocklisted, Alpr, Lidar;
  }

  /** Nothing is latched and what was read is good enough. */
  predicate Confident(cfg: Config, o: Override, req: Request) {
    o == Normal && HasPlate(req.frame) && Combined(cfg, req.frame) >= cfg.threshold
  }

  /** A decision names its request, and what was read once the lockdown is past. */
  lemma DecisionCarries(cfg: Config, o: Override, t: Tables, blocked: set<Key>, req: Request, clock: Clock, id: string)
    requires Consistent(t)
    ensures var d := Decide(cfg, o, t, blocked, req, clock, id);
            && d.id == id && d.ts == clock.unix && d.gate == req.frame.gate && d.frame == req.frame.id
            && d.actor == req.actor
            && (o != ForceClose && HasPlate(req.frame) ==>
                  && d.plate == Normalize(BestPlate(req.frame).text) && d.cls == ClassOf(req.frame)
                  && d.combined == Combined(cfg, req.frame))
            && (o == ForceClose || !HasPlate(req.frame) ==> d.plate == "" && d.cls == 0 && d.combined == 0.0)
  {
    hide Normalize, AllowedNow, ClassAllowed, Combined, ClassOf, EntryFor, IsBlocklisted, Alpr, Lidar;
  }

  /** Only a wrong class is sent for review, whatever the date and the hour. */
  lemma ReviewIff(cfg: Config, o: Override, t: Tables, blocked: set<Key>, req: Request, clock: Clock, id: string)
    requires Consistent(t)
    ensures Decide(cfg, o, t, blocked, req, clock, id).verdict == ManualReview <==>
              && o == Normal && HasPlate(req.frame) && Combined(cfg, req.frame) >= cfg.threshold
              && !IsBlocklisted(blocked, req) && !req.bypass
              && EntryFor(t, req).Some? && !ClassAllowed(EntryFor(t, req).value, ClassOf(req.frame))
  {
    hide Normalize, InDates, InWindows, ClassAllowed, Combined, ClassOf, EntryFor, IsBlocklisted, Alpr, Lidar;
  }

  /** With nothing latched and no guard, after a batch the vehicle gets in exactly when
      the last entry submitted for its plate, in any spelling, lets it in now. */
  lemma EnforcesSubmitted(cfg: Config, t: Tables, blocked: set<Key>, es: seq<Entry>, i: nat,
                          req: Request, clock: Clock, id: string)
    requires Consistent(t) && !req.bypass && HasPlate(req.frame)
    requires i < |es| && LastFor(es, i) && Normalize(es[i].plate) == Normalize(BestPlate(req.frame).text)
    requires Combined(cfg, req.frame) >= cfg.threshold && !IsBlocklisted(blocked, req)
    ensures Consistent(PutAll(t, req.site, es))
    ensures Decide(cfg, Normal, PutAll(t, req.site, es), blocked, req, clock, id).verdict == Authorized <==>
              AllowedNow(es[i], ClassOf(req.frame), clock)
  {
    hide Normalize, AllowedNow, Best, ClassAllowed, Lookup, PutAll, Consistent, Combined, Alpr, Lidar;
    LookupMeansLastSubmitted(t, req.site, es, BestPlate(req.frame).text, ClassOf(req.frame), clock);
  }

  /** Once the last entry submitted for a plate has run out, it is not let in unlatched
      and unbypassed, under any spelling. */
  lemma ExpiredIsRefused(cfg: Config, t: Tables, blocked: set<Key>, es: seq<Entry>, i: nat,
                         req: Request, clock: Clock, id: string)
    requires Consistent(t) && !req.bypass && HasPlate(req.frame)
    requires i < |es| && LastFor(es, i) && Normalize(es[i].plate) == Normalize(BestPlate(req.frame).text)
    requires es[i].validUntil.Some? && 0 < es[i].validUntil.value <= clock.unix
    ensures Consistent(PutAll(t, req.site, es))
    ensures Decide(cfg, Normal, PutAll(t, req.site, es), blocked, req, clock, id).verdict != Authorized
  {
    hide Normalize, Best, ClassAllowed, InWindows, Lookup, PutAll, Consistent, Combined, Alpr, Lidar;
    LookupMeansLastSubmitted(t, req.site, es, BestPlate(req.frame).text, ClassOf(req.frame), clock);
    AuthorizedIff(cfg, Normal, PutAll(t, req.site, es), blocked, req, clock, id);
  }
}
