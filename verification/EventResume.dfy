/** The dashboard's end of the event stream: the cache, its resume cursor, the
    reconnect loop, and what a run of disconnects and reconnects ingests. */
module EventResume {
  import opened Broadcasting
  import EventRoutes
  import opened Words

  // --- The cache --------------------------------------------------------------------

  /** The newest frames, the latest telemetry of each gate, the highest id seen. */
  datatype Cache = Cache(capacity: nat, ring: seq<Event>, gates: map<string, Event>, last: nat)

  function EmptyCache(capacity: nat): Cache { Cache(capacity, [], map[], 0) }

  function Newest(es: seq<Event>, cap: nat): seq<Event> {
    if |es| <= cap then es else es[|es| - cap..]
  }

  function Ingest(c: Cache, e: Event): Cache {
    Cache(c.capacity,
          Newest(c.ring + [e], c.capacity),
          if e.kind.Telemetry? then c.gates[e.subject := e] else c.gates,
          if e.id > c.last then e.id else c.last)
  }

  function IngestAll(c: Cache, es: seq<Event>): Cache {
    if es == [] then c else Ingest(IngestAll(c, es[..|es| - 1]), es[|es| - 1])
  }

  /** `e` is the last telemetry of gate `g` in `es`. */
  predicate IsLatest(es: seq<Event>, g: string, e: Event) {
    exists i :: 0 <= i < |es| && es[i] == e && e.kind.Telemetry? && e.subject == g &&
      forall j | i < j < |es| :: !(es[j].kind.Telemetry? && es[j].subject == g)
  }

  /** After any events: the ring holds the newest of them, each gate's snapshot is its
      latest telemetry, and the cursor is the highest id. */
  lemma {:induction false} CacheSummary(cap: nat, es: seq<Event>)
    ensures var c := IngestAll(EmptyCache(cap), es);
            && c.capacity == cap && c.ring == Newest(es, cap)
            && (forall g :: g in c.gates <==> exists i :: 0 <= i < |es| && es[i].kind.Telemetry? && es[i].subject == g)
            && (forall g <- c.gates :: IsLatest(es, g, c.gates[g]))
            && (forall i | 0 <= i < |es| :: es[i].id <= c.last)
            && (es != [] ==> c.last == 0 || exists i :: 0 <= i < |es| && es[i].id == c.last)
    decreases |es|
  {
    if es != [] {
      var front, e := es[..|es| - 1], es[|es| - 1];
      CacheSummary(cap, front);
      var c := IngestAll(EmptyCache(cap), front);
      var d := IngestAll(EmptyCache(cap), es);
      assert es == front + [e];
      NewestAppends(front, e, cap);
      LatestAppends(front, e, c.gates, d.gates);
      CursorAppends(front, e, c.last, d.last);
    }
  }

  lemma NewestAppends(es: seq<Event>, e: Event, cap: nat)
    ensures Newest(Newest(es, cap) + [e], cap) == Newest(es + [e], cap)
  {
  }

  lemma LatestAppends(es: seq<Event>, e: Event, gates: map<string, Event>, gates': map<string, Event>)
    requires forall g :: g in gates <==> exists i :: 0 <= i < |es| && es[i].kind.Telemetry? && es[i].subject == g
    requires forall g <- gates :: IsLatest(es, g, gates[g])
    requires gates' == if e.kind.Telemetry? then gates[e.subject := e] else gates
    ensures var all := es + [e];
            && (forall g ::
                  g in gates' <==> exists i :: 0 <= i < |all| && all[i].kind.Telemetry? && all[i].subject == g)
            && (forall g <- gates' :: IsLatest(all, g, gates'[g]))
  {
    var all := es + [e];
    assert all[|es|] == e;
    forall g ensures g in gates' <==> exists i :: 0 <= i < |all| && all[i].kind.Telemetry? && all[i].subject == g {
      if g in gates {
        var i :| 0 <= i < |es| && es[i].kind.Telemetry? && es[i].subject == g;
        assert all[i] == es[i];
      }
    }
    forall g | g in gates' ensures IsLatest(all, g, gates'[g]) {
      if e.kind.Telemetry? && g == e.subject {
        assert all[|es|] == e;
      } else {
        assert IsLatest(es, g, gates[g]);
        var i :| 0 <= i < |es| && es[i] == gates[g] && gates[g].kind.Telemetry? && gates[g].subject == g &&
                 forall j | i < j < |es| :: !(es[j].kind.Telemetry? && es[j].subject == g);
        assert all[i] == gates'[g];
      }
    }
  }

  lemma CursorAppends(es: seq<Event>, e: Event, last: nat, last': nat)
    requires forall i | 0 <= i < |es| :: es[i].id <= last
    requires es != [] ==> last == 0 || exists i :: 0 <= i < |es| && es[i].id == last
    requires es == [] ==> last == 0
    requires last' == if e.id > last then e.id else last
    ensures var all := es + [e];
            && (forall i | 0 <= i < |all| :: all[i].id <= last')
            && (last' == 0 || exists i :: 0 <= i < |all| && all[i].id == last')
  {
    var all := es + [e];
    if e.id > last {
      assert all[|es|].id == last';
    } else if es != [] && last != 0 {
      var i :| 0 <= i < |es| && es[i].id == last;
      assert all[i].id == last';
    }
  }

  class EventCache {
    const capacity: nat
    var ring: seq<Event>
    var gates: map<string, Event>
    var lastEventId: nat

    function Value(): Cache
      reads this
    {
      Cache(capacity, ring, gates, lastEventId)
    }

    constructor (capacity: nat)
      ensures Value() == EmptyCache(capacity)
    {
      this.capacity := capacity;
      ring, gates, lastEventId := [], map[], 0;
    }

    method Trim()
      modifies this`ring
      ensures ring == Newest(old(ring), capacity)
    {
      ghost var k := 0;
      while |ring| > capacity
        invariant 0 <= k <= |old(ring)| && ring == old(ring)[k..] && (k > 0 ==> |ring| >= capacity)
        decreases |ring|
      {
        ring := ring[1..];
        k := k + 1;
      }
    }

    method Add(e: Event)
      modifies this
      ensures Value() == Ingest(old(Value()), e)
    {
      if e.id > lastEventId {
        lastEventId := e.id;
      }
      ring := ring + [e];
      Trim();
      if e.kind == Telemetry {
        gates := gates[e.subject := e];
      }
    }

    /** Read one session to its end; an event resets the backoff. */
    method ReadSession(session: seq<Event>, backoff: nat, min: nat) returns (next: nat)
      modifies this
      ensures Value() == IngestAll(old(Value()), session)
      ensures next == if session != [] then min else backoff
    {
      next := backoff;
      for k := 0 to |session|
        invariant Value() == IngestAll(old(Value()), session[..k])
        invariant next == if k > 0 then min else backoff
      {
        assert session[..k + 1][..k] == session[..k];
        next := min;
        Add(session[k]);
      }
      assert session[..|session|] == session;
    }
  }

  // --- The reconnect loop -----------------------------------------------------------

  /** The wait after a session, and the next one: doubled in 32 bits, capped. */
  function Doubled(b: nat, max: nat): nat {
    var d := b * 2 % TWO_32;
    if d > max then max else d
  }

  /** The wait that follows the last of some sessions: an event resets it, silence
      doubles it. */
  function Wait(min: nat, max: nat, sessions: seq<seq<Event>>): nat
    requires sessions != []
  {
    var last := |sessions| - 1;
    if sessions[last] != [] || last == 0 then min else Doubled(Wait(min, max, sessions[..last]), max)
  }

  function Flatten(sessions: seq<seq<Event>>): seq<Event> {
    if sessions == [] then [] else Flatten(sessions[..|sessions| - 1]) + sessions[|sessions| - 1]
  }

  lemma {:induction false} IngestAppends(c: Cache, a: seq<Event>, b: seq<Event>)
    ensures IngestAll(c, a + b) == IngestAll(IngestAll(c, a), b)
    decreases |b|
  {
    if b == [] {
      assert a + b == a;
    } else {
      assert (a + b)[..|a + b| - 1] == a + b[..|b| - 1];
      IngestAppends(c, a, b[..|b| - 1]);
    }
  }

  /** The cursor each of some sessions was opened with. */
  function Cursors(c: Cache, sessions: seq<seq<Event>>): seq<nat> {
    if sessions == [] then []
    else
      var front := sessions[..|sessions| - 1];
      Cursors(c, front) + [IngestAll(c, Flatten(front)).last]
  }

  function Waits(min: nat, max: nat, sessions: seq<seq<Event>>): seq<nat> {
    if sessions == [] then [] else Waits(min, max, sessions[..|sessions| - 1]) + [Wait(min, max, sessions)]
  }

  /** The stream thread over the sessions the server gives it, then stopped: each
      subscribe carries the cursor of everything ingested before it. */
  method Stream(cache: EventCache, min: nat, max: nat, sessions: seq<seq<Event>>)
      returns (cursors: seq<nat>, waits: seq<nat>)
    modifies cache
    ensures cache.Value() == IngestAll(old(cache.Value()), Flatten(sessions))
    ensures cursors == Cursors(old(cache.Value()), sessions)
    ensures waits == Waits(min, max, sessions)
  {
    hide Ingest;
    var backoff := min;
    cursors, waits := [], [];
    for n := 0 to |sessions|
      invariant cache.Value() == IngestAll(old(cache.Value()), Flatten(sessions[..n]))
      invariant cursors == Cursors(old(cache.Value()), sessions[..n])
      invariant waits == Waits(min, max, sessions[..n])
      invariant backoff == if n == 0 then min else Doubled(Wait(min, max, sessions[..n]), max)
    {
      assert sessions[..n + 1][..n] == sessions[..n];
      cursors := cursors + [cache.lastEventId];
      backoff := cache.ReadSession(sessions[n], backoff, min);
      IngestAppends(old(cache.Value()), Flatten(sessions[..n]), sessions[n]);
      waits := waits + [backoff];
      backoff := if backoff * 2 % TWO_32 > max then max else backoff * 2 % TWO_32;
    }
    assert sessions[..|sessions|] == sessions;
  }

  /** With the cap below half the 32-bit range, waits stay between the two bounds. */
  lemma {:induction false} WaitBounded(min: nat, max: nat, sessions: seq<seq<Event>>)
    requires sessions != [] && min <= max < TWO_32 / 2
    ensures min <= Wait(min, max, sessions) <= max
    decreases |sessions|
  {
    var last := |sessions| - 1;
    if sessions[last] == [] && last > 0 {
      WaitBounded(min, max, sessions[..last]);
    }
  }

  /** Each session is opened with the highest id ingested before it, 0 before any, and
      followed by its wait. */
  lemma {:induction false} SessionsInTurn(cap: nat, min: nat, max: nat, sessions: seq<seq<Event>>, k: nat)
    requires k < |sessions|
    ensures |Cursors(EmptyCache(cap), sessions)| == |Waits(min, max, sessions)| == |sessions|
    ensures var cursor, before := Cursors(EmptyCache(cap), sessions)[k], Flatten(sessions[..k]);
            && (forall i | 0 <= i < |before| :: before[i].id <= cursor)
            && (cursor == 0 || exists i :: 0 <= i < |before| && before[i].id == cursor)
    ensures Waits(min, max, sessions)[k] == Wait(min, max, sessions[..k + 1])
    decreases |sessions|
  {
    hide IngestAll, Flatten, Wait;
    var n := |sessions| - 1;
    if n > 0 {
      SessionsInTurn(cap, min, max, sessions[..n], if k < n then k else 0);
    }
    if k < n {
      assert sessions[..n][..k] == sessions[..k] && sessions[..n][..k + 1] == sessions[..k + 1];
    } else {
      assert sessions[..k + 1] == sessions;
      CacheSummary(cap, Flatten(sessions[..k]));
      EmptyIngests(cap);
    }
  }

  lemma EmptyIngests(cap: nat)
    ensures IngestAll(EmptyCache(cap), []).last == 0
  {
  }

  function Times2(b: nat, n: nat): nat { if n == 0 then b else 2 * Times2(b, n - 1) }

  /** The capped doubling of the minimum. */
  function Capped(min: nat, max: nat, n: nat): nat { if Times2(min, n) <= max then Times2(min, n) else max }

  function Silent(n: nat): seq<seq<Event>> { seq(n, _ => []) }

  lemma SilentNext(sessions: seq<seq<Event>>, n: nat)
    ensures sessions + Silent(n) == if n == 0 then sessions else sessions + Silent(n - 1) + [[]]
  {
    if n > 0 {
      assert Silent(n) == Silent(n - 1) + [[]];
    }
  }

  lemma WaitNext(min: nat, max: nat, sessions: seq<seq<Event>>)
    requires sessions != []
    ensures Wait(min, max, sessions + [[]]) == Doubled(Wait(min, max, sessions), max)
  {
    assert (sessions + [[]])[..|sessions|] == sessions;
  }

  /** Exponential backoff: the wait is the minimum after the first session or one with
      an event, and after `n` silent sessions more it has doubled `n` times, up to the
      cap. */
  lemma {:induction false} SilenceDoublesTheWait(min: nat, max: nat, sessions: seq<seq<Event>>, n: nat)
    requires sessions != [] && (|sessions| == 1 || sessions[|sessions| - 1] != [])
    requires min <= max < TWO_32 / 2
    ensures Wait(min, max, sessions + Silent(n)) == Capped(min, max, n)
  {
    hide Wait, Silent;
    SilentNext(sessions, n);
    if n == 0 {
      FreshWait(min, max, sessions);
    } else {
      SilenceDoublesTheWait(min, max, sessions, n - 1);
      WaitNext(min, max, sessions + Silent(n - 1));
    }
  }

  /** A silence of any length follows the capped doubling if and only if the cap is below
      half the 32-bit range, or the minimum is zero and there is nothing to double: a
      higher cap wraps once it is reached. */
  lemma DoublesIff(min: nat, max: nat, sessions: seq<seq<Event>>)
    requires sessions != [] && (|sessions| == 1 || sessions[|sessions| - 1] != [])
    requires min <= max < TWO_32
    ensures (forall n: nat :: Wait(min, max, sessions + Silent(n)) == Capped(min, max, n))
            <==> max < TWO_32 / 2 || min == 0
  {
    hide Wait, Silent, Times2, Doubled;
    if max < TWO_32 / 2 {
      forall n: nat ensures Wait(min, max, sessions + Silent(n)) == Capped(min, max, n) {
        SilenceDoublesTheWait(min, max, sessions, n);
      }
    } else if min == 0 {
      forall n: nat ensures Wait(min, max, sessions + Silent(n)) == Capped(min, max, n) {
        NothingToDouble(max, sessions, n);
      }
    } else {
      HighCapWraps(min, max, sessions);
    }
  }

  lemma {:induction false} NothingToDouble(max: nat, sessions: seq<seq<Event>>, n: nat)
    requires sessions != [] && (|sessions| == 1 || sessions[|sessions| - 1] != [])
    ensures Wait(0, max, sessions + Silent(n)) == Times2(0, n) == 0
  {
    hide Wait, Silent;
    SilentNext(sessions, n);
    if n == 0 {
      FreshWait(0, max, sessions);
    } else {
      NothingToDouble(max, sessions, n - 1);
      WaitNext(0, max, sessions + Silent(n - 1));
    }
  }

  /** After 32 silent sessions a high cap has been reached, or missed; one more falls
      below it. */
  lemma HighCapWraps(min: nat, max: nat, sessions: seq<seq<Event>>)
    requires sessions != [] && 0 < min <= max && TWO_32 / 2 <= max < TWO_32
    ensures Wait(min, max, sessions + Silent(32)) != Capped(min, max, 32)
            || Wait(min, max, sessions + Silent(33)) != Capped(min, max, 33)
  {
    hide Wait, Silent, Times2;
    Times2Grows(min, 32);
    Times2Grows(min, 33);
    SilentNext(sessions, 33);
    WaitNext(min, max, sessions + Silent(32));
  }

  /** Thirty-two doublings of anything leave the 32-bit range. */
  lemma {:induction false} Times2Grows(b: nat, n: nat)
    requires b > 0 && n >= 32
    ensures Times2(b, n) >= TWO_32
    decreases n
  {
    if n > 32 {
      Times2Grows(b, n - 1);
    } else {
      EightDoublings(b, 0);
      EightDoublings(b, 8);
      EightDoublings(b, 16);
      EightDoublings(b, 24);
    }
  }

  lemma EightDoublings(b: nat, n: nat)
    ensures Times2(b, n + 8) == 256 * Times2(b, n)
  {
    assert Times2(b, n + 4) == 16 * Times2(b, n) by {
      assert Times2(b, n + 2) == 4 * Times2(b, n);
    }
    assert Times2(b, n + 6) == 4 * Times2(b, n + 4);
  }

  lemma FreshWait(min: nat, max: nat, sessions: seq<seq<Event>>)
    requires sessions != [] && (|sessions| == 1 || sessions[|sessions| - 1] != [])
    ensures Wait(min, max, sessions) == min
  {
  }

  // --- Whole runs -------------------------------------------------------------------

  /** The dashboard backend subscribes to every kind of one site. */
  function StreamFilter(site: string, since: nat): Filter {
    Filter(site, [], true, true, true, true, since)
  }

  /** It takes every event of its site with a payload. */
  lemma StreamTakes(site: string, since: nat, e: Envelope)
    ensures Matches(StreamFilter(site, since), e) <==> (site == "" || e.site == site) && !e.event.kind.NotSet?
    ensures StreamFilter(site, since).since == since
  {
  }

  datatype Conn = Down | Up(sub: Sub, wire: seq<Event>)

  /** One server lifetime and one backend.  `wire` are events sent but not yet read;
      `start` is the lowest id the first subscribe could replay, 0 before it. */
  datatype Pipe = Pipe(
    site: string,
    ringCap: nat,
    subCap: nat,
    ring: seq<Envelope>,
    history: seq<Envelope>,
    conn: Conn,
    cache: Cache,
    ingested: seq<Event>,
    start: nat)

  function NewPipe(site: string, ringCap: nat, subCap: nat, cacheCap: nat): Pipe {
    Pipe(site, ringCap, subCap, [], [], Down, EmptyCache(cacheCap), [], 0)
  }

  datatype Step = Publish(site: string, gate: string, draft: Event, now: int) | Send | Read | Disconnect | Reconnect

  predicate Enabled(p: Pipe, s: Step) {
    match s
    case Publish(_, _, _, _) => p.ringCap > 0
    case Send => p.conn.Up? && p.conn.sub.queue != []
    case Read => p.conn.Up? && p.conn.wire != []
    case Disconnect => p.conn.Up?
    case Reconnect => p.conn.Down?
  }

  function Base(p: Pipe): nat { EventRoutes.Oldest(p.ringCap, |p.history|) + 1 }

  function Published(p: Pipe, env: Envelope): Pipe
    requires p.ringCap > 0
  {
    p.(ring := RingPush(p.ring, p.ringCap, env), history := p.history + [env],
       conn := if p.conn.Up? then Up(Offer(p.conn.sub, env), p.conn.wire) else Down)
  }

  function Reconnected(p: Pipe): Pipe {
    p.(conn := Up(Replay(NewSub(StreamFilter(p.site, p.cache.last), p.subCap), p.ring), []),
       start := if p.start == 0 then Base(p) else p.start)
  }

  function Take(p: Pipe, s: Step): Pipe
    requires Enabled(p, s)
  {
    match s
    case Publish(site, gate, draft, now) => Published(p, Sealed(site, gate, draft, |p.history| + 1, now))
    case Send =>
      var sub := p.conn.sub;
      p.(conn := Up(sub.(queue := sub.queue[1..]), p.conn.wire + [sub.queue[0]]))
    case Read =>
      var e := p.conn.wire[0];
      p.(conn := Up(p.conn.sub, p.conn.wire[1..]), cache := Ingest(p.cache, e), ingested := p.ingested + [e])
    case Disconnect => p.(conn := Down)
    case Reconnect => Reconnected(p)
  }

  function Run(p: Pipe, steps: seq<Step>): Pipe {
    if steps == [] then p
    else
      var q := Run(p, steps[..|steps| - 1]);
      if Enabled(q, steps[|steps| - 1]) then Take(q, steps[|steps| - 1]) else q
  }

  // --- The matching events between two ids ------------------------------------------

  function Between(f: Filter, history: seq<Envelope>, lo: nat, hi: nat): seq<Event>
    requires hi <= |history|
    decreases hi
  {
    if hi < lo || hi == 0 then []
    else Between(f, history, lo, hi - 1) + if Matches(f, history[hi - 1]) then [history[hi - 1].event] else []
  }

  predicate Increasing(es: seq<Event>) {
    forall i, j | 0 <= i < j < |es| :: es[i].id < es[j].id
  }

  predicate Ids(history: seq<Envelope>) {
    forall k | 0 <= k < |history| :: history[k].event.id == k + 1
  }

  lemma {:induction false} BetweenFacts(f: Filter, history: seq<Envelope>, lo: nat, hi: nat)
    requires hi <= |history| && Ids(history)
    ensures var b := Between(f, history, lo, hi);
            Increasing(b) && forall i | 0 <= i < |b| ::
              && lo <= b[i].id <= hi && 1 <= b[i].id
              && b[i] == history[b[i].id - 1].event && Matches(f, history[b[i].id - 1])
    decreases hi
  {
    hide Matches;
    if lo <= hi && hi > 0 {
      BetweenFacts(f, history, lo, hi - 1);
    }
  }

  lemma {:induction false} BetweenSplits(f: Filter, history: seq<Envelope>, lo: nat, mid: nat, hi: nat)
    requires lo <= mid + 1 && mid <= hi <= |history|
    ensures Between(f, history, lo, hi) == Between(f, history, lo, mid) + Between(f, history, mid + 1, hi)
    decreases hi
  {
    hide Matches;
    if mid < hi {
      BetweenSplits(f, history, lo, mid, hi - 1);
    }
  }

  lemma {:induction false} BetweenGrows(f: Filter, history: seq<Envelope>, env: Envelope, lo: nat, hi: nat)
    requires hi <= |history|
    ensures Between(f, history + [env], lo, hi) == Between(f, history, lo, hi)
    decreases hi
  {
    hide Matches;
    if lo <= hi && hi > 0 {
      BetweenGrows(f, history, env, lo, hi - 1);
    }
  }

  /** The first of the events between two ids splits them. */
  lemma BetweenHead(f: Filter, history: seq<Envelope>, lo: nat, hi: nat)
    requires hi <= |history| && Ids(history) && Between(f, history, lo, hi) != []
    ensures var b := Between(f, history, lo, hi);
            && 1 <= b[0].id && lo <= b[0].id <= hi
            && Between(f, history, lo, b[0].id) == [b[0]] && Between(f, history, b[0].id + 1, hi) == b[1..]
  {
    hide Matches;
    var b := Between(f, history, lo, hi);
    var m := b[0].id;
    BetweenFacts(f, history, lo, hi);
    BetweenSplits(f, history, lo, m, hi);
    var front := Between(f, history, lo, m - 1);
    BetweenFacts(f, history, lo, m - 1);
    assert Between(f, history, lo, m) == front + [b[0]];
    assert Between(f, history, lo, m) == [b[0]];
  }

  lemma SameMatches(site: string, a: nat, b: nat, e: Envelope)
    ensures Matches(StreamFilter(site, a), e) == Matches(StreamFilter(site, b), e)
  {
  }

  // --- Replay -----------------------------------------------------------------------

  /** What a queue of capacity `cap` keeps of a sequence of pushes; 0 is unbounded. */
  function Kept(es: seq<Event>, cap: nat): seq<Event> {
    if cap == 0 then es else Newest(es, cap)
  }

  lemma NewestLength(es: seq<Event>, cap: nat)
    ensures |Newest(es, cap)| <= cap
  {
  }

  lemma NewestPushes(q: seq<Event>, e: Event, cap: nat)
    requires 0 < cap && |q| <= cap
    ensures Newest(q + [e], cap) == if |q| == cap then q[1..] + [e] else q + [e]
  {
  }

  lemma PushKeeps(s: Sub, es: seq<Event>, e: Event)
    requires s.queue == Kept(es, s.capacity)
    ensures PushLocked(s, e).queue == Kept(es + [e], s.capacity)
  {
    hide Newest;
    if s.capacity > 0 {
      NewestLength(es, s.capacity);
      NewestAppends(es, e, s.capacity);
      NewestPushes(s.queue, e, s.capacity);
    }
  }

  /** A fresh subscription holds the newest of the ring's matching events past its
      cursor. */
  lemma {:induction false} ReplayKeeps(site: string, since: nat, cap: nat, history: seq<Envelope>, base: nat, n: nat)
    requires 1 <= base <= n + 1 <= |history| + 1 && Ids(history)
    ensures var s := Replay(NewSub(StreamFilter(site, since), cap), history[base - 1..n]);
            && s == NewSub(StreamFilter(site, since), cap).(queue := s.queue, dropped := s.dropped)
            && s.queue == Kept(Between(StreamFilter(site, 0), history, Max(since + 1, base), n), cap)
    decreases n
  {
    hide Matches, PushLocked, Replay, Between, Kept;
    var s0, f := NewSub(StreamFilter(site, since), cap), StreamFilter(site, 0);
    var lo := Max(since + 1, base);
    if n < base {
      assert history[base - 1..n] == [];
      ReplayNothing(s0);
      BetweenEmpty(f, history, lo, n);
      KeptLength([], cap);
    } else {
      var e := history[n - 1];
      assert history[base - 1..n] == history[base - 1..n - 1] + [e];
      ReplayKeeps(site, since, cap, history, base, n - 1);
      var front := Replay(s0, history[base - 1..n - 1]);
      ReplayNext(s0, history[base - 1..n - 1], e);
      SameMatches(site, since, 0, e);
      BetweenNext(f, history, lo, n);
      PushKeeps(front, Between(f, history, lo, n - 1), e.event);
      PushFrame(front, e.event);
    }
  }

  lemma ReplayNothing(s: Sub)
    ensures Replay(s, []) == s
  {
  }

  lemma ReplayNext(s: Sub, ring: seq<Envelope>, e: Envelope)
    ensures Replay(s, ring + [e]) ==
              if e.event.id > s.filter.since && Matches(s.filter, e) then PushLocked(Replay(s, ring), e.event)
              else Replay(s, ring)
  {
    hide Matches, PushLocked;
    assert (ring + [e])[..|ring|] == ring;
  }

  lemma BetweenNext(f: Filter, history: seq<Envelope>, lo: nat, hi: nat)
    requires 0 < hi <= |history|
    ensures Between(f, history, lo, hi) ==
              if lo <= hi && Matches(f, history[hi - 1]) then Between(f, history, lo, hi - 1) + [history[hi - 1].event]
              else Between(f, history, lo, hi - 1)
  {
    hide Matches;
    if hi < lo {
      BetweenEmpty(f, history, lo, hi - 1);
    }
  }

  lemma PushFrame(s: Sub, e: Event)
    ensures var t := PushLocked(s, e); t == s.(queue := t.queue, dropped := t.dropped)
  {
  }

  function Max(a: nat, b: nat): nat { if a < b then b else a }

  // --- Order ------------------------------------------------------------------------

  /** Everything ingested, then everything on its way. */
  function Flow(p: Pipe): seq<Event> {
    p.ingested + if p.conn.Up? then p.conn.wire + p.conn.sub.queue else []
  }

  predicate Based(p: Pipe) {
    p.ringCap > 0 && Ids(p.history) && p.ring == p.history[Base(p) - 1..]
  }

  predicate Ordered(p: Pipe) {
    && Based(p)
    && InRange(Flow(p), |p.history|)
    && p.cache.last == (if p.ingested == [] then 0 else p.ingested[|p.ingested| - 1].id)
    && (p.conn.Up? ==> !p.conn.sub.closed && p.conn.sub.filter == StreamFilter(p.site, p.conn.sub.filter.since))
  }

  /** Ids strictly increase within 1..n. */
  predicate InRange(es: seq<Event>, n: nat) {
    Increasing(es) && forall i | 0 <= i < |es| :: 1 <= es[i].id <= n
  }

  lemma AppendInRange(es: seq<Event>, e: Event, n: nat)
    requires InRange(es, n) && e.id == n + 1
    ensures InRange(es + [e], n + 1)
  {
  }

  lemma RemoveInRange(a: seq<Event>, q: seq<Event>, n: nat)
    requires q != [] && InRange(a + q, n)
    ensures InRange(a + q[1..], n)
  {
    var es, all := a + q[1..], a + q;
    assert forall i | 0 <= i < |es| :: es[i] == all[if i < |a| then i else i + 1];
  }

  lemma JoinInRange(a: seq<Event>, b: seq<Event>, last: nat, n: nat)
    requires InRange(a, n) && InRange(b, n)
    requires forall i | 0 <= i < |a| :: a[i].id <= last
    requires forall i | 0 <= i < |b| :: last < b[i].id
    ensures InRange(a + b, n)
  {
  }

  lemma OfferInRange(a: seq<Event>, s: Sub, env: Envelope, n: nat)
    requires InRange(a + s.queue, n) && env.event.id == n + 1
    ensures InRange(a + Offer(s, env).queue, n + 1)
  {
    hide Matches, InRange;
    AppendInRange(a + s.queue, env.event, n);
    assert a + (s.queue + [env.event]) == (a + s.queue) + [env.event];
    if Full(s) {
      RemoveInRange(a, s.queue, n);
      AppendInRange(a + s.queue[1..], env.event, n);
      assert a + (s.queue[1..] + [env.event]) == (a + s.queue[1..]) + [env.event];
    }
    WidenRange(a + s.queue, n);
  }

  lemma WidenRange(es: seq<Event>, n: nat)
    requires InRange(es, n)
    ensures InRange(es, n + 1)
  {
  }

  lemma PublishOrdered(p: Pipe, env: Envelope)
    requires Ordered(p) && env.event.id == |p.history| + 1
    ensures Ordered(Published(p, env))
  {
    hide Matches, InRange, PushLocked;
    EventRoutes.RingGrows(p.ring, p.ringCap, p.history, env);
    var n := |p.history|;
    if p.conn.Up? {
      var a, s := p.ingested + p.conn.wire, p.conn.sub;
      assert p.ingested + (p.conn.wire + s.queue) == a + s.queue;
      OfferInRange(a, s, env, n);
      assert p.ingested + (p.conn.wire + Offer(s, env).queue) == a + Offer(s, env).queue;
      PushFrame(s, env.event);
    } else {
      WidenRange(Flow(p), n);
    }
  }

  lemma KeptInRange(f: Filter, history: seq<Envelope>, lo: nat, n: nat, cap: nat)
    requires n <= |history| && Ids(history) && lo >= 1
    ensures var q := Kept(Between(f, history, lo, n), cap);
            InRange(q, n) && forall i | 0 <= i < |q| :: lo <= q[i].id
  {
    hide Between, Matches;
    BetweenFacts(f, history, lo, n);
    KeptSuffix(Between(f, history, lo, n), cap, lo, n);
  }

  lemma KeptSuffix(es: seq<Event>, cap: nat, lo: nat, n: nat)
    requires InRange(es, n) && forall i | 0 <= i < |es| :: lo <= es[i].id
    ensures InRange(Kept(es, cap), n) && forall i | 0 <= i < |Kept(es, cap)| :: lo <= Kept(es, cap)[i].id
  {
    var q := Kept(es, cap);
    var d := |es| - |q|;
    assert forall i | 0 <= i < |q| :: q[i] == es[d + i];
  }

  lemma IngestedInRange(p: Pipe)
    requires Ordered(p)
    ensures InRange(p.ingested, |p.history|) && p.cache.last <= |p.history|
    ensures forall i | 0 <= i < |p.ingested| :: p.ingested[i].id <= p.cache.last
  {
    assert forall i | 0 <= i < |p.ingested| :: p.ingested[i] == Flow(p)[i];
  }

  lemma ReconnectOrdered(p: Pipe)
    requires Ordered(p) && p.conn.Down?
    ensures Ordered(Reconnected(p))
  {
    hide Matches, Replay, Kept, Between, InRange;
    var n, base := |p.history|, Base(p);
    var f := StreamFilter(p.site, 0);
    ReplayKeeps(p.site, p.cache.last, p.subCap, p.history, base, n);
    assert p.history[base - 1..n] == p.ring;
    var lo := Max(p.cache.last + 1, base);
    KeptInRange(f, p.history, lo, n, p.subCap);
    var q := Kept(Between(f, p.history, lo, n), p.subCap);
    IngestedInRange(p);
    JoinInRange(p.ingested, q, p.cache.last, n);
    assert p.ingested + ([] + q) == p.ingested + q;
  }

  lemma TakeOrdered(p: Pipe, s: Step)
    requires Ordered(p) && Enabled(p, s)
    ensures Ordered(Take(p, s))
  {
    hide Published, Reconnected;
    match s
    case Publish(site, gate, draft, now) => PublishOrdered(p, Sealed(site, gate, draft, |p.history| + 1, now));
    case Send =>
      assert Flow(Take(p, s)) == Flow(p);
    case Read =>
      var e := p.conn.wire[0];
      assert Flow(Take(p, s)) == Flow(p);
      assert Flow(p)[|p.ingested|] == e;
      if p.ingested != [] {
        assert Flow(p)[|p.ingested| - 1] == p.ingested[|p.ingested| - 1];
      }
    case Disconnect =>
      assert Flow(Take(p, s)) == p.ingested;
      IngestedInRange(p);
    case Reconnect => ReconnectOrdered(p);
  }

  lemma {:induction false} RunOrdered(site: string, ringCap: nat, subCap: nat, cacheCap: nat, steps: seq<Step>)
    requires ringCap > 0
    ensures Ordered(Run(NewPipe(site, ringCap, subCap, cacheCap), steps))
    decreases |steps|
  {
    hide Take, Ordered;
    if steps != [] {
      RunOrdered(site, ringCap, subCap, cacheCap, steps[..|steps| - 1]);
      var q := Run(NewPipe(site, ringCap, subCap, cacheCap), steps[..|steps| - 1]);
      if Enabled(q, steps[|steps| - 1]) {
        TakeOrdered(q, steps[|steps| - 1]);
      }
    } else {
      NewOrdered(site, ringCap, subCap, cacheCap);
    }
  }

  lemma NewOrdered(site: string, ringCap: nat, subCap: nat, cacheCap: nat)
    requires ringCap > 0
    ensures Ordered(NewPipe(site, ringCap, subCap, cacheCap))
  {
  }

  /** Whatever is lost, nothing is ingested twice or out of order: over every run of
      publishes, deliveries, disconnects and reconnects, ids strictly increase. */
  lemma IngestedIdsIncrease(site: string, ringCap: nat, subCap: nat, cacheCap: nat, steps: seq<Step>)
    requires ringCap > 0
    ensures var p := Run(NewPipe(site, ringCap, subCap, cacheCap), steps);
            Increasing(p.ingested) && (p.ingested != [] ==> p.cache.last == p.ingested[|p.ingested| - 1].id)
  {
    hide Run;
    RunOrdered(site, ringCap, subCap, cacheCap, steps);
    IngestedInRange(Run(NewPipe(site, ringCap, subCap, cacheCap), steps));
  }

  // --- No gap -----------------------------------------------------------------------

  /** The lowest id the stream still owes the backend. */
  function Next(p: Pipe): nat { Max(p.start, p.cache.last + 1) }

  /** Ingested and in flight together are exactly the matching events from the first
      one replayable onward. */
  predicate Exact(p: Pipe) {
    var f := StreamFilter(p.site, 0);
    if p.start == 0 then p.conn.Down? && p.ingested == []
    else
      && p.cache.last <= |p.history| && p.start <= Base(p)
      && p.ingested == Between(f, p.history, p.start, p.cache.last)
      && (p.conn.Up? ==> p.conn.wire + p.conn.sub.queue == Between(f, p.history, Next(p), |p.history|))
  }

  /** What a reconnect owes: the events from the cursor on that were ever replayable. */
  function Owed(p: Pipe): nat { Max(if p.start == 0 then Base(p) else p.start, p.cache.last + 1) }

  /** Every owed event is still in the ring, and the queue has room for all of them. */
  predicate Replayable(p: Pipe)
    requires Base(p) <= |p.history| + 1
  {
    var f := StreamFilter(p.site, 0);
    && Between(f, p.history, Owed(p), Base(p) - 1) == []
    && (p.subCap > 0 ==> |Between(f, p.history, Max(Owed(p), Base(p)), |p.history|)| <= p.subCap)
  }

  /** A step loses nothing when a publish finds room in the queue and a reconnect
      finds everything owed replayable. */
  predicate Lossless(p: Pipe, s: Step) {
    match s
    case Publish(site, gate, draft, now) =>
      p.conn.Up? && Matches(p.conn.sub.filter, Sealed(site, gate, draft, |p.history| + 1, now)) ==> !Full(p.conn.sub)
    case Reconnect => Replayable(p)
    case _ => true
  }

  lemma PublishExact(p: Pipe, env: Envelope)
    requires Ordered(p) && Exact(p) && env.event.id == |p.history| + 1
    requires p.conn.Up? && Matches(p.conn.sub.filter, env) ==> !Full(p.conn.sub)
    ensures Exact(Published(p, env))
  {
    hide Matches, RingPush, InRange;
    var f, n := StreamFilter(p.site, 0), |p.history|;
    var all := p.history + [env];
    if p.start > 0 {
      BetweenGrows(f, p.history, env, p.start, p.cache.last);
      BetweenGrows(f, p.history, env, Next(p), n);
      if p.conn.Up? {
        SameMatches(p.site, p.conn.sub.filter.since, 0, env);
        assert all[n] == env;
        IngestedInRange(p);
        assert p.conn.wire + (p.conn.sub.queue + [env.event]) == (p.conn.wire + p.conn.sub.queue) + [env.event];
      }
    }
  }

  lemma ReadExact(p: Pipe)
    requires Ordered(p) && Exact(p) && Enabled(p, Read)
    ensures Exact(Take(p, Read))
  {
    hide Matches, InRange, Between;
    var f, n := StreamFilter(p.site, 0), |p.history|;
    var e := p.conn.wire[0];
    var b := Between(f, p.history, Next(p), n);
    assert b[0] == e && b[1..] == p.conn.wire[1..] + p.conn.sub.queue;
    BetweenHead(f, p.history, Next(p), n);
    if p.start <= p.cache.last + 1 {
      BetweenSplits(f, p.history, p.start, p.cache.last, e.id);
    } else {
      BetweenEmpty(f, p.history, p.start, p.cache.last);
      assert [] + [e] == [e];
    }
  }

  lemma BetweenEmpty(f: Filter, history: seq<Envelope>, lo: nat, hi: nat)
    requires hi <= |history| && hi < lo
    ensures Between(f, history, lo, hi) == []
  {
  }

  /** A reconnect resumes exactly if and only if everything owed is replayable. */
  lemma ReconnectExactIff(p: Pipe)
    requires Ordered(p) && Exact(p) && p.conn.Down?
    ensures Exact(Reconnected(p)) <==> Replayable(p)
  {
    hide Matches, InRange, Between, Replay, Kept;
    var f, n, base := StreamFilter(p.site, 0), |p.history|, Base(p);
    ReplayKeeps(p.site, p.cache.last, p.subCap, p.history, base, n);
    assert p.history[base - 1..n] == p.ring;
    IngestedInRange(p);
    var next := Owed(p);
    assert Max(p.cache.last + 1, base) == Max(next, base);
    if next <= base - 1 {
      BetweenSplits(f, p.history, next, base - 1, n);
    } else {
      BetweenEmpty(f, p.history, next, base - 1);
    }
    var due := Between(f, p.history, Max(next, base), n);
    assert Between(f, p.history, next, n) == Between(f, p.history, next, base - 1) + due;
    KeptLength(due, p.subCap);
    var q := Reconnected(p);
    assert q.conn.sub.queue == Kept(due, p.subCap);
    assert q.conn.wire + q.conn.sub.queue == q.conn.sub.queue;
    if p.start == 0 {
      BetweenEmpty(f, p.history, base, p.cache.last);
    }
  }

  lemma KeptLength(es: seq<Event>, cap: nat)
    ensures cap == 0 || |es| <= cap ==> Kept(es, cap) == es
    ensures |Kept(es, cap)| <= |es|
    ensures cap > 0 && |es| > cap ==> |Kept(es, cap)| < |es|
  {
  }

  lemma TakeExact(p: Pipe, s: Step)
    requires Ordered(p) && Exact(p) && Enabled(p, s) && Lossless(p, s)
    ensures Exact(Take(p, s))
  {
    hide Matches, Published, Reconnected, InRange, Between, Replayable;
    match s
    case Publish(site, gate, draft, now) => PublishExact(p, Sealed(site, gate, draft, |p.history| + 1, now));
    case Send =>
      assert Take(p, s).conn.wire + Take(p, s).conn.sub.queue == p.conn.wire + p.conn.sub.queue;
    case Read => ReadExact(p);
    case Disconnect =>
    case Reconnect => ReconnectExactIff(p);
  }

  /** No step of a run loses anything. */
  predicate LosslessRun(p: Pipe, steps: seq<Step>)
    decreases |steps|
  {
    steps != [] ==>
      && LosslessRun(p, steps[..|steps| - 1])
      && (var q := Run(p, steps[..|steps| - 1]);
          Enabled(q, steps[|steps| - 1]) ==> Lossless(q, steps[|steps| - 1]))
  }

  lemma {:induction false} RunExact(site: string, ringCap: nat, subCap: nat, cacheCap: nat, steps: seq<Step>)
    requires ringCap > 0 && LosslessRun(NewPipe(site, ringCap, subCap, cacheCap), steps)
    ensures Exact(Run(NewPipe(site, ringCap, subCap, cacheCap), steps))
    decreases |steps|
  {
    hide Take, Ordered, Lossless, Enabled;
    if steps != [] {
      var front := steps[..|steps| - 1];
      RunExact(site, ringCap, subCap, cacheCap, front);
      RunOrdered(site, ringCap, subCap, cacheCap, front);
      var q := Run(NewPipe(site, ringCap, subCap, cacheCap), front);
      if Enabled(q, steps[|steps| - 1]) {
        TakeExact(q, steps[|steps| - 1]);
      }
    }
  }

  /** Resume without gap or duplicate: over every run that loses nothing, what the
      backend has ingested is a prefix of the matching events from the first replayable
      one onward, each once, in id order, and while connected the rest is in flight. */
  lemma ResumesExactly(site: string, ringCap: nat, subCap: nat, cacheCap: nat, steps: seq<Step>)
    requires ringCap > 0 && LosslessRun(NewPipe(site, ringCap, subCap, cacheCap), steps)
    ensures var p := Run(NewPipe(site, ringCap, subCap, cacheCap), steps);
            var wanted := Between(StreamFilter(site, 0), p.history, p.start, |p.history|);
            p.start > 0 ==> p.ingested <= wanted && (p.conn.Up? ==> Flow(p) == wanted)
  {
    hide Run, Between, InRange, LosslessRun;
    RunExact(site, ringCap, subCap, cacheCap, steps);
    RunOrdered(site, ringCap, subCap, cacheCap, steps);
    RunSite(site, ringCap, subCap, cacheCap, steps);
    var p := Run(NewPipe(site, ringCap, subCap, cacheCap), steps);
    var f := StreamFilter(site, 0);
    if p.start > 0 {
      if p.start <= p.cache.last + 1 {
        BetweenSplits(f, p.history, p.start, p.cache.last, |p.history|);
      } else {
        BetweenEmpty(f, p.history, p.start, p.cache.last);
      }
    }
  }

  lemma {:induction false} RunSite(site: string, ringCap: nat, subCap: nat, cacheCap: nat, steps: seq<Step>)
    ensures Run(NewPipe(site, ringCap, subCap, cacheCap), steps).site == site
    decreases |steps|
  {
    if steps != [] {
      RunSite(site, ringCap, subCap, cacheCap, steps[..|steps| - 1]);
    }
  }
}
