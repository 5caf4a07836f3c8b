/** Every interleaving of publishes, subscribes, deliveries and closes on the event
    hub, with each publish split into its locked commit and its later pushes.

    Each event due to a subscriber reaches it by exactly one route: replay from the
    ring, or a live push. */
module EventRoutes {
  import opened Broadcasting

  /** A subscriber with what an observer has seen of it: the next id and the lowest
      ring id when it subscribed, and every event pushed, consumed and dropped. */
  datatype View = View(
    sub: Sub,
    born: nat,
    floor: nat,
    pushed: seq<Event>,
    consumed: seq<Event>,
    lost: seq<Event>)

  /** The hub.  `pending[id]` are the subscribers a committed event has still to be
      offered to; `history` is everything committed. */
  datatype Hub = Hub(
    ringCap: nat,
    subCap: nat,
    ring: seq<Envelope>,
    nextId: nat,
    attached: seq<nat>,
    views: seq<View>,
    pending: map<nat, seq<nat>>,
    history: seq<Envelope>)

  function NewHub(ringCap: nat, subCap: nat): Hub {
    Hub(ringCap, subCap, [], 1, [], [], map[], [])
  }

  /** Push one event and note what it displaces. */
  function Pushed(v: View, e: Event): View {
    v.(sub := PushLocked(v.sub, e),
       pushed := v.pushed + [e],
       lost := if Full(v.sub) && v.sub.queue != [] then v.lost + [v.sub.queue[0]] else v.lost)
  }

  function Offered(v: View, e: Envelope): View {
    if v.sub.closed || !Matches(v.sub.filter, e) then v else Pushed(v, e.event)
  }

  function Replayed(v: View, ring: seq<Envelope>): View {
    if ring == [] then v
    else
      var r := Replayed(v, ring[..|ring| - 1]);
      var e := ring[|ring| - 1];
      if e.event.id > v.sub.filter.since && Matches(v.sub.filter, e) then Pushed(r, e.event) else r
  }

  /** What an observer sees of a subscriber is what the subscription object does. */
  lemma {:induction false} ReplayedIsReplay(v: View, ring: seq<Envelope>)
    ensures Replayed(v, ring).sub == Replay(v.sub, ring)
    decreases |ring|
  {
    if ring != [] {
      ReplayedIsReplay(v, ring[..|ring| - 1]);
    }
  }

  datatype Step =
    | Commit(site: string, gate: string, draft: Event, now: int)
    | PushNext(id: nat)
    | Subscribe(filter: Filter)
    | Consume(sub: nat)
    | Close(sub: nat)
    | Expire(sub: nat)
    | DetachAll

  predicate Enabled(h: Hub, s: Step) {
    match s
    case Commit(_, _, _, _) => true
    case PushNext(id) => id in h.pending && h.pending[id] != []
    case Subscribe(_) => true
    case Consume(t) => t < |h.views| && h.views[t].sub.queue != []
    case Close(t) => t < |h.views|
    case Expire(t) => t < |h.views| && h.views[t].sub.closed
    case DetachAll => true
  }

  function Without(ts: seq<nat>, t: nat): seq<nat> {
    if ts == [] then [] else if ts[0] == t then Without(ts[1..], t) else [ts[0]] + Without(ts[1..], t)
  }

  function Committed(h: Hub, env: Envelope): Hub
    requires h.ringCap > 0
  {
    h.(ring := RingPush(h.ring, h.ringCap, env), nextId := h.nextId + 1,
       pending := h.pending[h.nextId := h.attached], history := h.history + [env])
  }

  function OfferedOn(h: Hub, id: nat): Hub
    requires id in h.pending && h.pending[id] != [] && GroundedAt(h, id)
  {
    var t := h.pending[id][0];
    h.(views := h.views[t := Offered(h.views[t], h.history[id - 1])], pending := h.pending[id := h.pending[id][1..]])
  }

  function Joining(h: Hub, f: Filter): View {
    View(NewSub(f, h.subCap), h.nextId, if h.ring == [] then h.nextId else h.ring[0].event.id, [], [], [])
  }

  function Joined(h: Hub, f: Filter): Hub {
    h.(views := h.views + [Replayed(Joining(h, f), h.ring)], attached := h.attached + [|h.views|])
  }

  function Reviewed(h: Hub, t: nat, v: View): Hub
    requires t < |h.views|
  {
    h.(views := h.views[t := v])
  }

  function Consumed(v: View): View
    requires v.sub.queue != []
  {
    v.(sub := v.sub.(queue := v.sub.queue[1..]), consumed := v.consumed + [v.sub.queue[0]])
  }

  function Closed(v: View): View { v.(sub := v.sub.(closed := true)) }

  function Take(h: Hub, s: Step): Hub
    requires h.ringCap > 0 && Enabled(h, s) && Grounded(h)
  {
    match s
    case Commit(site, gate, draft, now) => Committed(h, Sealed(site, gate, draft, h.nextId, now))
    case PushNext(id) => OfferedOn(h, id)
    case Subscribe(f) => Joined(h, f)
    case Consume(t) => Reviewed(h, t, Consumed(h.views[t]))
    case Close(t) => Reviewed(h, t, Closed(h.views[t]))
    case Expire(t) => h.(attached := Without(h.attached, t))
    case DetachAll => h.(attached := [])
  }

  predicate GroundedAt(h: Hub, id: nat)
    requires id in h.pending
  {
    1 <= id <= |h.history| && forall i | 0 <= i < |h.pending[id]| :: h.pending[id][i] < |h.views|
  }

  /** Pending offers name committed events and known subscribers. */
  predicate Grounded(h: Hub) {
    forall id <- h.pending :: GroundedAt(h, id)
  }

  // --- Structure ------------------------------------------------------------------

  predicate Distinct(ts: seq<nat>) {
    forall i, j | 0 <= i < j < |ts| :: ts[i] != ts[j]
  }

  /** The index of the oldest of `n` events still in a ring. */
  function Oldest(cap: nat, n: nat): (k: nat)
    ensures k <= n
  {
    if n <= cap then 0 else n - cap
  }

  /** Ids count commits and the ring is the newest `ringCap` of them. */
  predicate Numbered(h: Hub) {
    && h.ringCap > 0 && h.nextId == |h.history| + 1
    && (forall k | 0 <= k < |h.history| :: h.history[k].event.id == k + 1)
    && h.ring == h.history[Oldest(h.ringCap, |h.history|)..]
  }

  /** An event is offered at most once to each subscriber older than it. */
  predicate TidyAt(h: Hub, id: nat)
    requires id in h.pending && GroundedAt(h, id)
  {
    && Distinct(h.pending[id])
    && forall i | 0 <= i < |h.pending[id]| :: id >= h.views[h.pending[id][i]].born
  }

  predicate Tidy(h: Hub) {
    && Grounded(h)
    && Distinct(h.attached) && (forall i | 0 <= i < |h.attached| :: h.attached[i] < |h.views|)
    && (forall id <- h.pending :: TidyAt(h, id))
    && (forall t | 0 <= t < |h.views| :: 1 <= h.views[t].born <= h.nextId)
  }

  // --- Queues ---------------------------------------------------------------------

  /** Cut at `n`, what was pushed is what was consumed or dropped, then what is queued. */
  predicate SplitAt(pushed: seq<Event>, n: nat, queue: seq<Event>, consumed: seq<Event>, lost: seq<Event>) {
    n <= |pushed| && queue == pushed[n..] && multiset(pushed[..n]) == multiset(consumed) + multiset(lost)
  }

  lemma SplitGrows(pushed: seq<Event>, n: nat, queue: seq<Event>, consumed: seq<Event>, lost: seq<Event>, e: Event)
    requires SplitAt(pushed, n, queue, consumed, lost)
    ensures SplitAt(pushed + [e], n, queue + [e], consumed, lost)
  {
    assert (pushed + [e])[..n] == pushed[..n];
  }

  lemma SplitMoves(pushed: seq<Event>, n: nat, queue: seq<Event>, consumed: seq<Event>, lost: seq<Event>)
    requires SplitAt(pushed, n, queue, consumed, lost) && queue != []
    ensures SplitAt(pushed, n + 1, queue[1..], consumed + [queue[0]], lost)
    ensures SplitAt(pushed, n + 1, queue[1..], consumed, lost + [queue[0]])
  {
    assert pushed[..n + 1] == pushed[..n] + [pushed[n]];
    assert pushed[n] == queue[0];
  }

  predicate Balanced(v: View) {
    && |v.sub.queue| <= |v.pushed| && |v.lost| == v.sub.dropped
    && SplitAt(v.pushed, |v.pushed| - |v.sub.queue|, v.sub.queue, v.consumed, v.lost)
  }

  lemma PushedBalanced(v: View, e: Event)
    requires Balanced(v)
    ensures Balanced(Pushed(v, e))
  {
    hide SplitAt;
    var n, q := |v.pushed| - |v.sub.queue|, v.sub.queue;
    SplitGrows(v.pushed, n, q, v.consumed, v.lost, e);
    if Full(v.sub) {
      SplitMoves(v.pushed + [e], n, q + [e], v.consumed, v.lost);
      assert (q + [e])[1..] == q[1..] + [e] && (q + [e])[0] == q[0];
    }
  }

  lemma {:induction false} ReplayedBalanced(v: View, ring: seq<Envelope>)
    requires Balanced(v)
    ensures Balanced(Replayed(v, ring))
    decreases |ring|
  {
    hide Balanced;
    if ring != [] {
      ReplayedBalanced(v, ring[..|ring| - 1]);
      PushedBalanced(Replayed(v, ring[..|ring| - 1]), ring[|ring| - 1].event);
    }
  }

  // --- Routes ---------------------------------------------------------------------

  /** Whether a subscriber is owed an event: it matches, and was committed after the
      subscribe, or was past the cursor and still in the ring at the subscribe. */
  predicate Due(v: View, e: Envelope) {
    && Matches(v.sub.filter, e)
    && (e.event.id >= v.born || (e.event.id > v.sub.filter.since && e.event.id >= v.floor))
  }

  /** A matching offer of event `k + 1` to `t` is still to be made. */
  predicate Waiting(h: Hub, t: nat, k: nat)
    requires t < |h.views| && k < |h.history|
  {
    k + 1 in h.pending && t in h.pending[k + 1] && Matches(h.views[t].sub.filter, h.history[k])
  }

  /** Event `k + 1` has been pushed to `t`, or is on its way, at most once and only if
      due; exactly once if due and `t` is attached and open. */
  predicate Route(h: Hub, t: nat, k: nat)
    requires t < |h.views| && k < |h.history|
  {
    var n := multiset(h.views[t].pushed)[h.history[k].event] + if Waiting(h, t, k) then 1 else 0;
    var due := if Due(h.views[t], h.history[k]) then 1 else 0;
    n <= due && (t in h.attached && !h.views[t].sub.closed ==> n == due)
  }

  /** Nothing is pushed that was not committed. */
  predicate FromHistory(h: Hub, t: nat)
    requires t < |h.views|
  {
    forall e <- h.views[t].pushed :: 1 <= e.id <= |h.history| && e == h.history[e.id - 1].event
  }

  predicate Selected(v: View, e: Envelope) {
    e.event.id > v.sub.filter.since && Matches(v.sub.filter, e)
  }

  lemma {:induction false} ReplayedStays(v: View, ring: seq<Envelope>)
    ensures var r := Replayed(v, ring);
            && r.sub.filter == v.sub.filter && r.sub.closed == v.sub.closed && r.born == v.born && r.floor == v.floor
    decreases |ring|
  {
    if ring != [] {
      ReplayedStays(v, ring[..|ring| - 1]);
    }
  }

  /** Replay pushes each selected ring event once and nothing else. */
  lemma {:induction false} ReplayedCount(v: View, ring: seq<Envelope>, base: nat, x: Event)
    requires v.pushed == [] && forall i | 0 <= i < |ring| :: ring[i].event.id == base + i
    ensures multiset(Replayed(v, ring).pushed)[x] ==
              if base <= x.id < base + |ring| && ring[x.id - base].event == x && Selected(v, ring[x.id - base])
              then 1 else 0
    decreases |ring|
  {
    hide Matches;
    if ring != [] {
      var front, e := ring[..|ring| - 1], ring[|ring| - 1];
      ReplayedCount(v, front, base, x);
    }
  }

  lemma RingGrows(ring: seq<Envelope>, cap: nat, history: seq<Envelope>, env: Envelope)
    requires cap > 0 && ring == history[Oldest(cap, |history|)..]
    ensures RingPush(ring, cap, env) == (history + [env])[Oldest(cap, |history| + 1)..]
  {
  }

  lemma CommitNumbered(h: Hub, env: Envelope)
    requires Numbered(h) && env.event.id == h.nextId
    ensures Numbered(Committed(h, env))
  {
    RingGrows(h.ring, h.ringCap, h.history, env);
  }

  lemma TakeNumbered(h: Hub, s: Step)
    requires Numbered(h) && Tidy(h) && Enabled(h, s)
    ensures Numbered(Take(h, s))
  {
    hide Tidy, Matches, Replayed, Offered, RingPush;
    TidyGrounded(h);
    if s.Commit? {
      CommitNumbered(h, Sealed(s.site, s.gate, s.draft, h.nextId, s.now));
    }
  }

  lemma {:induction false} WithoutFacts(ts: seq<nat>, t: nat)
    requires Distinct(ts)
    ensures Distinct(Without(ts, t)) && forall x :: x in Without(ts, t) <==> x in ts && x != t
    decreases |ts|
  {
    if ts != [] {
      var rest := ts[1..];
      assert forall i | 0 <= i < |rest| :: rest[i] == ts[i + 1];
      WithoutFacts(rest, t);
      assert ts == [ts[0]] + rest && ts[0] !in rest;
    }
  }

  lemma CommitTidy(h: Hub, env: Envelope)
    requires h.ringCap > 0 && h.nextId == |h.history| + 1 && Tidy(h)
    ensures Tidy(Committed(h, env))
  {
    hide RingPush;
    var h' := Committed(h, env);
    forall id | id in h'.pending ensures GroundedAt(h', id) && TidyAt(h', id) {
      if id in h.pending {
        assert GroundedAt(h, id) && TidyAt(h, id);
        assert id != h.nextId;
      }
    }
  }

  lemma OfferTidy(h: Hub, id: nat)
    requires Tidy(h) && id in h.pending && h.pending[id] != [] && GroundedAt(h, id)
    ensures Tidy(OfferedOn(h, id))
  {
    hide Matches, PushLocked;
    var h' := OfferedOn(h, id);
    forall x | x in h'.pending ensures GroundedAt(h', x) && TidyAt(h', x) {
      assert GroundedAt(h, x) && TidyAt(h, x);
      if x == id {
        assert forall i | 0 <= i < |h'.pending[x]| :: h'.pending[x][i] == h.pending[x][i + 1];
      }
    }
  }

  lemma ReviewTidy(h: Hub, t: nat, v: View)
    requires Tidy(h) && t < |h.views| && v.born == h.views[t].born
    ensures Tidy(Reviewed(h, t, v))
  {
    var h' := Reviewed(h, t, v);
    forall x | x in h'.pending ensures GroundedAt(h', x) && TidyAt(h', x) {
      assert GroundedAt(h, x) && TidyAt(h, x);
    }
  }

  lemma JoinTidy(h: Hub, f: Filter)
    requires Numbered(h) && Tidy(h)
    ensures Tidy(Joined(h, f))
  {
    hide Replayed;
    var h' := Joined(h, f);
    ReplayedStays(Joining(h, f), h.ring);
    forall x | x in h'.pending ensures GroundedAt(h', x) && TidyAt(h', x) {
      assert GroundedAt(h, x) && TidyAt(h, x);
    }
  }

  lemma LeaveTidy(h: Hub, ts: seq<nat>)
    requires Tidy(h) && Distinct(ts) && forall t <- ts :: t in h.attached
    ensures Tidy(h.(attached := ts))
  {
    var h' := h.(attached := ts);
    assert forall i | 0 <= i < |ts| :: ts[i] in h.attached;
    forall x | x in h'.pending ensures GroundedAt(h', x) && TidyAt(h', x) {
      assert GroundedAt(h, x) && TidyAt(h, x);
    }
  }

  lemma TakeTidy(h: Hub, s: Step)
    requires Numbered(h) && Tidy(h) && Enabled(h, s)
    ensures Tidy(Take(h, s))
  {
    hide Tidy, Committed, OfferedOn, Joined, Reviewed;
    TidyGrounded(h);
    match s
    case Commit(site, gate, draft, now) =>
      CommitTidy(h, Sealed(site, gate, draft, h.nextId, now));
    case PushNext(id) => OfferTidy(h, id);
    case Subscribe(f) => JoinTidy(h, f);
    case Consume(t) => ReviewTidy(h, t, Consumed(h.views[t]));
    case Close(t) => ReviewTidy(h, t, Closed(h.views[t]));
    case Expire(t) =>
      WithoutFacts(h.attached, t);
      LeaveTidy(h, Without(h.attached, t));
    case DetachAll => LeaveTidy(h, []);
  }

  lemma TidyGrounded(h: Hub)
    requires Tidy(h)
    ensures Grounded(h) && Distinct(h.attached)
  {
  }

  // --- Each step keeps every route --------------------------------------------------

  predicate ViewOk(h: Hub, t: nat)
    requires t < |h.views|
  {
    Balanced(h.views[t]) && FromHistory(h, t)
  }

  lemma CommitRoute(h: Hub, env: Envelope, t: nat, k: nat)
    requires h.ringCap > 0 && h.nextId == |h.history| + 1 && env.event.id == h.nextId && Tidy(h)
    requires t < |h.views| && k <= |h.history| && ViewOk(h, t) && (k < |h.history| ==> Route(h, t, k))
    ensures Route(Committed(h, env), t, k) && ViewOk(Committed(h, env), t)
  {
    hide Matches, RingPush, Balanced;
    var h' := Committed(h, env);
    if k == |h.history| {
      assert env.event !in h.views[t].pushed;
      assert 1 <= h.views[t].born <= h.nextId;
    }
  }

  lemma TailWithout(ts: seq<nat>)
    requires Distinct(ts) && ts != []
    ensures forall x :: x in ts[1..] <==> x in ts && x != ts[0]
  {
    assert ts == [ts[0]] + ts[1..];
    assert forall i | 0 <= i < |ts[1..]| :: ts[1..][i] == ts[i + 1];
  }

  /** One more push of another event leaves the count of `x`. */
  lemma CountOther(es: seq<Event>, e: Event, x: Event)
    ensures multiset(es + [e])[x] == multiset(es)[x] + if e == x then 1 else 0
  {
  }

  lemma OfferRoute(h: Hub, id: nat, t: nat, k: nat)
    requires Numbered(h) && Tidy(h) && id in h.pending && h.pending[id] != [] && GroundedAt(h, id)
    requires t < |h.views| && k < |h.history| && Route(h, t, k)
    ensures Route(OfferedOn(h, id), t, k)
  {
    hide Route, Numbered, Distinct;
    assert TidyAt(h, id);
    TailWithout(h.pending[id]);
    HistoryIds(h, k);
    HistoryIds(h, id - 1);
    if t == h.pending[id][0] {
      HeadRoute(h, id, t, k);
    } else {
      OtherRoute(h, id, t, k);
    }
  }

  lemma HistoryIds(h: Hub, k: nat)
    requires Numbered(h) && k < |h.history|
    ensures h.history[k].event.id == k + 1
  {
  }

  lemma OtherRoute(h: Hub, id: nat, t: nat, k: nat)
    requires id in h.pending && h.pending[id] != [] && GroundedAt(h, id) && t != h.pending[id][0]
    requires forall x :: x in h.pending[id][1..] <==> x in h.pending[id] && x != h.pending[id][0]
    requires t < |h.views| && k < |h.history| && Route(h, t, k)
    ensures Route(OfferedOn(h, id), t, k)
  {
    hide Matches, Offered, Due;
    var h' := OfferedOn(h, id);
    assert h'.views[t] == h.views[t];
    assert Waiting(h', t, k) <==> Waiting(h, t, k);
  }

  lemma HeadRoute(h: Hub, id: nat, t: nat, k: nat)
    requires id in h.pending && h.pending[id] != [] && GroundedAt(h, id) && t == h.pending[id][0]
    requires id >= h.views[t].born && h.history[id - 1].event.id == id
    requires forall x :: x in h.pending[id][1..] <==> x in h.pending[id] && x != h.pending[id][0]
    requires t < |h.views| && k < |h.history| && h.history[k].event.id == k + 1 && Route(h, t, k)
    ensures Route(OfferedOn(h, id), t, k)
  {
    hide Matches, Offered;
    var h' := OfferedOn(h, id);
    PushKeeps(h.views[t], h.history[id - 1]);
    assert h'.views[t] == Offered(h.views[t], h.history[id - 1]);
    assert Due(h'.views[t], h.history[k]) <==> Due(h.views[t], h.history[k]);
    assert Waiting(h', t, k) <==> Waiting(h, t, k) && k + 1 != id;
    CountOther(h.views[t].pushed, h.history[id - 1].event, h.history[k].event);
  }

  lemma PushKeeps(v: View, e: Envelope)
    ensures var v' := Offered(v, e);
            && v'.sub.filter == v.sub.filter && v'.sub.closed == v.sub.closed
            && v'.born == v.born && v'.floor == v.floor
            && v'.pushed == if v.sub.closed || !Matches(v.sub.filter, e) then v.pushed else v.pushed + [e.event]
  {
  }

  lemma OfferBalanced(v: View, e: Envelope)
    requires Balanced(v)
    ensures Balanced(Offered(v, e))
  {
    hide Matches, Balanced, Pushed;
    PushedBalanced(v, e.event);
  }

  lemma OfferFromHistory(h: Hub, id: nat, t: nat)
    requires Numbered(h) && id in h.pending && h.pending[id] != [] && GroundedAt(h, id)
    requires t < |h.views| && FromHistory(h, t)
    ensures FromHistory(OfferedOn(h, id), t)
  {
    hide Matches, Offered, Numbered;
    var x := h.pending[id][0];
    PushKeeps(h.views[x], h.history[id - 1]);
    HistoryIds(h, id - 1);
    if t == x {
      var p := OfferedOn(h, id).views[t].pushed;
      forall e | e in p ensures 1 <= e.id <= |h.history| && e == h.history[e.id - 1].event {
        assert e in h.views[t].pushed || e == h.history[id - 1].event;
      }
    }
  }

  lemma OfferViewOk(h: Hub, id: nat, t: nat)
    requires Numbered(h) && id in h.pending && h.pending[id] != [] && GroundedAt(h, id)
    requires t < |h.views| && ViewOk(h, t)
    ensures ViewOk(OfferedOn(h, id), t)
  {
    hide Balanced, FromHistory, Offered, Numbered;
    OfferFromHistory(h, id, t);
    if t == h.pending[id][0] {
      OfferBalanced(h.views[t], h.history[id - 1]);
    }
  }

  lemma JoinRoute(h: Hub, f: Filter, k: nat)
    requires Numbered(h) && Tidy(h) && k < |h.history|
    ensures Route(Joined(h, f), |h.views|, k)
  {
    hide Matches, Replayed, Numbered;
    var v := Joining(h, f);
    var base := Oldest(h.ringCap, |h.history|) + 1;
    var t := |h.views|;
    ReplayedStays(v, h.ring);
    RingIds(h);
    ReplayedCount(v, h.ring, base, h.history[k].event);
    if k + 1 in h.pending {
      assert GroundedAt(h, k + 1);
      assert t !in h.pending[k + 1];
    }
    HistoryIds(h, k);
    if k + 1 >= base {
      RingAt(h, k + 1 - base);
    }
  }

  lemma RingIds(h: Hub)
    requires Numbered(h)
    ensures var base := Oldest(h.ringCap, |h.history|) + 1;
            && base + |h.ring| == h.nextId == |h.history| + 1
            && (forall i | 0 <= i < |h.ring| :: h.ring[i].event.id == base + i)
            && (if h.ring == [] then h.nextId else h.ring[0].event.id) == base
  {
  }

  lemma {:induction false} ReplayedFromHistory(v: View, ring: seq<Envelope>, e: Event)
    requires v.pushed == [] && e in Replayed(v, ring).pushed
    ensures exists i :: 0 <= i < |ring| && ring[i].event == e
    decreases |ring|
  {
    hide Matches, PushLocked;
    if ring != [] {
      var front := ring[..|ring| - 1];
      if e in Replayed(v, front).pushed {
        ReplayedFromHistory(v, front, e);
        var i :| 0 <= i < |front| && front[i].event == e;
        assert ring[i].event == e;
      } else {
        assert ring[|ring| - 1].event == e;
      }
    }
  }

  /** A ring entry is the history's entry of its id. */
  lemma RingAt(h: Hub, i: nat)
    requires Numbered(h) && i < |h.ring|
    ensures var k := Oldest(h.ringCap, |h.history|) + i;
            k < |h.history| && h.ring[i] == h.history[k] && h.ring[i].event.id == k + 1
  {
  }

  lemma NewBalanced(h: Hub, f: Filter)
    ensures Balanced(Joining(h, f)) && Joining(h, f).pushed == []
  {
  }

  lemma JoinFromHistory(h: Hub, f: Filter, e: Event)
    requires Numbered(h) && e in Replayed(Joining(h, f), h.ring).pushed
    ensures 1 <= e.id <= |h.history| && e == h.history[e.id - 1].event
  {
    hide Matches, Replayed, Numbered, Joining;
    NewBalanced(h, f);
    ReplayedFromHistory(Joining(h, f), h.ring, e);
    var i: nat :| i < |h.ring| && h.ring[i].event == e;
    RingAt(h, i);
  }

  lemma JoinViewOk(h: Hub, f: Filter)
    requires Numbered(h)
    ensures ViewOk(Joined(h, f), |h.views|)
  {
    hide Replayed, Numbered, Joining, Balanced;
    var v := Joining(h, f);
    NewBalanced(h, f);
    ReplayedBalanced(v, h.ring);
    var r := Replayed(v, h.ring);
    assert Joined(h, f).views[|h.views|] == r;
    forall e | e in r.pushed ensures 1 <= e.id <= |h.history| && e == h.history[e.id - 1].event {
      JoinFromHistory(h, f, e);
    }
  }

  lemma ConsumedBalanced(v: View)
    requires Balanced(v) && v.sub.queue != []
    ensures Balanced(Consumed(v))
  {
    hide SplitAt;
    SplitMoves(v.pushed, |v.pushed| - |v.sub.queue|, v.sub.queue, v.consumed, v.lost);
  }

  /** Changing one view, or detaching, without pushing keeps every route. */
  lemma QuietRoute(h: Hub, h': Hub, t: nat, k: nat)
    requires t < |h.views| <= |h'.views| && k < |h.history| && Route(h, t, k)
    requires h'.history == h.history && h'.pending == h.pending
    requires t in h'.attached ==> t in h.attached
    requires h'.views[t].pushed == h.views[t].pushed && h'.views[t].sub.filter == h.views[t].sub.filter
    requires h'.views[t].born == h.views[t].born && h'.views[t].floor == h.views[t].floor
    requires h.views[t].sub.closed ==> h'.views[t].sub.closed
    ensures Route(h', t, k)
  {
    hide Matches;
  }

  /** One step, one subscriber, one event. */
  lemma TakeRoute(h: Hub, s: Step, t: nat, k: nat)
    requires Numbered(h) && Tidy(h) && Enabled(h, s)
    requires t < |Take(h, s).views| && k < |Take(h, s).history|
    requires t < |h.views| && k < |h.history| ==> Route(h, t, k)
    requires t < |h.views| ==> ViewOk(h, t)
    ensures Route(Take(h, s), t, k)
  {
    hide Matches, Tidy, Balanced, FromHistory, Replayed, Offered, RingPush, Route;
    TidyGrounded(h);
    match s
    case Commit(site, gate, draft, now) =>
      CommitRoute(h, Sealed(site, gate, draft, h.nextId, now), t, k);
    case PushNext(id) => OfferRoute(h, id, t, k);
    case Subscribe(f) =>
      if t == |h.views| {
        JoinRoute(h, f, k);
      } else {
        QuietRoute(h, Take(h, s), t, k);
      }
    case Consume(_) => QuietRoute(h, Take(h, s), t, k);
    case Close(_) => QuietRoute(h, Take(h, s), t, k);
    case Expire(x) =>
      WithoutFacts(h.attached, x);
      QuietRoute(h, Take(h, s), t, k);
    case DetachAll => QuietRoute(h, Take(h, s), t, k);
  }

  lemma TakeViewOk(h: Hub, s: Step, t: nat)
    requires Numbered(h) && Tidy(h) && Enabled(h, s) && t < |Take(h, s).views|
    requires t < |h.views| ==> ViewOk(h, t)
    ensures ViewOk(Take(h, s), t)
  {
    hide Matches, Tidy, Balanced, Replayed, Offered, RingPush;
    TidyGrounded(h);
    match s
    case Commit(site, gate, draft, now) =>
    case PushNext(id) => OfferViewOk(h, id, t);
    case Subscribe(f) =>
      if t == |h.views| {
        JoinViewOk(h, f);
      }
    case Consume(x) =>
      if t == x {
        ConsumedBalanced(h.views[t]);
      }
    case Close(x) =>
      if t == x {
        ClosedBalanced(h.views[t]);
      }
    case Expire(x) =>
    case DetachAll =>
  }

  lemma ClosedBalanced(v: View)
    requires Balanced(v)
    ensures Balanced(Closed(v))
  {
  }

  // --- Every interleaving -----------------------------------------------------------

  predicate Sound(h: Hub) {
    && Numbered(h) && Tidy(h)
    && (forall t | 0 <= t < |h.views| :: ViewOk(h, t))
    && (forall t, k | 0 <= t < |h.views| && 0 <= k < |h.history| :: Route(h, t, k))
  }

  lemma TakeSound(h: Hub, s: Step)
    requires Sound(h) && Enabled(h, s)
    ensures Sound(Take(h, s))
  {
    hide Tidy, Route, ViewOk, Numbered, Take;
    assert h.ringCap > 0 && Grounded(h) by { SoundGrounded(h); }
    TakeNumbered(h, s);
    TakeTidy(h, s);
    var h' := Take(h, s);
    forall t | 0 <= t < |h'.views| ensures ViewOk(h', t) {
      TakeViewOk(h, s, t);
    }
    forall t, k | 0 <= t < |h'.views| && 0 <= k < |h'.history| ensures Route(h', t, k) {
      TakeRoute(h, s, t, k);
    }
  }

  lemma SoundGrounded(h: Hub)
    requires Sound(h)
    ensures h.ringCap > 0 && Grounded(h)
  {
  }

  /** Any schedule of steps; a step that is not enabled is skipped. */
  function Interleave(h: Hub, steps: seq<Step>): Hub {
    if steps == [] then h
    else
      var g := Interleave(h, steps[..|steps| - 1]);
      var s := steps[|steps| - 1];
      if g.ringCap > 0 && Grounded(g) && Enabled(g, s) then Take(g, s) else g
  }

  lemma NewSound(ringCap: nat, subCap: nat)
    requires ringCap > 0
    ensures Sound(NewHub(ringCap, subCap))
  {
  }

  lemma {:induction false} InterleaveSound(ringCap: nat, subCap: nat, steps: seq<Step>)
    requires ringCap > 0
    ensures Sound(Interleave(NewHub(ringCap, subCap), steps))
    decreases |steps|
  {
    hide Take, Sound, Enabled;
    if steps == [] {
      NewSound(ringCap, subCap);
    } else {
      InterleaveSound(ringCap, subCap, steps[..|steps| - 1]);
      var g := Interleave(NewHub(ringCap, subCap), steps[..|steps| - 1]);
      SoundGrounded(g);
      if Enabled(g, steps[|steps| - 1]) {
        TakeSound(g, steps[|steps| - 1]);
      }
    }
  }

  /** Under every interleaving the ring is the newest committed events, as many as fit,
      and ids count commits from 1. */
  lemma RingIsNewest(ringCap: nat, subCap: nat, steps: seq<Step>)
    requires ringCap > 0
    ensures var h := Interleave(NewHub(ringCap, subCap), steps);
            && h.ringCap == ringCap && h.ring == h.history[Oldest(ringCap, |h.history|)..]
            && forall k | 0 <= k < |h.history| :: h.history[k].event.id == k + 1
  {
    hide Tidy, Route, ViewOk;
    InterleaveSound(ringCap, subCap, steps);
    InterleaveCapacity(NewHub(ringCap, subCap), steps);
  }

  lemma {:induction false} InterleaveCapacity(h: Hub, steps: seq<Step>)
    ensures Interleave(h, steps).ringCap == h.ringCap
    decreases |steps|
  {
    if steps != [] {
      InterleaveCapacity(h, steps[..|steps| - 1]);
    }
  }

  /** Exactly one route.  Under every interleaving, an event owed to an attached, open
      subscriber has been pushed to it once, or is one offer away from it, never both;
      an event it is not owed is never pushed.  It is owed every matching event
      committed after it subscribed, and every older one past its cursor that had not
      been evicted from the ring by then. */
  lemma ExactlyOneRoute(ringCap: nat, subCap: nat, steps: seq<Step>, t: nat, k: nat)
    requires ringCap > 0
    requires var h := Interleave(NewHub(ringCap, subCap), steps);
             t < |h.views| && k < |h.history| && t in h.attached && !h.views[t].sub.closed
    ensures var h := Interleave(NewHub(ringCap, subCap), steps);
            var n := multiset(h.views[t].pushed)[h.history[k].event];
            if Due(h.views[t], h.history[k]) then n == (if Waiting(h, t, k) then 0 else 1)
            else n == 0 && !Waiting(h, t, k)
  {
    hide Interleave, Due, Waiting;
    InterleaveSound(ringCap, subCap, steps);
    assert Route(Interleave(NewHub(ringCap, subCap), steps), t, k);
  }

  /** Conservation: what was pushed to any subscriber is what it consumed, plus what
      its queue dropped, plus what is queued; the queue is the newest of it. */
  lemma PushedIsAccountedFor(ringCap: nat, subCap: nat, steps: seq<Step>, t: nat)
    requires ringCap > 0 && t < |Interleave(NewHub(ringCap, subCap), steps).views|
    ensures var v := Interleave(NewHub(ringCap, subCap), steps).views[t];
            && |v.pushed| == |v.consumed| + v.sub.dropped + |v.sub.queue|
            && multiset(v.pushed) == multiset(v.consumed) + multiset(v.lost) + multiset(v.sub.queue)
            && v.sub.queue == v.pushed[|v.pushed| - |v.sub.queue|..]
  {
    hide Interleave;
    InterleaveSound(ringCap, subCap, steps);
    var h := Interleave(NewHub(ringCap, subCap), steps);
    assert ViewOk(h, t);
    var v := h.views[t];
    var n := |v.pushed| - |v.sub.queue|;
    assert SplitAt(v.pushed, n, v.sub.queue, v.consumed, v.lost);
    assert v.pushed == v.pushed[..n] + v.pushed[n..];
    assert |v.pushed[..n]| == |multiset(v.pushed[..n])| == |multiset(v.consumed)| + |multiset(v.lost)|;
  }

  /** Whatever is pushed to a subscriber is a committed event that its filter lets
      through. */
  lemma PushedIsWanted(ringCap: nat, subCap: nat, steps: seq<Step>, t: nat, e: Event)
    requires ringCap > 0
    requires var h := Interleave(NewHub(ringCap, subCap), steps); t < |h.views| && e in h.views[t].pushed
    ensures var h := Interleave(NewHub(ringCap, subCap), steps);
            && 1 <= e.id <= |h.history| && h.history[e.id - 1].event == e
            && Matches(h.views[t].sub.filter, h.history[e.id - 1])
  {
    hide Interleave, Matches, Tidy, Numbered, Balanced, Waiting;
    InterleaveSound(ringCap, subCap, steps);
    var h := Interleave(NewHub(ringCap, subCap), steps);
    assert ViewOk(h, t);
    assert Route(h, t, e.id - 1);
    assert multiset(h.views[t].pushed)[e] > 0;
  }

  /** So a subscriber that asks for faults alone gets faults and guard actions, of its
      site and gates, and nothing else. */
  lemma FaultsOnlyGetsFaults(ringCap: nat, subCap: nat, steps: seq<Step>, t: nat, e: Event)
    requires ringCap > 0
    requires var h := Interleave(NewHub(ringCap, subCap), steps); t < |h.views| && e in h.views[t].pushed
    requires var f := Interleave(NewHub(ringCap, subCap), steps).views[t].sub.filter;
             f.faults && !f.decisions && !f.telemetry && !f.ota
    ensures var h := Interleave(NewHub(ringCap, subCap), steps);
            var f := h.views[t].sub.filter;
            && 1 <= e.id <= |h.history| && e.kind in {Fault, Command, CommandAck}
            && (f.site == "" || h.history[e.id - 1].site == f.site)
            && (f.gates == [] || h.history[e.id - 1].gate in f.gates)
  {
    hide Interleave;
    PushedIsWanted(ringCap, subCap, steps, t, e);
  }

  lemma TakeKeepsClosed(h: Hub, s: Step, t: nat)
    requires h.ringCap > 0 && Grounded(h) && Enabled(h, s) && t < |h.views| && h.views[t].sub.closed
    ensures var k := Take(h, s);
            t < |k.views| && k.views[t].sub.closed && k.views[t].pushed == h.views[t].pushed
  {
    hide Matches, RingPush, Replayed, Pushed;
  }

  /** A closed subscriber is pushed nothing more, whatever is still on its way. */
  lemma {:induction false} ClosedGetsNothing(h: Hub, steps: seq<Step>, t: nat)
    requires t < |h.views| && h.views[t].sub.closed
    ensures var k := Interleave(h, steps);
            t < |k.views| && k.views[t].sub.closed && k.views[t].pushed == h.views[t].pushed
    decreases |steps|
  {
    hide Take, Grounded, Enabled;
    if steps != [] {
      ClosedGetsNothing(h, steps[..|steps| - 1], t);
      var g, s := Interleave(h, steps[..|steps| - 1]), steps[|steps| - 1];
      if g.ringCap > 0 && Grounded(g) && Enabled(g, s) {
        TakeKeepsClosed(g, s, t);
      }
    }
  }
}
