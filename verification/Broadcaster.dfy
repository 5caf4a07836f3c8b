/** The server's event hub: a replay ring, bounded per-subscriber queues, and a
    publish that commits under the broadcaster's lock and pushes to each subscriber
    after releasing it. */
module Broadcasting {

  datatype Kind = Decision | Telemetry | Fault | Ota | Command | CommandAck | NotSet

  /** `ts` is 0 while unset; `subject` is the gate id inside the payload, `body` the
      rest of it. */
  datatype Event = Event(id: nat, ts: int, kind: Kind, subject: string, body: string)

  datatype Envelope = Envelope(site: string, gate: string, event: Event)

  /** A draft numbered, and stamped unless it carries a time already. */
  function Sealed(site: string, gate: string, draft: Event, id: nat, now: int): (e: Envelope)
    ensures e.event.id == id && e.event.kind == draft.kind
  {
    Envelope(site, gate, draft.(id := id, ts := if draft.ts == 0 then now else draft.ts))
  }

  datatype Filter = Filter(
    site: string,
    gates: seq<string>,
    decisions: bool,
    telemetry: bool,
    faults: bool,
    ota: bool,
    since: nat)

  /** Empty scopes match anything; with no kind flag set every kind passes, with any
      set guard actions always do. */
  predicate Matches(f: Filter, e: Envelope) {
    && (f.site == "" || f.site == e.site)
    && (f.gates == [] || e.gate in f.gates)
    && (!(f.decisions || f.telemetry || f.faults || f.ota) ||
        match e.event.kind
        case Decision => f.decisions
        case Telemetry => f.telemetry
        case Fault => f.faults
        case Ota => f.ota
        case Command => true
        case CommandAck => true
        case NotSet => false)
  }

  /** With no kind asked for, an event passes by scope alone: its site, if one is given,
      and its gate, if any are listed. */
  lemma ScopeAlone(f: Filter, e: Envelope)
    requires !f.decisions && !f.telemetry && !f.faults && !f.ota
    ensures Matches(f, e) <==>
              && (f.site != "" ==> e.site == f.site)
              && (|f.gates| > 0 ==> exists i :: 0 <= i < |f.gates| && f.gates[i] == e.gate)
  {
  }

  /** With one kind asked for everywhere, an event passes exactly if it is of that kind
      or a guard's action. */
  lemma OneKindAsked(since: nat, e: Envelope)
    ensures Matches(Filter("", [], true, false, false, false, since), e) <==>
              e.event.kind in {Decision, Command, CommandAck}
    ensures Matches(Filter("", [], false, true, false, false, since), e) <==>
              e.event.kind in {Telemetry, Command, CommandAck}
    ensures Matches(Filter("", [], false, false, true, false, since), e) <==>
              e.event.kind in {Fault, Command, CommandAck}
    ensures Matches(Filter("", [], false, false, false, true, since), e) <==>
              e.event.kind in {Ota, Command, CommandAck}
  {
  }

  function Unasked(f: Filter): Filter { f.(decisions := false, telemetry := false, faults := false, ota := false) }

  /** Asking for one more kind adds exactly the events of that kind in scope. */
  lemma OneMoreKind(f: Filter, e: Envelope)
    requires f.decisions || f.telemetry || f.faults || f.ota
    ensures Matches(f.(decisions := true), e) <==> Matches(f, e) || (Matches(Unasked(f), e) && e.event.kind.Decision?)
    ensures Matches(f.(telemetry := true), e) <==> Matches(f, e) || (Matches(Unasked(f), e) && e.event.kind.Telemetry?)
    ensures Matches(f.(faults := true), e) <==> Matches(f, e) || (Matches(Unasked(f), e) && e.event.kind.Fault?)
    ensures Matches(f.(ota := true), e) <==> Matches(f, e) || (Matches(Unasked(f), e) && e.event.kind.Ota?)
    ensures Matches(f, e) ==> Matches(Unasked(f), e)
  {
  }

  /** A draft keeps its content, and its time if it has one. */
  lemma SealedKeeps(site: string, gate: string, draft: Event, id: nat, now: int)
    ensures var e := Sealed(site, gate, draft, id, now);
            && e.site == site && e.gate == gate && e.event.id == id
            && e.event.kind == draft.kind && e.event.subject == draft.subject && e.event.body == draft.body
            && (draft.ts != 0 ==> e.event.ts == draft.ts) && (draft.ts == 0 ==> e.event.ts == now)
  {
  }

  method FilterMatches(f: Filter, site: string, gate: string, event: Event) returns (r: bool)
    ensures r == Matches(f, Envelope(site, gate, event))
  {
    if f.site != "" && f.site != site {
      return false;
    }
    if |f.gates| > 0 {
      var found := false;
      for i := 0 to |f.gates|
        invariant !found
        invariant gate !in f.gates[..i]
      {
        if f.gates[i] == gate {
          found := true;
          break;
        }
      }
      if !found {
        return false;
      }
    }
    if !(f.decisions || f.telemetry || f.faults || f.ota) {
      return true;
    }
    match event.kind {
      case Decision => return f.decisions;
      case Telemetry => return f.telemetry;
      case Fault => return f.faults;
      case Ota => return f.ota;
      case Command => return true;
      case CommandAck => return true;
      case NotSet => return false;
    }
  }

  // --- Rings and queues -----------------------------------------------------------

  /** Append to a ring that drops its oldest entry when full. */
  function RingPush(ring: seq<Envelope>, cap: nat, e: Envelope): seq<Envelope>
    requires cap > 0
  {
    (if |ring| == cap then ring[1..] else ring) + [e]
  }

  /** A subscriber: capacity 0 is unbounded; a full queue drops its oldest event. */
  datatype Sub = Sub(filter: Filter, capacity: nat, queue: seq<Event>, dropped: nat, closed: bool)

  predicate Full(s: Sub) { s.capacity > 0 && |s.queue| >= s.capacity }

  function PushLocked(s: Sub, e: Event): Sub {
    if Full(s) then s.(queue := s.queue[1..] + [e], dropped := s.dropped + 1)
    else s.(queue := s.queue + [e])
  }

  function Offer(s: Sub, e: Envelope): Sub {
    if s.closed || !Matches(s.filter, e) then s else PushLocked(s, e.event)
  }

  /** Queue the ring's matching events past the cursor. */
  function Replay(s: Sub, ring: seq<Envelope>): Sub {
    if ring == [] then s
    else
      var r := Replay(s, ring[..|ring| - 1]);
      var e := ring[|ring| - 1];
      if e.event.id > s.filter.since && Matches(s.filter, e) then PushLocked(r, e.event) else r
  }

  function NewSub(f: Filter, capacity: nat): Sub { Sub(f, capacity, [], 0, false) }

  // --- The objects ------------------------------------------------------------------

  class Subscription {
    const filter: Filter
    const capacity: nat
    var queue: seq<Event>
    var dropped: nat
    var closed: bool
    var released: bool

    function Value(): Sub
      reads this
    {
      Sub(filter, capacity, queue, dropped, closed)
    }

    constructor (f: Filter, cap: nat)
      ensures Value() == NewSub(f, cap) && !released
    {
      filter, capacity := f, cap;
      queue, dropped, closed, released := [], 0, false, false;
    }

    method Push(e: Event)
      modifies this
      ensures Value() == PushLocked(old(Value()), e) && released == old(released)
    {
      if capacity > 0 && |queue| >= capacity {
        queue := queue[1..];
        dropped := dropped + 1;
      }
      queue := queue + [e];
    }

    /** The next queued event, if any. */
    method Next() returns (some: bool, e: Event)
      modifies this`queue
      ensures some <==> old(queue) != []
      ensures if some then [e] + queue == old(queue) else queue == old(queue)
    {
      if queue == [] {
        return false, Event(0, 0, NotSet, "", "");
      }
      e := queue[0];
      queue := queue[1..];
      some := true;
    }

    method DrainNow() returns (out: seq<Event>)
      modifies this`queue
      ensures out == old(queue) && queue == []
    {
      out := [];
      while queue != []
        invariant out + queue == old(queue)
        decreases |queue|
      {
        out := out + [queue[0]];
        queue := queue[1..];
      }
    }

    method Close()
      modifies this`closed
      ensures closed
    {
      closed := true;
    }

    /** The owner drops its handle: the queue closes and weak references expire. */
    method Release()
      modifies this`closed, this`released
      ensures closed && released
    {
      closed := true;
      released := true;
    }
  }

  /** The subscriptions still held by their owners, in order. */
  function Live(ss: seq<Subscription>): seq<Subscription>
    reads ss
  {
    if ss == [] then []
    else Live(ss[..|ss| - 1]) + if ss[|ss| - 1].released then [] else [ss[|ss| - 1]]
  }

  predicate Distinct(ss: seq<Subscription>) { forall i, j | 0 <= i < j < |ss| :: ss[i] != ss[j] }

  lemma {:induction false} LiveMembers(ss: seq<Subscription>)
    ensures forall s :: s in Live(ss) <==> s in ss && !s.released
    ensures Distinct(ss) ==> Distinct(Live(ss))
  {
    if ss != [] {
      var front, s := ss[..|ss| - 1], ss[|ss| - 1];
      assert ss == front + [s];
      LiveMembers(front);
      if Distinct(ss) {
        assert Distinct(front) && s !in front;
      }
    }
  }

  class EventBroadcaster {
    const ringCapacity: nat
    const perSubCapacity: nat
    var ring: seq<Envelope>
    var nextEventId: nat
    var subs: seq<Subscription>
    var stopped: bool

    ghost predicate Valid()
      reads this
    {
      ringCapacity > 0 && Distinct(subs)
    }

    constructor (ringCapacity: nat, perSubCapacity: nat)
      requires ringCapacity > 0
      ensures Valid() && this.ringCapacity == ringCapacity && this.perSubCapacity == perSubCapacity
      ensures ring == [] && nextEventId == 1 && subs == [] && !stopped
    {
      this.ringCapacity, this.perSubCapacity := ringCapacity, perSubCapacity;
      ring, nextEventId, subs, stopped := [], 1, [], false;
    }

    /** The locked half of a publish: assign the id, append to the ring, snapshot the
        live subscribers and forget the dead ones. */
    method Commit(site: string, gate: string, draft: Event, now: int)
        returns (env: Envelope, targets: seq<Subscription>)
      requires Valid()
      modifies this
      ensures Valid() && stopped == old(stopped)
      ensures env == Sealed(site, gate, draft, old(nextEventId), now) && nextEventId == old(nextEventId) + 1
      ensures ring == RingPush(old(ring), ringCapacity, env)
      ensures subs == targets == Live(old(subs))
    {
      var event := draft.(id := nextEventId);
      if event.ts == 0 {
        event := event.(ts := now);
      }
      env := Envelope(site, gate, event);
      nextEventId := nextEventId + 1;
      if |ring| == ringCapacity {
        ring := ring[1..];
      }
      ring := ring + [env];
      targets := [];
      for i := 0 to |subs|
        invariant subs == old(subs) && targets == Live(subs[..i])
      {
        assert subs[..i + 1][..i] == subs[..i];
        if !subs[i].released {
          targets := targets + [subs[i]];
        }
      }
      assert subs[..|subs|] == subs;
      LiveMembers(subs);
      subs := targets;
    }

    /** The unlocked half: offer the event to each snapshot target in turn. */
    method FanOut(env: Envelope, targets: seq<Subscription>)
      requires Distinct(targets)
      modifies targets
      ensures forall s <- targets :: s.Value() == Offer(old(s.Value()), env) && s.released == old(s.released)
    {
      hide Matches, PushLocked;
      for i := 0 to |targets|
        invariant forall j | 0 <= j < i :: targets[j].Value() == Offer(old(targets[j].Value()), env)
        invariant forall j | i <= j < |targets| :: targets[j].Value() == old(targets[j].Value())
        invariant forall j | 0 <= j < |targets| :: targets[j].released == old(targets[j].released)
      {
        var s := targets[i];
        if s.closed {
          continue;
        }
        var matched := FilterMatches(s.filter, env.site, env.gate, env.event);
        if !matched {
          continue;
        }
        s.Push(env.event);
      }
    }

    method Publish(site: string, gate: string, draft: Event, now: int) returns (id: nat)
      requires Valid()
      modifies this, subs
      ensures Valid() && stopped == old(stopped)
      ensures old(stopped) ==> id == 0 && ring == old(ring) && nextEventId == old(nextEventId) && subs == old(subs)
      ensures !old(stopped) ==>
                var env := Sealed(site, gate, draft, old(nextEventId), now);
                && id == old(nextEventId) && nextEventId == id + 1
                && ring == RingPush(old(ring), ringCapacity, env)
                && subs == old(Live(subs))
                && (forall s <- old(subs) ::
                      s.Value() == if old(s.released) then old(s.Value()) else Offer(old(s.Value()), env))
    {
      if stopped {
        return 0;
      }
      var env, targets := Commit(site, gate, draft, now);
      LiveMembers(old(subs));
      assert forall i | 0 <= i < |targets| :: targets[i] in targets;
      FanOut(env, targets);
      id := env.event.id;
    }

    /** Replay from the ring, then register: both under the broadcaster's lock. */
    method Subscribe(f: Filter) returns (s: Subscription?)
      requires Valid()
      modifies this`subs
      ensures Valid()
      ensures stopped ==> s == null && subs == old(subs)
      ensures !stopped ==>
                s != null && fresh(s) && subs == old(subs) + [s] && !s.released &&
                s.Value() == Replay(NewSub(f, perSubCapacity), ring)
    {
      hide Matches, PushLocked;
      if stopped {
        return null;
      }
      var sub := new Subscription(f, perSubCapacity);
      for i := 0 to |ring|
        invariant subs == old(subs) && sub !in subs
        invariant sub.Value() == Replay(NewSub(f, perSubCapacity), ring[..i]) && !sub.released
      {
        assert ring[..i + 1][..i] == ring[..i];
        var env := ring[i];
        if env.event.id <= f.since {
          continue;
        }
        var matched := FilterMatches(f, env.site, env.gate, env.event);
        if !matched {
          continue;
        }
        sub.Push(env.event);
      }
      assert ring[..|ring|] == ring;
      subs := subs + [sub];
      s := sub;
    }

    /** Detach every subscriber, then close them. */
    method Stop()
      requires Valid()
      modifies this, subs
      ensures Valid() && stopped && ring == old(ring) && nextEventId == old(nextEventId)
      ensures old(stopped) ==> subs == old(subs)
      ensures !old(stopped) ==> subs == [] && forall s <- old(subs) ::
                s.Value() == if old(s.released) then old(s.Value()) else old(s.Value()).(closed := true)
    {
      if stopped {
        return;
      }
      stopped := true;
      var all := subs;
      subs := [];
      for i := 0 to |all|
        invariant subs == [] && stopped && ring == old(ring) && nextEventId == old(nextEventId)
        invariant forall j | 0 <= j < |all| :: all[j].released == old(all[j].released)
        invariant forall j | 0 <= j < i ::
                    all[j].Value() == if old(all[j].released) then old(all[j].Value())
                                      else old(all[j].Value()).(closed := true)
        invariant forall j | i <= j < |all| :: all[j].Value() == old(all[j].Value())
      {
        if !all[i].released {
          all[i].Close();
        }
      }
    }
  }
}
