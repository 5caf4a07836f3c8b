/** The debouncer of the safety beam and the limit switches: a counter that commits a
    level once it has held for enough polls.  It equals its history specification. */
module Debounce {
  import opened Words

  /** Polls needed, rounded up in 32-bit arithmetic, at least one. */
  function SamplesToCommit(debounceMs: uint32, pollMs: uint32): (n: nat)
    requires pollMs > 0
    ensures 1 <= n < TWO_32
  {
    var n := (debounceMs + pollMs - 1) % TWO_32 / pollMs;
    if n == 0 then 1 else n
  }

  /** Dividing `d + p - 1` by `p` rounds `d / p` up. */
  lemma DivideUp(d: int, p: int)
    requires p > 0
    ensures var q := (d + p - 1) / p; q * p >= d && (q - 1) * p < d
  {
    var q, r := (d + p - 1) / p, (d + p - 1) % p;
    assert d + p - 1 == p * q + r;
    assert (q - 1) * p == q * p - p;
  }

  lemma Unwrapped(debounceMs: uint32, pollMs: uint32)
    requires pollMs > 0 && debounceMs + pollMs - 1 < TWO_32
    ensures var n := SamplesToCommit(debounceMs, pollMs);
            n * pollMs >= debounceMs && (n > 1 ==> (n - 1) * pollMs < debounceMs)
  {
    DivideUp(debounceMs, pollMs);
  }

  lemma Wrapped(debounceMs: uint32, pollMs: uint32)
    requires pollMs > 0 && debounceMs + pollMs - 1 >= TWO_32
    ensures SamplesToCommit(debounceMs, pollMs) == 1
  {
    var s := (debounceMs + pollMs - 1) % TWO_32;
    assert s == debounceMs + pollMs - 1 - TWO_32;
    assert 0 <= s < pollMs;
  }

  /** The polls span the debounce time exactly when the rounding does not wrap, or one
      poll is enough anyway; and then no smaller count of polls above one does. */
  lemma SpansDebounceIff(debounceMs: uint32, pollMs: uint32)
    requires pollMs > 0
    ensures var n := SamplesToCommit(debounceMs, pollMs);
            && (n * pollMs >= debounceMs <==> debounceMs + pollMs - 1 < TWO_32 || debounceMs <= pollMs)
            && (n > 1 ==> (n - 1) * pollMs < debounceMs)
  {
    hide SamplesToCommit;
    if debounceMs + pollMs - 1 < TWO_32 {
      Unwrapped(debounceMs, pollMs);
    } else {
      Wrapped(debounceMs, pollMs);
    }
  }

  /** The longest debounce time at two milliseconds a poll is cut to one poll. */
  lemma LongestDebounceWraps()
    ensures SamplesToCommit(0xFFFF_FFFF, 2) == 1 && 1 * 2 < 0xFFFF_FFFF
  {
    Wrapped(0xFFFF_FFFF, 2);
  }

  // --- The counter --------------------------------------------------------------------

  /** The fields, with every value the callback has been given. */
  datatype Filter = Filter(lastSample: bool, stable: nat, committed: bool, calls: seq<bool>)

  function Fresh(initial: bool): Filter { Filter(initial, 0, initial, []) }

  function Poll(f: Filter, n: nat, sample: bool): Filter {
    if sample != f.lastSample then f.(lastSample := sample, stable := 1)
    else if sample == f.committed then f.(stable := 0)
    else if f.stable + 1 < n then f.(stable := f.stable + 1)
    else Filter(f.lastSample, 0, sample, f.calls + [sample])
  }

  function Polled(initial: bool, n: nat, h: seq<bool>): Filter {
    if h == [] then Fresh(initial) else Poll(Polled(initial, n, h[..|h| - 1]), n, h[|h| - 1])
  }

  lemma PolledNothing(initial: bool, n: nat)
    ensures Polled(initial, n, []) == Fresh(initial)
  {
  }

  lemma PolledNext(initial: bool, n: nat, h: seq<bool>, s: bool)
    ensures Polled(initial, n, h + [s]) == Poll(Polled(initial, n, h), n, s)
  {
    assert (h + [s])[..|h|] == h;
  }

  class Debouncer {
    const samples: nat
    var lastSample: bool
    var stable: nat
    var committed: bool
    var calls: seq<bool>

    function Value(): Filter
      reads this
    {
      Filter(lastSample, stable, committed, calls)
    }

    constructor (debounceMs: uint32, pollMs: uint32, level: bool)
      requires pollMs > 0
      ensures samples == SamplesToCommit(debounceMs, pollMs) && Value() == Fresh(level)
    {
      samples := SamplesToCommit(debounceMs, pollMs);
      lastSample, stable, committed, calls := level, 0, level, [];
    }

    method OnPoll(sample: bool)
      modifies this
      ensures Value() == Poll(old(Value()), samples, sample)
    {
      if sample != lastSample {
        lastSample := sample;
        stable := 1;
        return;
      }
      if sample == committed {
        stable := 0;
        return;
      }
      stable := stable + 1;
      if stable < samples {
        return;
      }
      committed := sample;
      stable := 0;
      calls := calls + [sample];
    }
  }

  // --- The history specification --------------------------------------------------------

  /** A level must hold this many consecutive polls: the poll that sees it change never
      commits it. */
  function Needed(n: nat): (m: nat)
    ensures m >= 2
  {
    if n < 2 then 2 else n
  }

  /** The `m` polls ending at `end` all read `v`. */
  predicate Held(h: seq<bool>, end: nat, v: bool, m: nat) {
    m <= end <= |h| && forall k | end - m <= k < end :: h[k] == v
  }

  predicate NeverAfter(h: seq<bool>, i: nat, v: bool, m: nat) {
    forall j: nat | i < j <= |h| :: !Held(h, j, v, m)
  }

  predicate LastHeld(h: seq<bool>, i: nat, v: bool, m: nat) { Held(h, i, v, m) && NeverAfter(h, i, !v, m) }

  /** `c` is the last level to have held `m` polls, or the initial one if none has. */
  ghost predicate Settled(initial: bool, h: seq<bool>, m: nat, c: bool) {
    || (exists i: nat :: LastHeld(h, i, c, m))
    || (c == initial && forall i: nat, v: bool :: !Held(h, i, v, m))
  }

  lemma LastHeldUnique(h: seq<bool>, m: nat, i: nat, c: bool, k: nat, d: bool)
    requires m >= 1 && LastHeld(h, i, c, m) && LastHeld(h, k, d, m)
    ensures c == d
  {
    assert h[i - 1] == c && h[k - 1] == d;
  }

  lemma SettledUnique(initial: bool, h: seq<bool>, m: nat, c: bool, d: bool)
    requires m >= 1 && Settled(initial, h, m, c) && Settled(initial, h, m, d)
    ensures c == d
  {
    if i: nat :| LastHeld(h, i, c, m) {
      if k: nat :| LastHeld(h, k, d, m) {
        LastHeldUnique(h, m, i, c, k, d);
      }
    }
  }

  lemma HeldNext(h: seq<bool>, s: bool, m: nat)
    ensures forall i: nat, v: bool | i <= |h| :: Held(h + [s], i, v, m) <==> Held(h, i, v, m)
  {
    forall i: nat, v: bool | i <= |h| ensures Held(h + [s], i, v, m) <==> Held(h, i, v, m) {
      if m <= i {
        assert forall k | i - m <= k < i :: (h + [s])[k] == h[k];
      }
    }
  }

  /** How many of the last polls agree. */
  function Streak(h: seq<bool>): (r: nat)
    ensures r <= |h| && (h != [] ==> r >= 1)
  {
    if |h| <= 1 then |h|
    else if h[|h| - 1] == h[|h| - 2] then Streak(h[..|h| - 1]) + 1
    else 1
  }

  lemma {:induction false} HeldIffStreak(h: seq<bool>, v: bool, m: nat)
    requires m >= 1
    ensures Held(h, |h|, v, m) <==> h != [] && h[|h| - 1] == v && Streak(h) >= m
  {
    if |h| > 1 && h[|h| - 1] == v && m > 1 {
      var front := h[..|h| - 1];
      HeldIffStreak(front, v, m - 1);
      if h[|h| - 2] == v {
        assert Held(h, |h|, v, m) <==> Held(front, |front|, v, m - 1) by {
          assert m <= |h| ==> forall k | |h| - m <= k < |h| - 1 :: h[k] == front[k];
        }
      }
    }
  }

  lemma StreakNext(h: seq<bool>, s: bool)
    ensures Streak(h + [s]) == if h != [] && h[|h| - 1] == s then Streak(h) + 1 else 1
  {
    assert (h + [s])[..|h|] == h;
  }

  /** The last raw level and how long it has lasted decide the counter. */
  ghost predicate Counts(initial: bool, n: nat, h: seq<bool>) {
    var f := Polled(initial, n, h);
    && f.lastSample == (if h == [] then initial else h[|h| - 1])
    && (f.lastSample != f.committed ==> f.stable == Streak(h) < Needed(n))
    && Settled(initial, h, Needed(n), f.committed)
  }

  lemma SettledStays(initial: bool, h: seq<bool>, s: bool, m: nat, c: bool)
    requires m >= 1 && Settled(initial, h, m, c)
    requires Held(h + [s], |h| + 1, s, m) ==> s == c
    ensures Settled(initial, h + [s], m, c)
  {
    var g := h + [s];
    HeldNext(h, s, m);
    HeldIffStreak(g, !s, m);
    if Held(g, |g|, c, m) {
      assert LastHeld(g, |g|, c, m);
    } else {
      assert !Held(g, |g|, !c, m);
      if i: nat :| LastHeld(h, i, c, m) {
        assert LastHeld(g, i, c, m);
      }
    }
  }

  lemma SettledNow(initial: bool, h: seq<bool>, m: nat, c: bool)
    requires Held(h, |h|, c, m)
    ensures Settled(initial, h, m, c)
  {
    assert LastHeld(h, |h|, c, m);
  }

  lemma {:induction false} PolledCounts(initial: bool, n: nat, h: seq<bool>)
    ensures Counts(initial, n, h)
  {
    if h != [] {
      var front, s := h[..|h| - 1], h[|h| - 1];
      PolledCounts(initial, n, front);
      assert h == front + [s];
      var f := Polled(initial, n, front);
      PolledNext(initial, n, front, s);
      StreakNext(front, s);
      HeldIffStreak(h, s, Needed(n));
      hide Settled, Held, Polled, Streak;
      if s == f.lastSample && s != f.committed && f.stable + 1 >= n {
        SettledNow(initial, h, Needed(n), s);
      } else {
        SettledStays(initial, front, s, Needed(n), f.committed);
      }
    }
  }

  /** The committed level is the settled level of the whole history. */
  lemma CommittedIsSettled(initial: bool, n: nat, h: seq<bool>, c: bool)
    ensures Polled(initial, n, h).committed == c <==> Settled(initial, h, Needed(n), c)
  {
    PolledCounts(initial, n, h);
    if Settled(initial, h, Needed(n), c) {
      SettledUnique(initial, h, Needed(n), c, Polled(initial, n, h).committed);
    }
  }

  /** The callback is called at a poll exactly when its level, not the committed one,
      has just held for the needed count; and it is given that level. */
  lemma CallsExactly(initial: bool, n: nat, h: seq<bool>, s: bool)
    ensures var f, g := Polled(initial, n, h), Polled(initial, n, h + [s]);
            g.calls == f.calls + if s != f.committed && Held(h + [s], |h| + 1, s, Needed(n)) then [s] else []
    ensures s != Polled(initial, n, h).committed && Held(h + [s], |h| + 1, s, Needed(n)) ==>
              Streak(h + [s]) == Needed(n)
  {
    hide Polled, Held, Settled, Streak;
    PolledNothing(initial, n);
    PolledNext(initial, n, h, s);
    var f := Polled(initial, n, h);
    assert f.calls + [] == f.calls;
    PolledCounts(initial, n, h);
    StreakNext(h, s);
    HeldIffStreak(h + [s], s, Needed(n));
  }

  /** Callbacks alternate, the first away from the initial level, and the last is the
      committed level. */
  lemma {:induction false} CallbacksAlternate(initial: bool, n: nat, h: seq<bool>)
    ensures var f := Polled(initial, n, h);
            && (forall k | 0 <= k < |f.calls| :: f.calls[k] == (if k % 2 == 0 then !initial else initial))
            && f.committed == (if |f.calls| % 2 == 0 then initial else !initial)
  {
    if h != [] {
      CallbacksAlternate(initial, n, h[..|h| - 1]);
    }
  }

  function Level(v: bool, k: nat): seq<bool> { seq(k, _ => v) }

  lemma LevelNext(h: seq<bool>, v: bool, k: nat)
    ensures h + Level(v, k) == if k == 0 then h else h + Level(v, k - 1) + [v]
  {
    if k > 0 {
      assert Level(v, k) == Level(v, k - 1) + [v];
    }
  }

  /** A level that appears and lasts is committed after exactly the needed polls; a
      shorter glitch never is. */
  lemma {:induction false} CommitsAfterExactly(initial: bool, n: nat, h: seq<bool>, v: bool, k: nat)
    requires Polled(initial, n, h).committed != v && Polled(initial, n, h).lastSample != v
    ensures var f, g := Polled(initial, n, h), Polled(initial, n, h + Level(v, k));
            && (g.committed == v <==> k >= Needed(n))
            && g.calls == f.calls + (if k >= Needed(n) then [v] else [])
            && g.lastSample == (if k == 0 then !v else v)
            && (k < Needed(n) ==> g.stable == if k == 0 then f.stable else k)
  {
    hide Polled, Level;
    LevelNext(h, v, k);
    if k > 0 {
      CommitsAfterExactly(initial, n, h, v, k - 1);
      PolledNext(initial, n, h + Level(v, k - 1), v);
    }
  }
}
