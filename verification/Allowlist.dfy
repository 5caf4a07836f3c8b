/** The allowlist: plate normalisation, the policy in an entry, and the tables that
    store it.  What is looked up means, for every vehicle class and every time, what
    was last submitted. */
module Allowlist {
  import opened Words

  datatype Option<+T> = None | Some(value: T)

  // --- Plates -------------------------------------------------------------------

  predicate Separator(c: char) { c == ' ' || c == '\t' || c == '-' || c == '_' }

  function Upper(c: char): (u: char)
    ensures Separator(u) <==> Separator(c)
    ensures !('a' <= u <= 'z')
  {
    if 'a' <= c <= 'z' then c - ('a' - 'A') else c
  }

  function Normalize(s: string): string {
    if s == [] then []
    else (if Separator(s[0]) then [] else [Upper(s[0])]) + Normalize(s[1..])
  }

  lemma {:induction false} NormalizeAppends(a: string, b: string)
    ensures Normalize(a + b) == Normalize(a) + Normalize(b)
  {
    if a == [] {
      assert a + b == b;
    } else {
      assert (a + b)[1..] == a[1..] + b;
      NormalizeAppends(a[1..], b);
    }
  }

  /** Normalising a normal form changes nothing. */
  lemma {:induction false} NormalizeIdempotent(s: string)
    ensures Normalize(Normalize(s)) == Normalize(s)
  {
    if s != [] {
      NormalizeIdempotent(s[1..]);
      var head: string := if Separator(s[0]) then [] else [Upper(s[0])];
      NormalizeAppends(head, Normalize(s[1..]));
      if head != [] {
        assert head[1..] == [];
        assert Upper(Upper(s[0])) == Upper(s[0]);
      }
    }
  }

  /** Spellings that differ in case, spaces, tabs, dashes or underscores agree, and
      nothing else is dropped or changed. */
  lemma SpellingsAgree(a: string, c: char, b: string)
    ensures c in {' ', '\t', '-', '_'} ==> Normalize(a + [c] + b) == Normalize(a + b)
    ensures 'a' <= c <= 'z' ==> Normalize(a + [c] + b) == Normalize(a + [c - ('a' - 'A')] + b)
    ensures c !in {' ', '\t', '-', '_'} && !('a' <= c <= 'z') ==>
              Normalize(a + [c] + b) == Normalize(a) + [c] + Normalize(b)
  {
    hide Normalize;
    NormalizeAppends(a, b);
    NormalizeAppends(a + [c], b);
    NormalizeAppends(a, [c]);
    NormalizeOne(c);
    if 'a' <= c <= 'z' {
      var u := c - ('a' - 'A');
      NormalizeAppends(a + [u], b);
      NormalizeAppends(a, [u]);
      NormalizeOne(u);
    }
  }

  lemma NormalizeOne(c: char)
    ensures Normalize([c]) == if Separator(c) then [] else [Upper(c)]
  {
    assert [c][1..] == [];
  }

  predicate Canonical(s: string) { forall c <- s :: !Separator(c) && !('a' <= c <= 'z') }

  lemma {:induction false} NormalizeShrinks(s: string)
    ensures |Normalize(s)| <= |s| && Canonical(Normalize(s))
  {
    if s != [] {
      NormalizeShrinks(s[1..]);
    }
  }

  /** The normal forms are the texts without separators or lower-case letters. */
  lemma {:induction false} NormalFormIff(s: string)
    ensures Normalize(s) == s <==> Canonical(s)
  {
    NormalizeShrinks(s);
    if s != [] && Canonical(s) {
      assert s[0] in s;
      assert forall c <- s[1..] :: c in s;
      NormalFormIff(s[1..]);
      assert s == [s[0]] + s[1..];
    }
  }

  method NormalizePlate(raw: string) returns (out: string)
    ensures out == Normalize(raw)
  {
    out := [];
    for i := 0 to |raw|
      invariant out == Normalize(raw[..i])
    {
      assert raw[..i + 1] == raw[..i] + [raw[i]];
      NormalizeAppends(raw[..i], [raw[i]]);
      assert [raw[i]][1..] == [];
      var c := raw[i];
      if c == ' ' || c == '\t' || c == '-' || c == '_' {
        continue;
      }
      if 'a' <= c <= 'z' {
        out := out + [c - ('a' - 'A')];
      } else {
        out := out + [c];
      }
    }
    assert raw[..|raw|] == raw;
  }

  // --- Policy -------------------------------------------------------------------

  datatype Window = Window(start: uint32, end: uint32, days: uint32)

  datatype Entry = Entry(
    plate: string,
    ownerName: string,
    ownerUnit: string,
    validFrom: Option<int>,
    validUntil: Option<int>,
    notes: string,
    addedBy: string,
    addedTs: Option<int>,
    classes: seq<int>,
    windows: seq<Window>)

  /** Local wall-clock time; `wday` counts from Sunday. */
  datatype Clock = Clock(unix: int, hour: int, minute: int, wday: int)

  function Signed(x: uint32): int { if x < TWO_31 then x else x - TWO_32 }

  function Pow2(i: nat): (p: nat)
    ensures p > 0
  {
    if i == 0 then 1 else 2 * Pow2(i - 1)
  }

  predicate HasBit(mask: nat, i: nat) { mask / Pow2(i) % 2 == 1 }

  /** Half-open minutes of the day; an end before the start wraps past midnight. */
  predicate Contains(w: Window, minute: int, isoDay: nat) {
    && HasBit(w.days, isoDay)
    && (var start, end := Signed(w.start), Signed(w.end);
        if start <= end then start <= minute < end else start <= minute || minute < end)
  }

  predicate ClassAllowed(e: Entry, cls: int) {
    e.classes == [] || cls in e.classes
  }

  predicate InDates(e: Entry, unix: int) {
    && !(e.validFrom.Some? && e.validFrom.value > 0 && unix < e.validFrom.value)
    && !(e.validUntil.Some? && e.validUntil.value > 0 && unix >= e.validUntil.value)
  }

  predicate InWindows(e: Entry, t: Clock) {
    e.windows == [] || exists w <- e.windows :: Contains(w, t.hour * 60 + t.minute, (t.wday + 6) % 7)
  }

  predicate AllowedNow(e: Entry, cls: int, t: Clock) {
    InDates(e, t.unix) && ClassAllowed(e, cls) && InWindows(e, t)
  }

  const DAY := 1440

  /** A minute bound, pulled into the day. */
  function InDay(x: int): (m: int)
    ensures 0 <= m <= DAY
  {
    if x < 0 then 0 else if x > DAY then DAY else x
  }

  /** How many minutes of the day a window covers. */
  function Span(w: Window): int {
    var start, end := Signed(w.start), Signed(w.end);
    if start <= end then InDay(end) - InDay(start) else DAY - InDay(start) + InDay(end)
  }

  /** On the clock face a window is an arc: a minute is inside when it is less far
      round from the start than the window is long, whatever its bounds.  With both
      bounds on the face, that is less far round than the end is. */
  lemma WindowIsArc(w: Window, minute: int, isoDay: nat)
    requires 0 <= minute < DAY
    ensures Contains(w, minute, isoDay) <==>
              HasBit(w.days, isoDay) && (minute - InDay(Signed(w.start))) % DAY < Span(w)
    ensures w.start < DAY && w.end < DAY ==>
              InDay(Signed(w.start)) == w.start && Span(w) == (w.end - w.start) % DAY
  {
    hide HasBit;
  }

  /** Bounds are read as signed: 2^32 - 1 is minute -1, so a window up to it never ends,
      and one from it never begins. */
  lemma HugeBoundsAreNegative(days: uint32, minute: int, isoDay: nat)
    requires 0 <= minute < DAY
    ensures Contains(Window(0, 0xFFFF_FFFF, days), minute, isoDay) <==> HasBit(days, isoDay)
    ensures !Contains(Window(0xFFFF_FFFF, 0, days), minute, isoDay)
    ensures Signed(0x7FFF_FFFF) == 0x7FFF_FFFF && Signed(0x8000_0000) == -0x8000_0000
  {
    hide HasBit;
  }

  /** The mask of some days, the first as the lowest bit. */
  function Mask(days: seq<bool>): nat {
    if days == [] then 0 else (if days[0] then 1 else 0) + 2 * Mask(days[1..])
  }

  lemma {:induction false} Gap(d: nat, a: nat, b: nat)
    ensures a < b ==> d * a + d <= d * b
    decreases b
  {
    if a < b {
      assert d * b == d * (b - 1) + d;
      Gap(d, a, b - 1);
    }
  }

  lemma DivUnique(x: nat, d: nat, q: nat, r: nat)
    requires d > 0 && r < d && x == d * q + r
    ensures x / d == q
  {
    var y := x / d;
    assert x == d * y + x % d;
    Gap(d, y, q);
    Gap(d, q, y);
  }

  lemma HalveFirst(x: nat, p: nat)
    requires p > 0
    ensures x / (2 * p) == x / 2 / p
  {
    var q, r := x / 2 / p, x / 2 % p;
    assert x / 2 == p * q + r;
    assert x == 2 * p * q + (2 * r + x % 2);
    DivUnique(x, 2 * p, q, 2 * r + x % 2);
  }

  lemma {:induction false} MaskBits(days: seq<bool>, i: nat)
    requires i < |days|
    ensures HasBit(Mask(days), i) == days[i]
  {
    var m := Mask(days);
    assert m / 2 == Mask(days[1..]);
    if i > 0 {
      HalveFirst(m, Pow2(i - 1));
      MaskBits(days[1..], i - 1);
    }
  }

  /** An entry that names days alone is allowed exactly on those: the mask counts from
      Monday, and `wday` from Sunday. */
  lemma DaysPermit(e: Entry, days: seq<bool>, cls: int, t: Clock)
    requires e.validFrom.None? && e.validUntil.None? && e.classes == [] && |days| == 7 && Mask(days) < TWO_32
    requires 0 <= t.hour < 24 && 0 <= t.minute < 60 && 0 <= t.wday < 7 && e.windows == [Window(0, 1440, Mask(days))]
    ensures AllowedNow(e, cls, t) <==>
              match t.wday
              case 0 => days[6]
              case 1 => days[0]
              case 2 => days[1]
              case 3 => days[2]
              case 4 => days[3]
              case 5 => days[4]
              case _ => days[5]
  {
    hide HasBit, Mask;
    var w, day := e.windows[0], (t.wday + 6) % 7;
    assert w in e.windows && forall x <- e.windows :: x == w;
    assert day == if t.wday == 0 then 6 else t.wday - 1;
    MaskBits(days, day);
  }

  /** With no other limit, an entry is allowed from its start date up to, and not
      including, its end date; a missing or non-positive date leaves its side open. */
  lemma DatesPermit(e: Entry, f: int, u: int, open: Option<int>, cls: int, t: Clock)
    requires e.classes == [] && e.windows == [] && f > 0 && u > 0
    requires open.Some? ==> open.value <= 0
    ensures AllowedNow(e.(validFrom := Some(f), validUntil := Some(u)), cls, t) <==> f <= t.unix < u
    ensures AllowedNow(e.(validFrom := Some(f), validUntil := open), cls, t) <==> f <= t.unix
    ensures AllowedNow(e.(validFrom := open, validUntil := Some(u)), cls, t) <==> t.unix < u
    ensures AllowedNow(e.(validFrom := open, validUntil := open), cls, t)
  {
  }

  /** With no other limit, a class list admits exactly its members; an empty one, all. */
  lemma ClassesPermit(e: Entry, cls: int, t: Clock)
    requires e.validFrom.None? && e.validUntil.None? && e.windows == []
    ensures AllowedNow(e, cls, t) <==> e.classes == [] || exists i :: 0 <= i < |e.classes| && e.classes[i] == cls
  {
  }

  /** With no other limit, windows admit exactly the minutes of any one of them; an empty
      list, all. */
  lemma WindowsPermit(e: Entry, cls: int, t: Clock)
    requires e.validFrom.None? && e.validUntil.None? && e.classes == []
    ensures AllowedNow(e, cls, t) <==>
              e.windows == []
              || exists i :: 0 <= i < |e.windows| && Contains(e.windows[i], t.hour * 60 + t.minute, (t.wday + 6) % 7)
  {
    hide Contains;
    assert forall i | 0 <= i < |e.windows| :: e.windows[i] in e.windows;
  }

  /** The three limits act together: an entry is allowed exactly when each of them alone
      would allow it. */
  lemma LimitsTogether(e: Entry, cls: int, t: Clock)
    ensures AllowedNow(e, cls, t) <==>
              && AllowedNow(e.(classes := [], windows := []), cls, t)
              && AllowedNow(e.(validFrom := None, validUntil := None, windows := []), cls, t)
              && AllowedNow(e.(validFrom := None, validUntil := None, classes := []), cls, t)
  {
    hide Contains;
  }

  /** A zeroed clock reads Sunday midnight and still enforces the windows: an entry
      that is otherwise allowed passes it exactly when it has no windows or one of
      them covers Sunday midnight. */
  lemma ZeroClockIff(e: Entry, cls: int, unix: int)
    requires InDates(e, unix) && ClassAllowed(e, cls)
    ensures AllowedNow(e, cls, Clock(unix, 0, 0, 0)) <==>
              e.windows == []
              || exists w <- e.windows ::
                   && HasBit(w.days, 6)
                   && (if Signed(w.start) <= Signed(w.end) then Signed(w.start) <= 0 < Signed(w.end)
                       else Signed(w.start) <= 0 || 0 < Signed(w.end))
  {
    hide HasBit, Signed;
    var minute, day := 0 * 60 + 0, (0 + 6) % 7;
    assert minute == 0 && day == 6;
  }

  /** So office hours refuse a zeroed clock. */
  lemma ZeroClockRefused(unix: int)
    ensures var e := Entry("A", "", "", None, None, "", "", None, [], [Window(480, 1020, 127)]);
            InDates(e, unix) && ClassAllowed(e, 0) && !AllowedNow(e, 0, Clock(unix, 0, 0, 0))
  {
  }

  // --- Tables -------------------------------------------------------------------

  datatype Key = Key(site: string, plate: string)

  datatype Row = Row(
    ownerName: string,
    ownerUnit: string,
    validFrom: int,
    validUntil: int,
    notes: string,
    addedBy: string,
    addedTs: int)

  /** The main rows, the class rows in key order, the window rows in insertion order. */
  datatype Tables = Tables(rows: map<Key, Row>, classes: map<Key, seq<int>>, windows: map<Key, seq<Window>>)

  predicate Consistent(t: Tables) {
    t.classes.Keys == t.rows.Keys && t.windows.Keys == t.rows.Keys
  }

  function Seconds(o: Option<int>): int { if o.Some? then o.value else 0 }

  function Loaded(x: int): Option<int> { if x > 0 then Some(x) else None }

  function RowOf(e: Entry): Row {
    Row(e.ownerName, e.ownerUnit, Seconds(e.validFrom), Seconds(e.validUntil), e.notes, e.addedBy, Seconds(e.addedTs))
  }

  /** Insert into an ascending key column, ignoring a duplicate. */
  function InsertClass(cs: seq<int>, c: int): seq<int> {
    if cs == [] || c < cs[0] then [c] + cs
    else if c == cs[0] then cs
    else [cs[0]] + InsertClass(cs[1..], c)
  }

  function ClassRows(cs: seq<int>): seq<int> {
    if cs == [] then [] else InsertClass(ClassRows(cs[..|cs| - 1]), cs[|cs| - 1])
  }

  function InsertWindow(ws: seq<Window>, w: Window): seq<Window> {
    if ws == [] || Signed(w.start) < Signed(ws[0].start) then [w] + ws else [ws[0]] + InsertWindow(ws[1..], w)
  }

  /** Rows ordered by start, which the table holds as a signed integer; ties in
      insertion order. */
  function ByStart(ws: seq<Window>): seq<Window> {
    if ws == [] then [] else InsertWindow(ByStart(ws[..|ws| - 1]), ws[|ws| - 1])
  }

  function Put(t: Tables, k: Key, e: Entry): Tables {
    Tables(t.rows[k := RowOf(e)], t.classes[k := ClassRows(e.classes)], t.windows[k := e.windows])
  }

  function KeyOf(site: string, e: Entry): Key { Key(site, Normalize(e.plate)) }

  function PutAll(t: Tables, site: string, es: seq<Entry>): Tables {
    if es == [] then t
    else Put(PutAll(t, site, es[..|es| - 1]), KeyOf(site, es[|es| - 1]), es[|es| - 1])
  }

  function Read(t: Tables, k: Key): Option<Entry>
    requires Consistent(t)
  {
    if k !in t.rows then None
    else
      var r := t.rows[k];
      Some(Entry(k.plate, r.ownerName, r.ownerUnit, Loaded(r.validFrom), Loaded(r.validUntil), r.notes, r.addedBy,
                 Loaded(r.addedTs), t.classes[k], ByStart(t.windows[k])))
  }

  function Lookup(t: Tables, site: string, text: string): Option<Entry>
    requires Consistent(t)
  {
    Read(t, Key(site, Normalize(text)))
  }

  // --- The stored policy means the submitted one ----------------------------------

  lemma {:induction false} InsertClassSet(cs: seq<int>, c: int)
    ensures forall x :: x in InsertClass(cs, c) <==> x in cs || x == c
    decreases |cs|
  {
    if cs != [] && c > cs[0] {
      InsertClassSet(cs[1..], c);
      assert cs == [cs[0]] + cs[1..];
    }
  }

  lemma {:induction false} ClassRowsSet(cs: seq<int>)
    ensures forall x :: x in ClassRows(cs) <==> x in cs
    ensures ClassRows(cs) == [] <==> cs == []
    decreases |cs|
  {
    if cs != [] {
      var front, c := cs[..|cs| - 1], cs[|cs| - 1];
      ClassRowsSet(front);
      InsertClassSet(ClassRows(front), c);
      assert cs == front + [c];
      assert c in ClassRows(cs);
    }
  }

  predicate Ascending(cs: seq<int>) { forall i, j | 0 <= i < j < |cs| :: cs[i] < cs[j] }

  /** The class rows are sorted and free of duplicates. */
  lemma {:induction false} ClassRowsAscending(cs: seq<int>)
    ensures Ascending(ClassRows(cs))
    decreases |cs|
  {
    if cs != [] {
      ClassRowsAscending(cs[..|cs| - 1]);
      InsertClassAscending(ClassRows(cs[..|cs| - 1]), cs[|cs| - 1]);
    }
  }

  lemma {:induction false} InsertClassAscending(cs: seq<int>, c: int)
    requires Ascending(cs)
    ensures Ascending(InsertClass(cs, c))
    decreases |cs|
  {
    if cs != [] && c > cs[0] {
      assert Ascending(cs[1..]);
      InsertClassAscending(cs[1..], c);
      InsertClassSet(cs[1..], c);
      var r := InsertClass(cs[1..], c);
      assert forall i | 0 <= i < |r| :: r[i] in r;
      assert forall x <- cs[1..] :: cs[0] < x;
    }
  }

  lemma {:induction false} InsertWindowMultiset(ws: seq<Window>, w: Window)
    ensures multiset(InsertWindow(ws, w)) == multiset(ws) + multiset{w}
    decreases |ws|
  {
    if ws != [] && Signed(w.start) >= Signed(ws[0].start) {
      InsertWindowMultiset(ws[1..], w);
      assert ws == [ws[0]] + ws[1..];
    }
  }

  lemma {:induction false} ByStartMultiset(ws: seq<Window>)
    ensures multiset(ByStart(ws)) == multiset(ws)
    decreases |ws|
  {
    if ws != [] {
      ByStartMultiset(ws[..|ws| - 1]);
      InsertWindowMultiset(ByStart(ws[..|ws| - 1]), ws[|ws| - 1]);
      assert ws == ws[..|ws| - 1] + [ws[|ws| - 1]];
    }
  }

  /** Two entries with the same classes as sets, the same windows as multisets and the
      same effective dates permit the same vehicles at the same times.  So neither
      deduplication nor any order of rows can change a policy. */
  lemma SamePolicy(a: Entry, b: Entry, cls: int, t: Clock)
    requires (forall x :: x in a.classes <==> x in b.classes) && (a.classes == [] <==> b.classes == [])
    requires multiset(a.windows) == multiset(b.windows)
    requires Loaded(Seconds(a.validFrom)) == Loaded(Seconds(b.validFrom))
    requires Loaded(Seconds(a.validUntil)) == Loaded(Seconds(b.validUntil))
    ensures AllowedNow(a, cls, t) == AllowedNow(b, cls, t)
  {
    assert |multiset(a.windows)| == |multiset(b.windows)|;
    assert a.windows == [] <==> b.windows == [];
    assert forall w :: w in a.windows <==> w in multiset(a.windows);
    assert forall w :: w in b.windows <==> w in multiset(b.windows);
  }

  /** A date as submitted, or none if it is not positive. */
  function Positive(o: Option<int>): Option<int> { if o.Some? && o.value > 0 then o else None }

  predicate SortedByStart(ws: seq<Window>) {
    forall i, j | 0 <= i < j < |ws| :: Signed(ws[i].start) <= Signed(ws[j].start)
  }

  /** The same classes, ascending, and the same windows, by start. */
  predicate Orderly(r: Entry, e: Entry) {
    && Ascending(r.classes) && (forall x <- r.classes :: x in e.classes) && (forall x <- e.classes :: x in r.classes)
    && SortedByStart(r.windows) && multiset(r.windows) == multiset(e.windows)
  }

  lemma {:induction false} InsertWindowSorted(ws: seq<Window>, w: Window)
    requires SortedByStart(ws)
    ensures SortedByStart(InsertWindow(ws, w))
    decreases |ws|
  {
    hide Signed;
    if ws != [] && Signed(w.start) >= Signed(ws[0].start) {
      assert SortedByStart(ws[1..]);
      InsertWindowSorted(ws[1..], w);
      InsertWindowMultiset(ws[1..], w);
      var r := InsertWindow(ws[1..], w);
      forall j | 0 <= j < |r| ensures Signed(ws[0].start) <= Signed(r[j].start) {
        assert r[j] in multiset(r);
        assert r[j] in multiset(ws[1..]) || r[j] == w;
        if r[j] in ws[1..] {
          var i :| 0 <= i < |ws[1..]| && ws[1..][i] == r[j];
          assert ws[i + 1] == r[j];
        }
      }
    }
  }

  /** Windows come back in order of their start. */
  lemma {:induction false} ByStartSorted(ws: seq<Window>)
    ensures SortedByStart(ByStart(ws))
    decreases |ws|
  {
    hide Signed;
    if ws != [] {
      ByStartSorted(ws[..|ws| - 1]);
      InsertWindowSorted(ByStart(ws[..|ws| - 1]), ws[|ws| - 1]);
    }
  }

  /** `r` is an entry for `plate` with the details of `e` and its verdict on class
      `cls` at time `c`. */
  predicate Means(r: Option<Entry>, plate: string, e: Entry, cls: int, c: Clock) {
    && r.Some? && r.value.plate == plate
    && r.value.ownerName == e.ownerName && r.value.ownerUnit == e.ownerUnit
    && r.value.notes == e.notes && r.value.addedBy == e.addedBy
    && r.value.addedTs == Positive(e.addedTs)
    && r.value.validFrom == Positive(e.validFrom) && r.value.validUntil == Positive(e.validUntil)
    && Orderly(r.value, e)
    && (AllowedNow(r.value, cls, c) <==> AllowedNow(e, cls, c))
  }

  lemma ReadPut(t: Tables, k: Key, e: Entry, cls: int, c: Clock)
    requires Consistent(t)
    ensures Consistent(Put(t, k, e))
    ensures var r := Read(Put(t, k, e), k);
            Means(r, k.plate, e, cls, c)
  {
    hide AllowedNow, ClassRows, ByStart, Ascending, SortedByStart;
    ClassRowsSet(e.classes);
    ClassRowsAscending(e.classes);
    ByStartMultiset(e.windows);
    ByStartSorted(e.windows);
    SamePolicy(Read(Put(t, k, e), k).value, e, cls, c);
  }

  lemma ReadPutOther(t: Tables, k: Key, e: Entry, other: Key)
    requires Consistent(t) && other != k
    ensures Consistent(Put(t, k, e)) && Read(Put(t, k, e), other) == Read(t, other)
  {
  }

  lemma {:induction false} PutAllConsistent(t: Tables, site: string, es: seq<Entry>)
    requires Consistent(t)
    ensures Consistent(PutAll(t, site, es))
    decreases |es|
  {
    if es != [] {
      PutAllConsistent(t, site, es[..|es| - 1]);
    }
  }

  /** Entry `i` is the last in the batch for its plate. */
  predicate LastFor(es: seq<Entry>, i: nat)
    requires i < |es|
  {
    forall j | i < j < |es| :: Normalize(es[j].plate) != Normalize(es[i].plate)
  }

  lemma PutAllNext(t: Tables, site: string, es: seq<Entry>, e: Entry)
    ensures PutAll(t, site, es + [e]) == Put(PutAll(t, site, es), KeyOf(site, e), e)
  {
    hide Put, KeyOf;
    assert (es + [e])[..|es|] == es;
  }

  lemma {:induction false} StoredLast(t: Tables, site: string, es: seq<Entry>, i: nat, cls: int, c: Clock)
    requires Consistent(t) && i < |es| && LastFor(es, i)
    ensures Consistent(PutAll(t, site, es))
    ensures Means(Read(PutAll(t, site, es), KeyOf(site, es[i])), Normalize(es[i].plate), es[i], cls, c)
    decreases |es|
  {
    hide Means, Normalize, Read, Put, PutAll, Consistent;
    var front, last := es[..|es| - 1], es[|es| - 1];
    assert es == front + [last];
    PutAllNext(t, site, front, last);
    PutAllConsistent(t, site, front);
    if i == |front| {
      ReadPut(PutAll(t, site, front), KeyOf(site, last), last, cls, c);
    } else {
      StoredLast(t, site, front, i, cls, c);
      ReadPutOther(PutAll(t, site, front), KeyOf(site, last), last, KeyOf(site, es[i]));
    }
  }

  lemma {:induction false} StoredOther(t: Tables, site: string, es: seq<Entry>, k: Key)
    requires Consistent(t) && forall i | 0 <= i < |es| :: KeyOf(site, es[i]) != k
    ensures Consistent(PutAll(t, site, es)) && Read(PutAll(t, site, es), k) == Read(t, k)
    decreases |es|
  {
    hide KeyOf, Read, Put, Consistent;
    if es != [] {
      var front, last := es[..|es| - 1], es[|es| - 1];
      assert es == front + [last];
      PutAllNext(t, site, front, last);
      StoredOther(t, site, front, k);
      ReadPutOther(PutAll(t, site, front), KeyOf(site, last), last, k);
    }
  }

  /** After a batch, a plate looked up under any spelling carries the policy of the
      last entry submitted for it; one the batch does not name is as it was. */
  lemma LookupMeansLastSubmitted(t: Tables, site: string, es: seq<Entry>, text: string, cls: int, c: Clock)
    requires Consistent(t)
    ensures Consistent(PutAll(t, site, es))
    ensures forall i | 0 <= i < |es| && LastFor(es, i) && Normalize(es[i].plate) == Normalize(text) ::
              Means(Lookup(PutAll(t, site, es), site, text), Normalize(text), es[i], cls, c)
    ensures (forall i | 0 <= i < |es| :: Normalize(es[i].plate) != Normalize(text)) ==>
              Lookup(PutAll(t, site, es), site, text) == Lookup(t, site, text)
  {
    hide Means, Normalize, Read, PutAll, Consistent, LastFor;
    PutAllConsistent(t, site, es);
    forall i | 0 <= i < |es| && LastFor(es, i) && Normalize(es[i].plate) == Normalize(text)
      ensures Means(Lookup(PutAll(t, site, es), site, text), Normalize(text), es[i], cls, c)
    {
      StoredLast(t, site, es, i, cls, c);
    }
    if forall i | 0 <= i < |es| :: Normalize(es[i].plate) != Normalize(text) {
      StoredOther(t, site, es, Key(site, Normalize(text)));
    }
  }

  /** What one site submits no other site sees. */
  lemma SitesAreSeparate(t: Tables, site: string, es: seq<Entry>, other: string, text: string)
    requires Consistent(t) && other != site
    ensures Consistent(PutAll(t, site, es))
    ensures Lookup(PutAll(t, site, es), other, text) == Lookup(t, other, text)
  {
    hide Normalize, Read, PutAll, Consistent;
    StoredOther(t, site, es, Key(other, Normalize(text)));
  }

  // --- Counting -----------------------------------------------------------------

  lemma PutGrows(t: Tables, k: Key, e: Entry)
    ensures |Put(t, k, e).rows| == |t.rows| + if k in t.rows then 0 else 1
  {
    var rows := Put(t, k, e).rows;
    assert rows.Keys == t.rows.Keys + {k};
    assert |rows| == |rows.Keys| && |t.rows| == |t.rows.Keys|;
  }

  function Without(t: Tables, ks: set<Key>): Tables {
    Tables(t.rows - ks, t.classes - ks, t.windows - ks)
  }

  function KeysOf(site: string, texts: seq<string>): set<Key> {
    if texts == [] then {} else KeysOf(site, texts[..|texts| - 1]) + {Key(site, Normalize(texts[|texts| - 1]))}
  }

  lemma {:induction false} KeysOfMembers(site: string, texts: seq<string>, k: Key)
    ensures k in KeysOf(site, texts) <==>
              k.site == site && exists i :: 0 <= i < |texts| && Normalize(texts[i]) == k.plate
    decreases |texts|
  {
    hide Normalize;
    if texts != [] {
      var n := |texts| - 1;
      KeysOfMembers(site, texts[..n], k);
      if k.site == site && Normalize(texts[n]) == k.plate {
        assert k == Key(site, Normalize(texts[n]));
      }
    }
  }

  /** After a remove, no spelling of a named plate finds anything; every other lookup is
      as it was. */
  lemma RemovedIsGone(t: Tables, site: string, texts: seq<string>, other: string, text: string)
    requires Consistent(t)
    ensures Consistent(Without(t, KeysOf(site, texts)))
    ensures Lookup(Without(t, KeysOf(site, texts)), other, text) ==
              if other == site && exists i :: 0 <= i < |texts| && Normalize(texts[i]) == Normalize(text) then None
              else Lookup(t, other, text)
  {
    hide Normalize, KeysOf;
    KeysOfMembers(site, texts, Key(other, Normalize(text)));
    var u := Without(t, KeysOf(site, texts));
    assert u.rows.Keys == t.rows.Keys - KeysOf(site, texts);
  }

  lemma WithoutNone(t: Tables)
    ensures Without(t, {}) == t
  {
    assert t.rows - {} == t.rows && t.classes - {} == t.classes && t.windows - {} == t.windows;
  }

  lemma WithoutMore(t: Tables, a: set<Key>, b: set<Key>)
    ensures Without(Without(t, a), b) == Without(t, a + b)
  {
    assert t.rows - a - b == t.rows - (a + b);
    assert t.classes - a - b == t.classes - (a + b);
    assert t.windows - a - b == t.windows - (a + b);
  }

  lemma NothingPut(t: Tables, site: string)
    ensures PutAll(t, site, []) == t && !AnyEmpty([])
  {
  }

  // --- The object -----------------------------------------------------------------

  /** A blocklist row. */
  datatype Block = Block(reason: string, addedTs: int)

  datatype UpsertResult = Upserted(inserted: nat, updated: nat) | EmptyPlate

  predicate AnyEmpty(es: seq<Entry>) { exists e <- es :: Normalize(e.plate) == [] }

  lemma AnyEmptyNext(es: seq<Entry>, e: Entry)
    ensures AnyEmpty(es + [e]) <==> AnyEmpty(es) || Normalize(e.plate) == []
  {
    hide Normalize;
    assert e in es + [e];
    assert forall x <- es :: x in es + [e];
  }

  lemma AnyEmptyIn(es: seq<Entry>, e: Entry)
    requires e in es && Normalize(e.plate) == []
    ensures AnyEmpty(es)
  {
    hide Normalize;
  }

  class AllowlistStore {
    var rows: map<Key, Row>
    var classes: map<Key, seq<int>>
    var windows: map<Key, seq<Window>>
    var blocklist: map<Key, Block>

    function Value(): Tables
      reads this
    {
      Tables(rows, classes, windows)
    }

    constructor ()
      ensures Consistent(Value()) && Value() == Tables(map[], map[], map[]) && blocklist == map[]
    {
      rows, classes, windows, blocklist := map[], map[], map[], map[];
    }

    method WriteClasses(k: Key, cs: seq<int>)
      modifies this`classes
      ensures classes == old(classes)[k := ClassRows(cs)]
    {
      classes := classes[k := []];
      for i := 0 to |cs|
        invariant classes == old(classes)[k := ClassRows(cs[..i])]
      {
        assert cs[..i + 1][..i] == cs[..i];
        classes := classes[k := InsertClass(classes[k], cs[i])];
      }
      assert cs[..|cs|] == cs;
    }

    method WriteWindows(k: Key, ws: seq<Window>)
      modifies this`windows
      ensures windows == old(windows)[k := ws]
    {
      windows := windows[k := []];
      for i := 0 to |ws|
        invariant windows == old(windows)[k := ws[..i]]
      {
        assert ws[..i] + [ws[i]] == ws[..i + 1];
        windows := windows[k := windows[k] + [ws[i]]];
      }
      assert ws[..|ws|] == ws;
    }

    /** Main row, then classes and windows wiped and rewritten. */
    method Write(k: Key, e: Entry)
      modifies this`rows, this`classes, this`windows
      ensures Value() == Put(old(Value()), k, e)
    {
      hide ClassRows;
      rows := rows[k := RowOf(e)];
      WriteClasses(k, e.classes);
      WriteWindows(k, e.windows);
    }

    /** One transaction: all entries, or none if any plate normalises to nothing. */
    method Upsert(site: string, entries: seq<Entry>) returns (r: UpsertResult)
      modifies this`rows, this`classes, this`windows
      ensures AnyEmpty(entries) ==> r == EmptyPlate && Value() == old(Value())
      ensures !AnyEmpty(entries) ==>
                && Value() == PutAll(old(Value()), site, entries)
                && r.Upserted? && r.inserted + r.updated == |entries| && |rows| == |old(rows)| + r.inserted
    {
      hide Normalize, AnyEmpty, PutAll, Put;
      var inserted, updated := 0, 0;
      var saved := Value();
      NothingPut(saved, site);
      for i := 0 to |entries|
        invariant saved == old(Value())
        invariant Value() == PutAll(saved, site, entries[..i])
        invariant inserted + updated == i && |rows| == |old(rows)| + inserted
        invariant !AnyEmpty(entries[..i])
      {
        var e := entries[i];
        assert entries[..i + 1] == entries[..i] + [e];
        PutAllNext(saved, site, entries[..i], e);
        AnyEmptyNext(entries[..i], e);
        var plate := NormalizePlate(e.plate);
        if plate == [] {
          AnyEmptyIn(entries, e);
          rows, classes, windows := saved.rows, saved.classes, saved.windows;
          return EmptyPlate;
        }
        var k := Key(site, plate);
        var existed := k in rows;
        PutGrows(Value(), k, e);
        Write(k, e);
        if existed {
          updated := updated + 1;
        } else {
          inserted := inserted + 1;
        }
      }
      assert entries[..|entries|] == entries;
      return Upserted(inserted, updated);
    }

    method Find(site: string, text: string) returns (e: Option<Entry>)
      requires Consistent(Value())
      ensures e == Lookup(Value(), site, text)
    {
      var plate := NormalizePlate(text);
      var k := Key(site, plate);
      if k !in rows {
        return None;
      }
      var r := rows[k];
      return Some(Entry(plate, r.ownerName, r.ownerUnit, Loaded(r.validFrom), Loaded(r.validUntil), r.notes, r.addedBy,
                        Loaded(r.addedTs), classes[k], ByStart(windows[k])));
    }

    method RemoveOne(k: Key) returns (removed: nat)
      modifies this`rows, this`classes, this`windows
      ensures Value() == Without(old(Value()), {k})
      ensures |rows| + removed == |old(rows)|
    {
      removed := if k in rows then 1 else 0;
      assert (rows - {k}).Keys == rows.Keys - {k};
      assert |rows| == |rows.Keys| && |rows - {k}| == |(rows - {k}).Keys|;
      rows, classes, windows := rows - {k}, classes - {k}, windows - {k};
    }

    /** Delete rows and, by cascade, their classes and windows. */
    method Remove(site: string, texts: seq<string>) returns (removed: nat)
      modifies this`rows, this`classes, this`windows
      ensures Value() == Without(old(Value()), KeysOf(site, texts))
      ensures |rows| + removed == |old(rows)|
    {
      hide Normalize, Without;
      removed := 0;
      WithoutNone(Value());
      for i := 0 to |texts|
        invariant Value() == Without(old(Value()), KeysOf(site, texts[..i]))
        invariant |rows| + removed == |old(rows)|
      {
        assert texts[..i + 1][..i] == texts[..i];
        var plate := NormalizePlate(texts[i]);
        WithoutMore(old(Value()), KeysOf(site, texts[..i]), {Key(site, plate)});
        var n := RemoveOne(Key(site, plate));
        removed := removed + n;
      }
      assert texts[..|texts|] == texts;
    }

    method IsBlocked(site: string, text: string) returns (b: bool)
      ensures b <==> Key(site, Normalize(text)) in blocklist
    {
      var plate := NormalizePlate(text);
      return Key(site, plate) in blocklist;
    }

    method BlockPlate(site: string, text: string, reason: string, now: int) returns (ok: bool)
      modifies this`blocklist
      ensures ok <==> Normalize(text) != []
      ensures blocklist == if ok then old(blocklist)[Key(site, Normalize(text)) := Block(reason, now)]
                           else old(blocklist)
    {
      var plate := NormalizePlate(text);
      if plate == [] {
        return false;
      }
      blocklist := blocklist[Key(site, plate) := Block(reason, now)];
      return true;
    }
  }
}
