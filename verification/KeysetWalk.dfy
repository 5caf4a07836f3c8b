/** Paging through the allowlist by key: each page starts after the last plate of the
    page before, so changes between pages neither repeat nor hide a plate that stays. */
module KeysetWalk {
  import opened Allowlist
  import opened Words

  // --- Plate order ----------------------------------------------------------------

  /** Byte order, as the primary key compares. */
  predicate Less(a: string, b: string) {
    b != [] && (a == [] || a[0] < b[0] || (a[0] == b[0] && Less(a[1..], b[1..])))
  }

  lemma {:induction false} LessTransitive(a: string, b: string, c: string)
    requires Less(a, b) && Less(b, c)
    ensures Less(a, c)
  {
    if a != [] && a[0] == b[0] && b[0] == c[0] {
      LessTransitive(a[1..], b[1..], c[1..]);
    }
  }

  lemma {:induction false} LessIrreflexive(a: string)
    ensures !Less(a, a)
  {
    if a != [] {
      LessIrreflexive(a[1..]);
    }
  }

  lemma {:induction false} LessTotal(a: string, b: string)
    ensures Less(a, b) || a == b || Less(b, a)
  {
    if a != [] && b != [] && a[0] == b[0] {
      LessTotal(a[1..], b[1..]);
      if a[1..] == b[1..] {
        assert a == [a[0]] + a[1..] && b == [b[0]] + b[1..];
      }
    }
  }

  /** `i` is where the two texts first differ. */
  predicate DifferAt(a: string, b: string, i: nat) {
    i < |a| && i < |b| && a[..i] == b[..i] && a[i] != b[i]
  }

  lemma SamePrefix(a: string, b: string, i: nat)
    requires i <= |a| && i <= |b| && a[..i] == b[..i]
    ensures forall j | 0 <= j < i :: a[j] == b[j]
  {
    forall j | 0 <= j < i ensures a[j] == b[j] {
      assert a[..i][j] == b[..i][j];
    }
  }

  /** Byte order compares the first difference; without one, the shorter text is less. */
  lemma {:induction false} LessIsFirstDifference(a: string, b: string)
    ensures forall i: nat | DifferAt(a, b, i) :: Less(a, b) <==> a[i] < b[i]
    ensures a <= b ==> (Less(a, b) <==> |a| < |b|)
    ensures b <= a ==> !Less(a, b)
  {
    if a != [] && b != [] && a[0] == b[0] {
      LessIsFirstDifference(a[1..], b[1..]);
      forall i: nat | DifferAt(a, b, i) ensures Less(a, b) <==> a[i] < b[i] {
        assert i > 0 && a[1..][..i - 1] == a[..i][1..] && b[1..][..i - 1] == b[..i][1..];
        assert DifferAt(a[1..], b[1..], i - 1);
      }
    } else {
      forall i: nat | DifferAt(a, b, i) ensures Less(a, b) <==> a[i] < b[i] {
        SamePrefix(a, b, i);
      }
    }
  }

  predicate Ascending(ps: seq<string>) { forall i, j | 0 <= i < j < |ps| :: Less(ps[i], ps[j]) }

  // --- The key index of a site ------------------------------------------------------

  function Insert(ps: seq<string>, p: string): seq<string> {
    if ps == [] || Less(p, ps[0]) then [p] + ps else [ps[0]] + Insert(ps[1..], p)
  }

  lemma {:induction false} InsertMembers(ps: seq<string>, p: string)
    ensures forall q :: q in Insert(ps, p) <==> q in ps || q == p
  {
    if ps != [] && !Less(p, ps[0]) {
      InsertMembers(ps[1..], p);
      assert ps == [ps[0]] + ps[1..];
    }
  }

  lemma {:induction false} InsertKeepsOrder(ps: seq<string>, p: string)
    requires Ascending(ps) && p !in ps
    ensures Ascending(Insert(ps, p))
  {
    if ps == [] {
    } else if Less(p, ps[0]) {
      forall j | 0 <= j < |ps| ensures Less(p, ps[j]) {
        if j > 0 {
          LessTransitive(p, ps[0], ps[j]);
        }
      }
    } else {
      LessTotal(p, ps[0]);
      assert Ascending(ps[1..]);
      InsertKeepsOrder(ps[1..], p);
      InsertMembers(ps[1..], p);
      var r := Insert(ps[1..], p);
      forall j | 0 <= j < |r| ensures Less(ps[0], r[j]) {
        assert r[j] in r;
      }
    }
  }

  ghost function Sorted(s: set<string>): seq<string> {
    if s == {} then [] else
      var p :| p in s;
      Insert(Sorted(s - {p}), p)
  }

  lemma {:induction false} SortedIs(s: set<string>)
    ensures Ascending(Sorted(s))
    ensures forall q :: q in Sorted(s) <==> q in s
  {
    if s != {} {
      var p :| p in s && Sorted(s) == Insert(Sorted(s - {p}), p);
      SortedIs(s - {p});
      InsertMembers(Sorted(s - {p}), p);
      InsertKeepsOrder(Sorted(s - {p}), p);
    }
  }

  ghost function Plates(t: Tables, site: string): set<string> {
    set k | k in t.rows && k.site == site :: k.plate
  }

  /** The site's plates in key order. */
  ghost function Index(t: Tables, site: string): seq<string> {
    Sorted(Plates(t, site))
  }

  lemma IndexIs(t: Tables, site: string)
    ensures Ascending(Index(t, site))
    ensures forall p :: p in Index(t, site) <==> Key(site, p) in t.rows
  {
    SortedIs(Plates(t, site));
    forall p ensures p in Plates(t, site) <==> Key(site, p) in t.rows {
      if Key(site, p) in t.rows {
        assert Key(site, p).plate in Plates(t, site);
      }
    }
  }

  lemma {:induction false} AscendingUnique(a: seq<string>, b: seq<string>)
    requires Ascending(a) && Ascending(b) && forall p :: p in a <==> p in b
    ensures a == b
  {
    hide Less;
    assert |a| > 0 ==> a[0] in a;
    assert |b| > 0 ==> b[0] in b;
    if a != [] && b != [] {
      assert a == [a[0]] + a[1..] && b == [b[0]] + b[1..];
      HeadIsLeast(a);
      HeadIsLeast(b);
      assert a[0] in b && b[0] in a;
      if a[0] != b[0] {
        LessIrreflexive(a[0]);
        LessTransitive(a[0], b[0], a[0]);
      }
      assert Ascending(a[1..]) && Ascending(b[1..]);
      AscendingUnique(a[1..], b[1..]);
    }
  }

  lemma HeadIsLeast(a: seq<string>)
    requires Ascending(a) && a != []
    ensures forall p <- a :: p == a[0] || Less(a[0], p)
    ensures forall p :: p in a[1..] <==> p in a && p != a[0]
  {
    hide Less;
    LessIrreflexive(a[0]);
    assert a == [a[0]] + a[1..];
    assert forall i | 0 <= i < |a[1..]| :: a[1..][i] == a[i + 1];
  }

  /** Collect a site's plates in key order. */
  method PlatesInOrder(t: Tables, site: string) returns (ps: seq<string>)
    ensures ps == Index(t, site)
  {
    hide Index, Insert, Less;
    ps := [];
    var rest := t.rows.Keys;
    while rest != {}
      invariant rest <= t.rows.Keys && Ascending(ps)
      invariant forall p :: p in ps <==> Key(site, p) in t.rows.Keys && Key(site, p) !in rest
      decreases |rest|
    {
      var k :| k in rest;
      rest := rest - {k};
      if k.site == site {
        assert k == Key(site, k.plate);
        InsertMembers(ps, k.plate);
        InsertKeepsOrder(ps, k.plate);
        ps := Insert(ps, k.plate);
      }
    }
    IndexIs(t, site);
    AscendingUnique(ps, Index(t, site));
  }

  // --- One page ---------------------------------------------------------------------

  function After(ps: seq<string>, token: string): seq<string> {
    if ps == [] then []
    else (if Less(token, ps[0]) then [ps[0]] else []) + After(ps[1..], token)
  }

  lemma {:induction false} AfterIs(ps: seq<string>, token: string)
    requires Ascending(ps)
    ensures Ascending(After(ps, token))
    ensures forall p :: p in After(ps, token) <==> p in ps && Less(token, p)
  {
    if ps != [] {
      assert Ascending(ps[1..]);
      AfterIs(ps[1..], token);
      var r := After(ps[1..], token);
      assert ps == [ps[0]] + ps[1..];
      forall j | 0 <= j < |r| ensures Less(ps[0], r[j]) {
        assert r[j] in r;
      }
    }
  }

  function Limit(size: uint32): (n: nat)
    ensures 1 <= n <= 1000
  {
    if size < 1 then 1 else if size > 1000 then 1000 else size
  }

  datatype Page = Page(plates: seq<string>, next: string)

  /** The first plates after the token, and where to go on if there are more. */
  function PageOf(ps: seq<string>, size: uint32, token: string): Page {
    var rest, n := After(ps, token), Limit(size);
    if |rest| > n then Page(rest[..n], rest[n - 1]) else Page(rest, "")
  }

  /** The entry as the main row alone gives it. */
  function Bare(t: Tables, k: Key): Entry
    requires k in t.rows
  {
    var r := t.rows[k];
    Entry(k.plate, r.ownerName, r.ownerUnit, Loaded(r.validFrom), Loaded(r.validUntil), r.notes, r.addedBy,
          Loaded(r.addedTs), [], [])
  }

  /** Attach the class and window rows of each listed plate. */
  method Hydrate(t: Tables, site: string, bare: seq<Entry>) returns (es: seq<Entry>)
    requires Consistent(t)
    requires forall e <- bare :: Key(site, e.plate) in t.rows && e == Bare(t, Key(site, e.plate))
    ensures |es| == |bare|
    ensures forall i | 0 <= i < |es| :: Some(es[i]) == Read(t, Key(site, bare[i].plate))
  {
    es := [];
    for i := 0 to |bare|
      invariant |es| == i
      invariant forall j | 0 <= j < i :: Some(es[j]) == Read(t, Key(site, bare[j].plate))
    {
      var k := Key(site, bare[i].plate);
      assert bare[i] in bare;
      es := es + [bare[i].(classes := t.classes[k], windows := ByStart(t.windows[k]))];
    }
  }

  /** Step through the rows of the query; one row past the limit says there are more. */
  method ReadRows(t: Tables, site: string, rest: seq<string>, limit: nat) returns (es: seq<Entry>, more: bool)
    requires limit > 0 && forall i | 0 <= i < |rest| :: Key(site, rest[i]) in t.rows
    ensures more <==> |rest| > limit
    ensures |es| == if more then limit else |rest|
    ensures forall j | 0 <= j < |es| :: es[j] == Bare(t, Key(site, rest[j]))
  {
    hide Bare;
    es := [];
    var i := 0;
    while i < |rest| && i < limit + 1
      invariant 0 <= i <= |rest| && i <= limit && |es| == i
      invariant forall j | 0 <= j < i :: es[j] == Bare(t, Key(site, rest[j]))
    {
      if |es| == limit {
        return es, true;
      }
      es := es + [Bare(t, Key(site, rest[i]))];
      i := i + 1;
    }
    more := false;
  }

  /** One page of the store.  Only the last page carries classes and windows. */
  method List(t: Tables, site: string, size: uint32, token: string) returns (es: seq<Entry>, next: string)
    requires Consistent(t)
    ensures var page := PageOf(Index(t, site), size, token);
            && |es| == |page.plates| && next == page.next
            && (forall i | 0 <= i < |es| :: Key(site, page.plates[i]) in t.rows)
            && forall i | 0 <= i < |es| ::
                 var k := Key(site, page.plates[i]);
                 if |After(Index(t, site), token)| > Limit(size) then es[i] == Bare(t, k) else Some(es[i]) == Read(t, k)
  {
    hide Read, Index, Bare, After, Limit;
    var index := PlatesInOrder(t, site);
    IndexIs(t, site);
    AfterIs(index, token);
    var rest, limit := After(index, token), Limit(size);
    assert forall i | 0 <= i < |rest| :: rest[i] in rest;
    var more;
    es, more := ReadRows(t, site, rest, limit);
    forall j | 0 <= j < |es| ensures es[j].plate == rest[j] {
      BarePlate(t, Key(site, rest[j]));
    }
    if more {
      return es, es[|es| - 1].plate;
    }
    es := Hydrate(t, site, es);
    next := "";
  }

  lemma BarePlate(t: Tables, k: Key)
    requires k in t.rows
    ensures Bare(t, k).plate == k.plate
  {
  }

  // --- A walk -------------------------------------------------------------------------

  datatype Change = Upsert(site: string, entries: seq<Entry>) | Remove(site: string, texts: seq<string>)

  /** What `AllowlistStore` does with a change. */
  function Apply(t: Tables, c: Change): Tables {
    match c
    case Upsert(site, es) => if AnyEmpty(es) then t else PutAll(t, site, es)
    case Remove(site, texts) => Without(t, KeysOf(site, texts))
  }

  function ApplyAll(t: Tables, cs: seq<Change>): Tables
    decreases |cs|
  {
    if cs == [] then t else ApplyAll(Apply(t, cs[0]), cs[1..])
  }

  /** Changes by anyone, then one page of a size of the caller's choosing. */
  datatype Round = Round(changes: seq<Change>, size: uint32)

  /** Follow the tokens until one comes back empty or the rounds run out. */
  ghost function Walk(t: Tables, site: string, rounds: seq<Round>, token: string): Page
    decreases |rounds|
  {
    if rounds == [] then Page([], token) else
      var u := ApplyAll(t, rounds[0].changes);
      var page := PageOf(Index(u, site), rounds[0].size, token);
      if page.next == "" then page else
        var rest := Walk(u, site, rounds[1..], page.next);
        Page(page.plates + rest.plates, rest.next)
  }

  /** The plate is there whenever a page is read. */
  ghost predicate Throughout(t: Tables, site: string, rounds: seq<Round>, plate: string)
    decreases |rounds|
  {
    rounds == [] ||
    (var u := ApplyAll(t, rounds[0].changes);
     Key(site, plate) in u.rows && Throughout(u, site, rounds[1..], plate))
  }

  ghost predicate NoEmptyPlate(t: Tables) { forall k <- t.rows :: k.plate != [] }

  lemma {:induction false} PutAllNamesPlates(t: Tables, site: string, es: seq<Entry>)
    requires NoEmptyPlate(t) && !AnyEmpty(es)
    ensures NoEmptyPlate(PutAll(t, site, es))
  {
    hide Normalize;
    if es != [] {
      assert es[|es| - 1] in es;
      assert forall e <- es[..|es| - 1] :: e in es;
      PutAllNamesPlates(t, site, es[..|es| - 1]);
    }
  }

  lemma {:induction false} ApplyAllNamesPlates(t: Tables, cs: seq<Change>)
    requires NoEmptyPlate(t)
    ensures NoEmptyPlate(ApplyAll(t, cs))
    decreases |cs|
  {
    hide Normalize, AnyEmpty;
    if cs != [] {
      match cs[0] {
        case Upsert(site, es) => if !AnyEmpty(es) { PutAllNamesPlates(t, site, es); }
        case Remove(_, _) =>
      }
      ApplyAllNamesPlates(Apply(t, cs[0]), cs[1..]);
    }
  }

  /** Every run of changes keeps main, class and window rows on the same keys. */
  lemma {:induction false} ApplyAllConsistent(t: Tables, cs: seq<Change>)
    requires Consistent(t)
    ensures Consistent(ApplyAll(t, cs))
    decreases |cs|
  {
    hide Normalize, AnyEmpty, PutAll;
    if cs != [] {
      match cs[0] {
        case Upsert(site, es) => PutAllConsistent(t, site, es);
        case Remove(site, texts) =>
          var u := Without(t, KeysOf(site, texts));
          assert u.rows.Keys == t.rows.Keys - KeysOf(site, texts);
      }
      ApplyAllConsistent(Apply(t, cs[0]), cs[1..]);
    }
  }

  predicate AllAfter(ps: seq<string>, token: string) { forall p <- ps :: Less(token, p) }

  lemma Prefixed(ps: seq<string>, n: nat)
    requires Ascending(ps) && 0 < n <= |ps|
    ensures Ascending(ps[..n]) && forall p <- ps :: p in ps[..n] <==> p == ps[n - 1] || Less(p, ps[n - 1])
  {
    hide Less;
    forall p <- ps ensures p in ps[..n] <==> p == ps[n - 1] || Less(p, ps[n - 1]) {
      var i :| 0 <= i < |ps| && ps[i] == p;
      if i < n {
        assert ps[..n][i] == p;
      } else {
        assert Less(ps[n - 1], p);
        LessIrreflexive(p);
        if Less(p, ps[n - 1]) { LessTransitive(p, ps[n - 1], p); }
      }
    }
  }

  lemma Joined(a: seq<string>, b: seq<string>, token: string)
    requires Ascending(a) && Ascending(b) && a != [] && AllAfter(a, token) && AllAfter(b, a[|a| - 1])
    ensures Ascending(a + b) && AllAfter(a + b, token)
  {
    hide Less;
    var ab := a + b;
    var last := a[|a| - 1];
    forall p <- b ensures Less(token, p) && forall q <- a :: Less(q, p) {
      LessTransitive(token, last, p);
      forall q <- a ensures Less(q, p) {
        var i :| 0 <= i < |a| && a[i] == q;
        if i < |a| - 1 {
          LessTransitive(q, last, p);
        }
      }
    }
    forall i, j | 0 <= i < j < |ab| ensures Less(ab[i], ab[j]) {
      if i < |a| <= j {
        assert ab[i] in a && ab[j] in b;
      }
    }
  }

  /** One page: its plates ascend past the token, and nothing between the token and
      where the page ends is missing. */
  lemma PageIs(ps: seq<string>, size: uint32, token: string)
    requires Ascending(ps) && forall p <- ps :: p != []
    ensures var page := PageOf(ps, size, token);
            && Ascending(page.plates) && AllAfter(page.plates, token)
            && (page.next != "" <==> |After(ps, token)| > Limit(size))
            && (page.next != "" ==> page.plates != [] && page.next == page.plates[|page.plates| - 1])
            && forall p :: p in page.plates <==>
                 p in ps && Less(token, p) && (page.next == "" || p == page.next || Less(p, page.next))
  {
    hide After, Less, Limit;
    AfterIs(ps, token);
    var rest := After(ps, token);
    assert forall i | 0 <= i < |rest| :: rest[i] in rest;
    if |rest| > Limit(size) {
      Prefixed(rest, Limit(size));
      assert forall p <- rest[..Limit(size)] :: p in rest;
    }
  }

  /** A page is as long as asked, between 1 and 1000, unless fewer plates are left. */
  lemma PageLength(ps: seq<string>, size: uint32, token: string)
    ensures var left, n := |After(ps, token)|, |PageOf(ps, size, token).plates|;
            && (1 <= size <= 1000 && size <= left ==> n == size)
            && (size == 0 && left > 0 ==> n == 1)
            && (size > 1000 && left >= 1000 ==> n == 1000)
            && (left <= size && left <= 1000 ==> n == left)
  {
    hide After;
  }

  /** However the store changes between pages, the plates returned ascend, so none is
      returned twice; and every plate that stays is returned, up to where the walk
      stopped: everywhere, once a token comes back empty. */
  lemma {:induction false} WalkIsExact(t: Tables, site: string, rounds: seq<Round>, token: string)
    requires NoEmptyPlate(t)
    ensures var w := Walk(t, site, rounds, token);
            && Ascending(w.plates) && AllAfter(w.plates, token)
            && forall p | Throughout(t, site, rounds, p) && rounds != [] && Less(token, p) ::
                 (w.next == "" || p == w.next || Less(p, w.next)) ==> p in w.plates
    decreases |rounds|
  {
    hide PageOf, ApplyAll, Index, Less;
    if rounds != [] {
      var u := ApplyAll(t, rounds[0].changes);
      ApplyAllNamesPlates(t, rounds[0].changes);
      IndexIs(u, site);
      var ps := Index(u, site);
      assert forall p <- ps :: Key(site, p).plate != [];
      PageIs(ps, rounds[0].size, token);
      var page := PageOf(ps, rounds[0].size, token);
      if page.next != "" {
        WalkIsExact(u, site, rounds[1..], page.next);
        var rest := Walk(u, site, rounds[1..], page.next);
        Joined(page.plates, rest.plates, token);
        forall p | Throughout(t, site, rounds, p) && Less(token, p)
                   && (rest.next == "" || p == rest.next || Less(p, rest.next))
          ensures p in page.plates + rest.plates
        {
          LessTotal(p, page.next);
          if rounds[1..] != [] && Less(page.next, p) {
            assert Throughout(u, site, rounds[1..], p);
          } else {
            assert p in page.plates;
          }
        }
      }
    }
  }

  /** Nothing is returned that was not there when its page was read. */
  ghost predicate Sometime(t: Tables, site: string, rounds: seq<Round>, plate: string)
    decreases |rounds|
  {
    rounds != [] &&
    (var u := ApplyAll(t, rounds[0].changes);
     Key(site, plate) in u.rows || Sometime(u, site, rounds[1..], plate))
  }

  lemma {:induction false} WalkReturnsRows(t: Tables, site: string, rounds: seq<Round>, token: string)
    requires NoEmptyPlate(t)
    ensures forall p <- Walk(t, site, rounds, token).plates :: Sometime(t, site, rounds, p)
    decreases |rounds|
  {
    hide PageOf, ApplyAll, Index, Less;
    if rounds != [] {
      var u := ApplyAll(t, rounds[0].changes);
      ApplyAllNamesPlates(t, rounds[0].changes);
      IndexIs(u, site);
      assert forall p <- Index(u, site) :: Key(site, p).plate != [];
      PageIs(Index(u, site), rounds[0].size, token);
      WalkReturnsRows(u, site, rounds[1..], PageOf(Index(u, site), rounds[0].size, token).next);
    }
  }

  // --- An unchanging store ------------------------------------------------------------

  /** Going on from the last plate of a page gives what the page left. */
  lemma AfterPage(ps: seq<string>, token: string, n: nat)
    requires Ascending(ps) && 0 < n <= |After(ps, token)|
    ensures After(ps, After(ps, token)[n - 1]) == After(ps, token)[n..]
  {
    hide After, Less;
    AfterIs(ps, token);
    var rest := After(ps, token);
    var last := rest[n - 1];
    AfterIs(ps, last);
    assert Ascending(rest[n..]);
    forall p ensures p in rest[n..] <==> p in ps && Less(last, p) {
      if p in rest[n..] {
        var i :| 0 <= i < |rest[n..]| && rest[n..][i] == p;
        assert rest[n + i] in rest;
      } else if p in ps && Less(last, p) {
        assert last in rest;
        LessTransitive(token, last, p);
        Prefixed(rest, n);
        assert rest == rest[..n] + rest[n..];
        LessIrreflexive(p);
        if Less(p, last) { LessTransitive(p, last, p); }
      }
    }
    AscendingUnique(After(ps, last), rest[n..]);
  }

  /** With nothing changing, the walk ends, within as many pages as there are plates
      (one page if there are none), having returned exactly the plates after the token
      in order. */
  lemma {:induction false} WalkEnds(t: Tables, site: string, rounds: seq<Round>, token: string)
    requires NoEmptyPlate(t)
    requires forall r <- rounds :: r.changes == []
    requires |rounds| >= 1 && |rounds| >= |After(Index(t, site), token)|
    ensures Walk(t, site, rounds, token) == Page(After(Index(t, site), token), "")
    decreases |rounds|
  {
    hide Index, After, Less, Limit;
    var ps := Index(t, site);
    IndexIs(t, site);
    assert forall p <- ps :: Key(site, p).plate != [];
    assert rounds[0] in rounds && ApplyAll(t, rounds[0].changes) == t;
    PageIs(ps, rounds[0].size, token);
    var page, rest, n := PageOf(ps, rounds[0].size, token), After(ps, token), Limit(rounds[0].size);
    if |rest| > n {
      AfterPage(ps, token, n);
      assert forall r <- rounds[1..] :: r in rounds;
      WalkEnds(t, site, rounds[1..], page.next);
      assert rest == rest[..n] + rest[n..];
    }
  }

  /** From the empty token that is the whole sorted plate list. */
  lemma FullWalk(t: Tables, site: string, rounds: seq<Round>)
    requires NoEmptyPlate(t)
    requires forall r <- rounds :: r.changes == []
    requires |rounds| >= 1 && |rounds| >= |Index(t, site)|
    ensures Walk(t, site, rounds, "") == Page(Index(t, site), "")
  {
    hide Index, After, Walk;
    var ps := Index(t, site);
    IndexIs(t, site);
    AfterIs(ps, "");
    assert forall p <- ps :: Key(site, p).plate != [] && Less("", p);
    AscendingUnique(After(ps, ""), ps);
    WalkEnds(t, site, rounds, "");
  }
}
