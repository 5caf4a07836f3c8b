/** Greedy CTC decoding of a plate: one pass over the per-frame class scores.  It equals
    the textbook definition, and it inverts every alignment of a label. */
module Ctc {

  // --- The definition, in two passes --------------------------------------------------

  const BLANK := 0

  /** Adjacent repeats merged. */
  function Collapse(path: seq<nat>): seq<nat> {
    if |path| <= 1 then path
    else
      var front, x := path[..|path| - 1], path[|path| - 1];
      if x == front[|front| - 1] then Collapse(front) else Collapse(front) + [x]
  }

  function DropBlanks(path: seq<nat>): seq<nat> {
    if path == [] then []
    else
      var front, x := path[..|path| - 1], path[|path| - 1];
      DropBlanks(front) + if x == BLANK then [] else [x]
  }

  function Decode(path: seq<nat>): seq<nat> { DropBlanks(Collapse(path)) }

  lemma DropBlanksNext(path: seq<nat>, x: nat)
    ensures DropBlanks(path + [x]) == DropBlanks(path) + if x == BLANK then [] else [x]
  {
    assert (path + [x])[..|path|] == path;
  }

  /** One more frame adds its symbol unless it is blank or repeats the frame before. */
  lemma DecodeNext(path: seq<nat>, x: nat)
    ensures Decode(path + [x]) ==
              Decode(path) + if x == BLANK || (path != [] && path[|path| - 1] == x) then [] else [x]
  {
    assert (path + [x])[..|path|] == path;
    if path == [] {
      assert path + [x] == [x];
    }
    DropBlanksNext(Collapse(path), x);
  }

  // --- Peaks --------------------------------------------------------------------------

  /** The first greatest element. */
  predicate IsArgMax(row: seq<real>, k: nat) {
    && k < |row|
    && (forall c | 0 <= c < k :: row[c] < row[k])
    && (forall c | k <= c < |row| :: row[c] <= row[k])
  }

  function ArgMax(row: seq<real>): (k: nat)
    requires row != []
    ensures IsArgMax(row, k)
  {
    if |row| == 1 then 0
    else
      var n := |row| - 1;
      var k := ArgMax(row[..n]);
      assert forall c | 0 <= c < n :: row[..n][c] == row[c];
      if row[n] > row[k] then n else k
  }

  lemma ArgMaxUnique(row: seq<real>, k: nat)
    requires IsArgMax(row, k)
    ensures k == ArgMax(row)
  {
    assert IsArgMax(row, ArgMax(row));
  }

  datatype Peak = Peak(symbol: nat, prob: real)

  /** Where row `t` starts in the row-major score matrix. */
  function Start(t: nat, classes: nat): (n: nat)
    ensures t == 0 ==> n == 0
  {
    t * classes
  }

  /** Each row starts where the one before ends, inside the matrix. */
  lemma RowFits(rows: nat, t: nat, classes: nat)
    requires t < rows
    ensures Start(t, classes) + classes == Start(t + 1, classes) <= Start(rows, classes)
  {
    assert (t + 1) * classes == t * classes + classes;
    assert (t + 1) * classes <= rows * classes;
  }

  function Row(logits: seq<real>, t: nat, classes: nat): (row: seq<real>)
    requires Start(t, classes) + classes <= |logits|
    ensures |row| == classes
  {
    logits[Start(t, classes)..Start(t, classes) + classes]
  }

  /** Scores lie row after row. */
  lemma RowAt(logits: seq<real>, t: nat, classes: nat, c: nat)
    requires Start(t, classes) + classes <= |logits| && c < classes
    ensures 0 <= t * classes + c < |logits| && Row(logits, t, classes)[c] == logits[t * classes + c]
  {
  }

  function PeakOf(row: seq<real>): Peak
    requires row != []
  {
    Peak(ArgMax(row), row[ArgMax(row)])
  }

  /** A peak's score is the row's greatest, found at its class. */
  lemma PeakIsGreatest(row: seq<real>)
    requires row != []
    ensures var p := PeakOf(row);
            p.symbol < |row| && row[p.symbol] == p.prob && forall c | 0 <= c < |row| :: row[c] <= p.prob
  {
    var k := ArgMax(row);
    assert IsArgMax(row, k);
  }

  /** The best class of each of the first `rows` rows. */
  function Peaks(logits: seq<real>, rows: nat, classes: nat): (ps: seq<Peak>)
    requires classes > 0 && Start(rows, classes) <= |logits|
    ensures |ps| == rows
  {
    if rows == 0 then []
    else
      RowFits(rows, rows - 1, classes);
      Peaks(logits, rows - 1, classes) + [PeakOf(Row(logits, rows - 1, classes))]
  }

  lemma PeaksNext(logits: seq<real>, rows: nat, t: nat, classes: nat)
    requires classes > 0 && t < rows && Start(rows, classes) <= |logits|
    ensures Start(t, classes) + classes == Start(t + 1, classes) <= |logits|
    ensures Peaks(logits, t + 1, classes) == Peaks(logits, t, classes) +
              [PeakOf(logits[Start(t, classes)..Start(t, classes) + classes])]
  {
    RowFits(rows, t, classes);
  }

  function Symbols(ps: seq<Peak>): (path: seq<nat>)
    ensures |path| == |ps|
  {
    seq(|ps|, i requires 0 <= i < |ps| => ps[i].symbol)
  }

  /** The peaks that contribute: not blank, not a repeat of the frame before. */
  function Kept(ps: seq<Peak>): seq<Peak> {
    if ps == [] then []
    else
      var front, p := ps[..|ps| - 1], ps[|ps| - 1];
      Kept(front) +
      if p.symbol == BLANK || (front != [] && front[|front| - 1].symbol == p.symbol) then [] else [p]
  }

  lemma SymbolsNext(ps: seq<Peak>, p: Peak)
    ensures Symbols(ps + [p]) == Symbols(ps) + [p.symbol]
  {
  }

  lemma KeptNext(ps: seq<Peak>, p: Peak)
    ensures Kept(ps + [p]) ==
              Kept(ps) + if p.symbol == BLANK || (ps != [] && ps[|ps| - 1].symbol == p.symbol) then [] else [p]
  {
    assert (ps + [p])[..|ps|] == ps;
  }

  /** What is kept are frames, scores and all. */
  lemma {:induction false} KeptAreFrames(ps: seq<Peak>)
    ensures forall p <- Kept(ps) :: p in ps && p.symbol != BLANK
  {
    if ps != [] {
      var front, p := ps[..|ps| - 1], ps[|ps| - 1];
      assert ps == front + [p];
      KeptAreFrames(front);
    }
  }

  lemma KeptNothing()
    ensures Symbols(Kept([])) == [] == Decode(Symbols([]))
  {
  }

  lemma SymbolsLast(ps: seq<Peak>)
    ensures ps != [] ==> Symbols(ps)[|ps| - 1] == ps[|ps| - 1].symbol
  {
  }

  /** One pass keeps what the two passes keep. */
  lemma {:induction false} KeptIsDecode(ps: seq<Peak>)
    ensures Symbols(Kept(ps)) == Decode(Symbols(ps))
  {
    hide Kept, Decode, Symbols;
    if ps == [] {
      KeptNothing();
    } else {
      var front, p := ps[..|ps| - 1], ps[|ps| - 1];
      assert ps == front + [p];
      SymbolsLast(front);
      KeptIsDecode(front);
      SymbolsNext(front, p);
      DecodeNext(Symbols(front), p.symbol);
      KeptNext(front, p);
      SymbolsNext(Kept(front), p);
      assert Symbols(Kept(front)) + [] == Symbols(Kept(front)) && Kept(front) + [] == Kept(front);
    }
  }

  // --- Text and confidence ------------------------------------------------------------

  /** A symbol past the dictionary adds no text. */
  function Word(dictionary: seq<string>, x: nat): string {
    if x >= 1 && x - 1 < |dictionary| then dictionary[x - 1] else ""
  }

  function Text(dictionary: seq<string>, letters: seq<nat>): string {
    if letters == [] then "" else Text(dictionary, letters[..|letters| - 1]) + Word(dictionary, letters[|letters| - 1])
  }

  function Sum(ps: seq<Peak>): real {
    if ps == [] then 0.0 else Sum(ps[..|ps| - 1]) + ps[|ps| - 1].prob
  }

  function Average(sum: real, count: nat): real { if count > 0 then sum / count as real else 0.0 }

  function Mean(ps: seq<Peak>): real { Average(Sum(ps), |ps|) }

  /** Class 0 is the blank and adds nothing; class `k + 1` is word `k` of the dictionary,
      and a class past it adds nothing. */
  lemma WordsOfClasses(dictionary: seq<string>, k: nat)
    ensures Decode([0]) == [] && Decode([k + 1]) == [k + 1]
    ensures Text(dictionary, [k + 1]) == if k < |dictionary| then dictionary[k] else ""
  {
    assert [0][..0] == [] && [k + 1][..0] == [];
    DropBlanksNext([], 0);
    DropBlanksNext([], k + 1);
    assert [] + [0] == [0] && [] + [k + 1] == [k + 1];
  }

  /** The text of two labels in a row is the two texts in a row. */
  lemma {:induction false} TextAppends(dictionary: seq<string>, a: seq<nat>, b: seq<nat>)
    ensures Text(dictionary, a + b) == Text(dictionary, a) + Text(dictionary, b)
    decreases |b|
  {
    hide Word;
    if b == [] {
      assert a + b == a;
    } else {
      var n := |b| - 1;
      TextAppends(dictionary, a, b[..n]);
      assert a + b == a + b[..n] + [b[n]];
      TextNext(dictionary, a + b[..n], b[n]);
    }
  }

  lemma TextNext(dictionary: seq<string>, letters: seq<nat>, x: nat)
    ensures Text(dictionary, letters + [x]) == Text(dictionary, letters) + Word(dictionary, x)
  {
    assert (letters + [x])[..|letters|] == letters;
  }

  lemma SumNext(ps: seq<Peak>, p: Peak)
    ensures Sum(ps + [p]) == Sum(ps) + p.prob
  {
    assert (ps + [p])[..|ps|] == ps;
  }

  lemma {:induction false} SumAppends(a: seq<Peak>, b: seq<Peak>)
    ensures Sum(a + b) == Sum(a) + Sum(b)
    decreases |b|
  {
    if b == [] {
      assert a + b == a;
    } else {
      var n := |b| - 1;
      SumAppends(a, b[..n]);
      assert a + b == a + b[..n] + [b[n]];
      SumNext(a + b[..n], b[n]);
    }
  }

  /** The mean is the total over the count, and one frame's total is its own score. */
  lemma MeanIsTotalOverCount(ps: seq<Peak>, p: Peak)
    ensures Mean(ps) * |ps| as real == Sum(ps) && Sum([p]) == p.prob && Mean([]) == 0.0
  {
    SumNext([], p);
    assert [] + [p] == [p];
    if ps != [] {
      var n := |ps| as real;
      assert Sum(ps) / n * n == Sum(ps);
    }
  }

  function Scaled(a: real, n: nat): real { a * n as real }

  lemma Distribute(a: real, n: nat)
    ensures Scaled(a, n + 1) == Scaled(a, n) + a
  {
    assert (n + 1) as real == n as real + 1.0;
  }

  lemma ScaledZero(a: real, b: real)
    ensures Scaled(a, 0) == 0.0 == Scaled(b, 0)
  {
  }

  lemma {:induction false} SumBetween(ps: seq<Peak>, lo: real, hi: real)
    requires forall p <- ps :: lo <= p.prob <= hi
    ensures Scaled(lo, |ps|) <= Sum(ps) <= Scaled(hi, |ps|)
  {
    hide Scaled;
    if ps == [] {
      ScaledZero(lo, hi);
    } else {
      var n := |ps| - 1;
      assert forall p <- ps[..n] :: p in ps;
      SumBetween(ps[..n], lo, hi);
      assert ps[n] in ps;
      Distribute(lo, n);
      Distribute(hi, n);
    }
  }

  /** The mean lies between the least and the greatest kept probability. */
  lemma MeanBetween(ps: seq<Peak>, lo: real, hi: real)
    requires ps != [] && forall p <- ps :: lo <= p.prob <= hi
    ensures lo <= Mean(ps) <= hi
  {
    hide Sum;
    SumBetween(ps, lo, hi);
    Divides(Sum(ps), |ps|, lo, hi);
  }

  lemma Divides(sum: real, n: nat, lo: real, hi: real)
    requires n > 0 && Scaled(lo, n) <= sum <= Scaled(hi, n)
    ensures lo <= sum / n as real <= hi
  {
    var d := n as real;
    var q := sum / d;
    assert q * d == sum;
    if q < lo { Below(q, lo, d); }
    if hi < q { Below(hi, q, d); }
  }

  lemma Below(a: real, b: real, n: real)
    requires a < b && n > 0.0
    ensures a * n < b * n
  {
  }

  // --- The decoder --------------------------------------------------------------------

  method BestOf(logits: seq<real>, start: nat, classes: nat) returns (index: nat, prob: real)
    requires classes > 0 && start + classes <= |logits|
    ensures index < classes && Peak(index, prob) == PeakOf(logits[start..start + classes])
  {
    ghost var row := logits[start..start + classes];
    index, prob := 0, logits[start];
    for c := 1 to classes
      invariant index < c && prob == row[index] && IsArgMax(row[..c], index)
    {
      assert row[c] == logits[start + c];
      if logits[start + c] > prob {
        prob, index := logits[start + c], c;
      }
    }
    assert row[..classes] == row;
    ArgMaxUnique(row, index);
  }

  /** The whole result for a matrix of scores. */
  function Expected(logits: seq<real>, rows: nat, classes: nat, dictionary: seq<string>): (string, real)
    requires classes > 0 && Start(rows, classes) <= |logits|
  {
    var ps := Peaks(logits, rows, classes);
    (Text(dictionary, Decode(Symbols(ps))), Mean(Kept(ps)))
  }

  /** What the decoder holds after the peaks `ps`. */
  predicate Scanned(ps: seq<Peak>, dictionary: seq<string>, text: string, sum: real, kept: nat, prev: int) {
    && text == Text(dictionary, Symbols(Kept(ps)))
    && sum == Sum(Kept(ps)) && kept == |Kept(ps)|
    && prev == if ps == [] then -1 else ps[|ps| - 1].symbol
  }

  lemma ScannedSkip(ps: seq<Peak>, p: Peak, dictionary: seq<string>, text: string, sum: real, kept: nat, prev: int)
    requires Scanned(ps, dictionary, text, sum, kept, prev)
    requires p.symbol == BLANK || p.symbol == prev
    ensures Scanned(ps + [p], dictionary, text, sum, kept, p.symbol)
  {
    hide Kept, Symbols, Text, Sum;
    KeptNext(ps, p);
    assert Kept(ps) + [] == Kept(ps);
  }

  lemma ScannedKeep(ps: seq<Peak>, p: Peak, dictionary: seq<string>, text: string, sum: real, kept: nat, prev: int)
    requires Scanned(ps, dictionary, text, sum, kept, prev)
    requires p.symbol != BLANK && p.symbol != prev
    ensures Scanned(ps + [p], dictionary, text + Word(dictionary, p.symbol), sum + p.prob, kept + 1, p.symbol)
  {
    hide Kept, Symbols, Text, Sum;
    KeptNext(ps, p);
    SymbolsNext(Kept(ps), p);
    TextNext(dictionary, Symbols(Kept(ps)), p.symbol);
    SumNext(Kept(ps), p);
  }

  lemma ScannedAll(logits: seq<real>, rows: nat, classes: nat, dictionary: seq<string>, text: string, sum: real,
                   kept: nat, prev: int)
    requires classes > 0 && Start(rows, classes) <= |logits|
    requires Scanned(Peaks(logits, rows, classes), dictionary, text, sum, kept, prev)
    ensures (text, Average(sum, kept)) == Expected(logits, rows, classes, dictionary)
  {
    KeptIsDecode(Peaks(logits, rows, classes));
  }

  lemma NothingScanned(logits: seq<real>, classes: nat, dictionary: seq<string>)
    requires classes > 0
    ensures Peaks(logits, 0, classes) == [] && Scanned([], dictionary, "", 0.0, 0, -1)
  {
  }

  lemma WordAt(dictionary: seq<string>, x: nat)
    requires x >= 1
    ensures Word(dictionary, x) == if x - 1 < |dictionary| then dictionary[x - 1] else ""
  {
  }

  method GreedyDecode(logits: seq<real>, seqLen: int, numClasses: int, dictionary: seq<string>)
    returns (text: string, meanConfidence: real)
    requires seqLen > 0 && numClasses > 0 ==> |logits| >= Start(seqLen, numClasses)
    ensures seqLen <= 0 || numClasses <= 0 ==> text == "" && meanConfidence == 0.0
    ensures seqLen > 0 && numClasses > 0 ==> (text, meanConfidence) == Expected(logits, seqLen, numClasses, dictionary)
  {
    hide Expected, PeakOf, Start, Average, Scanned, Peaks, Row, Word;
    if seqLen <= 0 || numClasses <= 0 {
      return "", 0.0;
    }
    text := "";
    var sum, kept := 0.0, 0;
    var prev: int := -1;
    ghost var ps: seq<Peak> := [];
    NothingScanned(logits, numClasses, dictionary);
    for t := 0 to seqLen
      invariant Start(t, numClasses) <= |logits| && ps == Peaks(logits, t, numClasses)
      invariant Scanned(ps, dictionary, text, sum, kept, prev)
    {
      PeaksNext(logits, seqLen, t, numClasses);
      var index, prob := BestOf(logits, Start(t, numClasses), numClasses);
      ghost var p := Peak(index, prob);
      if index == 0 || index == prev {
        ScannedSkip(ps, p, dictionary, text, sum, kept, prev);
        prev, ps := index, ps + [p];
        continue;
      }
      ScannedKeep(ps, p, dictionary, text, sum, kept, prev);
      WordAt(dictionary, index);
      var pos := index - 1;
      if pos < |dictionary| {
        text := text + dictionary[pos];
      } else {
        assert text + "" == text;
      }
      sum := sum + prob;
      kept := kept + 1;
      prev, ps := index, ps + [p];
    }
    ScannedAll(logits, seqLen, numClasses, dictionary, text, sum, kept, prev);
    meanConfidence := Average(sum, kept);
  }

  /** The confidence reported for a matrix is 0 if no frame is kept, and otherwise lies
      between any bounds on the kept probabilities. */
  lemma ConfidenceBetween(logits: seq<real>, rows: nat, classes: nat, dictionary: seq<string>, lo: real, hi: real)
    requires classes > 0 && Start(rows, classes) <= |logits|
    requires forall p <- Kept(Peaks(logits, rows, classes)) :: lo <= p.prob <= hi
    ensures var conf := Expected(logits, rows, classes, dictionary).1;
            if Kept(Peaks(logits, rows, classes)) == [] then conf == 0.0 else lo <= conf <= hi
  {
    var ps := Kept(Peaks(logits, rows, classes));
    if ps != [] {
      MeanBetween(ps, lo, hi);
    }
  }

  // --- Alignments ---------------------------------------------------------------------

  function Times(x: nat, k: nat): seq<nat> { seq(k, _ => x) }

  /** How a label is spread over frames: each symbol lasts `reps` frames, with `pads`
      blanks before, between and after; equal neighbours have a blank between. */
  predicate Spreads(letters: seq<nat>, reps: seq<nat>, pads: seq<nat>) {
    && |reps| == |letters| && |pads| == |letters| + 1
    && (forall i | 0 <= i < |letters| :: letters[i] != BLANK && reps[i] >= 1)
    && (forall i | 0 < i < |letters| :: letters[i - 1] == letters[i] ==> pads[i] >= 1)
  }

  function Spread(letters: seq<nat>, reps: seq<nat>, pads: seq<nat>): seq<nat>
    requires |reps| == |letters| && |pads| == |letters| + 1
  {
    if letters == [] then Times(BLANK, pads[0])
    else
      var n := |letters| - 1;
      Spread(letters[..n], reps[..n], pads[..n + 1]) + Times(letters[n], reps[n]) + Times(BLANK, pads[n + 1])
  }

  lemma TimesNext(path: seq<nat>, x: nat, k: nat)
    ensures path + Times(x, k) == if k == 0 then path else path + Times(x, k - 1) + [x]
  {
    if k > 0 {
      assert Times(x, k) == Times(x, k - 1) + [x];
    }
  }

  lemma TimesEnds(path: seq<nat>, x: nat, k: nat)
    ensures k == 0 ==> path + Times(x, k) == path
    ensures k > 0 ==> path + Times(x, k) != [] && (path + Times(x, k))[|path + Times(x, k)| - 1] == x
  {
  }

  lemma {:induction false} DecodeTimes(path: seq<nat>, x: nat, k: nat)
    ensures Decode(path + Times(x, k)) ==
              Decode(path) +
              if x == BLANK || k == 0 || (path != [] && path[|path| - 1] == x) then [] else [x]
  {
    hide Decode, Times;
    TimesNext(path, x, k);
    if k > 0 {
      DecodeTimes(path, x, k - 1);
      TimesEnds(path, x, k - 1);
      DecodeNext(path + Times(x, k - 1), x);
    }
  }

  /** The last frame of a spread is blank if it ends in padding, else the last symbol. */
  lemma SpreadEnds(letters: seq<nat>, reps: seq<nat>, pads: seq<nat>)
    requires Spreads(letters, reps, pads)
    ensures var path := Spread(letters, reps, pads);
            if pads[|letters|] > 0 then path != [] && path[|path| - 1] == BLANK
            else if letters == [] then path == []
            else path != [] && path[|path| - 1] == letters[|letters| - 1]
  {
  }

  lemma SpreadsFront(letters: seq<nat>, reps: seq<nat>, pads: seq<nat>)
    requires Spreads(letters, reps, pads) && letters != []
    ensures Spreads(letters[..|letters| - 1], reps[..|letters| - 1], pads[..|letters|])
  {
  }

  /** Every alignment of a label decodes to the label. */
  lemma {:induction false} DecodeSpread(letters: seq<nat>, reps: seq<nat>, pads: seq<nat>)
    requires Spreads(letters, reps, pads)
    ensures Decode(Spread(letters, reps, pads)) == letters
  {
    if letters == [] {
      DecodeTimes([], BLANK, pads[0]);
      assert [] + Times(BLANK, pads[0]) == Times(BLANK, pads[0]);
    } else {
      var n := |letters| - 1;
      SpreadsFront(letters, reps, pads);
      hide Decode, Times, Spreads;
      var front := Spread(letters[..n], reps[..n], pads[..n + 1]);
      DecodeSpread(letters[..n], reps[..n], pads[..n + 1]);
      SpreadEnds(letters[..n], reps[..n], pads[..n + 1]);
      assert pads[..n + 1][n] == pads[n];
      DecodeTimes(front, letters[n], reps[n]);
      DecodeTimes(front + Times(letters[n], reps[n]), BLANK, pads[n + 1]);
      assert letters == letters[..n] + [letters[n]];
    }
  }

  lemma PadMore(letters: seq<nat>, reps: seq<nat>, pads: seq<nat>)
    requires Spreads(letters, reps, pads)
    ensures var more := pads[|letters| := pads[|letters|] + 1];
            Spreads(letters, reps, more) && Spread(letters, reps, more) == Spread(letters, reps, pads) + [BLANK]
  {
    var n := |letters|;
    var more := pads[n := pads[n] + 1];
    assert Times(BLANK, pads[n] + 1) == Times(BLANK, pads[n]) + [BLANK];
    assert more[..n] == pads[..n];
  }

  lemma RepeatMore(letters: seq<nat>, reps: seq<nat>, pads: seq<nat>)
    requires Spreads(letters, reps, pads) && letters != [] && pads[|letters|] == 0
    ensures var more := reps[|letters| - 1 := reps[|letters| - 1] + 1];
            && Spreads(letters, more, pads)
            && Spread(letters, more, pads) == Spread(letters, reps, pads) + [letters[|letters| - 1]]
  {
    var n := |letters| - 1;
    var more := reps[n := reps[n] + 1];
    assert Times(letters[n], reps[n] + 1) == Times(letters[n], reps[n]) + [letters[n]];
    assert more[..n] == reps[..n];
  }

  lemma SymbolMore(letters: seq<nat>, reps: seq<nat>, pads: seq<nat>, x: nat)
    requires Spreads(letters, reps, pads) && x != BLANK
    requires letters != [] && letters[|letters| - 1] == x ==> pads[|letters|] >= 1
    ensures Spreads(letters + [x], reps + [1], pads + [0])
    ensures Spread(letters + [x], reps + [1], pads + [0]) == Spread(letters, reps, pads) + [x]
  {
    var n := |letters|;
    assert (letters + [x])[..n] == letters && (reps + [1])[..n] == reps && (pads + [0])[..n + 1] == pads;
    assert Times(x, 1) == [x] && Times(BLANK, 0) == [];
  }

  lemma SpreadNothing()
    ensures Decode([]) == [] && Spreads([], [], [0]) && Spread([], [], [0]) == []
  {
  }

  lemma SpreadsSizes(letters: seq<nat>, reps: seq<nat>, pads: seq<nat>)
    requires Spreads(letters, reps, pads)
    ensures |reps| == |letters| && |pads| == |letters| + 1
  {
  }

  /** And every path is an alignment of what it decodes to.  So a path decodes to a
      label if and only if it is one of the label's alignments. */
  lemma {:induction false} EveryPathIsSpread(path: seq<nat>) returns (reps: seq<nat>, pads: seq<nat>)
    ensures Spreads(Decode(path), reps, pads) && Spread(Decode(path), reps, pads) == path
  {
    hide Decode, Spread, Spreads;
    if path == [] {
      reps, pads := [], [0];
      SpreadNothing();
    } else {
      var front, x := path[..|path| - 1], path[|path| - 1];
      var letters := Decode(front);
      reps, pads := EveryPathIsSpread(front);
      DecodeNext(front, x);
      SpreadEnds(letters, reps, pads);
      SpreadsSizes(letters, reps, pads);
      assert path == front + [x];
      assert letters + [] == letters;
      if x == BLANK {
        PadMore(letters, reps, pads);
        pads := pads[|letters| := pads[|letters|] + 1];
      } else if front != [] && front[|front| - 1] == x {
        RepeatMore(letters, reps, pads);
        reps := reps[|letters| - 1 := reps[|letters| - 1] + 1];
      } else {
        SymbolMore(letters, reps, pads, x);
        reps, pads := reps + [1], pads + [0];
      }
    }
  }

  /** Scores whose best classes follow any alignment of a label read as that label. */
  lemma AlignmentReads(logits: seq<real>, rows: nat, classes: nat, dictionary: seq<string>,
                       letters: seq<nat>, reps: seq<nat>, pads: seq<nat>)
    requires classes > 0 && Start(rows, classes) <= |logits| && Spreads(letters, reps, pads)
    requires Symbols(Peaks(logits, rows, classes)) == Spread(letters, reps, pads)
    ensures Expected(logits, rows, classes, dictionary).0 == Text(dictionary, letters)
  {
    DecodeSpread(letters, reps, pads);
  }
}
