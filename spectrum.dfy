/** The spectral pipeline of the render loop: the ticker's decibel clamp,
    the resampling of the analyser's spectrum into 96 visual bins, the
    history ring and its percentile gain control, the four features
    (softmax, z-score, flux, local contrast), their mix, the attack/decay
    envelopes and the band levels that drive the kick, the high-band
    envelope and the spin of the ring's colour pattern. */
module Spectrum {
  import opened Numeric
  import opened Transcendental

  const VisBins: int := 96
  const FftSize: int := 2048
  /** `analyser.frequencyBinCount`, the length of the spectrum buffer. */
  const FrequencyBinCount: int := FftSize / 2
  const History: int := 60
  /** The level `prevDbBins` and the history rows start at. */
  const SilenceDb: real := -120.0
  const AttackTc: real := 0.025
  const DecayTc: real := 0.16
  const SoftmaxTau: real := 0.6
  /** The starting value of the running maximum in the softmax. */
  const SoftmaxFloor: real := -1000000000.0
  /** The floor of the standard deviation and of the largest z-score. */
  const Epsilon: real := 0.000001

  /** One entry of the analyser's `Float32Array`; the analyser may write
      non-finite values (`-Infinity` for silent bins). */
  datatype Sample = Finite(db: real) | NonFinite

  // ---------------------------------------------------------------- clamp

  /** The ticker's per-entry clamp: non-finite entries become `minDb`,
      finite ones are clamped into [minDb, maxDb]. */
  function ClampSample(v: Sample, minDb: real, maxDb: real): (r: Sample)
    ensures r.Finite?
    ensures minDb <= maxDb ==> minDb <= r.db <= maxDb
    ensures v.NonFinite? ==> r.db == minDb
    ensures v.Finite? && minDb <= v.db <= maxDb ==> r == v
  {
    match v
    case NonFinite => Finite(minDb)
    case Finite(d) =>
      if d < minDb then Finite(minDb)
      else if d > maxDb then Finite(maxDb)
      else v
  }

  /** Clamping twice is clamping once. */
  lemma ClampIdempotent(v: Sample, minDb: real, maxDb: real)
    requires minDb <= maxDb
    ensures ClampSample(ClampSample(v, minDb, maxDb), minDb, maxDb) == ClampSample(v, minDb, maxDb)
  {
  }

  /** The ticker's in-place clamp of the spectrum buffer. */
  method ClampDecibels(a: array<Sample>, minDb: real, maxDb: real)
    modifies a
    ensures forall i :: 0 <= i < a.Length ==> a[i] == ClampSample(old(a[i]), minDb, maxDb)
  {
    for i := 0 to a.Length
      invariant forall j :: 0 <= j < i ==> a[j] == ClampSample(old(a[j]), minDb, maxDb)
      invariant forall j :: i <= j < a.Length ==> a[j] == old(a[j])
    {
      var v := a[i];
      if v.NonFinite? {
        a[i] := Finite(minDb);
      } else if v.db < minDb {
        a[i] := Finite(minDb);
      } else if v.db > maxDb {
        a[i] := Finite(maxDb);
      }
    }
  }

  /** The decibel values of a buffer whose entries are all finite. */
  function Decibels(a: seq<Sample>): (r: seq<real>)
    requires forall i :: 0 <= i < |a| ==> a[i].Finite?
    ensures |r| == |a|
  {
    seq(|a|, i requires 0 <= i < |a| => a[i].db)
  }

  // ------------------------------------------------------------- resample

  /** Half the buffer length (at least 1): only the lower half of the
      spectrum is displayed. */
  function HalfLen(len: int): (h: int)
    ensures 1 <= h
    ensures 2 <= len ==> 2 * h <= len
  {
    IntMax(1, len / 2)
  }

  /** The first spectrum index of visual bin `b`: the bins are spread over
      the spectrum along the curve `1 + (halfLen - 1) * (b / 95)^1.8`. */
  function WindowStart(m: Maths, halfLen: int, b: int): (k0: int)
    ensures 1 <= k0
  {
    var t := b as real / (VisBins - 1) as real;
    var kf := 1.0 + (halfLen - 1) as real * m.pow(t, 1.8);
    IntMax(1, kf.Floor)
  }

  /** The last spectrum index of a window: three entries, cut at `halfLen - 1`. */
  function WindowEnd(k0: int, halfLen: int): (k1: int)
    ensures k1 <= halfLen - 1
    ensures k1 <= k0 + 2
  {
    IntMin(halfLen - 1, k0 + 2)
  }

  /** The value of visual bin `b`: the mean of its window, or 0 when the
      window is empty. Every index read lies in [1, halfLen - 1]. */
  function BinValue(m: Maths, freq: seq<real>, b: int): real
  {
    var halfLen := HalfLen(|freq|);
    var k0 := WindowStart(m, halfLen, b);
    var k1 := WindowEnd(k0, halfLen);
    if k0 > k1 then 0.0 else Sum(freq[k0..k1 + 1]) / (k1 - k0 + 1) as real
  }

  function Resampled(m: Maths, freq: seq<real>): (r: seq<real>)
    ensures |r| == VisBins
  {
    seq(VisBins, b requires 0 <= b < VisBins => BinValue(m, freq, b))
  }

  /** The resampling loop of the render step. */
  method ResampleBins(m: Maths, freq: array<Sample>) returns (dbBins: seq<real>)
    requires forall i :: 0 <= i < freq.Length ==> freq[i].Finite?
    ensures dbBins == Resampled(m, Decibels(freq[..]))
  {
    var halfLen := HalfLen(freq.Length);
    dbBins := [];
    for b := 0 to VisBins
      invariant |dbBins| == b
      invariant forall j :: 0 <= j < b ==> dbBins[j] == BinValue(m, Decibels(freq[..]), j)
    {
      var v := WindowAverage(m, freq, halfLen, b);
      dbBins := dbBins + [v];
    }
  }

  /** The body of the resampling loop for one bin: the mean over the
      bin's window, or 0 for an empty window. */
  method WindowAverage(m: Maths, freq: array<Sample>, halfLen: int, b: int) returns (v: real)
    requires forall i :: 0 <= i < freq.Length ==> freq[i].Finite?
    requires halfLen == HalfLen(freq.Length)
    ensures v == BinValue(m, Decibels(freq[..]), b)
  {
    var t := b as real / (VisBins - 1) as real;
    var kf := 1.0 + (halfLen - 1) as real * m.pow(t, 1.8);
    var k0 := IntMax(1, kf.Floor);
    var k1 := IntMin(halfLen - 1, k0 + 2);
    assert k0 == WindowStart(m, halfLen, b) && k1 == WindowEnd(k0, halfLen);
    var sum, count := WindowSum(freq, k0, k1);
    v := sum / IntMax(1, count) as real;
    if k0 <= k1 {
      assert IntMax(1, count) == k1 - k0 + 1;
    }
  }

  /** The inner loop of the resampling: the sum of the window's entries and
      how many there are. */
  method WindowSum(freq: array<Sample>, k0: int, k1: int) returns (sum: real, count: int)
    requires forall i :: 0 <= i < freq.Length ==> freq[i].Finite?
    requires 1 <= k0 && (k0 <= k1 ==> k1 < freq.Length)
    ensures k0 <= k1 ==> count == k1 - k0 + 1 && sum == Sum(Decibels(freq[..])[k0..k1 + 1])
    ensures k0 > k1 ==> count == 0 && sum == 0.0
  {
    ghost var values := Decibels(freq[..]);
    sum, count := 0.0, 0;
    var k := k0;
    while k <= k1
      invariant k0 <= k && (k0 <= k1 ==> k <= k1 + 1)
      invariant count == k - k0
      invariant k0 <= k1 ==> sum == Sum(values[k0..k])
      invariant k0 > k1 ==> k == k0 && sum == 0.0
    {
      SumSliceStep(values, k0, k);
      assert values[k] == freq[k].db;
      sum := sum + freq[k].db;
      count := count + 1;
      k := k + 1;
    }
  }

  /** The top bin's window always starts past `halfLen - 1`, so the top bin
      is 0 whatever the spectrum holds. */
  lemma LastBinEmpty(m: Maths, freq: seq<real>)
    requires Lawful(m)
    ensures Resampled(m, freq)[VisBins - 1] == 0.0
  {
    var halfLen := HalfLen(|freq|);
    assert (VisBins - 1) as real / (VisBins - 1) as real == 1.0;
    assert m.pow(1.0, 1.8) == 1.0;
    assert WindowStart(m, halfLen, VisBins - 1) == halfLen;
  }

  /** Every other bin averages a non-empty window, so a spectrum clamped to
      [lo, hi] gives bins in [lo, hi] below the top one. */
  lemma {:induction false} ResampleBounded(m: Maths, freq: seq<real>, lo: real, hi: real)
    requires Lawful(m) && 4 <= |freq|
    requires forall i :: 0 <= i < |freq| ==> lo <= freq[i] <= hi
    ensures forall b :: 0 <= b < VisBins - 1 ==> lo <= Resampled(m, freq)[b] <= hi
  {
    forall b | 0 <= b < VisBins - 1
      ensures lo <= Resampled(m, freq)[b] <= hi
    {
      var halfLen := HalfLen(|freq|);
      var k0 := WindowStart(m, halfLen, b);
      var k1 := WindowEnd(k0, halfLen);
      WindowNonEmpty(m, halfLen, b);
      var w := freq[k0..k1 + 1];
      assert forall i :: 0 <= i < |w| ==> w[i] == freq[k0 + i];
      MeanBounds(w, lo, hi);
    }
  }

  /** Below the top bin the window start stays at most `halfLen - 1`. */
  lemma WindowNonEmpty(m: Maths, halfLen: int, b: int)
    requires Lawful(m) && 2 <= halfLen && 0 <= b < VisBins - 1
    ensures WindowStart(m, halfLen, b) <= halfLen - 1
  {
    var t := b as real / (VisBins - 1) as real;
    var p := m.pow(t, 1.8);
    assert 0.0 <= t < 1.0;
    assert 0.0 <= p < 1.0;
    var d := (halfLen - 1) as real;
    MulStrict(p, 1.0, d);
    assert d * p < d;
    var kf := 1.0 + d * p;
    assert kf < halfLen as real;
  }

  // ------------------------------------------------------ history and AGC

  /** Column `b` of the history ring: bin `b` over the last 60 frames. */
  function Column(rows: seq<seq<real>>, b: int): (c: seq<real>)
    requires 0 <= b && forall i :: 0 <= i < |rows| ==> b < |rows[i]|
    ensures |c| == |rows|
  {
    seq(|rows|, i requires 0 <= i < |rows| => rows[i][b])
  }

  predicate SortedAsc(s: seq<real>)
  {
    forall i, j :: 0 <= i <= j < |s| ==> s[i] <= s[j]
  }

  /** Prepending an element no larger than the head keeps a sequence ascending. */
  lemma PrependSorted(a: real, t: seq<real>)
    requires SortedAsc(t) && (0 < |t| ==> a <= t[0])
    ensures SortedAsc([a] + t)
  {
    var r := [a] + t;
    forall i, j | 0 <= i <= j < |r|
      ensures r[i] <= r[j]
    {
      if i == 0 && 0 < j {
        assert t[0] <= t[j - 1];
      }
    }
  }

  /** Inserts `x` into an ascending sequence; the result starts with the
      smaller of `x` and the old head. */
  function Insert(x: real, s: seq<real>): (r: seq<real>)
    requires SortedAsc(s)
    ensures |r| == |s| + 1
    ensures multiset(r) == multiset(s) + multiset{x}
    ensures SortedAsc(r)
    ensures r[0] == (if 0 < |s| && s[0] < x then s[0] else x)
  {
    if |s| == 0 then [x]
    else if x <= s[0] then
      PrependSorted(x, s);
      [x] + s
    else
      assert s == [s[0]] + s[1..];
      var tail := Insert(x, s[1..]);
      assert 1 < |s| ==> s[0] <= s[1];
      PrependSorted(s[0], tail);
      [s[0]] + tail
  }

  /** `column.sort((a, c) => a - c)`: the ascending arrangement of the
      column, which is the same whichever sorting algorithm produces it. */
  function SortAscending(s: seq<real>): (r: seq<real>)
    ensures |r| == |s|
    ensures multiset(r) == multiset(s)
    ensures SortedAsc(r)
  {
    if |s| == 0 then []
    else
      assert s == s[..|s| - 1] + [s[|s| - 1]];
      Insert(s[|s| - 1], SortAscending(s[..|s| - 1]))
  }

  /** `Math.floor(0.10 * (HISTORY - 1))` and `Math.floor(0.90 * (HISTORY - 1))`,
      that is 5 and 53. */
  const P10Index: int := (0.10 * (History - 1) as real).Floor
  const P90Index: int := (0.90 * (History - 1) as real).Floor

  /** The 10th and 90th percentiles of a history column. */
  function P10(column: seq<real>): real
    requires |column| == History
  {
    assert P10Index == 5 && P90Index == 53;
    SortAscending(column)[P10Index]
  }

  function P90(column: seq<real>): real
    requires |column| == History
  {
    assert P10Index == 5 && P90Index == 53;
    SortAscending(column)[P90Index]
  }

  /** The spread between the percentiles, never below 6 dB. */
  function Span(column: seq<real>): (span: real)
    requires |column| == History
    ensures 6.0 <= span && P90(column) - P10(column) <= span
  {
    Max(6.0, P90(column) - P10(column))
  }

  /** The gain-controlled level of a bin: how far its current value sits
      above the column's 10th percentile, in units of the span. */
  function AgcValue(column: seq<real>, x: real): (agc: real)
    requires |column| == History
    ensures 0.0 <= agc
    ensures x <= P10(column) ==> agc == 0.0
  {
    Max(0.0, (x - P10(column)) / Span(column))
  }

  predicate IsRing(rows: seq<seq<real>>)
  {
    |rows| == History && forall i :: 0 <= i < |rows| ==> |rows[i]| == VisBins
  }

  function AgcBins(rows: seq<seq<real>>, db: seq<real>): (agc: seq<real>)
    requires IsRing(rows) && |db| == VisBins
    ensures |agc| == VisBins
  {
    seq(VisBins, b requires 0 <= b < VisBins => AgcValue(Column(rows, b), db[b]))
  }

  /** The percentiles are ordered and are entries of the column. */
  lemma PercentilesOrdered(column: seq<real>)
    requires |column| == History
    ensures P10(column) <= P90(column)
    ensures P10(column) in column && P90(column) in column
  {
    var sorted := SortAscending(column);
    assert P10Index == 5 && P90Index == 53;
    assert sorted[P10Index] in multiset(sorted);
    assert sorted[P90Index] in multiset(sorted);
  }

  /** A column that has held the same level for the whole history gives a
      gain-controlled level of 0 for the frame just written into it. */
  lemma AgcOfConstantColumn(rows: seq<seq<real>>, db: seq<real>, w: int, b: int, level: real)
    requires IsRing(rows) && |db| == VisBins
    requires 0 <= w < History && rows[w] == db
    requires 0 <= b < VisBins
    requires forall i :: 0 <= i < History ==> rows[i][b] == level
    ensures AgcBins(rows, db)[b] == 0.0
  {
    var column := Column(rows, b);
    PercentilesOrdered(column);
    assert column[w] == db[b] == level;
    assert P10(column) == level;
  }

  /** The AGC loop: gathers each column of the history, sorts it and scales
      the current bin by its percentiles. */
  method ComputeAgc(history: array<seq<real>>, dbBins: seq<real>) returns (agcBins: seq<real>)
    requires IsRing(history[..]) && |dbBins| == VisBins
    ensures agcBins == AgcBins(history[..], dbBins)
  {
    assert P10Index == 5 && P90Index == 53;
    agcBins := [];
    for b := 0 to VisBins
      invariant |agcBins| == b
      invariant forall j :: 0 <= j < b ==> agcBins[j] == AgcValue(Column(history[..], j), dbBins[j])
    {
      var column := GatherColumn(history, b);
      var sorted := SortAscending(column);
      var p10 := sorted[P10Index];
      var p90 := sorted[P90Index];
      var span := Max(6.0, p90 - p10);
      var agc := Max(0.0, (dbBins[b] - p10) / span);
      assert agc == AgcValue(column, dbBins[b]);
      agcBins := agcBins + [agc];
    }
    assert |agcBins| == |AgcBins(history[..], dbBins)|;
  }

  /** The inner loop of the AGC: copies column `b` out of the history. */
  method GatherColumn(history: array<seq<real>>, b: int) returns (column: seq<real>)
    requires IsRing(history[..]) && 0 <= b < VisBins
    ensures column == Column(history[..], b)
  {
    column := [];
    for i := 0 to History
      invariant |column| == i
      invariant forall k :: 0 <= k < i ==> column[k] == history[k][b]
    {
      column := column + [history[i][b]];
    }
  }

  // -------------------------------------------------------------- softmax

  /** A running maximum started at `init`, as the source's max loops keep it. */
  function MaxFrom(init: real, s: seq<real>): (r: real)
    ensures init <= r
    ensures forall i :: 0 <= i < |s| ==> s[i] <= r
    ensures r == init || exists i :: 0 <= i < |s| && r == s[i]
  {
    if |s| == 0 then init else Max(MaxFrom(init, s[..|s| - 1]), s[|s| - 1])
  }

  /** One more step of a running maximum. */
  lemma MaxFromStep(init: real, s: seq<real>, i: int)
    requires 0 <= i < |s|
    ensures MaxFrom(init, s[..i + 1]) == Max(MaxFrom(init, s[..i]), s[i])
  {
    assert s[..i + 1][..i] == s[..i];
  }

  /** The unnormalised softmax terms `exp((db - maxDb) / tau)`. */
  function SoftTerms(m: Maths, db: seq<real>, maxDb: real): (t: seq<real>)
    ensures |t| == |db|
  {
    seq(|db|, b requires 0 <= b < |db| => m.exp((db[b] - maxDb) / SoftmaxTau))
  }

  /** `softSum || 1`: a zero total divides by 1 instead. */
  function Normaliser(total: real): (d: real)
    ensures d != 0.0
  {
    if total == 0.0 then 1.0 else total
  }

  function Softmax(m: Maths, db: seq<real>): (r: seq<real>)
    ensures |r| == |db|
  {
    var terms := SoftTerms(m, db, MaxFrom(SoftmaxFloor, db));
    var d := Normaliser(Sum(terms));
    seq(|db|, b requires 0 <= b < |db| => terms[b] / d)
  }

  /** Every softmax weight lies in [0, 1]. */
  lemma {:induction false} SoftmaxInUnit(m: Maths, db: seq<real>)
    requires Lawful(m)
    ensures forall b :: 0 <= b < |db| ==> 0.0 <= Softmax(m, db)[b] <= 1.0
  {
    var maxDb := MaxFrom(SoftmaxFloor, db);
    var terms := SoftTerms(m, db, maxDb);
    SoftTermsInUnit(m, db, maxDb);
    SumNonNegative(terms);
    forall b | 0 <= b < |db|
      ensures 0.0 <= Softmax(m, db)[b] <= 1.0
    {
      TermAtMostSum(terms, b);
      if Sum(terms) != 0.0 {
        DivUnit(terms[b], Sum(terms));
      }
    }
  }

  /** The terms are exponentials of non-positive numbers. */
  lemma SoftTermsInUnit(m: Maths, db: seq<real>, maxDb: real)
    requires Lawful(m) && maxDb == MaxFrom(SoftmaxFloor, db)
    ensures forall b :: 0 <= b < |db| ==> 0.0 <= SoftTerms(m, db, maxDb)[b] <= 1.0
  {
    forall b | 0 <= b < |db|
      ensures 0.0 <= SoftTerms(m, db, maxDb)[b] <= 1.0
    {
      assert (db[b] - maxDb) / SoftmaxTau <= 0.0;
    }
  }

  /** Once some bin reaches the running maximum's starting value, the
      largest bin contributes exp(0) = 1, the total is positive and the
      weights sum to exactly 1. */
  lemma SoftmaxSumsToOne(m: Maths, db: seq<real>, b0: int)
    requires Lawful(m)
    requires 0 <= b0 < |db| && SoftmaxFloor <= db[b0]
    ensures Sum(Softmax(m, db)) == 1.0
  {
    var terms := SoftTerms(m, db, MaxFrom(SoftmaxFloor, db));
    SoftTotalPositive(m, db, b0);
    var total := Sum(terms);
    assert Normaliser(total) == total;
    NormalisedSum(terms, Softmax(m, db), total);
  }

  lemma SoftTotalPositive(m: Maths, db: seq<real>, b0: int)
    requires Lawful(m)
    requires 0 <= b0 < |db| && SoftmaxFloor <= db[b0]
    ensures 1.0 <= Sum(SoftTerms(m, db, MaxFrom(SoftmaxFloor, db)))
  {
    var maxDb := MaxFrom(SoftmaxFloor, db);
    var terms := SoftTerms(m, db, maxDb);
    SoftTermsInUnit(m, db, maxDb);
    var top := ArgMax(db, b0);
    TopTermIsOne(m, db, maxDb, top);
    TermAtMostSum(terms, top);
  }

  /** The term of a bin at the maximum is exp(0) = 1. */
  lemma TopTermIsOne(m: Maths, db: seq<real>, maxDb: real, top: int)
    requires m.exp(0.0) == 1.0
    requires 0 <= top < |db| && db[top] == maxDb
    ensures SoftTerms(m, db, maxDb)[top] == 1.0
  {
    var arg := (db[top] - maxDb) / SoftmaxTau;
    assert arg == 0.0;
  }

  /** A bin at which the running maximum is reached, given a bin at or above its start. */
  lemma ArgMax(db: seq<real>, b0: int) returns (top: int)
    requires 0 <= b0 < |db| && SoftmaxFloor <= db[b0]
    ensures 0 <= top < |db| && db[top] == MaxFrom(SoftmaxFloor, db)
  {
    var maxDb := MaxFrom(SoftmaxFloor, db);
    top := b0;
    if maxDb != SoftmaxFloor {
      top :| 0 <= top < |db| && maxDb == db[top];
    }
  }

  /** Dividing terms by their positive total gives weights that sum to 1. */
  lemma NormalisedSum(terms: seq<real>, weights: seq<real>, total: real)
    requires total == Sum(terms) && 0.0 < total && |weights| == |terms|
    requires forall i :: 0 <= i < |terms| ==> weights[i] == terms[i] / total
    ensures Sum(weights) == 1.0
  {
    SumScaled(terms, weights, total);
    DivSelf(total);
  }

  /** A running-maximum loop from `init`. */
  method RunningMax(init: real, s: seq<real>) returns (mx: real)
    ensures mx == MaxFrom(init, s)
  {
    mx := init;
    for b := 0 to |s|
      invariant mx == MaxFrom(init, s[..b])
    {
      MaxFromStep(init, s, b);
      if s[b] > mx {
        mx := s[b];
      }
    }
    assert s[..|s|] == s;
  }

  /** The exponentials loop, with their total. */
  method Exponentials(m: Maths, dbBins: seq<real>, maxDb: real) returns (a: array<real>, softSum: real)
    ensures fresh(a)
    ensures a[..] == SoftTerms(m, dbBins, maxDb)
    ensures softSum == Sum(SoftTerms(m, dbBins, maxDb))
  {
    ghost var terms := SoftTerms(m, dbBins, maxDb);
    a := new real[|dbBins|];
    softSum := 0.0;
    for b := 0 to |dbBins|
      invariant forall j :: 0 <= j < b ==> a[j] == terms[j]
      invariant softSum == Sum(terms[..b])
    {
      var e := m.exp((dbBins[b] - maxDb) / SoftmaxTau);
      a[b] := e;
      SumStep(terms, b);
      softSum := softSum + e;
    }
    assert terms[..|dbBins|] == terms;
    assert a[..] == terms;
  }

  /** The softmax loops: the running maximum, the exponentials with their
      total, then the normalisation in place. */
  method ComputeSoftmax(m: Maths, dbBins: seq<real>) returns (soft: seq<real>)
    ensures soft == Softmax(m, dbBins)
  {
    var maxDb := RunningMax(SoftmaxFloor, dbBins);
    var a, softSum := Exponentials(m, dbBins, maxDb);
    ghost var terms := a[..];
    var d := if softSum == 0.0 then 1.0 else softSum;
    for b := 0 to a.Length
      invariant forall j :: 0 <= j < b ==> a[j] == terms[j] / d
      invariant forall j :: b <= j < a.Length ==> a[j] == terms[j]
    {
      a[b] := a[b] / d;
    }
    soft := a[..];
    assert d == Normaliser(Sum(terms));
    ghost var spec := Softmax(m, dbBins);
    assert forall j :: 0 <= j < |dbBins| ==> spec[j] == terms[j] / d;
    assert forall j :: 0 <= j < |dbBins| ==> soft[j] == spec[j];
  }

  // -------------------------------------------------------------- z-score

  function Mean(db: seq<real>): real
    requires |db| == VisBins
  {
    Sum(db) / VisBins as real
  }

  function SquaredDeviations(db: seq<real>, mean: real): (d: seq<real>)
    ensures |d| == |db|
  {
    seq(|db|, b requires 0 <= b < |db| => (db[b] - mean) * (db[b] - mean))
  }

  /** The population standard deviation of the bins, plus 1e-6. */
  function StdDev(m: Maths, db: seq<real>): real
    requires |db| == VisBins
  {
    m.sqrt(Sum(SquaredDeviations(db, Mean(db))) / VisBins as real) + Epsilon
  }

  lemma StdDevPositive(m: Maths, db: seq<real>)
    requires Lawful(m) && |db| == VisBins
    ensures Epsilon <= StdDev(m, db)
  {
    var sq := SquaredDeviations(db, Mean(db));
    forall b | 0 <= b < |sq|
      ensures 0.0 <= sq[b]
    {
      var d := db[b] - Mean(db);
      if d < 0.0 {
        MulMono(d, 0.0, -d);
      } else {
        MulMono(0.0, d, d);
      }
    }
    SumNonNegative(sq);
  }

  /** The z-scores with negative ones cut to 0. */
  function Rectified(db: seq<real>, mean: real, std: real): (z: seq<real>)
    requires std != 0.0
    ensures |z| == |db|
    ensures forall b :: 0 <= b < |db| ==> 0.0 <= z[b]
  {
    seq(|db|, b requires 0 <= b < |db| => Max(0.0, (db[b] - mean) / std))
  }

  /** Rectified z-scores relative to the largest one (at least 1e-6),
      shaped by `pow(., 0.8)` and capped at 1. */
  function Shaped(m: Maths, zRect: seq<real>): (r: seq<real>)
    ensures |r| == |zRect|
  {
    var zMax := MaxFrom(Epsilon, zRect);
    seq(|zRect|, b requires 0 <= b < |zRect| => Min(1.0, m.pow(zRect[b] / zMax, 0.8)))
  }

  function ZScores(m: Maths, db: seq<real>): (r: seq<real>)
    requires Lawful(m) && |db| == VisBins
    ensures |r| == |db|
  {
    StdDevPositive(m, db);
    Shaped(m, Rectified(db, Mean(db), StdDev(m, db)))
  }

  /** Every shaped z-score lies in [0, 1]. */
  lemma ZScoresInUnit(m: Maths, db: seq<real>)
    requires Lawful(m) && |db| == VisBins
    ensures forall b :: 0 <= b < |db| ==> 0.0 <= ZScores(m, db)[b] <= 1.0
  {
    StdDevPositive(m, db);
    var zRect := Rectified(db, Mean(db), StdDev(m, db));
    var zMax := MaxFrom(Epsilon, zRect);
    assert ZScores(m, db) == Shaped(m, zRect);
    forall b | 0 <= b < |db|
      ensures 0.0 <= ZScores(m, db)[b] <= 1.0
    {
      DivUnit(zRect[b], zMax);
      assert 0.0 <= m.pow(zRect[b] / zMax, 0.8) <= 1.0;
    }
  }

  /** The summing loop of the mean. */
  method Total(s: seq<real>) returns (t: real)
    ensures t == Sum(s)
  {
    t := 0.0;
    for b := 0 to |s|
      invariant t == Sum(s[..b])
    {
      SumStep(s, b);
      t := t + s[b];
    }
    assert s[..|s|] == s;
  }

  /** The variance loop: the sum of the squared deviations from `mean`. */
  method SumSquares(dbBins: seq<real>, mean: real) returns (varSum: real)
    ensures varSum == Sum(SquaredDeviations(dbBins, mean))
  {
    ghost var sq := SquaredDeviations(dbBins, mean);
    varSum := 0.0;
    for b := 0 to |dbBins|
      invariant varSum == Sum(sq[..b])
    {
      var d := dbBins[b] - mean;
      assert sq[b] == d * d;
      SumStep(sq, b);
      varSum := varSum + d * d;
    }
    assert sq[..|dbBins|] == sq;
  }

  /** The z-score loops: mean, variance, rectified scores in place, their
      running maximum, then the shaping in place. */
  method ComputeZScores(m: Maths, dbBins: seq<real>) returns (z: seq<real>)
    requires Lawful(m) && |dbBins| == VisBins
    ensures z == ZScores(m, dbBins)
  {
    var mean := Total(dbBins);
    mean := mean / VisBins as real;
    var varSum := SumSquares(dbBins, mean);
    var std := m.sqrt(varSum / VisBins as real) + Epsilon;
    StdDevPositive(m, dbBins);
    assert std == StdDev(m, dbBins);
    assert mean == Mean(dbBins);
    z := RectifyAndShape(m, dbBins, mean, std);
  }

  /** The last three z-score loops: rectified scores into a buffer, their
      running maximum, then the shaping in place. */
  method RectifyAndShape(m: Maths, dbBins: seq<real>, mean: real, std: real) returns (z: seq<real>)
    requires std != 0.0
    ensures z == Shaped(m, Rectified(dbBins, mean, std))
  {
    ghost var rect := Rectified(dbBins, mean, std);
    var n := |dbBins|;
    var zRect := new real[n];
    for b := 0 to n
      invariant forall j :: 0 <= j < b ==> zRect[j] == rect[j]
    {
      zRect[b] := Max(0.0, (dbBins[b] - mean) / std);
    }
    assert zRect[..] == rect;
    var zMax := RunningMax(Epsilon, zRect[..]);
    for b := 0 to n
      invariant forall j :: 0 <= j < b ==> zRect[j] == Min(1.0, m.pow(rect[j] / zMax, 0.8))
      invariant forall j :: b <= j < n ==> zRect[j] == rect[j]
    {
      zRect[b] := Min(1.0, m.pow(zRect[b] / zMax, 0.8));
    }
    z := zRect[..];
    ghost var spec := Shaped(m, rect);
    assert forall j :: 0 <= j < n ==> z[j] == spec[j];
  }

  // ----------------------------------------------------- flux and contrast

  /** The spectral flux of a bin: its rise since the last frame, in units of
      6 dB; a bin that did not rise has no flux. */
  function FluxValue(db: real, prev: real): (f: real)
    ensures 0.0 <= f
    ensures 0.0 < f <==> prev < db
  {
    Max(0.0, (db - prev) / 6.0)
  }

  function Flux(db: seq<real>, prev: seq<real>): (f: seq<real>)
    requires |db| == |prev|
    ensures |f| == |db|
  {
    seq(|db|, b requires 0 <= b < |db| => FluxValue(db[b], prev[b]))
  }

  /** The flux loop, which also remembers this frame's bins for the next. */
  method ComputeFlux(dbBins: seq<real>, prevDbBins: array<real>) returns (flux: seq<real>)
    requires prevDbBins.Length == |dbBins|
    modifies prevDbBins
    ensures flux == Flux(dbBins, old(prevDbBins[..]))
    ensures prevDbBins[..] == dbBins
  {
    flux := [];
    for b := 0 to |dbBins|
      invariant |flux| == b
      invariant forall j :: 0 <= j < b ==> flux[j] == FluxValue(dbBins[j], old(prevDbBins[j]))
      invariant forall j :: 0 <= j < b ==> prevDbBins[j] == dbBins[j]
      invariant forall j :: b <= j < |dbBins| ==> prevDbBins[j] == old(prevDbBins[j])
    {
      var df := dbBins[b] - prevDbBins[b];
      flux := flux + [Max(0.0, df / 6.0)];
      prevDbBins[b] := dbBins[b];
    }
  }

  /** The neighbourhood radius of the contrast feature. */
  const ContrastRadius: int := 2

  /** A neighbour index clamped into the bins. */
  function NeighbourIndex(b: int, r: int): (j: int)
    ensures 0 <= j < VisBins
    ensures 0 <= b + r < VisBins ==> j == b + r
  {
    IntMin(VisBins - 1, IntMax(0, b + r))
  }

  /** The four neighbours at offsets -2, -1, 1, 2, in the loop's order. */
  function Neighbours(db: seq<real>, b: int): (n: seq<real>)
    requires |db| == VisBins
    ensures |n| == 2 * ContrastRadius
  {
    [db[NeighbourIndex(b, -2)], db[NeighbourIndex(b, -1)], db[NeighbourIndex(b, 1)], db[NeighbourIndex(b, 2)]]
  }

  /** How far a bin stands above the mean of its neighbours, in units of 6 dB. */
  function ContrastValue(db: seq<real>, b: int): (c: real)
    requires |db| == VisBins && 0 <= b < VisBins
    ensures 0.0 <= c
    ensures 0.0 < c <==> Sum(Neighbours(db, b)) / 4.0 < db[b]
  {
    var neigh := Sum(Neighbours(db, b)) / (2 * ContrastRadius) as real;
    Max(0.0, (db[b] - neigh) / 6.0)
  }

  function Contrast(db: seq<real>): (c: seq<real>)
    requires |db| == VisBins
    ensures |c| == VisBins
  {
    seq(VisBins, b requires 0 <= b < VisBins => ContrastValue(db, b))
  }

  /** A flat spectrum has no contrast anywhere. */
  lemma FlatHasNoContrast(db: seq<real>, level: real)
    requires |db| == VisBins
    requires forall b :: 0 <= b < VisBins ==> db[b] == level
    ensures forall b :: 0 <= b < VisBins ==> Contrast(db)[b] == 0.0
  {
    forall b | 0 <= b < VisBins
      ensures Contrast(db)[b] == 0.0
    {
      var n := Neighbours(db, b);
      SumStep(n, 0);
      SumStep(n, 1);
      SumStep(n, 2);
      SumStep(n, 3);
      assert n[..4] == n;
    }
  }

  /** The contrast loop. */
  method ComputeContrast(dbBins: seq<real>) returns (contrast: seq<real>)
    requires |dbBins| == VisBins
    ensures contrast == Contrast(dbBins)
  {
    contrast := [];
    for b := 0 to VisBins
      invariant |contrast| == b
      invariant forall j :: 0 <= j < b ==> contrast[j] == ContrastValue(dbBins, j)
    {
      var neigh := NeighbourMean(dbBins, b);
      var d := dbBins[b] - neigh;
      contrast := contrast + [Max(0.0, d / 6.0)];
    }
  }

  /** The inner loop of the contrast: the mean over offsets -2..2 without 0. */
  method NeighbourMean(dbBins: seq<real>, b: int) returns (neigh: real)
    requires |dbBins| == VisBins && 0 <= b < VisBins
    ensures neigh == Sum(Neighbours(dbBins, b)) / 4.0
  {
    ghost var n := Neighbours(dbBins, b);
    var sum, cnt := 0.0, 0;
    var r := -ContrastRadius;
    while r <= ContrastRadius
      invariant -ContrastRadius <= r <= ContrastRadius + 1
      invariant cnt == (if r <= 0 then r + 2 else r + 1)
      invariant sum == Sum(n[..cnt])
    {
      if r == 0 {
        r := r + 1;
        continue;
      }
      var j := IntMin(VisBins - 1, IntMax(0, b + r));
      assert dbBins[j] == n[cnt];
      SumStep(n, cnt);
      sum := sum + dbBins[j];
      cnt := cnt + 1;
      r := r + 1;
    }
    assert n[..4] == n;
    neigh := sum / IntMax(1, cnt) as real;
  }

  // ------------------------------------------------- mix and envelopes

  const MixAlpha: real := 0.30
  const MixBeta: real := 0.20
  const MixGamma: real := 0.30
  const MixDelta: real := 0.20

  /** The weighted mix of the four features, scaled by 0.6 to 1.4 with the
      gain-controlled level and clamped into [0, 1]. Inside [0, 1] the
      clamp changes nothing. */
  function MixedAmplitude(soft: real, z: real, flux: real, contrast: real, agc: real): (amp: real)
    ensures 0.0 <= amp <= 1.0
    ensures var scaled := (MixAlpha * soft + MixBeta * z + MixGamma * flux + MixDelta * contrast)
                          * (0.6 + 0.8 * Min(1.0, agc));
            0.0 <= scaled <= 1.0 ==> amp == scaled
  {
    var raw := MixAlpha * soft + MixBeta * z + MixGamma * flux + MixDelta * contrast;
    var scaled := raw * (0.6 + 0.8 * Min(1.0, agc));
    Min(1.0, Max(0.0, scaled))
  }

  predicate Bins(s: seq<real>)
  {
    |s| == VisBins
  }

  function Amplitudes(soft: seq<real>, z: seq<real>, flux: seq<real>, contrast: seq<real>, agc: seq<real>): (a: seq<real>)
    requires Bins(soft) && Bins(z) && Bins(flux) && Bins(contrast) && Bins(agc)
    ensures Bins(a)
  {
    seq(VisBins, b requires 0 <= b < VisBins => MixedAmplitude(soft[b], z[b], flux[b], contrast[b], agc[b]))
  }

  /** Every mixed amplitude is a level in [0, 1]. */
  lemma AmplitudesInUnit(soft: seq<real>, z: seq<real>, flux: seq<real>, contrast: seq<real>, agc: seq<real>)
    requires Bins(soft) && Bins(z) && Bins(flux) && Bins(contrast) && Bins(agc)
    ensures InUnit(Amplitudes(soft, z, flux, contrast, agc))
  {
    var a := Amplitudes(soft, z, flux, contrast, agc);
    forall b | 0 <= b < VisBins
      ensures 0.0 <= a[b] <= 1.0
    {
      assert a[b] == MixedAmplitude(soft[b], z[b], flux[b], contrast[b], agc[b]);
    }
  }

  /** `Math.min(1, dt / TC)`: the share of the gap an envelope closes in one frame. */
  function EnvelopeRate(dt: real, tc: real): (k: real)
    requires 0.0 < tc
    ensures 0.0 <= dt ==> 0.0 <= k <= 1.0
    ensures tc <= dt ==> k == 1.0
  {
    Min(1.0, dt / tc)
  }

  /** An envelope step: rising towards `amp` with the attack rate, falling
      with the decay rate. */
  function Envelope(prev: real, amp: real, dt: real): real
  {
    var k := if amp > prev then EnvelopeRate(dt, AttackTc) else EnvelopeRate(dt, DecayTc);
    Ease(prev, amp, k)
  }

  /** For a non-negative frame time the new envelope lies between the old
      one and the amplitude. */
  lemma EnvelopeBetween(prev: real, amp: real, dt: real)
    requires 0.0 <= dt
    ensures Min(prev, amp) <= Envelope(prev, amp, dt) <= Max(prev, amp)
  {
    var k := if amp > prev then EnvelopeRate(dt, AttackTc) else EnvelopeRate(dt, DecayTc);
    EaseBetween(prev, amp, k);
  }

  function Envelopes(prev: seq<real>, amps: seq<real>, dt: real): (e: seq<real>)
    requires Bins(prev) && Bins(amps)
    ensures Bins(e)
  {
    seq(VisBins, b requires 0 <= b < VisBins => Envelope(prev[b], amps[b], dt))
  }

  predicate InUnit(s: seq<real>)
  {
    forall b :: 0 <= b < |s| ==> 0.0 <= s[b] <= 1.0
  }

  /** Envelopes in [0, 1] stay in [0, 1]: each follows an amplitude in [0, 1]. */
  lemma {:induction false} EnvelopesStayInUnit(prev: seq<real>, amps: seq<real>, dt: real)
    requires Bins(prev) && Bins(amps) && InUnit(prev) && InUnit(amps) && 0.0 <= dt
    ensures InUnit(Envelopes(prev, amps, dt))
  {
    forall b | 0 <= b < VisBins
      ensures 0.0 <= Envelopes(prev, amps, dt)[b] <= 1.0
    {
      EnvelopeBetween(prev[b], amps[b], dt);
    }
  }

  /** The mix-and-envelope loop, which keeps each envelope in `visPrev`. */
  method MixAndFollow(soft: seq<real>, z: seq<real>, flux: seq<real>, contrast: seq<real>, agc: seq<real>,
                      visPrev: array<real>, dt: real) returns (visValues: seq<real>)
    requires Bins(soft) && Bins(z) && Bins(flux) && Bins(contrast) && Bins(agc)
    requires Bins(visPrev[..])
    modifies visPrev
    ensures visValues == Envelopes(old(visPrev[..]), Amplitudes(soft, z, flux, contrast, agc), dt)
    ensures visPrev[..] == visValues
  {
    ghost var amps := Amplitudes(soft, z, flux, contrast, agc);
    var attackK := EnvelopeRate(dt, AttackTc);
    var decayK := EnvelopeRate(dt, DecayTc);
    visValues := [];
    for b := 0 to VisBins
      invariant |visValues| == b
      invariant forall j :: 0 <= j < b ==> visValues[j] == Envelope(old(visPrev[j]), amps[j], dt)
      invariant forall j :: 0 <= j < b ==> visPrev[j] == visValues[j]
      invariant forall j :: b <= j < VisBins ==> visPrev[j] == old(visPrev[j])
    {
      var amp := MixedAmplitude(soft[b], z[b], flux[b], contrast[b], agc[b]);
      assert amp == amps[b];
      var prev := visPrev[b];
      var k := if amp > prev then attackK else decayK;
      var env := Ease(prev, amp, k);
      assert env == Envelope(prev, amp, dt);
      visPrev[b] := env;
      visValues := visValues + [env];
    }
  }

  // ------------------------------------------------------------- bands

  /** The last bass bin, `Math.floor(96 * 0.12)` = 11, and the first high
      bin, `Math.floor(96 * 0.60)` = 57. */
  const BassEnd: int := (VisBins as real * 0.12).Floor
  const HighStart: int := (VisBins as real * 0.60).Floor

  /** The mean envelope over bins 0..11. */
  function BassLevel(vis: seq<real>): real
    requires Bins(vis)
  {
    assert BassEnd == 11 && HighStart == 57;
    Sum(vis[..BassEnd + 1]) / (BassEnd + 1) as real
  }

  /** The mean envelope over bins 57..95. */
  function HighLevel(vis: seq<real>): real
    requires Bins(vis)
  {
    assert BassEnd == 11 && HighStart == 57;
    Sum(vis[HighStart..]) / (VisBins - HighStart) as real
  }

  /** Band levels of envelopes in [0, 1] are in [0, 1]. */
  lemma BandLevelsInUnit(vis: seq<real>)
    requires Bins(vis) && InUnit(vis)
    ensures 0.0 <= BassLevel(vis) <= 1.0
    ensures 0.0 <= HighLevel(vis) <= 1.0
  {
    assert BassEnd == 11 && HighStart == 57;
    var bass := vis[..BassEnd + 1];
    var high := vis[HighStart..];
    assert forall i :: 0 <= i < |bass| ==> bass[i] == vis[i];
    assert forall i :: 0 <= i < |high| ==> high[i] == vis[HighStart + i];
    MeanBounds(bass, 0.0, 1.0);
    MeanBounds(high, 0.0, 1.0);
  }

  /** The band loop: one pass accumulating both bands. */
  method BandLevels(visValues: seq<real>) returns (bassLevel: real, highLevel: real)
    requires Bins(visValues)
    ensures bassLevel == BassLevel(visValues)
    ensures highLevel == HighLevel(visValues)
  {
    assert BassEnd == 11 && HighStart == 57;
    var bassEnd := (VisBins as real * 0.12).Floor;
    var highStart := (VisBins as real * 0.60).Floor;
    var bSum, bCnt, hSum, hCnt := 0.0, 0, 0.0, 0;
    for b := 0 to VisBins
      invariant bCnt == IntMin(b, bassEnd + 1)
      invariant bSum == Sum(visValues[..bCnt])
      invariant hCnt == IntMax(0, b - highStart)
      invariant hSum == Sum(visValues[highStart..highStart + hCnt])
    {
      if b <= bassEnd {
        SumStep(visValues, b);
        bSum := bSum + visValues[b];
        bCnt := bCnt + 1;
      }
      if b >= highStart {
        SumSliceStep(visValues, highStart, b);
        hSum := hSum + visValues[b];
        hCnt := hCnt + 1;
      }
    }
    assert visValues[highStart..highStart + hCnt] == visValues[highStart..];
    bassLevel := if bCnt != 0 then bSum / bCnt as real else 0.0;
    highLevel := if hCnt != 0 then hSum / hCnt as real else 0.0;
  }

  // ------------------------------------------- kick, high band and spin

  /** The kick envelope follows `min(1, 1.6 * bass)`, quickly up and slowly
      down; it stays between its old value and that input. */
  function KickStep(kickEnv: real, bassLevel: real): (k: real)
    ensures Min(kickEnv, Min(1.0, bassLevel * 1.6)) <= k <= Max(kickEnv, Min(1.0, bassLevel * 1.6))
    ensures 0.0 <= kickEnv <= 1.0 && 0.0 <= bassLevel ==> 0.0 <= k <= 1.0
  {
    var kickIn := Min(1.0, bassLevel * 1.6);
    var rate := if kickIn > kickEnv then 0.35 else 0.1;
    EaseBetween(kickEnv, kickIn, rate);
    Ease(kickEnv, kickIn, rate)
  }

  /** The high-band envelope follows `min(1, 1.4 * high)` the same way. */
  function HiStep(hiEnv: real, highLevel: real): (h: real)
    ensures Min(hiEnv, Min(1.0, highLevel * 1.4)) <= h <= Max(hiEnv, Min(1.0, highLevel * 1.4))
    ensures 0.0 <= hiEnv <= 1.0 && 0.0 <= highLevel ==> 0.0 <= h <= 1.0
  {
    var hiIn := Min(1.0, highLevel * 1.4);
    var rate := if hiIn > hiEnv then 0.25 else 0.08;
    EaseBetween(hiEnv, hiIn, rate);
    Ease(hiEnv, hiIn, rate)
  }

  /** The spin speed eases towards `0.2 + 3.2 * hiEnv`; it never turns backwards. */
  function SpinStep(spinVel: real, hiEnv: real): (v: real)
    ensures Min(spinVel, 0.2 + 3.2 * hiEnv) <= v <= Max(spinVel, 0.2 + 3.2 * hiEnv)
    ensures 0.0 <= spinVel && 0.0 <= hiEnv ==> 0.0 <= v
  {
    EaseBetween(spinVel, 0.2 + 3.2 * hiEnv, 0.08);
    Ease(spinVel, 0.2 + 3.2 * hiEnv, 0.08)
  }

  /** The colour pattern's phase advances by `spinVel * dt` and wraps by
      whole turns into [0, 1). */
  function PhaseStep(phaseOffset: real, spinVel: real, dt: real): (p: real)
    ensures 0.0 <= phaseOffset && 0.0 <= spinVel && 0.0 <= dt ==> 0.0 <= p < 1.0
    ensures (phaseOffset + spinVel * dt - p).Floor as real == phaseOffset + spinVel * dt - p
  {
    MulNonNegative(spinVel, dt);
    var r := Rem(phaseOffset + spinVel * dt, 1.0);
    assert (phaseOffset + spinVel * dt - r) / 1.0 == phaseOffset + spinVel * dt - r;
    r
  }
}
