/**
 * The running statistics of one polygon bin of a TProfile2Poly, as values.
 *
 * A bin accumulates, for every Fill(value, weight), the four sums
 *   sumw = Σ w,  sumvw = Σ w·v,  sumw2 = Σ w²,  sumwv2 = Σ w·v²
 * and caches two derived values, the average and the error, which are refreshed by Update.
 * The class ProfileBin.Bin mutates its fields in place; every one of its methods is specified
 * by one of the functions below, and the lemmas below say what those functions mean.
 */
module BinStatistics {

  /** The arguments of one Fill call. */
  datatype Sample = Sample(value: real, weight: real)

  /** The four running sums of a bin (fSumw, fSumvw, fSumw2, fSumwv2). */
  datatype Sums = Sums(sumw: real, sumvw: real, sumw2: real, sumwv2: real)

  const NoSums := Sums(0.0, 0.0, 0.0, 0.0)

  /**
   * A double-valued quantity of a bin. The error is computed with std::sqrt and, in the
   * error-of-the-mean mode, divided by the square root of the effective entries sumw²/sumw2
   * without any guard; such values are kept as the expression the source evaluates, so that the
   * model neither evaluates a square root nor divides by zero.
   */
  datatype Quantity =
    | Exact(value: real)
      // sqrt(radicand)
    | Sqrt(radicand: real)
      // sqrt(radicand) / sqrt(sumw * sumw / sumw2)
    | SqrtPerEffectiveEntries(radicand: real, sumw: real, sumw2: real)

  /** The error estimators of EErrorType: kERRORMEAN, kERRORSPREAD, kERRORSPREADI, kERRORSPREADG. */
  datatype ErrorMode = ErrorMean | ErrorSpread | ErrorSpreadI | ErrorSpreadG

  /** Everything a bin holds besides its polygon and its number; content is the displayed value. */
  datatype BinState = BinState(sums: Sums, average: real, error: Quantity, mode: ErrorMode, content: Quantity)

  /** A freshly constructed bin: all sums, the average and the error zero, spread mode. */
  function NewBin(): BinState {
    BinState(NoSums, 0.0, Exact(0.0), ErrorSpread, Exact(0.0))
  }

  /** The sums after one Fill(value, weight). */
  function FillSums(s: Sums, value: real, weight: real): Sums {
    Sums(s.sumw + weight, s.sumvw + value * weight, s.sumw2 + weight * weight, s.sumwv2 + weight * value * value)
  }

  /** Field-wise addition of two sets of sums. */
  function AddSums(a: Sums, b: Sums): Sums {
    Sums(a.sumw + b.sumw, a.sumvw + b.sumvw, a.sumw2 + b.sumw2, a.sumwv2 + b.sumwv2)
  }

  /** The contribution of one sample to the sums: an independent reference for FillSums. */
  function SampleSums(x: Sample): Sums {
    Sums(x.weight, x.weight * x.value, x.weight * x.weight, x.weight * x.value * x.value)
  }

  /** The total contribution of a sequence of samples. */
  function SumSamples(xs: seq<Sample>): Sums {
    if xs == [] then NoSums else AddSums(SumSamples(xs[..|xs| - 1]), SampleSums(xs[|xs| - 1]))
  }

  /** UpdateAverage: the weighted mean, or the previous average when the weight sum is zero. */
  function UpdateAverage(b: BinState): BinState {
    if b.sums.sumw != 0.0 then b.(average := b.sums.sumvw / b.sums.sumw) else b
  }

  /** What UpdateError takes the square root of: sumwv2/sumw - average², or 0 when sumw is zero. */
  function Radicand(b: BinState): real {
    if b.sums.sumw != 0.0 then b.sums.sumwv2 / b.sums.sumw - b.average * b.average else 0.0
  }

  /** UpdateError: the spread, or the spread over sqrt(effective entries) for every other mode. */
  function UpdateError(b: BinState): BinState {
    var spread := Radicand(b);
    match b.mode
    case ErrorMean => b.(error := SqrtPerEffectiveEntries(spread, b.sums.sumw, b.sums.sumw2))
    case ErrorSpread => b.(error := Sqrt(spread))
    case _ => b.(error := SqrtPerEffectiveEntries(spread, b.sums.sumw, b.sums.sumw2))
  }

  function Update(b: BinState): BinState {
    UpdateError(UpdateAverage(b))
  }

  /** Fill(value, weight): add the sample to the sums, then Update. */
  function Fill(b: BinState, value: real, weight: real): BinState {
    Update(b.(sums := FillSums(b.sums, value, weight)))
  }

  /** Merge: add another bin's sums; the cached average and error and the mode are left alone. */
  function MergeSums(b: BinState, other: Sums): BinState {
    b.(sums := AddSums(b.sums, other))
  }

  /** ClearStats: zero the sums, the average and the error; the mode and the content are kept. */
  function ClearStats(b: BinState): BinState {
    b.(sums := NoSums, average := 0.0, error := Exact(0.0))
  }

  /** The bin after Fill was called once for every sample, in order. */
  function FillAll(b: BinState, xs: seq<Sample>): BinState {
    if xs == [] then b else Fill(FillAll(b, xs[..|xs| - 1]), xs[|xs| - 1].value, xs[|xs| - 1].weight)
  }

  // ---------------------------------------------------------------- lemmas

  lemma AddSumsAssociative(a: Sums, b: Sums, c: Sums)
    ensures AddSums(AddSums(a, b), c) == AddSums(a, AddSums(b, c))
  {
  }

  lemma AddSumsZero(a: Sums)
    ensures AddSums(NoSums, a) == a
  {
  }

  /** Update only looks at the sums, the mode and the content once the weight sum is non-zero. */
  lemma UpdateForgetsDerived(c: BinState, d: BinState)
    requires c.sums == d.sums && c.mode == d.mode && c.content == d.content && c.sums.sumw != 0.0
    ensures Update(c) == Update(d)
  {
    var uc, ud := UpdateAverage(c), UpdateAverage(d);
    assert uc.average == ud.average;
    assert Radicand(uc) == Radicand(ud);
  }

  /** One Fill adds exactly the sample's contribution, and changes neither mode nor content. */
  lemma FillAddsSample(b: BinState, value: real, weight: real)
    ensures Fill(b, value, weight).sums == AddSums(b.sums, SampleSums(Sample(value, weight)))
    ensures Fill(b, value, weight).mode == b.mode && Fill(b, value, weight).content == b.content
  {
  }

  /** Filling a sequence of samples adds their total contribution to the sums. */
  lemma {:induction false} FillAllSums(b: BinState, xs: seq<Sample>)
    ensures FillAll(b, xs).sums == AddSums(b.sums, SumSamples(xs))
    ensures FillAll(b, xs).mode == b.mode && FillAll(b, xs).content == b.content
  {
    if xs != [] {
      FillAllSums(b, xs[..|xs| - 1]);
    }
  }

  lemma {:induction false} SumSamplesAppend(xs: seq<Sample>, ys: seq<Sample>)
    ensures SumSamples(xs + ys) == AddSums(SumSamples(xs), SumSamples(ys))
    decreases |ys|
  {
    if ys == [] {
      assert xs + ys == xs;
    } else {
      var ys' := ys[..|ys| - 1];
      assert (xs + ys)[..|xs + ys| - 1] == xs + ys';
      SumSamplesAppend(xs, ys');
    }
  }

  lemma AddSumsSwap(p: Sums, q: Sums, r: Sums)
    ensures AddSums(AddSums(p, q), r) == AddSums(AddSums(p, r), q)
  {
  }

  lemma SumSamplesSingle(y: Sample)
    ensures SumSamples([y]) == SampleSums(y)
  {
    assert [y][..0] == [];
    AddSumsZero(SampleSums(y));
  }

  /** Taking one sample out of a sequence takes its contribution out of the total. */
  lemma SumSamplesRemove(ys: seq<Sample>, j: nat)
    requires j < |ys|
    ensures SumSamples(ys) == AddSums(SumSamples(ys[..j] + ys[j + 1..]), SampleSums(ys[j]))
  {
    var a, b, y := ys[..j], ys[j + 1..], ys[j];
    var sa, sb, sy := SumSamples(a), SumSamples(b), SampleSums(y);
    assert SumSamples(ys) == AddSums(AddSums(sa, sy), sb) by {
      assert ys == (a + [y]) + b;
      SumSamplesAppend(a + [y], b);
      SumSamplesAppend(a, [y]);
      SumSamplesSingle(y);
    }
    assert SumSamples(a + b) == AddSums(sa, sb) by {
      SumSamplesAppend(a, b);
    }
    AddSumsSwap(sa, sy, sb);
  }

  /** The total contribution of a sequence of samples depends only on which samples it holds. */
  lemma {:induction false} SumSamplesPermutation(xs: seq<Sample>, ys: seq<Sample>)
    requires multiset(xs) == multiset(ys)
    ensures SumSamples(xs) == SumSamples(ys)
    decreases |xs|
  {
    if xs == [] {
      assert |ys| == |multiset(ys)| == 0;
    } else {
      var last := xs[|xs| - 1];
      var xs' := xs[..|xs| - 1];
      assert xs == xs' + [last];
      assert last in multiset(ys);
      var j :| 0 <= j < |ys| && ys[j] == last;
      var ys' := ys[..j] + ys[j + 1..];
      assert ys == ys[..j] + [last] + ys[j + 1..];
      assert multiset(xs') == multiset(xs) - multiset{last};
      assert multiset(ys') == multiset(ys) - multiset{last};
      SumSamplesPermutation(xs', ys');
      SumSamplesRemove(ys, j);
    }
  }

  /** Merging a bin that was filled with ys into one filled with xs gives the sums of filling xs then ys:
      no raw sample has to be replayed. */
  lemma MergeEqualsReplay(b: BinState, xs: seq<Sample>, ys: seq<Sample>)
    ensures MergeSums(FillAll(b, xs), FillAll(NewBin(), ys).sums).sums == FillAll(b, xs + ys).sums
  {
    FillAllSums(b, xs);
    FillAllSums(NewBin(), ys);
    FillAllSums(b, xs + ys);
    SumSamplesAppend(xs, ys);
    AddSumsAssociative(b.sums, SumSamples(xs), SumSamples(ys));
    assert FillAll(NewBin(), ys).sums == SumSamples(ys) by {
      AddSumsZero(SumSamples(ys));
    }
  }

  /** The sums after a sequence of fills do not depend on the order of the fills. */
  lemma FillOrderIrrelevantForSums(b: BinState, xs: seq<Sample>, ys: seq<Sample>)
    requires multiset(xs) == multiset(ys)
    ensures FillAll(b, xs).sums == FillAll(b, ys).sums
  {
    FillAllSums(b, xs);
    FillAllSums(b, ys);
    SumSamplesPermutation(xs, ys);
  }

  /** After at least one fill leaving a non-zero weight sum, the bin is its sums with freshly
      computed average and error. */
  lemma FillAllSettled(b: BinState, xs: seq<Sample>)
    requires xs != [] && FillAll(b, xs).sums.sumw != 0.0
    ensures FillAll(b, xs) == Update(b.(sums := FillAll(b, xs).sums))
  {
    var prev := FillAll(b, xs[..|xs| - 1]);
    FillAllSums(b, xs[..|xs| - 1]);
    var x := xs[|xs| - 1];
    UpdateForgetsDerived(prev.(sums := FillSums(prev.sums, x.value, x.weight)), b.(sums := FillAll(b, xs).sums));
  }

  /** When the weights do not cancel out, the whole bin after a sequence of fills, average and error
      included, does not depend on the order of the fills. */
  lemma FillOrderIrrelevant(b: BinState, xs: seq<Sample>, ys: seq<Sample>)
    requires multiset(xs) == multiset(ys)
    requires FillAll(b, xs).sums.sumw != 0.0
    ensures FillAll(b, xs) == FillAll(b, ys)
  {
    FillOrderIrrelevantForSums(b, xs, ys);
    if xs == [] {
      assert |ys| == |multiset(ys)| == 0;
    } else {
      assert ys != [] by { assert |ys| == |multiset(ys)| == |multiset(xs)| == |xs|; }
      FillAllSettled(b, xs);
      FillAllSettled(b, ys);
    }
  }

  /** When the weights cancel out, UpdateAverage keeps the last average, so the order of the fills
      shows in the average. */
  lemma FillOrderShowsWhenWeightsCancel()
    ensures FillAll(NewBin(), [Sample(1.0, 1.0), Sample(5.0, -1.0)]).average == 1.0
    ensures FillAll(NewBin(), [Sample(5.0, -1.0), Sample(1.0, 1.0)]).average == 5.0
  {
  }

  /** Update neither reads nor writes the displayed content. */
  lemma UpdateIgnoresContent(b: BinState, c: Quantity)
    ensures Update(b.(content := c)) == Update(b).(content := c)
  {
    var a, a' := UpdateAverage(b), UpdateAverage(b.(content := c));
    assert a' == a.(content := c);
    assert Radicand(a') == Radicand(a);
  }

  /** Update is idempotent: a second Update right after the first changes nothing. */
  lemma UpdateIdempotent(b: BinState)
    ensures Update(Update(b)) == Update(b)
  {
    var u := Update(b);
    assert u.sums == b.sums && u.mode == b.mode;
    if b.sums.sumw != 0.0 {
      assert u.average == b.sums.sumvw / b.sums.sumw;
      assert UpdateAverage(u) == u;
    } else {
      assert UpdateAverage(u) == u;
    }
    assert Radicand(u) == Radicand(UpdateAverage(b));
  }

  /** The sums of samples that all had the value v, given the sums of their weights and squared weights. */
  function ConstantSums(v: real, sumw: real, sumw2: real): Sums {
    Sums(sumw, v * sumw, sumw2, v * v * sumw)
  }

  /** One more sample of value v keeps sumvw = v·sumw and sumwv2 = v²·sumw. */
  lemma ConstantValueStep(s: Sums, x: Sample, v: real)
    requires x.value == v && s == ConstantSums(v, s.sumw, s.sumw2)
    ensures AddSums(s, SampleSums(x)) == ConstantSums(v, s.sumw + x.weight, s.sumw2 + x.weight * x.weight)
  {
    var w := x.weight;
    assert SampleSums(x) == Sums(w, w * v, w * w, w * v * v);
    assert v * (s.sumw + w) == v * s.sumw + w * v;
    assert v * v * (s.sumw + w) == v * v * s.sumw + w * v * v;
  }

  lemma {:induction false} ConstantValueSums(xs: seq<Sample>, v: real)
    requires forall k :: 0 <= k < |xs| ==> xs[k].value == v
    ensures SumSamples(xs) == ConstantSums(v, SumSamples(xs).sumw, SumSamples(xs).sumw2)
  {
    if xs != [] {
      var prev := SumSamples(xs[..|xs| - 1]);
      ConstantValueSums(xs[..|xs| - 1], v);
      ConstantValueStep(prev, xs[|xs| - 1], v);
      assert SumSamples(xs) == AddSums(prev, SampleSums(xs[|xs| - 1]));
    }
  }

  /** Sums of samples that all had value v give the average v and a zero radicand. */
  lemma SettledConstant(c: BinState, s: Sums, v: real)
    requires s.sumw != 0.0 && s == ConstantSums(v, s.sumw, s.sumw2)
    ensures UpdateAverage(c.(sums := s)).average == v
    ensures Radicand(UpdateAverage(c.(sums := s))) == 0.0
  {
    var w := s.sumw;
    assert (v * w) / w == v;
    assert (v * v * w) / w == v * v;
  }

  /** A bin that only ever saw one value has that value as average and a zero spread. */
  lemma ConstantValueHasNoSpread(b: BinState, xs: seq<Sample>, v: real)
    requires b.sums == NoSums
    requires xs != [] && forall k :: 0 <= k < |xs| ==> xs[k].value == v
    requires SumSamples(xs).sumw != 0.0
    ensures FillAll(b, xs).average == v
    ensures Radicand(FillAll(b, xs)) == 0.0
  {
    var s := SumSamples(xs);
    assert FillAll(b, xs).sums == s by {
      FillAllSums(b, xs);
      AddSumsZero(s);
    }
    assert FillAll(b, xs) == Update(b.(sums := s)) by {
      FillAllSettled(b, xs);
    }
    assert s == ConstantSums(v, s.sumw, s.sumw2) by {
      ConstantValueSums(xs, v);
    }
    SettledConstant(b, s, v);
  }

  /** After a merge, Update yields the weighted mean of the two bins' averages. */
  lemma MergedAverageIsWeightedMean(p: BinState, q: BinState)
    requires p.sums.sumw != 0.0 && q.sums.sumw != 0.0 && p.sums.sumw + q.sums.sumw != 0.0
    ensures Update(MergeSums(p, q.sums)).average
         == (p.sums.sumw * Update(p).average + q.sums.sumw * Update(q).average) / (p.sums.sumw + q.sums.sumw)
  {
    var a, b := p.sums, q.sums;
    assert a.sumw * (a.sumvw / a.sumw) == a.sumvw;
    assert b.sumw * (b.sumvw / b.sumw) == b.sumvw;
  }
}
