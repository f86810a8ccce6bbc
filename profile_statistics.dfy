/**
 * The state of a TProfile2Poly as a value, and the value-level specification of its
 * accumulators, its statistics export and its merge.
 */
module ProfileStatistics {
  import opened Wrappers
  import S = BinStatistics
  import opened Overflow

  // ---------------------------------------------------------------- global accumulators

  /** The nine global accumulators fTsumw, fTsumw2, fTsumwx, fTsumwx2, fTsumwy, fTsumwy2,
      fTsumwxy, fTsumwz, fTsumwz2. */
  datatype Accumulators = Accumulators(
    tsumw: real, tsumw2: real, tsumwx: real, tsumwx2: real,
    tsumwy: real, tsumwy2: real, tsumwxy: real, tsumwz: real, tsumwz2: real)

  const NoAccumulators := Accumulators(0.0, 0.0, 0.0, 0.0, 0.0, 0.0, 0.0, 0.0, 0.0)

  /** What one Fill(x, y, value, weight) adds to the accumulators. */
  function FillAccumulators(a: Accumulators, x: real, y: real, value: real, weight: real): Accumulators {
    Accumulators(
      a.tsumw + weight, a.tsumw2 + weight * weight,
      a.tsumwx + weight * x, a.tsumwx2 + weight * x * x,
      a.tsumwy + weight * y, a.tsumwy2 + weight * y * y,
      a.tsumwxy + weight * x * y,
      a.tsumwz + weight * value, a.tsumwz2 + weight * value * value)
  }

  function AddAccumulators(a: Accumulators, b: Accumulators): Accumulators {
    Accumulators(
      a.tsumw + b.tsumw, a.tsumw2 + b.tsumw2, a.tsumwx + b.tsumwx, a.tsumwx2 + b.tsumwx2,
      a.tsumwy + b.tsumwy, a.tsumwy2 + b.tsumwy2, a.tsumwxy + b.tsumwxy,
      a.tsumwz + b.tsumwz, a.tsumwz2 + b.tsumwz2)
  }

  /** The reset done by the base classes TH1 and TH2 for the default option: the seven sums they
      declare are zeroed; fTsumwz and fTsumwz2, declared by the profile itself, are kept. */
  function ResetBaseAccumulators(a: Accumulators): Accumulators {
    a.(tsumw := 0.0, tsumw2 := 0.0, tsumwx := 0.0, tsumwx2 := 0.0,
       tsumwy := 0.0, tsumwy2 := 0.0, tsumwxy := 0.0)
  }

  /** The length of the array GetStats fills. */
  const NStats: nat := 9

  /** GetStats: the accumulators in the order sumw, sumw2, sumwx, sumwx2, sumwy, sumwy2, sumwxy,
      sumwz, sumwz2. */
  function StatsArray(a: Accumulators): (s: seq<real>)
    ensures |s| == NStats
  {
    [a.tsumw, a.tsumw2, a.tsumwx, a.tsumwx2, a.tsumwy, a.tsumwy2, a.tsumwxy, a.tsumwz, a.tsumwz2]
  }

  /** Reads a stats array back into accumulators. */
  function AccumulatorsOf(s: seq<real>): Accumulators
    requires |s| == NStats
  {
    Accumulators(s[0], s[1], s[2], s[3], s[4], s[5], s[6], s[7], s[8])
  }

  /** The stats array is a lossless encoding of the nine accumulators, in both directions. */
  lemma StatsArrayRoundTrip(a: Accumulators, s: seq<real>)
    requires |s| == NStats
    ensures AccumulatorsOf(StatsArray(a)) == a
    ensures StatsArray(AccumulatorsOf(s)) == s
  {
  }

  /** Adding accumulators adds their stats arrays entry by entry. */
  lemma StatsArrayAdditive(a: Accumulators, b: Accumulators)
    ensures forall k :: 0 <= k < NStats ==>
      StatsArray(AddAccumulators(a, b))[k] == StatsArray(a)[k] + StatsArray(b)[k]
  {
  }

  /** A fill adds the accumulators of a profile that saw only that one point. */
  lemma FillAddsOnePoint(a: Accumulators, x: real, y: real, value: real, weight: real)
    ensures FillAccumulators(a, x, y, value, weight)
         == AddAccumulators(a, FillAccumulators(NoAccumulators, x, y, value, weight))
  {
  }

  // ---------------------------------------------------------------- profile state

  /** fEntries, the accumulators, the profile's error mode, the polygon bins in list order and
      the nine overflow bins. */
  datatype ProfileState = ProfileState(
    entries: real, tsums: Accumulators, mode: S.ErrorMode, bins: seq<S.BinState>, overflow: seq<S.BinState>)

  /** A profile with n polygon bins and the nine overflow bins. */
  predicate Shaped(p: ProfileState, n: nat) {
    |p.bins| == n && |p.overflow| == NOverflow
  }

  /** The bin a public bin number reads, if any. */
  function BinAt(p: ProfileState, bin: int): (r: Option<S.BinState>)
    requires |p.overflow| == NOverflow
    ensures r.None? <==> bin == 0 || bin > |p.bins| || bin < -(NOverflow as int)
    ensures 0 < bin <= |p.bins| ==> r == Some(p.bins[bin - 1])
    ensures -(NOverflow as int) <= bin < 0 ==> r == Some(p.overflow[-bin - 1])
  {
    match Locate(bin, |p.bins|)
    case NoBin => None
    case OverflowBin(k) => Some(p.overflow[k])
    case PolygonBin(i) => Some(p.bins[i])
  }

  /** SetContentToAverage on one bin: Update, then show the average. */
  function ShowAverage(b: S.BinState): S.BinState {
    var u := S.Update(b);
    u.(content := S.Exact(u.average))
  }

  /** SetContentToError on one bin: Update, then show the error. */
  function ShowError(b: S.BinState): S.BinState {
    var u := S.Update(b);
    u.(content := u.error)
  }

  // ---------------------------------------------------------------- merge

  /** The additive part of a profile: what Merge adds up. */
  datatype Tally = Tally(entries: real, tsums: Accumulators, bins: seq<S.Sums>, overflow: seq<S.Sums>)

  function SumsOf(bs: seq<S.BinState>): (r: seq<S.Sums>)
    ensures |r| == |bs| && forall i :: 0 <= i < |bs| ==> r[i] == bs[i].sums
  {
    seq(|bs|, i requires 0 <= i < |bs| => bs[i].sums)
  }

  function TallyOf(p: ProfileState): Tally {
    Tally(p.entries, p.tsums, SumsOf(p.bins), SumsOf(p.overflow))
  }

  function AddEach(a: seq<S.Sums>, b: seq<S.Sums>): (r: seq<S.Sums>)
    requires |a| == |b|
    ensures |r| == |a| && forall i :: 0 <= i < |a| ==> r[i] == S.AddSums(a[i], b[i])
  {
    seq(|a|, i requires 0 <= i < |a| => S.AddSums(a[i], b[i]))
  }

  predicate SameShape(a: Tally, b: Tally) {
    |a.bins| == |b.bins| && |a.overflow| == |b.overflow|
  }

  function AddTally(a: Tally, b: Tally): Tally
    requires SameShape(a, b)
  {
    Tally(a.entries + b.entries, AddAccumulators(a.tsums, b.tsums), AddEach(a.bins, b.bins), AddEach(a.overflow, b.overflow))
  }

  function ZeroTally(n: nat): (t: Tally)
    ensures |t.bins| == n && |t.overflow| == NOverflow
  {
    Tally(0.0, NoAccumulators, seq(n, i => S.NoSums), seq(NOverflow, k => S.NoSums))
  }

  predicate AllShaped(ins: seq<ProfileState>, n: nat) {
    forall q :: 0 <= q < |ins| ==> Shaped(ins[q], n)
  }

  /** The sum of the tallies of the input profiles. */
  function Total(n: nat, ins: seq<ProfileState>): (t: Tally)
    requires AllShaped(ins, n)
    ensures |t.bins| == n && |t.overflow| == NOverflow
  {
    if ins == [] then ZeroTally(n) else AddTally(Total(n, ins[..|ins| - 1]), TallyOf(ins[|ins| - 1]))
  }

  /** The set of bin counts of the inputs, as the source collects it. */
  function BinCounts(ins: seq<ProfileState>): set<int> {
    set q | 0 <= q < |ins| :: |ins[q].bins|
  }

  /** The check Merge makes as written: the inputs' bin counts form a one-element set. */
  predicate MergeAcceptedAsWritten(ins: seq<ProfileState>) {
    |BinCounts(ins)| == 1
  }

  /** The check Merge needs: there is an input, and every input has the target's count n. */
  predicate MergeAccepted(n: nat, ins: seq<ProfileState>) {
    ins != [] && forall q :: 0 <= q < |ins| ==> |ins[q].bins| == n
  }

  /** Each bin with the corresponding sums added (TProfile2PolyBin::Merge position by position). */
  function MergeEach(bs: seq<S.BinState>, sums: seq<S.Sums>): (r: seq<S.BinState>)
    requires |bs| == |sums|
    ensures |r| == |bs|
  {
    seq(|bs|, i requires 0 <= i < |bs| => S.MergeSums(bs[i], sums[i]))
  }

  /** Each bin updated. */
  function UpdateEach(bs: seq<S.BinState>): (r: seq<S.BinState>)
    ensures |r| == |bs|
  {
    seq(|bs|, i requires 0 <= i < |bs| => S.Update(bs[i]))
  }

  /** A sequence agreeing bin by bin with the merged and updated bins is that sequence. */
  lemma UpdatedMergeParts(bs: seq<S.BinState>, sums: seq<S.Sums>, r: seq<S.BinState>)
    requires |bs| == |sums| == |r|
    requires forall j :: 0 <= j < |r| ==> r[j] == S.Update(S.MergeSums(bs[j], sums[j]))
    ensures r == UpdateEach(MergeEach(bs, sums))
  {
  }

  /** The state after a successful Merge: every sum of the target plus the inputs' total; each
      polygon bin updated and then shown as its average; overflow bins only summed. */
  function MergeStates(t: ProfileState, ins: seq<ProfileState>): (r: ProfileState)
    requires |t.overflow| == NOverflow && AllShaped(ins, |t.bins|)
    ensures Shaped(r, |t.bins|)
  {
    var tot := Total(|t.bins|, ins);
    ProfileState(
      t.entries + tot.entries,
      AddAccumulators(t.tsums, tot.tsums),
      t.mode,
      ShowAverageEach(UpdateEach(MergeEach(t.bins, tot.bins))),
      MergeEach(t.overflow, tot.overflow))
  }

  /** MergeStates, component by component. */
  lemma MergeStatesParts(t: ProfileState, ins: seq<ProfileState>, r: ProfileState)
    requires |t.overflow| == NOverflow && AllShaped(ins, |t.bins|)
    requires r.entries == t.entries + Total(|t.bins|, ins).entries
    requires r.tsums == AddAccumulators(t.tsums, Total(|t.bins|, ins).tsums)
    requires r.mode == t.mode
    requires r.bins == ShowAverageEach(UpdateEach(MergeEach(t.bins, Total(|t.bins|, ins).bins)))
    requires r.overflow == MergeEach(t.overflow, Total(|t.bins|, ins).overflow)
    ensures r == MergeStates(t, ins)
  {
  }

  /** Merging x and then y into bins adds x + y. */
  lemma MergeEachTwice(bs: seq<S.BinState>, x: seq<S.Sums>, y: seq<S.Sums>)
    requires |bs| == |x| == |y|
    ensures MergeEach(MergeEach(bs, x), y) == MergeEach(bs, AddEach(x, y))
  {
    forall i | 0 <= i < |bs|
      ensures MergeEach(MergeEach(bs, x), y)[i] == MergeEach(bs, AddEach(x, y))[i]
    {
      S.AddSumsAssociative(bs[i].sums, x[i], y[i]);
    }
  }

  /** Extending a prefix of the inputs by one profile adds that profile's tally to the total. */
  lemma TotalPrefixStep(n: nat, ins: seq<ProfileState>, e: nat)
    requires AllShaped(ins, n) && e < |ins|
    ensures AllShaped(ins[..e], n) && AllShaped(ins[..e + 1], n)
    ensures Total(n, ins[..e + 1]) == AddTally(Total(n, ins[..e]), TallyOf(ins[e]))
  {
    assert ins[..e + 1][..e] == ins[..e];
  }

  /** One more input in the first merge loop: fEntries, the accumulators and the overflow bins
      move from the total of the first q inputs to the total of the first q + 1. */
  lemma GlobalsStep(n: nat, ins: seq<ProfileState>, q: nat, e0: real, t0: Accumulators, o: seq<S.BinState>)
    requires AllShaped(ins, n) && q < |ins| && |o| == NOverflow
    ensures AllShaped(ins[..q], n) && AllShaped(ins[..q + 1], n)
    ensures e0 + Total(n, ins[..q]).entries + ins[q].entries == e0 + Total(n, ins[..q + 1]).entries
    ensures AddAccumulators(AddAccumulators(t0, Total(n, ins[..q]).tsums), ins[q].tsums)
         == AddAccumulators(t0, Total(n, ins[..q + 1]).tsums)
    ensures MergeEach(MergeEach(o, Total(n, ins[..q]).overflow), SumsOf(ins[q].overflow))
         == MergeEach(o, Total(n, ins[..q + 1]).overflow)
  {
    TotalPrefixStep(n, ins, q);
    MergeEachTwice(o, Total(n, ins[..q]).overflow, SumsOf(ins[q].overflow));
  }

  /** The prefix of all the inputs is the whole list. */
  lemma TotalWhole(n: nat, ins: seq<ProfileState>)
    requires AllShaped(ins, n)
    ensures AllShaped(ins[..|ins|], n) && Total(n, ins[..|ins|]) == Total(n, ins)
  {
    assert ins[..|ins|] == ins;
  }

  /** Merging the empty total changes no bin. */
  lemma MergeEachZero(bs: seq<S.BinState>)
    ensures MergeEach(bs, ZeroTally(|bs|).bins) == bs
  {
  }

  /** The sum of a sequence of sums, folded from the front as a merge loop adds them. */
  function AddAll(ss: seq<S.Sums>): S.Sums {
    if ss == [] then S.NoSums else S.AddSums(AddAll(ss[..|ss| - 1]), ss[|ss| - 1])
  }

  /** The sums of bin i of every input, in list order. */
  function BinColumn(ins: seq<ProfileState>, i: nat): (c: seq<S.Sums>)
    requires forall q :: 0 <= q < |ins| ==> i < |ins[q].bins|
    ensures |c| == |ins| && forall q :: 0 <= q < |ins| ==> c[q] == ins[q].bins[i].sums
  {
    seq(|ins|, q requires 0 <= q < |ins| => ins[q].bins[i].sums)
  }

  /** Bin i of the total is the sum of the inputs' bins i. */
  lemma {:induction false} TotalColumn(n: nat, ins: seq<ProfileState>, i: nat)
    requires AllShaped(ins, n) && i < n
    ensures Total(n, ins).bins[i] == AddAll(BinColumn(ins, i))
  {
    if ins != [] {
      var init := ins[..|ins| - 1];
      TotalColumn(n, init, i);
      assert BinColumn(ins, i)[..|ins| - 1] == BinColumn(init, i);
    }
  }

  // ---------------------------------------------------------------- lemmas

  /** The as-written check accepts exactly the non-empty input lists whose profiles all have the
      same number of bins. */
  lemma MergeAcceptedAsWrittenMeans(ins: seq<ProfileState>)
    ensures MergeAcceptedAsWritten(ins)
        <==> ins != [] && forall q :: 0 <= q < |ins| ==> |ins[q].bins| == |ins[0].bins|
  {
    var counts := BinCounts(ins);
    if ins == [] {
      assert counts == {};
    }
    if ins != [] && forall q :: 0 <= q < |ins| ==> |ins[q].bins| == |ins[0].bins| {
      assert counts == {|ins[0].bins|};
    }
    if MergeAcceptedAsWritten(ins) {
      var c := |ins[0].bins|;
      assert c in counts;
      forall q | 0 <= q < |ins|
        ensures |ins[q].bins| == c
      {
        var d := |ins[q].bins|;
        assert d in counts;
        if d != c {
          assert {c, d} <= counts;
          assert |{c, d}| == 2;
          SubsetCardinality({c, d}, counts);
        }
      }
    }
  }

  /** A set of one element has no two different members. */
  lemma SingletonMembers(s: set<int>, a: int, b: int)
    requires |s| == 1 && a in s && b in s
    ensures a == b
  {
    if a != b {
      assert |{a, b}| == 2;
      SubsetCardinality({a, b}, s);
    }
  }

  lemma SubsetCardinality(a: set<int>, b: set<int>)
    requires a <= b
    ensures |a| <= |b|
  {
    assert b == a + (b - a);
  }

  /** The needed check is the as-written check plus the target's count being the one count. */
  lemma MergeAcceptedExtendsAsWritten(n: nat, ins: seq<ProfileState>)
    ensures MergeAccepted(n, ins) <==> MergeAcceptedAsWritten(ins) && n in BinCounts(ins)
  {
    MergeAcceptedAsWrittenMeans(ins);
    if MergeAccepted(n, ins) {
      assert |ins[0].bins| in BinCounts(ins);
    }
    if MergeAcceptedAsWritten(ins) && n in BinCounts(ins) {
      var q :| 0 <= q < |ins| && n == |ins[q].bins|;
    }
  }

  /** As written, Merge goes ahead when the inputs agree but the target has fewer bins: here the
      target has none and the merge loop would read the target's bin 0. */
  lemma TargetCountNotCheckedAsWritten()
    ensures var t := ProfileState(0.0, NoAccumulators, S.ErrorMean, [], []);
      var p := ProfileState(0.0, NoAccumulators, S.ErrorMean, [S.NewBin()], []);
      MergeAcceptedAsWritten([p]) && !MergeAccepted(|t.bins|, [p]) && |t.bins| < |p.bins|
  {
    var p := ProfileState(0.0, NoAccumulators, S.ErrorMean, [S.NewBin()], []);
    var ins := [p];
    assert |ins[0].bins| == 1;
    assert 1 in BinCounts(ins);
    assert forall c :: c in BinCounts(ins) ==> c == 1;
    assert BinCounts(ins) == {1};
  }

  /** As written, Merge also goes ahead when the inputs agree but the target has more bins: here
      the target has two and the one input one, so only the target's first bin would be merged. */
  lemma LargerTargetAcceptedAsWritten()
    ensures var p := ProfileState(0.0, NoAccumulators, S.ErrorMean, [S.NewBin()], []);
      MergeAcceptedAsWritten([p]) && !MergeAccepted(2, [p])
  {
    var p := ProfileState(0.0, NoAccumulators, S.ErrorMean, [S.NewBin()], []);
    var ins := [p];
    assert |ins[0].bins| == 1;
    assert 1 in BinCounts(ins);
    assert forall c :: c in BinCounts(ins) ==> c == 1;
    assert BinCounts(ins) == {1};
  }

  lemma AddEachSwap(a: seq<S.Sums>, b: seq<S.Sums>, c: seq<S.Sums>)
    requires |a| == |b| == |c|
    ensures AddEach(AddEach(a, b), c) == AddEach(AddEach(a, c), b)
  {
    assert forall i :: 0 <= i < |a| ==> AddEach(AddEach(a, b), c)[i] == AddEach(AddEach(a, c), b)[i];
  }

  lemma AddEachAssociative(a: seq<S.Sums>, b: seq<S.Sums>, c: seq<S.Sums>)
    requires |a| == |b| == |c|
    ensures AddEach(AddEach(a, b), c) == AddEach(a, AddEach(b, c))
  {
    assert forall i :: 0 <= i < |a| ==> AddEach(AddEach(a, b), c)[i] == AddEach(a, AddEach(b, c))[i];
  }

  lemma AddEachZero(a: seq<S.Sums>, z: seq<S.Sums>)
    requires |a| == |z| && forall i :: 0 <= i < |z| ==> z[i] == S.NoSums
    ensures AddEach(z, a) == a && AddEach(a, z) == a
  {
    assert forall i :: 0 <= i < |a| ==> AddEach(z, a)[i] == a[i] && AddEach(a, z)[i] == a[i];
  }

  lemma AddTallySwap(a: Tally, b: Tally, c: Tally)
    requires SameShape(a, b) && SameShape(a, c)
    ensures AddTally(AddTally(a, b), c) == AddTally(AddTally(a, c), b)
  {
    AddEachSwap(a.bins, b.bins, c.bins);
    AddEachSwap(a.overflow, b.overflow, c.overflow);
  }

  lemma AddTallyAssociative(a: Tally, b: Tally, c: Tally)
    requires SameShape(a, b) && SameShape(a, c)
    ensures AddTally(AddTally(a, b), c) == AddTally(a, AddTally(b, c))
  {
    AddEachAssociative(a.bins, b.bins, c.bins);
    AddEachAssociative(a.overflow, b.overflow, c.overflow);
  }

  lemma AddTallyZero(n: nat, a: Tally)
    requires |a.bins| == n && |a.overflow| == NOverflow
    ensures AddTally(ZeroTally(n), a) == a && AddTally(a, ZeroTally(n)) == a
  {
    AddEachZero(a.bins, ZeroTally(n).bins);
    AddEachZero(a.overflow, ZeroTally(n).overflow);
  }

  lemma {:induction false} TotalAppend(n: nat, xs: seq<ProfileState>, ys: seq<ProfileState>)
    requires AllShaped(xs, n) && AllShaped(ys, n)
    ensures AllShaped(xs + ys, n)
    ensures Total(n, xs + ys) == AddTally(Total(n, xs), Total(n, ys))
    decreases |ys|
  {
    if ys == [] {
      assert xs + ys == xs;
      AddTallyZero(n, Total(n, xs));
    } else {
      var ys' := ys[..|ys| - 1];
      assert (xs + ys)[..|xs + ys| - 1] == xs + ys';
      TotalAppend(n, xs, ys');
      AddTallyAssociative(Total(n, xs), Total(n, ys'), TallyOf(ys[|ys| - 1]));
    }
  }

  lemma TotalSingle(n: nat, p: ProfileState)
    requires Shaped(p, n)
    ensures Total(n, [p]) == TallyOf(p)
  {
    assert [p][..0] == [];
    AddTallyZero(n, TallyOf(p));
  }

  /** Taking one input out of the list takes its tally out of the total. */
  lemma TotalRemove(n: nat, ys: seq<ProfileState>, j: nat)
    requires AllShaped(ys, n) && j < |ys|
    ensures AllShaped(ys[..j] + ys[j + 1..], n)
    ensures Total(n, ys) == AddTally(Total(n, ys[..j] + ys[j + 1..]), TallyOf(ys[j]))
  {
    var a, b, y := ys[..j], ys[j + 1..], ys[j];
    assert AllShaped(a, n) && AllShaped(b, n) && Shaped(y, n);
    var ta, tb, ty := Total(n, a), Total(n, b), TallyOf(y);
    assert Total(n, ys) == AddTally(AddTally(ta, ty), tb) by {
      assert ys == (a + [y]) + b;
      TotalAppend(n, a, [y]);
      TotalAppend(n, a + [y], b);
      TotalSingle(n, y);
    }
    TotalAppend(n, a, b);
    AddTallySwap(ta, ty, tb);
  }

  /** The total of the inputs depends only on which profiles the list holds, not on their order. */
  lemma {:induction false} TotalPermutation(n: nat, xs: seq<ProfileState>, ys: seq<ProfileState>)
    requires AllShaped(xs, n) && multiset(xs) == multiset(ys)
    ensures AllShaped(ys, n)
    ensures Total(n, xs) == Total(n, ys)
    decreases |xs|
  {
    forall q | 0 <= q < |ys|
      ensures Shaped(ys[q], n)
    {
      assert ys[q] in multiset(xs);
    }
    if xs == [] {
      assert |ys| == |multiset(ys)| == 0;
    } else {
      var last := xs[|xs| - 1];
      var xs' := xs[..|xs| - 1];
      assert xs == xs' + [last];
      assert last in multiset(ys);
      var j :| 0 <= j < |ys| && ys[j] == last;
      var ys' := ys[..j] + ys[j + 1..];
      assert ys == ys[..j] + [last] + ys[j + 1..];
      assert multiset(xs') == multiset(xs) - multiset{last};
      assert multiset(ys') == multiset(ys) - multiset{last};
      TotalPermutation(n, xs', ys');
      TotalRemove(n, ys, j);
    }
  }

  /** Merge and Update leave the sums alone: the tally after a merge is the target's plus the
      inputs' total. */
  lemma MergeTally(t: ProfileState, ins: seq<ProfileState>)
    requires |t.overflow| == NOverflow && AllShaped(ins, |t.bins|)
    ensures TallyOf(MergeStates(t, ins)) == AddTally(TallyOf(t), Total(|t.bins|, ins))
  {
    var r := MergeStates(t, ins);
    var tot := Total(|t.bins|, ins);
    assert SumsOf(r.bins) == AddEach(SumsOf(t.bins), tot.bins);
    assert SumsOf(r.overflow) == AddEach(SumsOf(t.overflow), tot.overflow);
  }

  /** Reordering the input list changes neither the check Merge makes as written nor the corrected
      one, whatever bin counts the inputs have. */
  lemma MergeAcceptanceOrderIrrelevant(n: nat, ins: seq<ProfileState>, ins': seq<ProfileState>)
    requires multiset(ins) == multiset(ins')
    ensures MergeAccepted(n, ins) <==> MergeAccepted(n, ins')
    ensures MergeAcceptedAsWritten(ins) <==> MergeAcceptedAsWritten(ins')
  {
    assert BinCounts(ins) == BinCounts(ins') by {
      forall c | c in BinCounts(ins) ensures c in BinCounts(ins') {
        var q :| 0 <= q < |ins| && c == |ins[q].bins|;
        assert ins[q] in multiset(ins');
        var q' :| 0 <= q' < |ins'| && ins'[q'] == ins[q];
      }
      forall c | c in BinCounts(ins') ensures c in BinCounts(ins) {
        var q :| 0 <= q < |ins'| && c == |ins'[q].bins|;
        assert ins'[q] in multiset(ins);
        var q' :| 0 <= q' < |ins| && ins[q'] == ins'[q];
      }
    }
    if MergeAccepted(n, ins) {
      forall q | 0 <= q < |ins'| ensures |ins'[q].bins| == n {
        assert ins'[q] in multiset(ins);
      }
    }
    if MergeAccepted(n, ins') {
      forall q | 0 <= q < |ins| ensures |ins[q].bins| == n {
        assert ins[q] in multiset(ins');
      }
    }
  }

  /** Merging is commutative: the order of the input list changes nothing, neither whether the
      merge is accepted nor any part of the result. */
  lemma MergeOrderIrrelevant(t: ProfileState, ins: seq<ProfileState>, ins': seq<ProfileState>)
    requires |t.overflow| == NOverflow && AllShaped(ins, |t.bins|)
    requires multiset(ins) == multiset(ins')
    ensures AllShaped(ins', |t.bins|)
    ensures MergeAccepted(|t.bins|, ins) <==> MergeAccepted(|t.bins|, ins')
    ensures MergeStates(t, ins) == MergeStates(t, ins')
  {
    TotalPermutation(|t.bins|, ins, ins');
    MergeAcceptanceOrderIrrelevant(|t.bins|, ins, ins');
  }

  /** Merging is associative on every sum: merging a then b into the target adds the same as
      merging a + b at once. */
  lemma MergeInStages(t: ProfileState, a: seq<ProfileState>, b: seq<ProfileState>)
    requires |t.overflow| == NOverflow && AllShaped(a, |t.bins|) && AllShaped(b, |t.bins|)
    ensures AllShaped(a + b, |t.bins|)
    ensures TallyOf(MergeStates(MergeStates(t, a), b)) == TallyOf(MergeStates(t, a + b))
  {
    var n := |t.bins|;
    TotalAppend(n, a, b);
    var m := MergeStates(t, a);
    MergeTally(t, a);
    MergeTally(m, b);
    MergeTally(t, a + b);
    AddTallyAssociative(TallyOf(t), Total(n, a), Total(n, b));
  }

  /** Merging is associative under any grouping: merging c into b and then b into a adds the same
      sums as merging [b, c] into a. */
  lemma MergeNested(a: ProfileState, b: ProfileState, c: ProfileState)
    requires |a.overflow| == NOverflow && Shaped(b, |a.bins|) && Shaped(c, |a.bins|)
    ensures TallyOf(MergeStates(a, [MergeStates(b, [c])])) == TallyOf(MergeStates(a, [b, c]))
  {
    var n := |a.bins|;
    var m := MergeStates(b, [c]);
    MergeTally(b, [c]);
    TotalSingle(n, c);
    TotalSingle(n, m);
    MergeTally(a, [m]);
    assert [b, c][..1] == [b];
    TotalSingle(n, b);
    MergeTally(a, [b, c]);
  }

  /** Merging inputs that hold nothing leaves every sum of the target as it was. */
  lemma MergeOfEmptyInputs(t: ProfileState, ins: seq<ProfileState>)
    requires |t.overflow| == NOverflow && AllShaped(ins, |t.bins|)
    requires forall q :: 0 <= q < |ins| ==> TallyOf(ins[q]) == ZeroTally(|t.bins|)
    ensures TallyOf(MergeStates(t, ins)) == TallyOf(t)
  {
    EmptyTotal(|t.bins|, ins);
    MergeTally(t, ins);
    AddTallyZero(|t.bins|, TallyOf(t));
  }

  lemma {:induction false} EmptyTotal(n: nat, ins: seq<ProfileState>)
    requires AllShaped(ins, n) && forall q :: 0 <= q < |ins| ==> TallyOf(ins[q]) == ZeroTally(n)
    ensures Total(n, ins) == ZeroTally(n)
  {
    if ins != [] {
      EmptyTotal(n, ins[..|ins| - 1]);
      AddTallyZero(n, ZeroTally(n));
    }
  }

  /** Merging a profile into an empty target reproduces the profile's sums. */
  lemma MergeIntoEmpty(t: ProfileState, p: ProfileState)
    requires |t.overflow| == NOverflow && Shaped(p, |t.bins|)
    requires TallyOf(t) == ZeroTally(|t.bins|)
    ensures TallyOf(MergeStates(t, [p])) == TallyOf(p)
  {
    TotalSingle(|t.bins|, p);
    MergeTally(t, [p]);
    AddTallyZero(|t.bins|, TallyOf(p));
  }

  // ---------------------------------------------------------------- fill

  /** The number of bins a fill reaches: the true entries of the mask. */
  function Hits(mask: seq<bool>): (h: nat)
    ensures h <= |mask|
  {
    if mask == [] then 0 else Hits(mask[..|mask| - 1]) + (if mask[|mask| - 1] then 1 else 0)
  }

  /** What a fill does to one polygon bin it reaches: Fill, Update, then show the average. */
  function FillShow(b: S.BinState, value: real, weight: real): S.BinState {
    ShowAverage(S.Fill(b, value, weight))
  }

  /** The state after Fill(x, y, value, weight): the accumulators take the point; each polygon bin
      the mask marks (its cell lists it and its polygon contains the point) is filled and counted
      in fEntries; the overflow slot of the region, when there is one, is filled. */
  function FillStates(p: ProfileState, mask: seq<bool>, region: int, x: real, y: real, value: real, weight: real): (r: ProfileState)
    requires |mask| == |p.bins| && |p.overflow| == NOverflow && -(NOverflow as int) <= region <= 0
    ensures Shaped(r, |p.bins|)
  {
    ProfileState(
      p.entries + Hits(mask) as real,
      FillAccumulators(p.tsums, x, y, value, weight),
      p.mode,
      FillBins(p.bins, mask, value, weight),
      FillOverflow(p.overflow, region, value, weight))
  }

  /** FillStates, component by component. */
  lemma FillStatesParts(p: ProfileState, mask: seq<bool>, region: int, x: real, y: real, value: real, weight: real,
                        r: ProfileState)
    requires |mask| == |p.bins| && |p.overflow| == NOverflow && -(NOverflow as int) <= region <= 0
    requires r.entries == p.entries + Hits(mask) as real
    requires r.tsums == FillAccumulators(p.tsums, x, y, value, weight) && r.mode == p.mode
    requires r.bins == FillBins(p.bins, mask, value, weight)
    requires r.overflow == FillOverflow(p.overflow, region, value, weight)
    ensures r == FillStates(p, mask, region, x, y, value, weight)
  {
  }

  /** The polygon bins after a fill reaching the bins the mask marks. */
  function FillBins(bs: seq<S.BinState>, mask: seq<bool>, value: real, weight: real): (r: seq<S.BinState>)
    requires |mask| == |bs|
    ensures |r| == |bs|
  {
    seq(|bs|, i requires 0 <= i < |bs| => if mask[i] then FillShow(bs[i], value, weight) else bs[i])
  }

  /** The overflow bins after a fill in the given region: the region's slot, if any, is filled. */
  function FillOverflow(os: seq<S.BinState>, region: int, value: real, weight: real): (r: seq<S.BinState>)
    requires |os| == NOverflow && -(NOverflow as int) <= region <= 0
    ensures |r| == NOverflow
  {
    var slot := FilledOverflowSlot(region);
    seq(NOverflow, k requires 0 <= k < NOverflow => if slot == Some(k) then S.Fill(os[k], value, weight) else os[k])
  }

  /** The tally of one point: what a fill adds to every sum of a profile. */
  function PointTally(mask: seq<bool>, region: int, x: real, y: real, value: real, weight: real): (t: Tally)
    requires -(NOverflow as int) <= region <= 0
    ensures |t.bins| == |mask| && |t.overflow| == NOverflow
  {
    var point := S.SampleSums(S.Sample(value, weight));
    var slot := FilledOverflowSlot(region);
    Tally(
      Hits(mask) as real,
      FillAccumulators(NoAccumulators, x, y, value, weight),
      seq(|mask|, i requires 0 <= i < |mask| => if mask[i] then point else S.NoSums),
      seq(NOverflow, k requires 0 <= k < NOverflow => if slot == Some(k) then point else S.NoSums))
  }

  lemma FillShowSums(b: S.BinState, value: real, weight: real)
    ensures FillShow(b, value, weight).sums == S.AddSums(b.sums, S.SampleSums(S.Sample(value, weight)))
  {
    S.FillAddsSample(b, value, weight);
  }

  /** A fill adds the tally of its one point to the profile's sums, whatever the profile held. */
  lemma FillAddsPointTally(p: ProfileState, mask: seq<bool>, region: int, x: real, y: real, value: real, weight: real)
    requires |mask| == |p.bins| && |p.overflow| == NOverflow && -(NOverflow as int) <= region <= 0
    ensures TallyOf(FillStates(p, mask, region, x, y, value, weight))
         == AddTally(TallyOf(p), PointTally(mask, region, x, y, value, weight))
  {
    var r := FillStates(p, mask, region, x, y, value, weight);
    var pt := PointTally(mask, region, x, y, value, weight);
    forall i | 0 <= i < |p.bins|
      ensures SumsOf(r.bins)[i] == AddEach(SumsOf(p.bins), pt.bins)[i]
    {
      FillShowSums(p.bins[i], value, weight);
      S.AddSumsZero(p.bins[i].sums);
    }
    forall k | 0 <= k < NOverflow
      ensures SumsOf(r.overflow)[k] == AddEach(SumsOf(p.overflow), pt.overflow)[k]
    {
      S.FillAddsSample(p.overflow[k], value, weight);
      S.AddSumsZero(p.overflow[k].sums);
    }
    assert SumsOf(r.bins) == AddEach(SumsOf(p.bins), pt.bins);
    assert SumsOf(r.overflow) == AddEach(SumsOf(p.overflow), pt.overflow);
    FillAddsOnePoint(p.tsums, x, y, value, weight);
  }

  /** Two fills leave the same sums in either order. */
  lemma FillsCommuteOnSums(p: ProfileState, m1: seq<bool>, r1: int, x1: real, y1: real, v1: real, w1: real,
                                           m2: seq<bool>, r2: int, x2: real, y2: real, v2: real, w2: real)
    requires |m1| == |p.bins| && |m2| == |p.bins| && |p.overflow| == NOverflow
    requires -(NOverflow as int) <= r1 <= 0 && -(NOverflow as int) <= r2 <= 0
    ensures TallyOf(FillStates(FillStates(p, m1, r1, x1, y1, v1, w1), m2, r2, x2, y2, v2, w2))
         == TallyOf(FillStates(FillStates(p, m2, r2, x2, y2, v2, w2), m1, r1, x1, y1, v1, w1))
  {
    var a := FillStates(p, m1, r1, x1, y1, v1, w1);
    var b := FillStates(p, m2, r2, x2, y2, v2, w2);
    FillAddsPointTally(p, m1, r1, x1, y1, v1, w1);
    FillAddsPointTally(p, m2, r2, x2, y2, v2, w2);
    FillAddsPointTally(a, m2, r2, x2, y2, v2, w2);
    FillAddsPointTally(b, m1, r1, x1, y1, v1, w1);
    AddTallySwap(TallyOf(p), PointTally(m1, r1, x1, y1, v1, w1), PointTally(m2, r2, x2, y2, v2, w2));
  }

  /** A point filled into an input before merging counts the same as the point filled into the
      merged profile: per-process filling followed by Merge loses nothing. */
  lemma FillBeforeMergeCountsTheSame(t: ProfileState, p: ProfileState, mask: seq<bool>, region: int,
                                     x: real, y: real, value: real, weight: real)
    requires |t.overflow| == NOverflow && Shaped(p, |t.bins|) && |mask| == |t.bins|
    requires -(NOverflow as int) <= region <= 0
    ensures TallyOf(MergeStates(t, [FillStates(p, mask, region, x, y, value, weight)]))
         == TallyOf(FillStates(MergeStates(t, [p]), mask, region, x, y, value, weight))
  {
    var n := |t.bins|;
    var f := FillStates(p, mask, region, x, y, value, weight);
    var pt := PointTally(mask, region, x, y, value, weight);
    FillAddsPointTally(p, mask, region, x, y, value, weight);
    TotalSingle(n, f);
    TotalSingle(n, p);
    MergeTally(t, [f]);
    MergeTally(t, [p]);
    FillAddsPointTally(MergeStates(t, [p]), mask, region, x, y, value, weight);
    AddTallyAssociative(TallyOf(t), TallyOf(p), pt);
  }

  /** Every polygon bin a fill reaches shows its weighted mean value afterwards. */
  lemma FillShowsMean(p: ProfileState, mask: seq<bool>, region: int, x: real, y: real, value: real, weight: real, i: nat)
    requires |mask| == |p.bins| && |p.overflow| == NOverflow && -(NOverflow as int) <= region <= 0
    requires i < |p.bins| && mask[i]
    ensures var b := FillStates(p, mask, region, x, y, value, weight).bins[i];
      b.sums.sumw != 0.0 ==> b.content == S.Exact(b.sums.sumvw / b.sums.sumw)
  {
    FillShowSums(p.bins[i], value, weight);
  }

  // ---------------------------------------------------------------- whole-profile bin passes

  /** Each bin updated and showing its average. */
  function ShowAverageEach(bs: seq<S.BinState>): (r: seq<S.BinState>)
    ensures |r| == |bs|
  {
    seq(|bs|, i requires 0 <= i < |bs| => ShowAverage(bs[i]))
  }

  /** Each bin updated and showing its error. */
  function ShowErrorEach(bs: seq<S.BinState>): (r: seq<S.BinState>)
    ensures |r| == |bs|
  {
    seq(|bs|, i requires 0 <= i < |bs| => ShowError(bs[i]))
  }

  /** SetContentToAverage: every polygon bin updated and showing its average. */
  function ShowAverages(p: ProfileState): ProfileState {
    p.(bins := ShowAverageEach(p.bins))
  }

  /** SetContentToError: every polygon bin updated and showing its error. */
  function ShowErrors(p: ProfileState): ProfileState {
    p.(bins := ShowErrorEach(p.bins))
  }

  /** Showing the average changes no sum, and a bin with weight shows its weighted mean. */
  lemma ShowAveragesMeans(p: ProfileState)
    ensures TallyOf(ShowAverages(p)) == TallyOf(p)
    ensures forall i :: 0 <= i < |p.bins| && p.bins[i].sums.sumw != 0.0 ==>
      ShowAverages(p).bins[i].content == S.Exact(p.bins[i].sums.sumvw / p.bins[i].sums.sumw)
  {
    assert SumsOf(ShowAverages(p).bins) == SumsOf(p.bins);
  }

  /** Showing the average twice is showing it once. */
  lemma ShowAveragesIdempotent(p: ProfileState)
    ensures ShowAverages(ShowAverages(p)) == ShowAverages(p)
  {
    forall i | 0 <= i < |p.bins|
      ensures ShowAverage(ShowAverage(p.bins[i])) == ShowAverage(p.bins[i])
    {
      var u := S.Update(p.bins[i]);
      S.UpdateIdempotent(p.bins[i]);
      var c := S.Exact(u.average);
      S.UpdateIgnoresContent(u, c);
    }
  }

  /** Showing the error changes no sum, and every polygon bin shows the error Update computes from
      its sums and mode: in spread mode with weight, the square root of Σw·v²/Σw − (Σw·v/Σw)². */
  lemma ShowErrorsMeans(p: ProfileState)
    ensures TallyOf(ShowErrors(p)) == TallyOf(p)
    ensures forall i :: 0 <= i < |p.bins| ==> ShowErrors(p).bins[i].content == S.Update(p.bins[i]).error
    ensures forall i :: 0 <= i < |p.bins| && p.bins[i].mode == S.ErrorSpread && p.bins[i].sums.sumw != 0.0 ==>
      var s := p.bins[i].sums;
      ShowErrors(p).bins[i].content == S.Sqrt(s.sumwv2 / s.sumw - (s.sumvw / s.sumw) * (s.sumvw / s.sumw))
  {
    assert SumsOf(ShowErrors(p).bins) == SumsOf(p.bins);
  }

  // ---------------------------------------------------------------- reset and error mode

  /** Each bin cleared: content first, then statistics. */
  function ClearEach(bs: seq<S.BinState>): (r: seq<S.BinState>)
    ensures |r| == |bs|
  {
    seq(|bs|, i requires 0 <= i < |bs| => S.ClearStats(bs[i].(content := S.Exact(0.0))))
  }

  /** Reset: every polygon bin cleared, then the base-class reset of fEntries and the
      accumulators; the overflow bins are kept. */
  function ResetState(p: ProfileState): ProfileState {
    ProfileState(0.0, ResetBaseAccumulators(p.tsums), p.mode, ClearEach(p.bins), p.overflow)
  }

  /** After a reset the polygon bins and the base-class sums hold nothing, and the profile's own
      sums and overflow bins are as they were; a second reset changes nothing more. */
  lemma ResetMeans(p: ProfileState)
    ensures var r := ResetState(p);
      r.entries == 0.0
      && r.tsums.tsumw == 0.0 && r.tsums.tsumw2 == 0.0 && r.tsums.tsumwx == 0.0 && r.tsums.tsumwx2 == 0.0
      && r.tsums.tsumwy == 0.0 && r.tsums.tsumwy2 == 0.0 && r.tsums.tsumwxy == 0.0
      && r.tsums.tsumwz == p.tsums.tsumwz && r.tsums.tsumwz2 == p.tsums.tsumwz2
      && TallyOf(r).bins == ZeroTally(|p.bins|).bins && r.overflow == p.overflow
      && (forall i :: 0 <= i < |p.bins| ==> r.bins[i].content == S.Exact(0.0) && r.bins[i].mode == p.bins[i].mode)
      && ResetState(r) == r
  {
    var r := ResetState(p);
    assert TallyOf(r).bins == ZeroTally(|p.bins|).bins;
    assert ResetState(r).bins == r.bins;
  }

  /** Each bin given the error mode m. */
  function WithModeEach(bs: seq<S.BinState>, m: S.ErrorMode): (r: seq<S.BinState>)
    ensures |r| == |bs|
  {
    seq(|bs|, i requires 0 <= i < |bs| => bs[i].(mode := m))
  }

  /** SetErrorOption: the profile's mode and every polygon bin's mode; the overflow bins keep theirs. */
  function WithErrorMode(p: ProfileState, m: S.ErrorMode): ProfileState {
    p.(mode := m, bins := WithModeEach(p.bins, m))
  }

  /** Setting the error mode changes no sum and no shown value; the next update of a polygon bin
      computes the spread, or the error on the mean for every other mode. */
  lemma WithErrorModeMeans(p: ProfileState, m: S.ErrorMode)
    ensures var r := WithErrorMode(p, m);
      TallyOf(r) == TallyOf(p) && r.overflow == p.overflow
      && (forall i :: 0 <= i < |p.bins| ==> r.bins[i].content == p.bins[i].content)
      && (forall i :: 0 <= i < |p.bins| ==>
            S.Update(r.bins[i]).error
            == var rad := S.Radicand(S.UpdateAverage(p.bins[i]));
               if m == S.ErrorSpread then S.Sqrt(rad)
               else S.SqrtPerEffectiveEntries(rad, p.bins[i].sums.sumw, p.bins[i].sums.sumw2))
  {
    var r := WithErrorMode(p, m);
    assert SumsOf(r.bins) == SumsOf(p.bins);
  }
}
