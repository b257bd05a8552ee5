/** compute_wer and aggregate of eval/vox_eval/metrics.py, over reals. */
module Metrics {
  import opened Api
  import opened Text
  import opened Normalization
  import opened Alignment
  import C = Contractions
  import NT = NormalizedText

  /** What the measures need of the normalisation: blank texts vanish, and a text is its words joined by spaces. */
  ghost predicate Normalizer(norm: string -> string) {
    && (forall s :: Blank(s) ==> norm(s) == "")
    && (forall s :: Join(Words(norm(s)), ' ') == norm(s) && (norm(s) != "" ==> Words(norm(s)) != []))
  }

  /** _normalize is such a normalisation. */
  lemma NormalizeIsNormalizer(lower: string -> string, fixed: char -> bool)
    requires Lowercasing(lower, fixed)
    ensures Normalizer((s: string) => Normalize(s, lower))
  {
    forall s | Blank(s) ensures Normalize(s, lower) == "" {
      BlankNormalizesAway(s, lower, fixed);
    }
    forall s
      ensures var n := Normalize(s, lower); Join(Words(n), ' ') == n && (n != "" ==> Words(n) != [])
    {
      WordsJoinBack(s, lower, fixed);
    }
  }

  /** What compute_wer returns. */
  datatype Measure = Measure(wer: real, substitutions: nat, insertions: nat, deletions: nat)

  datatype Sample = Sample(id: string, truth: string, prediction: string, measure: Measure, time: real)

  /** str.split(): words between runs of white space. */
  function RawWords(s: string): seq<Word> { Words(Collapse(s)) }

  function RefWords(text: string, norm: string -> string): seq<Word> { Words(norm(text)) }

  function Errors(truth: string, prediction: string, norm: string -> string): nat {
    Distance(RefWords(truth, norm), RefWords(prediction, norm))
  }

  /** None stands for the ValueError that jiwer raises for a reference without words. */
  function ComputeWer(truth: string, prediction: string, norm: string -> string): Option<Measure> {
    if Blank(truth) then Some(Measure(if Blank(prediction) then 0.0 else 1.0, 0, 0, 0))
    else if Blank(prediction) then Some(Measure(1.0, 0, 0, |RawWords(truth)|))
    else
      var ref, hyp := RefWords(truth, norm), RefWords(prediction, norm);
      if ref == [] then None
      else
        var ops := Best(ref, hyp);
        Some(Measure(Cost(ops) as real / |ref| as real,
                     Tally(ops, Substitution), Tally(ops, Insertion), Tally(ops, Deletion)))
  }

  // ----- Aggregation

  datatype Aggregate = Aggregate(
    totalSamples: nat, meanWer: real, medianWer: real, minWer: real, maxWer: real,
    corpusErrors: nat, corpusWords: nat, corpusWer: real, totalReferenceWords: nat, meanTime: real)

  function Sum(xs: seq<real>): real {
    if xs == [] then 0.0 else Sum(xs[..|xs| - 1]) + xs[|xs| - 1]
  }

  function Min(xs: seq<real>): (m: real)
    requires xs != []
    ensures m in xs && forall x :: x in xs ==> m <= x
  {
    if |xs| == 1 then xs[0]
    else
      var rest := Min(xs[1..]);
      assert forall x :: x in xs ==> x == xs[0] || x in xs[1..];
      if xs[0] < rest then xs[0] else rest
  }

  function Max(xs: seq<real>): (m: real)
    requires xs != []
    ensures m in xs && forall x :: x in xs ==> x <= m
  {
    if |xs| == 1 then xs[0]
    else
      var rest := Max(xs[1..]);
      assert forall x :: x in xs ==> x == xs[0] || x in xs[1..];
      if xs[0] > rest then xs[0] else rest
  }

  function Insert(x: real, xs: seq<real>): seq<real> {
    if xs == [] || x <= xs[0] then [x] + xs else [xs[0]] + Insert(x, xs[1..])
  }

  function Sorted(xs: seq<real>): seq<real> {
    if xs == [] then [] else Insert(xs[0], Sorted(xs[1..]))
  }

  function Median(sorted: seq<real>): real
    requires sorted != []
  {
    var n := |sorted|;
    if n % 2 == 0 then (sorted[n / 2 - 1] + sorted[n / 2]) / 2.0 else sorted[n / 2]
  }

  function Wers(samples: seq<Sample>): seq<real> {
    seq(|samples|, i requires 0 <= i < |samples| => samples[i].measure.wer)
  }

  function Times(samples: seq<Sample>): seq<real> {
    seq(|samples|, i requires 0 <= i < |samples| => samples[i].time)
  }

  function Total(ns: seq<nat>): nat {
    if ns == [] then 0 else Total(ns[..|ns| - 1]) + ns[|ns| - 1]
  }

  /** The errors of each sample, and the words of its normalised reference. */
  function ErrorCounts(samples: seq<Sample>, norm: string -> string): seq<nat> {
    seq(|samples|, i requires 0 <= i < |samples| => Errors(samples[i].truth, samples[i].prediction, norm))
  }

  function WordCounts(samples: seq<Sample>, norm: string -> string): seq<nat> {
    seq(|samples|, i requires 0 <= i < |samples| => |RefWords(samples[i].truth, norm)|)
  }

  function RawWordCounts(samples: seq<Sample>): seq<nat> {
    seq(|samples|, i requires 0 <= i < |samples| => |RawWords(samples[i].truth)|)
  }

  predicate HasWords(s: Sample, norm: string -> string) {
    RefWords(s.truth, norm) != []
  }

  predicate AllHaveWords(samples: seq<Sample>, norm: string -> string) {
    forall i :: 0 <= i < |samples| ==> HasWords(samples[i], norm)
  }

  lemma {:induction false} TotalPositive(ns: seq<nat>)
    requires forall i :: 0 <= i < |ns| ==> ns[i] > 0
    ensures Total(ns) >= |ns|
  {
    if ns != [] {
      TotalPositive(ns[..|ns| - 1]);
    }
  }

  lemma CorpusHasWords(samples: seq<Sample>, norm: string -> string)
    requires AllHaveWords(samples, norm)
    ensures Total(WordCounts(samples, norm)) >= |samples|
    ensures forall i :: 0 <= i < |samples| ==> WordCounts(samples, norm)[i] > 0
  {
    assert forall i :: 0 <= i < |samples| ==> HasWords(samples[i], norm);
    TotalPositive(WordCounts(samples, norm));
  }

  /** None stands for the ValueErrors: no samples, or (from jiwer) a sample whose normalised reference has no words. */
  function AggregateOf(samples: seq<Sample>, norm: string -> string): Option<Aggregate> {
    if samples == [] || !AllHaveWords(samples, norm) then None
    else
      CorpusHasWords(samples, norm);
      var n, wers := |samples|, Wers(samples);
      SortedIsPermutation(wers);
      var errors, words := Total(ErrorCounts(samples, norm)), Total(WordCounts(samples, norm));
      Some(Aggregate(
             n, Sum(wers) / n as real, Median(Sorted(wers)), Min(wers), Max(wers),
             errors, words, errors as real / words as real, Total(RawWordCounts(samples)), Sum(Times(samples)) / n as real))
  }

  // ----- Sorting

  predicate Ascending(xs: seq<real>) {
    forall i, j :: 0 <= i < j < |xs| ==> xs[i] <= xs[j]
  }

  lemma {:induction false} InsertContents(x: real, xs: seq<real>)
    ensures multiset(Insert(x, xs)) == multiset(xs) + multiset{x} && |Insert(x, xs)| == |xs| + 1
  {
    if xs != [] && x > xs[0] {
      InsertContents(x, xs[1..]);
      assert xs == [xs[0]] + xs[1..];
    }
  }

  lemma {:induction false} InsertAscends(x: real, xs: seq<real>)
    requires Ascending(xs)
    ensures Ascending(Insert(x, xs)) && (xs == [] || Insert(x, xs)[0] == if x <= xs[0] then x else xs[0])
  {
    if xs != [] && x > xs[0] {
      InsertAscends(x, xs[1..]);
      var rest := Insert(x, xs[1..]);
      assert xs[0] <= rest[0];
      assert forall i :: 0 <= i < |rest| ==> rest[0] <= rest[i];
    }
  }

  lemma {:induction false} SortedContents(xs: seq<real>)
    ensures multiset(Sorted(xs)) == multiset(xs) && |Sorted(xs)| == |xs|
  {
    if xs != [] {
      SortedContents(xs[1..]);
      InsertContents(xs[0], Sorted(xs[1..]));
      assert xs == [xs[0]] + xs[1..];
    }
  }

  lemma {:induction false} SortedAscends(xs: seq<real>)
    ensures Ascending(Sorted(xs))
  {
    if xs != [] {
      SortedAscends(xs[1..]);
      InsertAscends(xs[0], Sorted(xs[1..]));
    }
  }

  lemma SortedIsPermutation(xs: seq<real>)
    ensures Ascending(Sorted(xs)) && multiset(Sorted(xs)) == multiset(xs) && |Sorted(xs)| == |xs|
  {
    SortedContents(xs);
    SortedAscends(xs);
  }

  lemma SameLength(xs: seq<real>, ys: seq<real>)
    requires multiset(xs) == multiset(ys)
    ensures |xs| == |ys|
  {
    assert |multiset(xs)| == |xs| && |multiset(ys)| == |ys|;
  }

  lemma FirstIsLeast(xs: seq<real>, ys: seq<real>)
    requires Ascending(xs) && ys != [] && multiset(xs) == multiset(ys)
    ensures xs != [] && xs[0] <= ys[0]
  {
    assert ys[0] in multiset(xs);
    var i :| 0 <= i < |xs| && xs[i] == ys[0];
  }

  lemma SameRest(xs: seq<real>, ys: seq<real>)
    requires xs != [] && ys != [] && xs[0] == ys[0] && multiset(xs) == multiset(ys)
    ensures multiset(xs[1..]) == multiset(ys[1..])
  {
    WithoutFirst(xs);
    WithoutFirst(ys);
  }

  lemma {:induction false} AscendingIsUnique(xs: seq<real>, ys: seq<real>)
    requires Ascending(xs) && Ascending(ys) && multiset(xs) == multiset(ys)
    ensures xs == ys
  {
    SameLength(xs, ys);
    if xs != [] {
      FirstIsLeast(xs, ys);
      FirstIsLeast(ys, xs);
      SameRest(xs, ys);
      AscendingIsUnique(xs[1..], ys[1..]);
      assert xs == [xs[0]] + xs[1..] && ys == [ys[0]] + ys[1..];
    }
  }

  lemma WithoutFirst(xs: seq<real>)
    requires xs != []
    ensures multiset(xs[1..]) == multiset(xs) - multiset{xs[0]}
  {
    assert xs == [xs[0]] + xs[1..];
  }

  /** The median does not depend on the order of the samples. */
  lemma MedianIgnoresOrder(xs: seq<real>, ys: seq<real>)
    requires xs != [] && multiset(xs) == multiset(ys)
    ensures Sorted(xs) == Sorted(ys) && Sorted(xs) != [] && Median(Sorted(xs)) == Median(Sorted(ys))
  {
    SortedIsPermutation(xs);
    SortedIsPermutation(ys);
    AscendingIsUnique(Sorted(xs), Sorted(ys));
  }

  // ----- The median splits the WERs in halves

  function AtMost(xs: seq<real>, m: real): nat {
    if xs == [] then 0 else AtMost(xs[1..], m) + if xs[0] <= m then 1 else 0
  }

  function AtLeast(xs: seq<real>, m: real): nat {
    if xs == [] then 0 else AtLeast(xs[1..], m) + if xs[0] >= m then 1 else 0
  }

  lemma {:induction false} InsertCounts(x: real, xs: seq<real>, m: real)
    ensures AtMost(Insert(x, xs), m) == AtMost(xs, m) + if x <= m then 1 else 0
    ensures AtLeast(Insert(x, xs), m) == AtLeast(xs, m) + if x >= m then 1 else 0
  {
    var r := Insert(x, xs);
    if xs == [] || x <= xs[0] {
      assert r[1..] == xs;
    } else {
      assert r[1..] == Insert(x, xs[1..]);
      InsertCounts(x, xs[1..], m);
    }
  }

  lemma {:induction false} SortedCounts(xs: seq<real>, m: real)
    ensures AtMost(Sorted(xs), m) == AtMost(xs, m) && AtLeast(Sorted(xs), m) == AtLeast(xs, m)
  {
    if xs != [] {
      SortedCounts(xs[1..], m);
      InsertCounts(xs[0], Sorted(xs[1..]), m);
    }
  }

  lemma {:induction false} PrefixAtMost(xs: seq<real>, k: nat, m: real)
    requires k <= |xs| && forall i :: 0 <= i < k ==> xs[i] <= m
    ensures AtMost(xs, m) >= k
  {
    if k > 0 {
      PrefixAtMost(xs[1..], k - 1, m);
    }
  }

  lemma {:induction false} SuffixAtLeast(xs: seq<real>, k: nat, m: real)
    requires k <= |xs| && forall i :: k <= i < |xs| ==> xs[i] >= m
    ensures AtLeast(xs, m) >= |xs| - k
  {
    if xs != [] {
      SuffixAtLeast(xs[1..], if k == 0 then 0 else k - 1, m);
    }
  }

  /** At least half of the WERs lie on each side of the median. */
  lemma MedianSplits(xs: seq<real>)
    requires xs != []
    ensures |Sorted(xs)| == |xs|
    ensures var m := Median(Sorted(xs)); 2 * AtMost(xs, m) >= |xs| && 2 * AtLeast(xs, m) >= |xs|
  {
    assert |Sorted(xs)| == |xs| && Ascending(Sorted(xs)) by {
      SortedIsPermutation(xs);
    }
    MiddleSplits(Sorted(xs));
    SortedCounts(xs, Median(Sorted(xs)));
  }

  lemma MiddleSplits(s: seq<real>)
    requires s != [] && Ascending(s)
    ensures var m := Median(s); 2 * AtMost(s, m) >= |s| && 2 * AtLeast(s, m) >= |s|
  {
    var n, m := |s|, Median(s);
    if n % 2 == 0 {
      assert s[n / 2 - 1] <= m <= s[n / 2];
      PrefixAtMost(s, n / 2, m);
      SuffixAtLeast(s, n / 2, m);
    } else {
      PrefixAtMost(s, n / 2 + 1, m);
      SuffixAtLeast(s, n / 2, m);
    }
  }

  // ----- The corpus WER is a weighted mean

  lemma Ratio(e: real, n: real)
    requires n > 0.0
    ensures e / n * n == e && (e / n == 0.0 <==> e == 0.0)
  {
  }

  /** The WER of a sample with words is its errors over its reference words, also when the prediction is blank. */
  lemma WerIsErrorRate(truth: string, prediction: string, norm: string -> string)
    requires Normalizer(norm) && RefWords(truth, norm) != []
    ensures var m := ComputeWer(truth, prediction, norm);
      m.Some? && m.value.wer == Errors(truth, prediction, norm) as real / |RefWords(truth, norm)| as real
  {
    var ref := RefWords(truth, norm);
    assert Words("") == [];
    assert !Blank(truth);
    if Blank(prediction) {
      DistanceExtremes(ref, []);
      assert Errors(truth, prediction, norm) == |ref|;
      Whole(|ref| as real);
    }
  }

  lemma Whole(n: real)
    requires n > 0.0
    ensures n / n == 1.0
  {
  }

  /** A WER of zero means that the normalised texts are the same, and conversely. */
  lemma ZeroWerMeansSameText(truth: string, prediction: string, norm: string -> string)
    requires Normalizer(norm) && RefWords(truth, norm) != []
    ensures ComputeWer(truth, prediction, norm).Some?
    ensures ComputeWer(truth, prediction, norm).value.wer == 0.0 <==> norm(truth) == norm(prediction)
  {
    WerIsErrorRate(truth, prediction, norm);
    DistanceExtremes(RefWords(truth, norm), RefWords(prediction, norm));
    assert Join(Words(norm(truth)), ' ') == norm(truth) && Join(Words(norm(prediction)), ' ') == norm(prediction);
    Ratio(Errors(truth, prediction, norm) as real, |RefWords(truth, norm)| as real);
  }

  /** The counts that compute_wer returns for two texts with words: those of a minimal alignment. */
  lemma CountsAreMinimal(truth: string, prediction: string, norm: string -> string, ops: seq<Edit>)
    requires !Blank(truth) && !Blank(prediction) && RefWords(truth, norm) != []
    requires Aligns(ops, RefWords(truth, norm), RefWords(prediction, norm))
    ensures var m := ComputeWer(truth, prediction, norm).value;
      m.substitutions + m.insertions + m.deletions == Errors(truth, prediction, norm) <= Cost(ops)
  {
    var ref, hyp := RefWords(truth, norm), RefWords(prediction, norm);
    CountsAddUp(Best(ref, hyp), ref, hyp);
    BestIsMinimal(ops, ref, hyp);
  }

  /** The samples carry what compute_wer returned for them. */
  predicate Measured(samples: seq<Sample>, norm: string -> string) {
    forall i :: 0 <= i < |samples| ==>
      ComputeWer(samples[i].truth, samples[i].prediction, norm) == Some(samples[i].measure)
  }

  /** Each WER times the number of words of its normalised reference, added up. */
  function Weighted(wers: seq<real>, words: seq<nat>): real
    requires |wers| == |words|
  {
    if wers == [] then 0.0
    else
      var n := |wers| - 1;
      Weighted(wers[..n], words[..n]) + wers[n] * words[n] as real
  }

  lemma {:induction false} ErrorsAreWeighted(errors: seq<nat>, words: seq<nat>, wers: seq<real>)
    requires |errors| == |words| == |wers|
    requires forall i :: 0 <= i < |wers| ==> words[i] > 0 && wers[i] == errors[i] as real / words[i] as real
    ensures Total(errors) as real == Weighted(wers, words)
  {
    if wers != [] {
      var n := |wers| - 1;
      ErrorsAreWeighted(errors[..n], words[..n], wers[..n]);
      Ratio(errors[n] as real, words[n] as real);
    }
  }

  predicate Between(lo: real, sum: real, hi: real, n: real) {
    lo * n <= sum <= hi * n
  }

  lemma Scale(lo: real, w: real, hi: real, m: real, k: real, sum: real, more: real, n: real)
    requires lo <= w <= hi && k >= 0.0 && Between(lo, sum, hi, m)
    requires more == sum + w * k && n == m + k
    ensures Between(lo, more, hi, n)
  {
    assert lo * k <= w * k <= hi * k;
    assert lo * n == lo * m + lo * k && hi * n == hi * m + hi * k;
  }

  lemma {:induction false} WeightedBounds(wers: seq<real>, words: seq<nat>, lo: real, hi: real)
    requires |wers| == |words| && forall i :: 0 <= i < |wers| ==> lo <= wers[i] <= hi
    ensures Between(lo, Weighted(wers, words), hi, Total(words) as real)
  {
    if wers == [] {
      EmptyBounds(lo, hi);
    } else {
      var n := |wers| - 1;
      var w, k := wers[n], words[n] as real;
      var sum, m := Weighted(wers[..n], words[..n]), Total(words[..n]) as real;
      assert Between(lo, sum, hi, m) by {
        WeightedBounds(wers[..n], words[..n], lo, hi);
      }
      Scale(lo, w, hi, m, k, sum, Weighted(wers, words), Total(words) as real) by {
        assert Total(words) == Total(words[..n]) + words[n];
      }
    }
  }

  lemma EmptyBounds(lo: real, hi: real)
    ensures Between(lo, 0.0, hi, 0.0)
  {
  }

  lemma EachWer(samples: seq<Sample>, norm: string -> string, i: nat)
    requires Normalizer(norm) && Measured(samples, norm) && i < |samples| && HasWords(samples[i], norm)
    ensures Wers(samples)[i] == ErrorCounts(samples, norm)[i] as real / WordCounts(samples, norm)[i] as real
  {
    WerIsErrorRate(samples[i].truth, samples[i].prediction, norm);
  }

  /** The corpus WER is the mean of the sample WERs weighted by normalised reference length; so it lies between the smallest
      and the largest, for any number of samples, blank predictions included. */
  lemma CorpusWerIsWeightedMean(samples: seq<Sample>, norm: string -> string)
    requires Normalizer(norm) && samples != [] && Measured(samples, norm) && AllHaveWords(samples, norm)
    ensures AggregateOf(samples, norm).Some?
    ensures var a, words := AggregateOf(samples, norm).value, WordCounts(samples, norm);
      && Total(words) > 0
      && a.corpusWer == Weighted(Wers(samples), words) / Total(words) as real
      && a.minWer <= a.corpusWer <= a.maxWer
  {
    CorpusHasWords(samples, norm);
    var errors, words, wers := ErrorCounts(samples, norm), WordCounts(samples, norm), Wers(samples);
    assert Total(errors) as real == Weighted(wers, words) by {
      forall i | 0 <= i < |samples| ensures words[i] > 0 && wers[i] == errors[i] as real / words[i] as real {
        assert HasWords(samples[i], norm);
        EachWer(samples, norm, i);
      }
      ErrorsAreWeighted(errors, words, wers);
    }
    assert forall i :: 0 <= i < |wers| ==> wers[i] in wers;
    MeanIsBetween(wers, words, Min(wers), Max(wers));
  }

  lemma MeanIsBetween(wers: seq<real>, words: seq<nat>, lo: real, hi: real)
    requires |wers| == |words| && Total(words) > 0 && forall i :: 0 <= i < |wers| ==> lo <= wers[i] <= hi
    ensures lo <= Weighted(wers, words) / Total(words) as real <= hi
  {
    Quotient(lo, Weighted(wers, words), hi, Total(words) as real) by {
      WeightedBounds(wers, words, lo, hi);
    }
  }

  lemma Quotient(lo: real, sum: real, hi: real, n: real)
    requires n > 0.0 && Between(lo, sum, hi, n)
    ensures lo <= sum / n <= hi
  {
    assert sum / n * n == sum;
  }

  /** aggregate raises exactly when there is no sample or some reference normalises to nothing. */
  lemma AggregateRaises(samples: seq<Sample>, norm: string -> string)
    requires Normalizer(norm)
    ensures AggregateOf(samples, norm).None? <==>
            samples == [] || exists i :: 0 <= i < |samples| && norm(samples[i].truth) == ""
  {
    assert Words("") == [];
    forall i | 0 <= i < |samples| ensures HasWords(samples[i], norm) <==> norm(samples[i].truth) != "" {
    }
  }

  // ----- The aggregate of two lists

  lemma {:induction false} SumConcat(xs: seq<real>, ys: seq<real>)
    ensures Sum(xs + ys) == Sum(xs) + Sum(ys)
  {
    if ys == [] {
      assert xs + ys == xs;
    } else {
      var n := |ys| - 1;
      assert (xs + ys)[..|xs + ys| - 1] == xs + ys[..n];
      SumConcat(xs, ys[..n]);
    }
  }

  lemma {:induction false} TotalConcat(ms: seq<nat>, ns: seq<nat>)
    ensures Total(ms + ns) == Total(ms) + Total(ns)
  {
    if ns == [] {
      assert ms + ns == ms;
    } else {
      var n := |ns| - 1;
      assert (ms + ns)[..|ms + ns| - 1] == ms + ns[..n];
      TotalConcat(ms, ns[..n]);
    }
  }

  lemma ExtremesConcat(xs: seq<real>, ys: seq<real>)
    requires xs != [] && ys != []
    ensures Min(xs + ys) == if Min(xs) <= Min(ys) then Min(xs) else Min(ys)
    ensures Max(xs + ys) == if Max(xs) >= Max(ys) then Max(xs) else Max(ys)
  {
    assert Min(xs) in xs + ys && Min(ys) in xs + ys && Max(xs) in xs + ys && Max(ys) in xs + ys;
  }

  lemma ErrorsConcat(s: seq<Sample>, t: seq<Sample>, norm: string -> string)
    ensures ErrorCounts(s + t, norm) == ErrorCounts(s, norm) + ErrorCounts(t, norm)
  {
  }

  lemma WordsConcat(s: seq<Sample>, t: seq<Sample>, norm: string -> string)
    ensures WordCounts(s + t, norm) == WordCounts(s, norm) + WordCounts(t, norm)
    ensures RawWordCounts(s + t) == RawWordCounts(s) + RawWordCounts(t)
  {
  }

  lemma FiguresConcat(s: seq<Sample>, t: seq<Sample>)
    ensures Wers(s + t) == Wers(s) + Wers(t) && Times(s + t) == Times(s) + Times(t)
  {
  }

  /** The sums behind the figures. */
  predicate Sums(a: Aggregate, samples: seq<Sample>, norm: string -> string) {
    && a.totalSamples == |samples| > 0
    && a.corpusErrors == Total(ErrorCounts(samples, norm)) && a.corpusWords == Total(WordCounts(samples, norm)) > 0
    && a.totalReferenceWords == Total(RawWordCounts(samples))
    && IsMean(a.meanWer, Sum(Wers(samples)), a.totalSamples)
    && IsMean(a.meanTime, Sum(Times(samples)), a.totalSamples)
    && IsMean(a.corpusWer, a.corpusErrors as real, a.corpusWords)
  }

  predicate IsMean(mean: real, sum: real, n: nat) {
    n > 0 && mean == sum / n as real
  }

  lemma AggregateSums(samples: seq<Sample>, norm: string -> string, a: Aggregate)
    requires AggregateOf(samples, norm) == Some(a)
    ensures Sums(a, samples, norm)
  {
    CorpusHasWords(samples, norm);
  }

  /** The mean of two samples together is their means weighted by size. */
  predicate Weighed(mc: real, nc: nat, ma: real, na: nat, mb: real, nb: nat) {
    mc * nc as real == ma * na as real + mb * nb as real
  }

  lemma MeansCombine(ma: real, sa: real, na: nat, mb: real, sb: real, nb: nat, mc: real, sc: real, nc: nat)
    requires IsMean(ma, sa, na) && IsMean(mb, sb, nb) && IsMean(mc, sc, nc) && sc == sa + sb && nc == na + nb
    ensures Weighed(mc, nc, ma, na, mb, nb)
  {
    MeanTimes(ma, sa, na);
    MeanTimes(mb, sb, nb);
    MeanTimes(mc, sc, nc);
  }

  lemma MeanTimes(mean: real, sum: real, n: nat)
    requires IsMean(mean, sum, n)
    ensures mean * n as real == sum
  {
  }

  lemma BothHaveWords(s: seq<Sample>, t: seq<Sample>, norm: string -> string)
    requires AllHaveWords(s, norm) && AllHaveWords(t, norm)
    ensures AllHaveWords(s + t, norm)
  {
  }

  /** The figures c of two lists together follow from their figures a and b alone: counts add up, the means are weighted by
      samples, the WER of the corpus by words, and the extremes are those of either list. */
  predicate Combined(a: Aggregate, b: Aggregate, c: Aggregate) {
    && c.totalSamples == a.totalSamples + b.totalSamples
    && c.corpusErrors == a.corpusErrors + b.corpusErrors && c.corpusWords == a.corpusWords + b.corpusWords
    && c.totalReferenceWords == a.totalReferenceWords + b.totalReferenceWords
    && Weighed(c.meanWer, c.totalSamples, a.meanWer, a.totalSamples, b.meanWer, b.totalSamples)
    && Weighed(c.meanTime, c.totalSamples, a.meanTime, a.totalSamples, b.meanTime, b.totalSamples)
    && Weighed(c.corpusWer, c.corpusWords, a.corpusWer, a.corpusWords, b.corpusWer, b.corpusWords)
    && c.minWer == (if a.minWer <= b.minWer then a.minWer else b.minWer)
    && c.maxWer == (if a.maxWer >= b.maxWer then a.maxWer else b.maxWer)
  }

  lemma CountsCombine(s: seq<Sample>, t: seq<Sample>, norm: string -> string, a: Aggregate, b: Aggregate, c: Aggregate)
    requires Sums(a, s, norm) && Sums(b, t, norm) && Sums(c, s + t, norm)
    ensures c.totalSamples == a.totalSamples + b.totalSamples
    ensures c.corpusErrors == a.corpusErrors + b.corpusErrors && c.corpusWords == a.corpusWords + b.corpusWords
    ensures c.totalReferenceWords == a.totalReferenceWords + b.totalReferenceWords
    ensures Sum(Wers(s + t)) == Sum(Wers(s)) + Sum(Wers(t)) && Sum(Times(s + t)) == Sum(Times(s)) + Sum(Times(t))
  {
    FiguresConcat(s, t);
    ErrorsConcat(s, t, norm);
    WordsConcat(s, t, norm);
    SumConcat(Wers(s), Wers(t));
    SumConcat(Times(s), Times(t));
    TotalConcat(ErrorCounts(s, norm), ErrorCounts(t, norm));
    TotalConcat(WordCounts(s, norm), WordCounts(t, norm));
    TotalConcat(RawWordCounts(s), RawWordCounts(t));
  }

  lemma MeanWersCombine(s: seq<Sample>, t: seq<Sample>, norm: string -> string, a: Aggregate, b: Aggregate, c: Aggregate)
    requires Sums(a, s, norm) && Sums(b, t, norm) && Sums(c, s + t, norm)
    ensures Weighed(c.meanWer, c.totalSamples, a.meanWer, a.totalSamples, b.meanWer, b.totalSamples)
  {
    CountsCombine(s, t, norm, a, b, c);
    MeansCombine(a.meanWer, Sum(Wers(s)), a.totalSamples, b.meanWer, Sum(Wers(t)), b.totalSamples,
                 c.meanWer, Sum(Wers(s + t)), c.totalSamples);
  }

  lemma MeanTimesCombine(s: seq<Sample>, t: seq<Sample>, norm: string -> string, a: Aggregate, b: Aggregate, c: Aggregate)
    requires Sums(a, s, norm) && Sums(b, t, norm) && Sums(c, s + t, norm)
    ensures Weighed(c.meanTime, c.totalSamples, a.meanTime, a.totalSamples, b.meanTime, b.totalSamples)
  {
    CountsCombine(s, t, norm, a, b, c);
    MeansCombine(a.meanTime, Sum(Times(s)), a.totalSamples, b.meanTime, Sum(Times(t)), b.totalSamples,
                 c.meanTime, Sum(Times(s + t)), c.totalSamples);
  }

  lemma CorpusWersCombine(s: seq<Sample>, t: seq<Sample>, norm: string -> string, a: Aggregate, b: Aggregate, c: Aggregate)
    requires Sums(a, s, norm) && Sums(b, t, norm) && Sums(c, s + t, norm)
    ensures Weighed(c.corpusWer, c.corpusWords, a.corpusWer, a.corpusWords, b.corpusWer, b.corpusWords)
  {
    CountsCombine(s, t, norm, a, b, c);
    MeansCombine(a.corpusWer, a.corpusErrors as real, a.corpusWords, b.corpusWer, b.corpusErrors as real, b.corpusWords,
                 c.corpusWer, c.corpusErrors as real, c.corpusWords);
  }

  lemma ExtremesCombine(s: seq<Sample>, t: seq<Sample>, norm: string -> string, a: Aggregate, b: Aggregate, c: Aggregate)
    requires AggregateOf(s, norm) == Some(a) && AggregateOf(t, norm) == Some(b) && AggregateOf(s + t, norm) == Some(c)
    ensures c.minWer == (if a.minWer <= b.minWer then a.minWer else b.minWer)
    ensures c.maxWer == (if a.maxWer >= b.maxWer then a.maxWer else b.maxWer)
  {
    FiguresConcat(s, t);
    ExtremesConcat(Wers(s), Wers(t));
  }

  lemma AggregatesCombine(s: seq<Sample>, t: seq<Sample>, norm: string -> string)
    requires AggregateOf(s, norm).Some? && AggregateOf(t, norm).Some?
    ensures AggregateOf(s + t, norm).Some?
    ensures Combined(AggregateOf(s, norm).value, AggregateOf(t, norm).value, AggregateOf(s + t, norm).value)
  {
    BothHaveWords(s, t, norm);
    var a, b, c := AggregateOf(s, norm).value, AggregateOf(t, norm).value, AggregateOf(s + t, norm).value;
    AggregateSums(s, norm, a);
    AggregateSums(t, norm, b);
    AggregateSums(s + t, norm, c);
    CountsCombine(s, t, norm, a, b, c);
    MeanWersCombine(s, t, norm, a, b, c);
    MeanTimesCombine(s, t, norm, a, b, c);
    CorpusWersCombine(s, t, norm, a, b, c);
    ExtremesCombine(s, t, norm, a, b, c);
  }

  lemma Singles(x: Sample, norm: string -> string)
    ensures Wers([x]) == [x.measure.wer] && Times([x]) == [x.time]
    ensures ErrorCounts([x], norm) == [Errors(x.truth, x.prediction, norm)]
    ensures WordCounts([x], norm) == [|RefWords(x.truth, norm)|] && RawWordCounts([x]) == [|RawWords(x.truth)|]
  {
  }

  lemma SingleSums(w: real, n: nat)
    ensures Sum([w]) == w && Total([n]) == n && Min([w]) == w && Max([w]) == w
    ensures Sorted([w]) == [w] && Median([w]) == w
  {
    assert [w][..0] == [] && [n][..0] == [] && [w][1..] == [];
    assert Sum([w][..0]) == 0.0 && Total([n][..0]) == 0;
  }

  /** And those of a single sample are its own. */
  lemma SingleAggregate(x: Sample, norm: string -> string)
    requires RefWords(x.truth, norm) != []
    ensures AggregateOf([x], norm).Some?
    ensures var a := AggregateOf([x], norm).value;
      && a.totalSamples == 1 && a.meanWer == a.medianWer == a.minWer == a.maxWer == x.measure.wer && a.meanTime == x.time
      && a.corpusErrors == Errors(x.truth, x.prediction, norm) && a.corpusWords == |RefWords(x.truth, norm)|
      && a.totalReferenceWords == |RawWords(x.truth)|
  {
    assert HasWords(x, norm);
    assert AllHaveWords([x], norm);
    Singles(x, norm);
    SingleSums(x.measure.wer, Errors(x.truth, x.prediction, norm));
    SingleSums(x.time, |RefWords(x.truth, norm)|);
    SingleSums(x.time, |RawWords(x.truth)|);
  }

  lemma {:induction false} SumBetween(xs: seq<real>, lo: real, hi: real)
    requires forall x :: x in xs ==> lo <= x <= hi
    ensures Between(lo, Sum(xs), hi, |xs| as real)
  {
    if xs != [] {
      var n := |xs| - 1;
      assert xs == xs[..n] + [xs[n]] && xs[n] in xs;
      assert forall x :: x in xs[..n] ==> x in xs;
      SumBetween(xs[..n], lo, hi);
      Scale(lo, xs[n], hi, n as real, 1.0, Sum(xs[..n]), Sum(xs), |xs| as real);
    } else {
      EmptyBounds(lo, hi);
    }
  }

  /** The mean WER lies between the extremes. */
  lemma MeanWerIsBetween(samples: seq<Sample>, norm: string -> string)
    requires AggregateOf(samples, norm).Some?
    ensures var a := AggregateOf(samples, norm).value; a.minWer <= a.meanWer <= a.maxWer
  {
    var wers := Wers(samples);
    SumBetween(wers, Min(wers), Max(wers));
    Quotient(Min(wers), Sum(wers), Max(wers), |wers| as real);
  }

  // ----- The three counts

  /** For two texts with words: insertions and deletions make up the difference in length, and neither side is charged for
      more words than it has. */
  lemma CountsBalance(truth: string, prediction: string, norm: string -> string)
    requires !Blank(truth) && !Blank(prediction) && RefWords(truth, norm) != []
    ensures ComputeWer(truth, prediction, norm).Some?
    ensures var m, r, h := ComputeWer(truth, prediction, norm).value, |RefWords(truth, norm)|, |RefWords(prediction, norm)|;
      && r + m.insertions == h + m.deletions
      && m.substitutions + m.deletions <= r && m.substitutions + m.insertions <= h
  {
    var ref, hyp := RefWords(truth, norm), RefWords(prediction, norm);
    CountsAddUp(Best(ref, hyp), ref, hyp);
  }

  // ----- Contractions are no errors

  /** Both orders of two texts measure as equal. */
  predicate NoErrors(p: string, q: string, norm: string -> string) {
    var there, back := ComputeWer(p, q, norm), ComputeWer(q, p, norm);
    there.Some? && there.value.wer == 0.0 && back.Some? && back.value.wer == 0.0
  }

  lemma SameNormMeansNoErrors(p: string, q: string, norm: string -> string)
    requires Normalizer(norm) && norm(p) == norm(q) != ""
    ensures NoErrors(p, q, norm)
  {
    ZeroWerMeansSameText(p, q, norm);
    ZeroWerMeansSameText(q, p, norm);
  }

  /** A reference and a transcription that differ, but for capitals, only by a contraction have a WER of zero. */
  lemma ContractionIsNoError(
    p: string, q: string, a: string, w: string, e: string, j: nat, b: string, lower: string -> string, fixed: char -> bool)
    requires Lowercasing(lower, fixed) && NT.IsRule(w, e, j)
    requires lower(p) == a + " " + w + " " + b && lower(q) == a + " " + e + " " + b
    ensures NoErrors(p, q, (s: string) => Normalize(s, lower))
  {
    NormalizeIsNormalizer(lower, fixed);
    NT.AmongAnyCase(p, q, a, w, e, j, b, lower, fixed);
    SameNormMeansNoErrors(p, q, (s: string) => Normalize(s, lower));
  }
}
