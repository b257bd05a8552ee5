/** The specification of jiwer.process_words that eval/vox_eval/metrics.py relies on: counts of a minimal word alignment. */
module Alignment {

  datatype Edit = Hit | Substitution | Deletion | Insertion

  type Word = string

  /** The edits turn ref into hyp. */
  predicate Aligns(ops: seq<Edit>, ref: seq<Word>, hyp: seq<Word>) {
    if ops == [] then ref == [] && hyp == []
    else
      match ops[0]
      case Hit => ref != [] && hyp != [] && ref[0] == hyp[0] && Aligns(ops[1..], ref[1..], hyp[1..])
      case Substitution => ref != [] && hyp != [] && ref[0] != hyp[0] && Aligns(ops[1..], ref[1..], hyp[1..])
      case Deletion => ref != [] && Aligns(ops[1..], ref[1..], hyp)
      case Insertion => hyp != [] && Aligns(ops[1..], ref, hyp[1..])
  }

  function Tally(ops: seq<Edit>, e: Edit): nat {
    if ops == [] then 0 else (if ops[0] == e then 1 else 0) + Tally(ops[1..], e)
  }

  function Cost(ops: seq<Edit>): nat {
    if ops == [] then 0 else (if ops[0].Hit? then 0 else 1) + Cost(ops[1..])
  }

  function Cheaper(a: seq<Edit>, b: seq<Edit>): seq<Edit> {
    if Cost(a) <= Cost(b) then a else b
  }

  /** A cheapest alignment. Which one is taken when several cost the same is not specified by jiwer. */
  function Best(ref: seq<Word>, hyp: seq<Word>): (ops: seq<Edit>)
    ensures Aligns(ops, ref, hyp)
    decreases |ref| + |hyp|
  {
    if ref == [] && hyp == [] then []
    else if ref == [] then [Insertion] + Best(ref, hyp[1..])
    else if hyp == [] then [Deletion] + Best(ref[1..], hyp)
    else
      var both := [if ref[0] == hyp[0] then Hit else Substitution] + Best(ref[1..], hyp[1..]);
      Cheaper(both, Cheaper([Deletion] + Best(ref[1..], hyp), [Insertion] + Best(ref, hyp[1..])))
  }

  function Distance(ref: seq<Word>, hyp: seq<Word>): nat {
    Cost(Best(ref, hyp))
  }

  lemma CostStep(e: Edit, ops: seq<Edit>)
    ensures Cost([e] + ops) == (if e.Hit? then 0 else 1) + Cost(ops)
  {
    assert ([e] + ops)[1..] == ops;
  }

  lemma BestStep(ref: seq<Word>, hyp: seq<Word>)
    ensures ref != [] ==> Distance(ref, hyp) <= 1 + Distance(ref[1..], hyp)
    ensures hyp != [] ==> Distance(ref, hyp) <= 1 + Distance(ref, hyp[1..])
    ensures ref != [] && hyp != [] ==>
              Distance(ref, hyp) <= (if ref[0] == hyp[0] then 0 else 1) + Distance(ref[1..], hyp[1..])
  {
    if ref != [] {
      CostStep(Deletion, Best(ref[1..], hyp));
    }
    if hyp != [] {
      CostStep(Insertion, Best(ref, hyp[1..]));
    }
    if ref != [] && hyp != [] {
      CostStep(if ref[0] == hyp[0] then Hit else Substitution, Best(ref[1..], hyp[1..]));
    }
  }

  /** Best is minimal among all alignments. */
  lemma {:induction false} BestIsMinimal(ops: seq<Edit>, ref: seq<Word>, hyp: seq<Word>)
    requires Aligns(ops, ref, hyp)
    ensures Distance(ref, hyp) <= Cost(ops)
  {
    if ops != [] {
      BestStep(ref, hyp);
      match ops[0]
      case Hit => BestIsMinimal(ops[1..], ref[1..], hyp[1..]);
      case Substitution => BestIsMinimal(ops[1..], ref[1..], hyp[1..]);
      case Deletion => BestIsMinimal(ops[1..], ref[1..], hyp);
      case Insertion => BestIsMinimal(ops[1..], ref, hyp[1..]);
    }
  }

  /** The counts of any alignment account for every word on both sides. */
  lemma {:induction false} CountsAddUp(ops: seq<Edit>, ref: seq<Word>, hyp: seq<Word>)
    requires Aligns(ops, ref, hyp)
    ensures Tally(ops, Hit) + Tally(ops, Substitution) + Tally(ops, Deletion) == |ref|
    ensures Tally(ops, Hit) + Tally(ops, Substitution) + Tally(ops, Insertion) == |hyp|
    ensures Tally(ops, Substitution) + Tally(ops, Deletion) + Tally(ops, Insertion) == Cost(ops)
  {
    if ops != [] {
      match ops[0]
      case Hit => CountsAddUp(ops[1..], ref[1..], hyp[1..]);
      case Substitution => CountsAddUp(ops[1..], ref[1..], hyp[1..]);
      case Deletion => CountsAddUp(ops[1..], ref[1..], hyp);
      case Insertion => CountsAddUp(ops[1..], ref, hyp[1..]);
    }
  }

  lemma {:induction false} FreeMeansEqual(ops: seq<Edit>, ref: seq<Word>, hyp: seq<Word>)
    requires Aligns(ops, ref, hyp) && Cost(ops) == 0
    ensures ref == hyp
  {
    if ops != [] {
      FreeMeansEqual(ops[1..], ref[1..], hyp[1..]);
    }
  }

  lemma {:induction false} EqualIsFree(ref: seq<Word>)
    ensures Distance(ref, ref) == 0
  {
    if ref != [] {
      EqualIsFree(ref[1..]);
      BestStep(ref, ref);
    }
  }

  /** The distance is zero exactly for equal word lists, and the whole reference for an empty hypothesis. */
  lemma DistanceExtremes(ref: seq<Word>, hyp: seq<Word>)
    ensures Distance(ref, hyp) == 0 <==> ref == hyp
    ensures Distance(ref, []) == |ref|
  {
    if Distance(ref, hyp) == 0 {
      FreeMeansEqual(Best(ref, hyp), ref, hyp);
    }
    EqualIsFree(ref);
    CountsAddUp(Best(ref, []), ref, []);
  }
}
