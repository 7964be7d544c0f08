/**
 Concrete compositions: the three-stage chain of src/bfuture_bench.cpp:133-140
 (42, then +1, then +1, reported as 44) and the two-stage chain
 `seq{leaf{x -> x+1}, leaf{x -> x*2}}` on 3, which reports 8.
 */
module SeqExamples {
  import opened Values
  import opened Nodes
  import opened SeqLaws

  /** `x + 1` on an int; any other value is passed through unchanged (a
      well-typed graph never gives it one). */
  function AddOne(v: Val): Val
  {
    if v.IntV? then IntV(v.i + 1) else v
  }

  function Twice(v: Val): Val
  {
    if v.IntV? then IntV(v.i * 2) else v
  }

  /** The nullary leaf that produces 42. */
  function Answer(deferred: bool): Node
  {
    Leaf(UnitT, IntT, _ => IntV(42), deferred)
  }

  function Increment(deferred: bool): Node
  {
    Leaf(IntT, IntT, AddOne, deferred)
  }

  /** `seq{seq{leaf{42}, leaf{x+1}}, leaf{x+1}}`; whether each leaf hands its
      work to the scheduler is left open. */
  function ThenChain(d0: bool, d1: bool, d2: bool): Node
  {
    Seq(Seq(Answer(d0), Increment(d1)), Increment(d2))
  }

  /** The chain type-checks: unit in, int out. */
  lemma ThenChainWellTyped(d0: bool, d1: bool, d2: bool)
    ensures WellTyped(ThenChain(d0, d1, d2))
    ensures InType(ThenChain(d0, d1, d2)) == UnitT
    ensures OutType(ThenChain(d0, d1, d2)) == IntT
  {
    assert InType(Seq(Answer(d0), Increment(d1))) == InType(Answer(d0));
  }

  /** The final continuation receives 44 exactly once, and the only
      submissions are the leaves' own. */
  lemma ThenChainDelivers44(d0: bool, d1: bool, d2: bool, s: Scheduler)
    ensures Deliveries(Execute(ThenChain(d0, d1, d2), s, UnitV, Report)) == [IntV(44)]
    ensures SubmissionCount(Execute(ThenChain(d0, d1, d2), s, UnitV, Report))
         == LeafSubmissions(d0) + LeafSubmissions(d1) + LeafSubmissions(d2)
  {
    var first := Seq(Answer(d0), Increment(d1));
    SeqSingleDelivery(Answer(d0), Increment(d1), s, UnitV, IntV(42), IntV(43), Report);
    SeqSingleDelivery(first, Increment(d2), s, UnitV, IntV(43), IntV(44), Report);
    ExecuteReportsDenotation(ThenChain(d0, d1, d2), s, UnitV);
  }

  /** Regrouping the chain as `seq{leaf{42}, seq{leaf{x+1}, leaf{x+1}}}`
      changes nothing observable. */
  lemma ThenChainRegrouped(d0: bool, d1: bool, d2: bool, s: Scheduler)
    ensures Deliveries(Execute(Seq(Answer(d0), Seq(Increment(d1), Increment(d2))), s, UnitV, Report))
         == [IntV(44)]
  {
    SeqAssociative(Answer(d0), Increment(d1), Increment(d2), s, UnitV, Report);
    ThenChainDelivers44(d0, d1, d2, s);
  }

  /** `seq{leaf{x -> x+1}, leaf{x -> x*2}}` on 3 delivers 8. */
  lemma IncrementThenDouble(d1: bool, d2: bool, s: Scheduler)
    ensures Deliveries(Execute(Seq(Increment(d1), Leaf(IntT, IntT, Twice, d2)), s, IntV(3), Report))
         == [IntV(8)]
  {
    SeqOfLeaves(IntT, IntT, IntT, AddOne, Twice, d1, d2, s, IntV(3), Report);
  }
}
