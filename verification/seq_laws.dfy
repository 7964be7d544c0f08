/**
 Laws of the `seq` combinator and of the `execute` protocol
 (include/orizzonte/node/seq.hpp:12-36).
 */
module SeqLaws {
  import opened Values
  import opened Nodes

  // ---------------------------------------------------------------------
  // Observations of traces

  lemma {:induction false} ObserveAppend(t1: Trace, t2: Trace)
    ensures Deliveries(t1 + t2) == Deliveries(t1) + Deliveries(t2)
    ensures SubmissionCount(t1 + t2) == SubmissionCount(t1) + SubmissionCount(t2)
    decreases |t1|
  {
    if t1 == [] {
      assert t1 + t2 == t2;
    } else {
      assert (t1 + t2)[1..] == t1[1..] + t2;
      ObserveAppend(t1[1..], t2);
    }
  }

  lemma {:induction false} ObserveSubmissions(s: Scheduler, count: nat)
    ensures Deliveries(Submissions(s, count)) == []
    ensures SubmissionCount(Submissions(s, count)) == count
    decreases count
  {
    if count > 0 {
      assert Submissions(s, count) == [Submitted(s)] + Submissions(s, count - 1);
      ObserveAppend([Submitted(s)], Submissions(s, count - 1));
      ObserveSubmissions(s, count - 1);
    }
  }

  lemma {:induction false} ApplyEachAppend(c: Cont, xs: seq<Val>, ys: seq<Val>)
    ensures ApplyEach(c, xs + ys) == ApplyEach(c, xs) + ApplyEach(c, ys)
    decreases |xs|
  {
    if xs == [] {
      assert xs + ys == ys;
    } else {
      assert (xs + ys)[1..] == xs[1..] + ys;
      ApplyEachAppend(c, xs[1..], ys);
    }
  }

  lemma {:induction false} DenoteEachAppend(n: Node, xs: seq<Val>, ys: seq<Val>)
    ensures DenoteEach(n, xs + ys).outputs == DenoteEach(n, xs).outputs + DenoteEach(n, ys).outputs
    ensures DenoteEach(n, xs + ys).submissions
         == DenoteEach(n, xs).submissions + DenoteEach(n, ys).submissions
    decreases |xs|
  {
    if xs == [] {
      assert xs + ys == ys;
    } else {
      assert (xs + ys)[1..] == xs[1..] + ys;
      DenoteEachAppend(n, xs[1..], ys);
    }
  }

  lemma ApplyEachSingle(c: Cont, v: Val)
    ensures ApplyEach(c, [v]) == Apply(c, v)
  {
    assert [v][1..] == [];
    assert ApplyEach(c, [v]) == Apply(c, v) + ApplyEach(c, []);
  }

  /** Reporting each of `vs` makes exactly `vs` observable. */
  lemma {:induction false} ReportEach(vs: seq<Val>)
    ensures Deliveries(ApplyEach(Report, vs)) == vs
    ensures SubmissionCount(ApplyEach(Report, vs)) == 0
    decreases |vs|
  {
    if vs != [] {
      ObserveAppend([Delivered(vs[0])], ApplyEach(Report, vs[1..]));
      ReportEach(vs[1..]);
      assert vs == [vs[0]] + vs[1..];
    }
  }

  /** The no-op continuation makes nothing observable, however often it runs. */
  lemma {:induction false} NoopEach(vs: seq<Val>)
    ensures ApplyEach(Noop, vs) == []
    decreases |vs|
  {
    if vs != [] {
      NoopEach(vs[1..]);
    }
  }

  // ---------------------------------------------------------------------
  // Adequacy: continuation-passing execution agrees with the denotation

  /** Executing `n` on `x` with continuation `c` is observably the same as
      making `n`'s submissions and invoking `c` once on each value `n`
      delivers, in order: the same values reach an observer, and the
      submissions are `n`'s plus those of `c`'s invocations. */
  lemma {:induction false} ExecuteAdequate(n: Node, s: Scheduler, x: Val, c: Cont)
    ensures Deliveries(Execute(n, s, x, c)) == Deliveries(ApplyEach(c, Denote(n, x).outputs))
    ensures SubmissionCount(Execute(n, s, x, c))
         == Denote(n, x).submissions + SubmissionCount(ApplyEach(c, Denote(n, x).outputs))
    decreases Size(n), 1, 0
  {
    match n
    case Leaf(_, _, f, deferred) =>
      var pre := Submissions(s, LeafSubmissions(deferred));
      assert Denote(n, x).outputs == [f(x)];
      ApplyEachSingle(c, f(x));
      ObserveAppend(pre, Apply(c, f(x)));
      ObserveSubmissions(s, LeafSubmissions(deferred));
    case Custom(_, _, b) =>
      ObserveAppend(Submissions(s, b(x).submissions), ApplyEach(c, b(x).outputs));
      ObserveSubmissions(s, b(x).submissions);
    case Seq(a, b) =>
      ExecuteAdequate(a, s, x, RunThen(b, s, c));
      ExecuteEachAdequate(b, s, Denote(a, x).outputs, c);
  }

  /** The closure a seq hands its first child, run on each of `xs`, is
      observably `b` run on each of `xs` followed by `c` on all of their
      outputs. */
  lemma {:induction false} ExecuteEachAdequate(b: Node, s: Scheduler, xs: seq<Val>, c: Cont)
    ensures Deliveries(ApplyEach(RunThen(b, s, c), xs))
         == Deliveries(ApplyEach(c, DenoteEach(b, xs).outputs))
    ensures SubmissionCount(ApplyEach(RunThen(b, s, c), xs))
         == DenoteEach(b, xs).submissions + SubmissionCount(ApplyEach(c, DenoteEach(b, xs).outputs))
    decreases Size(b), 2, |xs|
  {
    if xs == [] {
      assert ApplyEach(RunThen(b, s, c), xs) == [];
      assert DenoteEach(b, xs) == Delivery([], 0);
      assert ApplyEach(c, []) == [];
    } else {
      var d0, dr := Denote(b, xs[0]), DenoteEach(b, xs[1..]);
      ExecuteAdequate(b, s, xs[0], c);
      ExecuteEachAdequate(b, s, xs[1..], c);
      assert ApplyEach(RunThen(b, s, c), xs)
          == Execute(b, s, xs[0], c) + ApplyEach(RunThen(b, s, c), xs[1..]);
      ObserveAppend(Execute(b, s, xs[0], c), ApplyEach(RunThen(b, s, c), xs[1..]));
      assert DenoteEach(b, xs).outputs == d0.outputs + dr.outputs;
      ApplyEachAppend(c, d0.outputs, dr.outputs);
      ObserveAppend(ApplyEach(c, d0.outputs), ApplyEach(c, dr.outputs));
    }
  }

  /** With a reporting continuation, an execution shows exactly the node's
      denotation: the values it delivers, in order, and its submission count. */
  lemma ExecuteReportsDenotation(n: Node, s: Scheduler, x: Val)
    ensures Observe(Execute(n, s, x, Report)) == Denote(n, x)
  {
    ExecuteAdequate(n, s, x, Report);
    ReportEach(Denote(n, x).outputs);
  }

  /** `execute(scheduler, input, noop_v)`, with `noop` passed explicitly as
      the continuation: nothing is delivered anywhere, and the only effects
      are the children's own submissions. */
  function ExecuteDefault(n: Node, s: Scheduler, x: Val): (t: Trace)
    ensures Deliveries(t) == []
    ensures SubmissionCount(t) == Denote(n, x).submissions
  {
    ExecuteAdequate(n, s, x, Noop);
    NoopEach(Denote(n, x).outputs);
    Execute(n, s, x, Noop)
  }

  // ---------------------------------------------------------------------
  // Locality: a continuation is only ever invoked on delivered values

  lemma {:induction false} DenoteEachContains(b: Node, xs: seq<Val>, v: Val, p: Val)
    requires v in xs
    requires p in Denote(b, v).outputs
    ensures p in DenoteEach(b, xs).outputs
    decreases |xs|
  {
    if xs[0] != v {
      DenoteEachContains(b, xs[1..], v, p);
    }
  }

  lemma {:induction false} ApplyEachLocal(c1: Cont, c2: Cont, vs: seq<Val>)
    requires forall v :: v in vs ==> Apply(c1, v) == Apply(c2, v)
    ensures ApplyEach(c1, vs) == ApplyEach(c2, vs)
    decreases |vs|
  {
    if vs != [] {
      ApplyEachLocal(c1, c2, vs[1..]);
    }
  }

  /** The outcome of executing `n` depends on its continuation only at the
      values `n` delivers: two continuations that agree there give the same
      trace. */
  lemma {:induction false} ExecuteLocal(n: Node, s: Scheduler, x: Val, c1: Cont, c2: Cont)
    requires forall v :: v in Denote(n, x).outputs ==> Apply(c1, v) == Apply(c2, v)
    ensures Execute(n, s, x, c1) == Execute(n, s, x, c2)
    decreases Size(n)
  {
    match n
    case Leaf(_, _, f, _) =>
      assert f(x) in Denote(n, x).outputs;
    case Custom(_, _, b) =>
      ApplyEachLocal(c1, c2, b(x).outputs);
    case Seq(a, b) =>
      var da := Denote(a, x);
      forall v | v in da.outputs
        ensures Apply(RunThen(b, s, c1), v) == Apply(RunThen(b, s, c2), v)
      {
        forall p | p in Denote(b, v).outputs
          ensures Apply(c1, p) == Apply(c2, p)
        {
          DenoteEachContains(b, da.outputs, v, p);
        }
        ExecuteLocal(b, s, v, c1, c2);
      }
      ExecuteLocal(a, s, x, RunThen(b, s, c1), RunThen(b, s, c2));
  }

  // ---------------------------------------------------------------------
  // The seq combinator

  /** `seq{a, b}` delivers, in order, what `b` delivers on each value `a`
      delivers on the caller's input, and submits exactly `a`'s submissions
      plus those of `b`'s runs: it submits nothing itself. */
  lemma SeqComposesChildren(a: Node, b: Node, s: Scheduler, x: Val)
    ensures Deliveries(Execute(Seq(a, b), s, x, Report))
         == DenoteEach(b, Deliveries(Execute(a, s, x, Report))).outputs
    ensures SubmissionCount(Execute(Seq(a, b), s, x, Report))
         == SubmissionCount(Execute(a, s, x, Report))
          + DenoteEach(b, Deliveries(Execute(a, s, x, Report))).submissions
  {
    ExecuteReportsDenotation(Seq(a, b), s, x);
    ExecuteReportsDenotation(a, s, x);
  }

  /** Executing `b` on each of `xs` with the default continuation submits,
      in total, the submissions `b` is denoted to make on them. */
  lemma {:induction false} NoopEachSubmissions(b: Node, s: Scheduler, xs: seq<Val>)
    ensures SubmissionCount(ApplyEach(RunThen(b, s, Noop), xs)) == DenoteEach(b, xs).submissions
    ensures Deliveries(ApplyEach(RunThen(b, s, Noop), xs)) == []
  {
    ExecuteEachAdequate(b, s, xs, Noop);
    NoopEach(DenoteEach(b, xs).outputs);
  }

  /** `seq` never calls the scheduler itself: the submissions of
      `seq{a, b}` are exactly those of executing `a`, plus those of executing
      `b` once on each value `a` delivers. */
  lemma SeqAddsNoSubmissions(a: Node, b: Node, s: Scheduler, x: Val)
    ensures SubmissionCount(Execute(Seq(a, b), s, x, Noop))
         == SubmissionCount(Execute(a, s, x, Noop))
          + SubmissionCount(ApplyEach(RunThen(b, s, Noop), Deliveries(Execute(a, s, x, Report))))
  {
    var ys := Deliveries(Execute(a, s, x, Report));
    ExecuteReportsDenotation(a, s, x);
    ExecuteAdequate(Seq(a, b), s, x, Noop);
    NoopEach(Denote(Seq(a, b), x).outputs);
    ExecuteAdequate(a, s, x, Noop);
    NoopEach(Denote(a, x).outputs);
    NoopEachSubmissions(b, s, ys);
  }

  /** When `a` delivers one value `y` and `b` delivers one value `z` on it,
      `seq{a, b}` invokes the caller's continuation exactly once, on `z`,
      and its submissions are `a`'s plus `b`'s. */
  lemma SeqSingleDelivery(a: Node, b: Node, s: Scheduler, x: Val, y: Val, z: Val, c: Cont)
    requires Denote(a, x).outputs == [y]
    requires Denote(b, y).outputs == [z]
    ensures Denote(Seq(a, b), x)
         == Delivery([z], Denote(a, x).submissions + Denote(b, y).submissions)
    ensures Deliveries(Execute(Seq(a, b), s, x, c)) == Deliveries(Apply(c, z))
    ensures SubmissionCount(Execute(Seq(a, b), s, x, c))
         == Denote(a, x).submissions + Denote(b, y).submissions + SubmissionCount(Apply(c, z))
  {
    assert [y][1..] == [];
    assert DenoteEach(b, [y]) == Delivery([z] + [], Denote(b, y).submissions + 0);
    ExecuteAdequate(Seq(a, b), s, x, c);
    ApplyEachSingle(c, z);
  }

  /** `seq{leaf f, leaf g}` on `x`: the caller's continuation receives
      `g(f(x))`, exactly once, after the leaves' own submissions. */
  lemma SeqOfLeaves(i: Ty, m: Ty, o: Ty, f: Val -> Val, g: Val -> Val, df: bool, dg: bool,
                    s: Scheduler, x: Val, c: Cont)
    ensures Execute(Seq(Leaf(i, m, f, df), Leaf(m, o, g, dg)), s, x, c)
         == Submissions(s, LeafSubmissions(df)) + Submissions(s, LeafSubmissions(dg)) + Apply(c, g(f(x)))
    ensures Deliveries(Execute(Seq(Leaf(i, m, f, df), Leaf(m, o, g, dg)), s, x, Report))
         == [g(f(x))]
  {
    var lf, lg := Leaf(i, m, f, df), Leaf(m, o, g, dg);
    var pf, pg := Submissions(s, LeafSubmissions(df)), Submissions(s, LeafSubmissions(dg));
    forall k: Cont
      ensures Execute(Seq(lf, lg), s, x, k) == pf + pg + Apply(k, g(f(x)))
    {
      calc {
        Execute(Seq(lf, lg), s, x, k);
        Execute(lf, s, x, RunThen(lg, s, k));
        pf + Apply(RunThen(lg, s, k), f(x));
        pf + Execute(lg, s, f(x), k);
        pf + (pg + Apply(k, g(f(x))));
      }
    }
    ObserveAppend(pf + pg, Apply(Report, g(f(x))));
    ObserveAppend(pf, pg);
    ObserveSubmissions(s, LeafSubmissions(df));
    ObserveSubmissions(s, LeafSubmissions(dg));
  }

  /** If `a` delivers nothing, `b` never runs and the caller's continuation is
      never invoked: the whole execution is `a`'s execution with `noop`. */
  lemma SeqWithoutFirstDelivery(a: Node, b: Node, s: Scheduler, x: Val, c: Cont)
    requires Denote(a, x).outputs == []
    ensures Execute(Seq(a, b), s, x, c) == Execute(a, s, x, Noop)
  {
    ExecuteLocal(a, s, x, RunThen(b, s, c), Noop);
  }

  /** `b` is run only on values `a` delivers: two second stages that behave
      alike on those values make the seq behave alike. */
  lemma SecondRunsOnlyOnFirstOutputs(a: Node, b1: Node, b2: Node, s: Scheduler, x: Val, c: Cont)
    requires forall v :: v in Denote(a, x).outputs ==> Execute(b1, s, v, c) == Execute(b2, s, v, c)
    ensures Execute(Seq(a, b1), s, x, c) == Execute(Seq(a, b2), s, x, c)
  {
    ExecuteLocal(a, s, x, RunThen(b1, s, c), RunThen(b2, s, c));
  }

  /** Every unit of work an execution submits goes to the scheduler it was
      given, as long as the caller's continuation uses that scheduler too. */
  lemma {:induction false} ExecuteUsesItsScheduler(n: Node, s: Scheduler, x: Val, c: Cont)
    requires ContSubmitsOnlyTo(c, s)
    ensures OnlySubmitsTo(Execute(n, s, x, c), s)
    decreases Size(n) + ContSize(c), 0, 0
  {
    match n
    case Leaf(_, _, f, _) =>
      ApplyUsesScheduler(c, s, f(x));
    case Custom(_, _, b) =>
      ApplyEachUsesScheduler(c, s, b(x).outputs);
    case Seq(a, b) =>
      ExecuteUsesItsScheduler(a, s, x, RunThen(b, s, c));
  }

  lemma {:induction false} ApplyUsesScheduler(c: Cont, s: Scheduler, v: Val)
    requires ContSubmitsOnlyTo(c, s)
    ensures OnlySubmitsTo(Apply(c, v), s)
    decreases ContSize(c), 1, 0
  {
    match c
    case Final(k) =>
    case RunThen(b, _, rest) =>
      ExecuteUsesItsScheduler(b, s, v, rest);
  }

  lemma {:induction false} ApplyEachUsesScheduler(c: Cont, s: Scheduler, vs: seq<Val>)
    requires ContSubmitsOnlyTo(c, s)
    ensures OnlySubmitsTo(ApplyEach(c, vs), s)
    decreases ContSize(c), 2, |vs|
  {
    if vs != [] {
      ApplyUsesScheduler(c, s, vs[0]);
      ApplyEachUsesScheduler(c, s, vs[1..]);
    }
  }

  // ---------------------------------------------------------------------
  // Typing

  /** A well-typed node given a value of its input type delivers only values
      of its output type; in a seq the first child's outputs are therefore
      acceptable inputs for the second. */
  lemma {:induction false} OutputsWellTyped(n: Node, x: Val)
    requires WellTyped(n)
    requires HasType(x, InType(n))
    ensures AllHaveType(Denote(n, x).outputs, OutType(n))
    decreases Size(n), 0, 0
  {
    match n
    case Leaf(_, _, _, _) =>
    case Custom(_, _, _) =>
    case Seq(a, b) =>
      OutputsWellTyped(a, x);
      EachOutputsWellTyped(b, Denote(a, x).outputs);
  }

  lemma {:induction false} EachOutputsWellTyped(n: Node, xs: seq<Val>)
    requires WellTyped(n)
    requires AllHaveType(xs, InType(n))
    ensures AllHaveType(DenoteEach(n, xs).outputs, OutType(n))
    decreases Size(n), 1, |xs|
  {
    if xs != [] {
      assert HasType(xs[0], InType(n));
      OutputsWellTyped(n, xs[0]);
      EachOutputsWellTyped(n, xs[1..]);
    }
  }

  // ---------------------------------------------------------------------
  // Associativity

  lemma {:induction false} DenoteEachSeq(b: Node, c: Node, xs: seq<Val>)
    ensures DenoteEach(Seq(b, c), xs)
         == Delivery(DenoteEach(c, DenoteEach(b, xs).outputs).outputs,
                     DenoteEach(b, xs).submissions
                       + DenoteEach(c, DenoteEach(b, xs).outputs).submissions)
    decreases |xs|
  {
    if xs != [] {
      DenoteEachSeq(b, c, xs[1..]);
      DenoteEachAppend(c, Denote(b, xs[0]).outputs, DenoteEach(b, xs[1..]).outputs);
    }
  }

  /** `seq{seq{a, b}, c}` and `seq{a, seq{b, c}}` deliver the same values in
      the same order with the same number of submissions. */
  lemma SeqAssociativeDenote(a: Node, b: Node, c: Node, x: Val)
    ensures Denote(Seq(Seq(a, b), c), x) == Denote(Seq(a, Seq(b, c)), x)
  {
    DenoteEachSeq(b, c, Denote(a, x).outputs);
  }

  /** Stronger: the two groupings produce identical traces, whatever the
      scheduler, input and continuation. */
  lemma SeqAssociative(a: Node, b: Node, c: Node, s: Scheduler, x: Val, k: Cont)
    ensures Execute(Seq(Seq(a, b), c), s, x, k) == Execute(Seq(a, Seq(b, c)), s, x, k)
  {
    forall v | v in Denote(a, x).outputs
      ensures Apply(RunThen(b, s, RunThen(c, s, k)), v) == Apply(RunThen(Seq(b, c), s, k), v)
    {
    }
    ExecuteLocal(a, s, x, RunThen(b, s, RunThen(c, s, k)), RunThen(Seq(b, c), s, k));
  }
}
