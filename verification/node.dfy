/**
 Nodes of an execution graph and their continuation-passing `execute`
 protocol (include/orizzonte/node/seq.hpp).

 Two semantics are given. `Execute` follows the code: a node is run with a
 scheduler, an input and a continuation, and what it makes observable is a
 trace of events. `Denote` is the reference: a node maps an input to the
 values it delivers and the number of scheduler submissions it makes; a
 `Seq` is a bind. The lemmas in module SeqLaws connect the two.
 */
module Nodes {
  import opened Values

  /** An opaque scheduler handle; `seq` only passes it down. */
  datatype Scheduler = Scheduler(id: nat)

  /** What an execution makes observable: one unit of work handed to a
      scheduler, or one value reported by a final continuation. */
  datatype Event = Submitted(to: Scheduler) | Delivered(value: Val)

  type Trace = seq<Event>

  /** The values a node delivers to its continuation, in order, and the
      number of units of work it hands to the scheduler. */
  datatype Delivery = Delivery(outputs: seq<Val>, submissions: nat)

  /** A node.
      - `Leaf`: a unit of work. Its source is not part of this model, so it is
        modelled by its contract: it delivers `work(x)` exactly once, after
        handing one unit of work to the scheduler when `deferred`.
      - `Custom`: any other node (`all`, `any`, a user node) whose source is
        not part of this model, described only by what it delivers.
      - `Seq`: `seq{first, second}`. */
  datatype Node =
    | Leaf(leafIn: Ty, leafOut: Ty, work: Val -> Val, deferred: bool)
    | Custom(customIn: Ty, customOut: Ty, behaviour: Val -> Delivery)
    | Seq(first: Node, second: Node)

  /** `in_type`: a seq takes its input type from its first child. */
  function InType(n: Node): Ty
  {
    match n
    case Leaf(i, _, _, _) => i
    case Custom(i, _, _) => i
    case Seq(a, _) => InType(a)
  }

  /** `out_type`: a seq takes its output type from its second child. */
  function OutType(n: Node): Ty
  {
    match n
    case Leaf(_, o, _, _) => o
    case Custom(_, o, _) => o
    case Seq(_, b) => OutType(b)
  }

  /** The composition is well typed: every leaf maps its input type into its
      output type, every custom node delivers values of its output type, and
      in every seq the first child's output type is the second's input type. */
  ghost predicate WellTyped(n: Node)
  {
    match n
    case Leaf(i, o, f, _) => forall v :: HasType(v, i) ==> HasType(f(v), o)
    case Custom(i, o, b) => forall v :: HasType(v, i) ==> AllHaveType(b(v).outputs, o)
    case Seq(a, b) => WellTyped(a) && WellTyped(b) && OutType(a) == InType(b)
  }

  function Size(n: Node): (r: nat)
    ensures r >= 1
  {
    match n
    case Seq(a, b) => 1 + Size(a) + Size(b)
    case _ => 1
  }

  /** A continuation, given by what it does when invoked on a value.
      - `Final(k)`: a continuation supplied by the caller (`then`); `k(v)` is
        what invoking it on `v` makes observable.
      - `RunThen(b, s, rest)`: the closure a seq hands to its first child. It
        holds `this` (through which it reaches the second child `b`), the
        scheduler `s` and a copy of `then` (`rest`); on a value it runs `b`
        with `s` and `rest`. */
  datatype Cont =
    | Final(k: Val -> Trace)
    | RunThen(next: Node, sched: Scheduler, rest: Cont)

  function ContSize(c: Cont): nat
  {
    match c
    case Final(_) => 0
    case RunThen(b, _, rest) => Size(b) + ContSize(rest)
  }

  /** The continuation `noop` (`utility::noop_v`): it makes nothing
      observable. */
  const Noop: Cont := Final(v => [])

  /** A final continuation that reports every value it receives. */
  const Report: Cont := Final(v => [Delivered(v)])

  /** `count` units of work handed to scheduler `s`. */
  function Submissions(s: Scheduler, count: nat): (t: Trace)
    ensures |t| == count
  {
    seq(count, _ => Submitted(s))
  }

  /** How much work a leaf hands to the scheduler: one unit when it defers
      its work, none when it runs inline. */
  function LeafSubmissions(deferred: bool): nat
  {
    if deferred then 1 else 0
  }

  /** `n.execute(s, x, c)`. A seq runs its first child on the caller's input
      and scheduler, with a closure that runs the second child on each value
      the first delivers, with the same scheduler and the caller's `c`. */
  function Execute(n: Node, s: Scheduler, x: Val, c: Cont): Trace
    decreases Size(n) + ContSize(c), 0, 0
  {
    match n
    case Leaf(_, _, f, deferred) =>
      Submissions(s, LeafSubmissions(deferred)) + Apply(c, f(x))
    case Custom(_, _, b) =>
      Submissions(s, b(x).submissions) + ApplyEach(c, b(x).outputs)
    case Seq(a, b) =>
      Execute(a, s, x, RunThen(b, s, c))
  }

  /** Invoking continuation `c` with value `v`. */
  function Apply(c: Cont, v: Val): Trace
    decreases ContSize(c), 1, 0
  {
    match c
    case Final(k) => k(v)
    case RunThen(b, s, rest) => Execute(b, s, v, rest)
  }

  /** Invoking continuation `c` once per value of `vs`, in order. */
  function ApplyEach(c: Cont, vs: seq<Val>): Trace
    decreases ContSize(c), 2, |vs|
  {
    if vs == [] then [] else Apply(c, vs[0]) + ApplyEach(c, vs[1..])
  }

  /** The reference semantics: what `n` delivers on input `x`. */
  function Denote(n: Node, x: Val): Delivery
    decreases Size(n), 0, 0
  {
    match n
    case Leaf(_, _, f, deferred) => Delivery([f(x)], LeafSubmissions(deferred))
    case Custom(_, _, b) => b(x)
    case Seq(a, b) =>
      var da := Denote(a, x);
      var db := DenoteEach(b, da.outputs);
      Delivery(db.outputs, da.submissions + db.submissions)
  }

  /** `n` run once on each value of `xs`, in order. */
  function DenoteEach(n: Node, xs: seq<Val>): Delivery
    decreases Size(n), 1, |xs|
  {
    if xs == [] then Delivery([], 0)
    else
      var d := Denote(n, xs[0]);
      var rest := DenoteEach(n, xs[1..]);
      Delivery(d.outputs + rest.outputs, d.submissions + rest.submissions)
  }

  /** The values reported in a trace, in order. */
  function Deliveries(t: Trace): seq<Val>
  {
    if t == [] then []
    else (if t[0].Delivered? then [t[0].value] else []) + Deliveries(t[1..])
  }

  /** The number of submissions in a trace. */
  function SubmissionCount(t: Trace): nat
  {
    if t == [] then 0
    else (if t[0].Submitted? then 1 else 0) + SubmissionCount(t[1..])
  }

  /** What an observer of a trace can tell: the reported values in order and
      how much work went to the scheduler. */
  function Observe(t: Trace): Delivery
  {
    Delivery(Deliveries(t), SubmissionCount(t))
  }

  /** Every submission in `t` goes to scheduler `s`. */
  predicate OnlySubmitsTo(t: Trace, s: Scheduler)
  {
    forall i :: 0 <= i < |t| && t[i].Submitted? ==> t[i].to == s
  }

  /** Continuation `c` hands work only to scheduler `s`. */
  ghost predicate ContSubmitsOnlyTo(c: Cont, s: Scheduler)
  {
    match c
    case Final(k) => forall v :: OnlySubmitsTo(k(v), s)
    case RunThen(_, s', rest) => s' == s && ContSubmitsOnlyTo(rest, s)
  }
}
