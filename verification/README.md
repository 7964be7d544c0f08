# orizzonte: the `seq` combinator and the tuple helpers, in Dafny

This project models two parts of orizzonte, a C++ library of composable
asynchronous execution graphs:

- **`seq<A, B>`** (include/orizzonte/node/seq.hpp) is the sequential node.
  Its `in_type` is `A`'s and its `out_type` is `B`'s. `execute(scheduler,
  input, then)` runs `A` on the input with a closure. When the closure
  receives a value, it runs `B` on that value with the same scheduler and a
  copy of the caller's `then`. `seq` never submits work to the scheduler itself.
- **`for_tuple`** and **`multi_apply`** (include/orizzonte/utilities/tuple.hpp).
  `for_tuple(f, t)` calls `f` on every element, left to right, and drops the
  results. `multi_apply(f, t1, ..., tn)` calls `f` once on `std::tuple_cat(t1, ..., tn)`.

Modules:

- `Values` (values.dfy): the values that flow between nodes, and their
  types. Tuples are sequences of values.
- `Nodes` (node.dfy): nodes, continuations and two semantics.
  - `Execute` follows seq.hpp. It is in continuation-passing style and
    produces a trace of `Submitted` and `Delivered` events.
  - The continuation `seq` builds is kept as data, `RunThen(B, scheduler, then)`.
    The closure captures `this`, the scheduler and a copy of `then`. It
    reaches `B` through `this`, so `B` stands in for `this` here.
  - `Denote` is the reference semantics. A node maps an input to its
    delivered values plus a submission count, and `Seq` is a bind.
  - A `Leaf` is a unit of work given only by its contract: it delivers
    `work(x)` once and submits at most one unit of work. `Custom` stands for
    any other node.
- `SeqLaws` (seq_laws.dfy): the theorems that connect `Execute` to `Denote`,
  and the laws of `seq`.
- `SeqExamples` (examples_seq.dfy): the `42 → +1 → +1` chain of
  src/bfuture_bench.cpp, and a two-leaf example.
- `TupleUtils` (tuple.dfy): `for_tuple` as an ordered, stateful fold, and
  `multi_apply` as one call on the flattened argument packs.

## Model

| member | source | states |
|---|---|---|
| SeqLaws.ExecuteAdequate | include/orizzonte/node/seq.hpp:23-35 | Running any node with any continuation shows the same delivered values, in order, as applying the continuation to each value the node delivers. The submission count is the node's own plus the continuation's. |
| SeqLaws.ExecuteEachAdequate | include/orizzonte/node/seq.hpp:32-34 | The closure `seq` hands to `A`, applied to a list of values, shows what `B` delivers on each value, in order. It submits what `B` submits plus what `then` does. |
| SeqLaws.ExecuteReportsDenotation | include/orizzonte/node/seq.hpp:31-34 | With a continuation that reports each value, the observable values and submission count of an execution equal the node's reference denotation. |
| SeqLaws.ExecuteDefault | include/orizzonte/node/seq.hpp:25 | With `noop` passed explicitly as the continuation, nothing is delivered, and the only effect is the children's own submissions. |
| SeqLaws.SeqComposesChildren | include/orizzonte/node/seq.hpp:31-34 | `seq{a, b}` delivers, in order, what `b` delivers on each value `a` delivers. Its submissions are `a`'s plus those of `b`'s runs. |
| SeqLaws.SeqAddsNoSubmissions | include/orizzonte/node/seq.hpp:27-34 | `seq` submits nothing itself: its submission count is `a`'s plus `b`'s on each of `a`'s outputs. |
| SeqLaws.SeqSingleDelivery | include/orizzonte/node/seq.hpp:32-33 | If `a` delivers only `y` and `b` delivers only `z` on `y`, then `then` receives `z` exactly once. The total submission count is `a`'s plus `b`'s. |
| SeqLaws.SeqOfLeaves | include/orizzonte/node/seq.hpp:31-34 | `seq{leaf f, leaf g}` on `x` makes the leaves' own submissions and then calls the continuation exactly once, with `g(f(x))`. |
| SeqLaws.SeqWithoutFirstDelivery | include/orizzonte/node/seq.hpp:32-33 | If `a` delivers nothing, then `b` never runs and `then` is never called. The execution is `a`'s alone. |
| SeqLaws.SecondRunsOnlyOnFirstOutputs | include/orizzonte/node/seq.hpp:32-33 | `b` runs only on values `a` delivers. Two second stages that agree on those values give identical executions. |
| SeqLaws.ExecuteLocal | include/orizzonte/node/seq.hpp:31-34 | An execution depends on its continuation only at the values the node delivers. |
| SeqLaws.ExecuteUsesItsScheduler | include/orizzonte/node/seq.hpp:31-33 | Every unit of work goes to the scheduler the execution was given. `seq` passes the same scheduler to both children. |
| SeqLaws.OutputsWellTyped | include/orizzonte/node/seq.hpp:16-17 | A well-typed node, given a value of its `in_type`, delivers only values of its `out_type`. For a seq these are `A`'s in type and `B`'s out type. |
| SeqLaws.SeqAssociativeDenote | include/orizzonte/node/seq.hpp:31-34 | `seq{seq{a,b},c}` and `seq{a,seq{b,c}}` deliver the same values with the same submission count. |
| SeqLaws.SeqAssociative | include/orizzonte/node/seq.hpp:31-34 | The two groupings produce identical traces, whatever the scheduler and continuation. |
| SeqLaws.DenoteEachContains | include/orizzonte/node/seq.hpp:32-33 | Any value `b` delivers on any of its inputs appears in what `b` delivers over all of them. |
| SeqExamples.ThenChainWellTyped | src/bfuture_bench.cpp:133-138 | The chain `seq{seq{leaf{42}, leaf{x+1}}, leaf{x+1}}` is well typed, from unit to int. |
| SeqExamples.ThenChainDelivers44 | src/bfuture_bench.cpp:133-140 | The chain delivers exactly one value, 44, and submits exactly the leaves' own work. |
| SeqExamples.ThenChainRegrouped | src/bfuture_bench.cpp:133-140 | Regrouped right-nested, the chain still delivers exactly 44. |
| SeqExamples.IncrementThenDouble | include/orizzonte/node/seq.hpp:31-34 | `seq{leaf{x+1}, leaf{x*2}}` on 3 delivers exactly 8. |
| TupleUtils.ForTuple | include/orizzonte/utilities/tuple.hpp:10-15 | The loop leaves the state that calling `f` on each element, in order, produces. On an empty tuple it leaves the state untouched. |
| TupleUtils.CallEachAppend | include/orizzonte/utilities/tuple.hpp:14 | Calls happen in element order: calling over `t1 + t2` means calling over `t1`, then over `t2`. |
| TupleUtils.CallEachRecordsElements | include/orizzonte/utilities/tuple.hpp:13-14 | A recording callable sees each element exactly once, in order, and nothing on an empty tuple. |
| TupleUtils.CallEachDiscardsResults | include/orizzonte/utilities/tuple.hpp:14 | What `f` returns has no effect when the results are joined by the built-in comma: callables with the same effect give the same outcome. |
| TupleUtils.FlattenAppend | include/orizzonte/utilities/tuple.hpp:22 | Concatenating packs distributes over splitting the list of packs. |
| TupleUtils.OffsetIsPrefixLength | include/orizzonte/utilities/tuple.hpp:22 | The packs before pack `i` concatenate to exactly `Offset(packs, i)` values. `Offset` is the sum of the earlier packs' lengths. |
| TupleUtils.FlattenAt | include/orizzonte/utilities/tuple.hpp:22 | Element `j` of pack `i` is at position `Offset(packs, i) + j` of the concatenation. |
| TupleUtils.FindPack | include/orizzonte/utilities/tuple.hpp:22 | Every position before `Offset(packs, i)` is some element `j` of some pack `k < i`. |
| TupleUtils.PlacementDetermines | include/orizzonte/utilities/tuple.hpp:22 | A sequence of the right total length that holds every element of every pack at its offset is the concatenation. |
| TupleUtils.TupleCat | include/orizzonte/utilities/tuple.hpp:22 | Builds the concatenation of the packs. Every element lands at its pack's offset plus its index, and nothing else is added. |
| TupleUtils.MultiApply | include/orizzonte/utilities/tuple.hpp:17-23 | `f` is a step on an explicit state. The final state and the result are exactly those of one call of `f` from the initial state on the concatenated packs. With one pack this is plain `apply(f, t)`. |
| TupleUtils.MultiApplyCallsOnce | include/orizzonte/utilities/tuple.hpp:22 | With a callable that counts its calls, the count is exactly 1, and the callable sees exactly the concatenated packs, even when there are none. |
| TupleUtils.MultiApplyRegroup | include/orizzonte/utilities/tuple.hpp:22 | Only the order of arguments matters: merging two adjacent packs passes `f` the same arguments. |

## Left out

- The scheduler and real threads. A scheduler is an opaque handle, and a node's asynchrony is reduced to the units of work it submits. Interleavings and timing are not modelled.
- `leaf`, `all`, `any`, `sync_execute`, the atomics and cache-aligned storage are not part of this model. A leaf is given by its contract. Every other node is a `Custom` node, described only by what it delivers.
- The `seq` constructor (include/orizzonte/node/seq.hpp:19) is the datatype constructor `Seq(a, b)`. It stores both children unchanged, so no separate member states that.
- The default argument `then = utility::noop_v` (include/orizzonte/node/seq.hpp:25) is not modelled as reachable by omitting `then`. `Then` is a bare template parameter with no default, and a default function argument does not deduce it, so `execute(scheduler, input)` does not compile as written. This observation was not executed. The model covers only `noop` passed explicitly (`SeqLaws.ExecuteDefault`).
- Nodes are stateless and can be re-run. The source runs the same `B` subobject each time the closure fires (include/orizzonte/node/seq.hpp:33). A node that keeps state across runs (such as `all` and `any`, with their counters and flags) is not modelled.
- Several deliveries from `A` are serialized, in order. When `A` delivers more than once, `B`'s runs are modelled one after another, so their events never interleave.
- The closure captures `then` by value (include/orizzonte/node/seq.hpp:32), so `B` receives a copy of the caller's continuation. `Final(k)` treats every effect of a continuation as part of one shared trace. A continuation that keeps its own state in its object, which the caller would not see change in the copy, is not modelled.
- C++ mechanics with nothing to verify are not modelled: private multiple inheritance, the `&`-qualifier on `execute`, and perfect forwarding.
- Not modelled: the lifetime hazard of capturing `this` and `&scheduler` in a closure that may run later. The model assumes both outlive every execution.
- C++'s static types are data (`Ty`), and all values come from one universe, `Val`. Heterogeneous tuple element types become `seq<Val>`.
- `vrm::core::apply` and `std::tuple_cat` are modelled only by the contracts `multi_apply` relies on. A call of `f` in `for_tuple` and in `multi_apply` is a pure step on an explicit state.
- Throwing callables and nodes are not modelled: in the model every execution returns normally, and every value a node delivers reaches its continuation. `seq` catches nothing (include/orizzonte/node/seq.hpp:31-33). An exception from `A`, `B` or `then` therefore unwinds out of `execute` to its caller, and any later delivery from `A` does not happen. The same holds for an exception from `f` in `for_tuple` and `multi_apply`.
- TupleUtils.CallEachDiscardsResults: only results joined by the built-in comma operator are modelled. If the result type of `f` overloads `operator,`, the fold at include/orizzonte/utilities/tuple.hpp:14 calls that operator on the results. The calls still happen left to right, but the results are no longer simply discarded.
- `SeqExamples.ThenChainDelivers44`: `int` is unbounded, so `x + 1` in the example cannot overflow. The values stay far below 2^31, so this makes no difference here.
- The benchmark's timing, `usleep` and Boost futures are out of scope. Only the `seq` chain's expected result, 44, is used, as a lemma.
