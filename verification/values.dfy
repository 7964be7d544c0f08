/**
 Values that flow between nodes, and the static types nodes declare for them
 (`in_type` / `out_type`). C++ checks these types at compile time; here they
 are data, so that "A's output is an acceptable input for B" can be stated.
 */
module Values {

  /** A value handed from one stage to the next. */
  datatype Val = UnitV | IntV(i: int) | TupleV(items: seq<Val>)

  /** A node's declared input or output type. */
  datatype Ty = UnitT | IntT | TupleT(elems: seq<Ty>)

  /** True iff `v` is a value of type `t`. */
  predicate HasType(v: Val, t: Ty)
  {
    match (v, t)
    case (UnitV, UnitT) => true
    case (IntV(_), IntT) => true
    case (TupleV(vs), TupleT(ts)) =>
      |vs| == |ts| && forall k :: 0 <= k < |vs| ==> HasType(vs[k], ts[k])
    case _ => false
  }

  /** True iff every value of `vs` has type `t`. */
  predicate AllHaveType(vs: seq<Val>, t: Ty)
  {
    forall k :: 0 <= k < |vs| ==> HasType(vs[k], t)
  }
}
