/**
 * The query predicates that a filter response is translated into: the
 * model's stand-in for Django's `Q` objects, with an evaluator over one
 * record and the effect of `queryset.filter(q)` on a sequence of records.
 */
module Predicates {

  /** A scalar JSON value as it can appear in a filter token. */
  datatype Value = Int(i: int) | Str(s: string) | Bool(b: bool) | NullValue

  /** A stored row, seen as a map from field name to value. */
  type Record = map<string, Value>

  datatype Pred =
    | True                              // Q(): no restriction
    | Leaf(fields: map<string, Value>)  // Q(**token): all equalities at once
    | And(left: Pred, right: Pred)
    | Or(left: Pred, right: Pred)
    | Not(operand: Pred)

  /** Every field of the leaf is present in the record with the same value. */
  predicate Matches(fields: map<string, Value>, rec: Record)
  {
    forall k | k in fields :: k in rec && rec[k] == fields[k]
  }

  /**
   * The meaning of a predicate on one record. The `Not` clause is the
   * negation the filter protocol intends; see the README for what the
   * source's `'~'` actually computes.
   */
  predicate Eval(p: Pred, rec: Record)
  {
    match p
    case True => true
    case Leaf(fields) => Matches(fields, rec)
    case And(l, r) => Eval(l, rec) && Eval(r, rec)
    case Or(l, r) => Eval(l, rec) || Eval(r, rec)
    case Not(q) => !Eval(q, rec)
  }

  /** A `Q` without children (`Q()`, `Q(**{})`): Python reads it as false,
      and it restricts nothing. */
  predicate Empty(p: Pred)
  {
    p.True? || (p.Leaf? && p.fields == map[])
  }

  /** `l | r` on `Q` objects: Django's `Q._combine` returns the other operand
      unchanged when one side is empty, so an empty operand is ignored rather
      than making the disjunction always true. */
  function OrQ(l: Pred, r: Pred): (q: Pred)
    ensures Empty(q) <==> Empty(l) && Empty(r)
    ensures Empty(r) ==> forall rec :: Eval(q, rec) == Eval(l, rec)
    ensures Empty(l) ==> forall rec :: Eval(q, rec) == Eval(r, rec)
    ensures !Empty(l) && !Empty(r) ==> forall rec :: Eval(q, rec) <==> Eval(l, rec) || Eval(r, rec)
  {
    if Empty(r) then l
    else if Empty(l) then r
    else Or(l, r)
  }

  /** `l & r` on `Q` objects, with the same treatment of an empty operand;
      since an empty `Q` holds everywhere, the result is always the conjunction. */
  function AndQ(l: Pred, r: Pred): (q: Pred)
    ensures Empty(q) <==> Empty(l) && Empty(r)
    ensures forall rec :: Eval(q, rec) <==> Eval(l, rec) && Eval(r, rec)
  {
    if Empty(r) then l
    else if Empty(l) then r
    else And(l, r)
  }

  /** `queryset.filter(p)`: the records satisfying `p`, in their original order. */
  function Select(p: Pred, rs: seq<Record>): (r: seq<Record>)
    ensures |r| <= |rs|
    ensures forall x :: x in r <==> x in rs && Eval(p, x)
  {
    if rs == [] then []
    else if Eval(p, rs[0]) then [rs[0]] + Select(p, rs[1..])
    else Select(p, rs[1..])
  }

  /** The always-true predicate leaves a query set unrestricted. */
  lemma {:induction false} SelectTrue(rs: seq<Record>)
    ensures Select(True, rs) == rs
  {
    if rs != [] {
      SelectTrue(rs[1..]);
      assert [rs[0]] + rs[1..] == rs;
    }
  }
}
