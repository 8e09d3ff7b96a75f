/**
 * Translation of the policy service's postfix filter tokens into one
 * query predicate (`OpenPolicyAgentPermission.filter`).
 *
 * The stack is a sequence whose LAST element is the top, as with a Python
 * list used through `append` and `pop`. A binary operator pops `val1` (the
 * top) first and `val2` second and pushes `op(val1, val2)`, so the node it
 * builds has the later operand on the left. `'|'` and `'&'` combine the
 * two `Q` objects as Django does: an empty operand is dropped
 * (`Predicates.OrQ`, `Predicates.AndQ`).
 *
 * The source maps `'~'` to `operator.not_`, which evaluates Python's `not`
 * on a `Q` object and yields a bool, not `Q.__invert__`. Only the arity of
 * that step (pop one, push one) is modelled, as a `Not` node. In the source
 * such a bool makes the rest of `filter` fail (a later `'|'` or `'&'` with a
 * `Q` raises a type error, and `queryset.filter` rejects a bool), so what
 * this module says about lists containing `'~'` describes the model only.
 */
module Rpn {
  import opened Wrappers
  import opened Predicates

  /** One element of the `result` array: an operator string or a field map. */
  datatype Token = Operator(op: string) | Fields(fields: map<string, Value>)

  datatype FilterError =
    | EmptyStack                  // `pop from empty list` (IndexError)
    | UnknownOperator(op: string) // `ops_dict[token]` (KeyError)
    | TooManyNodes(count: nat)    // `assert len(qobjects) == 1`

  /** Operators present in `ops_dict`. */
  predicate Known(t: Token)
  {
    t.Fields? || t.op in {"~", "|", "&"}
  }

  /** Operands popped before the step can fail on an unknown operator. */
  function Needs(t: Token): nat
  {
    if t.Fields? then 0 else if t.op == "~" then 1 else 2
  }

  /** Net change of the stack height made by a successful step. */
  function Effect(t: Token): int
  {
    if t.Fields? then 1 else if t.op == "~" then 0 else -1
  }

  /** One iteration of the `for token in ...` loop. */
  function Step(stack: seq<Pred>, t: Token): (r: Result<seq<Pred>, FilterError>)
    ensures r.Ok? <==> Known(t) && |stack| >= Needs(t)
    ensures r.Ok? ==> |r.value| == |stack| + Effect(t)
  {
    match t
    case Fields(m) => Ok(stack + [Leaf(m)])
    case Operator(op) =>
      if |stack| == 0 then Err(EmptyStack)
      else
        var val1 := stack[|stack| - 1];
        var rest := stack[..|stack| - 1];
        if op == "~" then Ok(rest + [Not(val1)])
        else if |rest| == 0 then Err(EmptyStack)
        else
          var val2 := rest[|rest| - 1];
          var below := rest[..|rest| - 1];
          if op == "|" then Ok(below + [OrQ(val1, val2)])
          else if op == "&" then Ok(below + [AndQ(val1, val2)])
          else Err(UnknownOperator(op))
  }

  /** What each token does to the stack: a field map pushes one leaf, `'~'`
      replaces the top, `'|'` and `'&'` replace the top two by
      `op(first popped, second popped)`, combined as `Q` combines (an empty
      operand is dropped); everything below is untouched. An
      operator lacking operands is a pop from an empty list even when it is
      unknown; an unknown one with enough operands fails the lookup. */
  lemma StepShape(stack: seq<Pred>, t: Token)
    ensures |stack| < Needs(t) ==> Step(stack, t) == Err(EmptyStack)
    ensures |stack| >= Needs(t) && !Known(t) ==> Step(stack, t) == Err(UnknownOperator(t.op))
    ensures Step(stack, t).Ok? ==>
      Step(stack, t).value[..|stack| - Needs(t)] == stack[..|stack| - Needs(t)]
    ensures t.Fields? ==> Step(stack, t) == Ok(stack + [Leaf(t.fields)])
    ensures t == Operator("~") && |stack| >= 1 ==>
      Step(stack, t) == Ok(stack[..|stack| - 1] + [Not(stack[|stack| - 1])])
    ensures t == Operator("|") && |stack| >= 2 ==>
      Step(stack, t) == Ok(stack[..|stack| - 2] + [OrQ(stack[|stack| - 1], stack[|stack| - 2])])
    ensures t == Operator("&") && |stack| >= 2 ==>
      Step(stack, t) == Ok(stack[..|stack| - 2] + [AndQ(stack[|stack| - 1], stack[|stack| - 2])])
  {
    if |stack| >= 2 {
      assert stack[..|stack| - 1][..|stack| - 2] == stack[..|stack| - 2];
    }
  }

  /** The whole loop, from a given stack; the first failing step aborts it. */
  function Fold(stack: seq<Pred>, ts: seq<Token>): Result<seq<Pred>, FilterError>
    decreases |ts|
  {
    if ts == [] then Ok(stack)
    else
      match Step(stack, ts[0])
      case Err(e) => Err(e)
      case Ok(next) => Fold(next, ts[1..])
  }

  /** The specification of `filter`: the loop, then the residual-stack check. */
  function Translation(ts: seq<Token>): Result<Pred, FilterError>
  {
    match Fold([], ts)
    case Err(e) => Err(e)
    case Ok(s) =>
      if |s| == 0 then Ok(True)
      else if |s| == 1 then Ok(s[0])
      else Err(TooManyNodes(|s|))
  }

  /** The translator as the source runs it: a loop pushing and popping a list. */
  method Translate(tokens: seq<Token>) returns (r: Result<Pred, FilterError>)
    ensures r == Translation(tokens)
  {
    var qobjects: seq<Pred> := [];
    var i := 0;
    while i < |tokens|
      invariant 0 <= i <= |tokens|
      invariant Fold([], tokens) == Fold(qobjects, tokens[i..])
    {
      ghost var before := qobjects;
      assert tokens[i..][0] == tokens[i] && tokens[i..][1..] == tokens[i + 1..];
      match tokens[i] {
        case Operator(op) =>
          if |qobjects| == 0 {
            return Err(EmptyStack);
          }
          var val1 := qobjects[|qobjects| - 1];
          qobjects := qobjects[..|qobjects| - 1];
          if op == "~" {
            qobjects := qobjects + [Not(val1)];
          } else {
            if |qobjects| == 0 {
              return Err(EmptyStack);
            }
            var val2 := qobjects[|qobjects| - 1];
            qobjects := qobjects[..|qobjects| - 1];
            if op == "|" {
              qobjects := qobjects + [OrQ(val1, val2)];
            } else if op == "&" {
              qobjects := qobjects + [AndQ(val1, val2)];
            } else {
              return Err(UnknownOperator(op));
            }
          }
        case Fields(m) =>
          qobjects := qobjects + [Leaf(m)];
      }
      assert Step(before, tokens[i]) == Ok(qobjects);
      i := i + 1;
    }
    if |qobjects| > 0 {
      if |qobjects| != 1 {
        return Err(TooManyNodes(|qobjects|));
      }
    } else {
      qobjects := qobjects + [True];
    }
    r := Ok(qobjects[0]);
  }

  // ---------------------------------------------------------------------
  // Stack arity: an abstract reference on heights alone.

  /** The tokens can be consumed from a stack of height `h` without failing. */
  predicate Consumable(h: nat, ts: seq<Token>)
    decreases |ts|
  {
    ts == [] ||
    (Known(ts[0]) && h >= Needs(ts[0]) && Consumable(h + Effect(ts[0]), ts[1..]))
  }

  /** Total change of the stack height over a token sequence. */
  function Net(ts: seq<Token>): int
    decreases |ts|
  {
    if ts == [] then 0 else Effect(ts[0]) + Net(ts[1..])
  }

  /** The loop succeeds exactly when no step underflows or meets an unknown
      operator, and the final height is the start height plus the net effect. */
  lemma {:induction false} FoldArity(stack: seq<Pred>, ts: seq<Token>)
    ensures Fold(stack, ts).Ok? <==> Consumable(|stack|, ts)
    ensures Fold(stack, ts).Ok? ==> |Fold(stack, ts).value| == |stack| + Net(ts)
    decreases |ts|
  {
    if ts != [] {
      var s := Step(stack, ts[0]);
      if s.Ok? {
        FoldArity(s.value, ts[1..]);
      }
    }
  }

  /** `filter` yields a predicate iff the tokens are consumable from the empty
      stack and leave at most one node; it reports the residual count otherwise. */
  lemma TranslationArity(ts: seq<Token>)
    ensures Translation(ts).Ok? <==> Consumable(0, ts) && Net(ts) <= 1
    ensures Translation(ts).Err? && Consumable(0, ts) ==>
      Net(ts) > 1 && Translation(ts) == Err(TooManyNodes(Net(ts)))
  {
    FoldArity([], ts);
  }

  /** A failing token aborts the loop at once; nothing built before it survives. */
  lemma {:induction false} FoldFailsAtFirstBadToken(stack: seq<Pred>, ts: seq<Token>, k: nat)
    requires k < |ts|
    requires Fold(stack, ts[..k]).Ok?
    requires Step(Fold(stack, ts[..k]).value, ts[k]).Err?
    ensures Fold(stack, ts) == Err(Step(Fold(stack, ts[..k]).value, ts[k]).error)
    decreases k
  {
    if k == 0 {
      assert ts[..0] == [];
    } else {
      assert ts[..k][0] == ts[0] && ts[..k][1..] == ts[1..][..k - 1];
      var s := Step(stack, ts[0]);
      FoldFailsAtFirstBadToken(s.value, ts[1..], k - 1);
    }
  }

  // ---------------------------------------------------------------------
  // Round trip: serialise a predicate in postfix and translate it back.

  /** Predicates that have a token form (Q() has none of its own). */
  predicate Tokenizable(p: Pred)
  {
    match p
    case True => false
    case Leaf(_) => true
    case And(l, r) => Tokenizable(l) && Tokenizable(r)
    case Or(l, r) => Tokenizable(l) && Tokenizable(r)
    case Not(q) => Tokenizable(q)
  }

  /** Postfix form of a predicate, operands in left-to-right order. */
  function Postfix(p: Pred): seq<Token>
    requires Tokenizable(p)
  {
    match p
    case Leaf(m) => [Fields(m)]
    case And(l, r) => Postfix(l) + Postfix(r) + [Operator("&")]
    case Or(l, r) => Postfix(l) + Postfix(r) + [Operator("|")]
    case Not(q) => Postfix(q) + [Operator("~")]
  }

  /** The predicate with the operands of every binary node exchanged. */
  function Mirror(p: Pred): Pred
  {
    match p
    case True => True
    case Leaf(m) => Leaf(m)
    case And(l, r) => And(Mirror(r), Mirror(l))
    case Or(l, r) => Or(Mirror(r), Mirror(l))
    case Not(q) => Not(Mirror(q))
  }

  /** What the loop builds from a postfix form: the operands of every binary
      node exchanged, and every binary node combined the way `Q` combines. */
  function Build(p: Pred): Pred
  {
    match p
    case True => True
    case Leaf(m) => Leaf(m)
    case And(l, r) => AndQ(Build(r), Build(l))
    case Or(l, r) => OrQ(Build(r), Build(l))
    case Not(q) => Not(Build(q))
  }

  lemma {:induction false} FoldPostfix(stack: seq<Pred>, p: Pred, rest: seq<Token>)
    requires Tokenizable(p)
    ensures Fold(stack, Postfix(p) + rest) == Fold(stack + [Build(p)], rest)
    decreases p, 1
  {
    match p
    case Leaf(m) =>
      assert (Postfix(p) + rest)[1..] == rest;
    case And(_, _) =>
      BinaryPostfix(stack, p, rest);
    case Or(_, _) =>
      BinaryPostfix(stack, p, rest);
    case Not(q) =>
      assert Postfix(p) + rest == Postfix(q) + ([Operator("~")] + rest);
      FoldPostfix(stack, q, [Operator("~")] + rest);
      assert ([Operator("~")] + rest)[1..] == rest;
      assert (stack + [Build(q)])[..|stack|] == stack;
  }

  lemma {:induction false} BinaryPostfix(stack: seq<Pred>, p: Pred, rest: seq<Token>)
    requires p.And? || p.Or?
    requires Tokenizable(p)
    ensures Fold(stack, Postfix(p) + rest) == Fold(stack + [Build(p)], rest)
    decreases p, 0
  {
    var l, r := p.left, p.right;
    var op := if p.And? then Operator("&") else Operator("|");
    assert Postfix(p) == Postfix(l) + Postfix(r) + [op];
    assert Postfix(l) + Postfix(r) + [op] + rest == Postfix(l) + (Postfix(r) + ([op] + rest));
    FoldPostfix(stack, l, Postfix(r) + ([op] + rest));
    FoldPostfix(stack + [Build(l)], r, [op] + rest);
    var s := stack + [Build(l)] + [Build(r)];
    assert ([op] + rest)[0] == op && ([op] + rest)[1..] == rest;
    assert s[..|s| - 2] == stack;
  }

  /** Translating a serialised predicate gives back what the loop builds. */
  lemma RoundTrip(p: Pred)
    requires Tokenizable(p)
    ensures Translation(Postfix(p)) == Ok(Build(p))
  {
    FoldPostfix([], p, []);
    assert Postfix(p) + [] == Postfix(p);
  }

  /** Every leaf restricts at least one field and no node is `Q()`. */
  predicate Solid(p: Pred)
  {
    match p
    case True => false
    case Leaf(m) => m != map[]
    case And(l, r) => Solid(l) && Solid(r)
    case Or(l, r) => Solid(l) && Solid(r)
    case Not(q) => Solid(q)
  }

  /** Without empty operands no combination is dropped: the loop builds exactly
      the mirror image, and that image is not empty. */
  lemma {:induction false} BuildIsMirror(p: Pred)
    requires Solid(p)
    ensures Tokenizable(p)
    ensures Build(p) == Mirror(p) && !Empty(Build(p))
  {
    match p
    case Leaf(_) =>
    case And(l, r) => BuildIsMirror(l); BuildIsMirror(r);
    case Or(l, r) => BuildIsMirror(l); BuildIsMirror(r);
    case Not(q) => BuildIsMirror(q);
  }

  /** Exchanging the operands of AND and OR nodes does not change the meaning. */
  lemma {:induction false} MirrorPreservesMeaning(p: Pred, rec: Record)
    ensures Eval(Mirror(p), rec) == Eval(p, rec)
  {
    match p
    case True =>
    case Leaf(_) =>
    case And(l, r) => MirrorPreservesMeaning(l, rec); MirrorPreservesMeaning(r, rec);
    case Or(l, r) => MirrorPreservesMeaning(l, rec); MirrorPreservesMeaning(r, rec);
    case Not(q) => MirrorPreservesMeaning(q, rec);
  }

  /** Every postfix expression translates; one without empty field maps
      translates into a predicate with the same truth table as the expression
      it encodes. */
  lemma TranslationPreservesMeaning(p: Pred, rec: Record)
    requires Tokenizable(p)
    ensures Translation(Postfix(p)).Ok?
    ensures Solid(p) ==> Eval(Translation(Postfix(p)).value, rec) == Eval(p, rec)
  {
    RoundTrip(p);
    if Solid(p) {
      BuildIsMirror(p);
      MirrorPreservesMeaning(p, rec);
    }
  }

  // ---------------------------------------------------------------------
  // Small cases.

  /** No tokens: the always-true predicate. */
  lemma EmptyTranslation()
    ensures Translation([]) == Ok(True)
  {
  }

  /** One field map: one leaf holding exactly when every equality holds. */
  lemma SingleLeaf(m: map<string, Value>, rec: Record)
    ensures Translation([Fields(m)]) == Ok(Leaf(m))
    ensures Eval(Translation([Fields(m)]).value, rec) <==>
      forall k | k in m :: k in rec && rec[k] == m[k]
  {
    RoundTrip(Leaf(m));
  }

  /** `[A, B, '|']` builds `Or(B, A)`, true iff A or B holds; an empty map
      is dropped from the disjunction instead of making it always true. */
  lemma OrOfTwoLeaves(a: map<string, Value>, b: map<string, Value>, rec: Record)
    ensures a != map[] && b != map[] ==>
      Translation([Fields(a), Fields(b), Operator("|")]) == Ok(Or(Leaf(b), Leaf(a)))
    ensures Translation([Fields(a), Fields(b), Operator("|")]).Ok?
    ensures Eval(Translation([Fields(a), Fields(b), Operator("|")]).value, rec) <==>
      (a != map[] && Matches(a, rec)) || (b != map[] && Matches(b, rec)) || (a == map[] && b == map[])
  {
    var p := Or(Leaf(a), Leaf(b));
    RoundTrip(p);
    assert Postfix(p) == [Fields(a), Fields(b), Operator("|")];
    assert Build(p) == OrQ(Leaf(b), Leaf(a));
  }

  /** An empty map on either side of `'|'` leaves the other operand alone. */
  lemma EmptyOperandIgnored(a: map<string, Value>)
    ensures Translation([Fields(map[]), Fields(a), Operator("|")]) == Ok(Leaf(a))
    ensures Translation([Fields(a), Fields(map[]), Operator("|")]) == Ok(Leaf(a))
  {
    RoundTrip(Or(Leaf(map[]), Leaf(a)));
    assert Postfix(Or(Leaf(map[]), Leaf(a))) == [Fields(map[]), Fields(a), Operator("|")];
    RoundTrip(Or(Leaf(a), Leaf(map[])));
    assert Postfix(Or(Leaf(a), Leaf(map[]))) == [Fields(a), Fields(map[]), Operator("|")];
  }

  /** `[{}, {"a": 1}, '|']` keeps only the records with `a == 1`: a record with
      `a == 2` is dropped although its empty operand matches every record. */
  lemma EmptyOperandNarrows()
    ensures var ts := [Fields(map[]), Fields(map["a" := Int(1)]), Operator("|")];
      Translation(ts).Ok? && Select(Translation(ts).value, [map["a" := Int(2)]]) == []
  {
    EmptyOperandIgnored(map["a" := Int(1)]);
    var m, rec := map["a" := Int(1)], map["a" := Int(2)];
    assert "a" in m && rec["a"] != m["a"];
    assert !Matches(m, rec);
  }

  /** Two leaves and no operator leave two nodes: the assertion fails. */
  lemma ResidualNodesFail(a: map<string, Value>, b: map<string, Value>)
    ensures Translation([Fields(a), Fields(b)]) == Err(TooManyNodes(2))
  {
    FoldPostfix([], Leaf(a), [Fields(b)]);
    FoldPostfix([Leaf(a)], Leaf(b), []);
    assert Postfix(Leaf(a)) + [Fields(b)] == [Fields(a), Fields(b)];
    assert [] + [Build(Leaf(a))] == [Leaf(a)];
    assert Postfix(Leaf(b)) + [] == [Fields(b)];
    assert [Leaf(a)] + [Build(Leaf(b))] == [Leaf(a), Leaf(b)];
    assert Fold([], [Fields(a), Fields(b)]) == Fold([Leaf(a), Leaf(b)], []);
  }
}
