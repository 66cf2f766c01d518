/**
 * The stack discipline of `compile`: what each character does to the
 * scan state, how a ')' and the final drain treat the operator stack, and
 * how a '|' folds the whole run of '.' operators on its left before it
 * builds the union.
 */
module CompileLaws {
  import opened Nfas
  import opened Builders
  import opened Validator
  import opened CompileSpec

  // ---------------------------------------------------------------------
  // One character of the scan.
  // ---------------------------------------------------------------------

  /**
   * A symbol pushes its literal and sets the flag; it pushes a '.' onto
   * the operator stack exactly when the flag was already set.
   */
  lemma StepSymbol(m: Machine, c: char)
    requires Alphabet(c)
    ensures Step(m, c).Ok?
    ensures var m', ops := Step(m, c).value, m.stacks.operators;
      && m'.stacks.operands == m.stacks.operands + [LiteralOf(c)]
      && m'.concatFlag && m'.paraCount == m.paraCount
      && m'.stacks.operators[..|ops|] == ops
      && (|m'.stacks.operators| == |ops| + 1 <==> m.concatFlag)
      && (|m'.stacks.operators| == |ops| <==> !m.concatFlag)
      && (m.concatFlag ==> Last(m'.stacks.operators) == '.')
  {
  }

  /**
   * '*' replaces the top operand by its kleene automaton and sets the
   * flag; with no operand it is the `IndexError` of `operands.pop()`.
   */
  lemma StepStar(m: Machine)
    ensures Step(m, '*').Err? <==> |m.stacks.operands| == 0
    ensures Step(m, '*').Err? ==> Step(m, '*').error == EmptyPop
    ensures Step(m, '*').Ok? ==>
      var m', vals := Step(m, '*').value, m.stacks.operands;
      && m'.stacks.operands == vals[..|vals| - 1] + [KleeneOf(vals[|vals| - 1])]
      && m'.stacks.operators == m.stacks.operators
      && m'.concatFlag && m'.paraCount == m.paraCount
  {
  }

  /** '(' is pushed and counted, and leaves the flag as it was. */
  lemma StepOpen(m: Machine)
    ensures Step(m, '(') == Ok(Machine(Stacks(m.stacks.operators + ['('], m.stacks.operands),
                                       m.concatFlag, m.paraCount + 1))
  {
  }

  /** '|' is pushed and clears the flag. */
  lemma StepBar(m: Machine)
    ensures Step(m, '|') == Ok(Machine(Stacks(m.stacks.operators + ['|'], m.stacks.operands),
                                       false, m.paraCount))
  {
  }

  /** ')' with no open group is the first `exit(1)`. */
  lemma StepCloseUnmatched(m: Machine)
    requires m.paraCount == 0
    ensures Step(m, ')') == Err(UnmatchedBracket)
  {
  }

  /**
   * ')' inside a group: the count drops by one, the flag is cleared, and
   * the drain only pops operators, stopping at the topmost '(', which it
   * leaves in place.
   */
  lemma StepClose(m: Machine)
    requires m.paraCount > 0
    ensures Step(m, ')').Ok? ==>
      var m' := Step(m, ')').value;
      && !m'.concatFlag && m'.paraCount == m.paraCount - 1
      && m'.stacks.operators <= m.stacks.operators
      && (|m'.stacks.operators| == 0 || Last(m'.stacks.operators) == '(')
      && forall i | |m'.stacks.operators| <= i < |m.stacks.operators| :: m.stacks.operators[i] != '('
  {
    DrainToParenStops(m.stacks);
  }

  // ---------------------------------------------------------------------
  // The drains only pop operators.
  // ---------------------------------------------------------------------

  lemma {:induction false} CollectRunPrefix(s: Stacks, run: seq<Automaton>)
    ensures CollectRun(s, run).Ok? ==> CollectRun(s, run).value.0.operators <= s.operators
    decreases |s.operators|
  {
    if DotOnTop(s.operators) && |s.operands| > 0 {
      CollectRunPrefix(Stacks(Init(s.operators), Init(s.operands)), run + [Last(s.operands)]);
    }
  }

  /** Collection pops nothing but '.' operators. */
  lemma {:induction false} CollectRunPopsDots(s: Stacks, run: seq<Automaton>)
    ensures CollectRun(s, run).Ok? ==>
      forall i | |CollectRun(s, run).value.0.operators| <= i < |s.operators| :: s.operators[i] == '.'
    decreases |s.operators|
  {
    if DotOnTop(s.operators) && |s.operands| > 0 {
      CollectRunPopsDots(Stacks(Init(s.operators), Init(s.operands)), run + [Last(s.operands)]);
    }
  }

  /** Applying an operator never pushes one: the operator stack keeps a prefix. */
  lemma ReducePrefix(s: Stacks, op: char)
    ensures Reduce(s, op).Ok? ==> Reduce(s, op).value.operators <= s.operators
  {
    if op == '|' && |s.operands| > 0 && DotOnTop(s.operators) && |s.operands| > 1 {
      CollectRunPrefix(Stacks(s.operators, Init(Init(s.operands))), [Last(Init(s.operands))]);
    }
  }

  /** Applying an operator pops no '(': whatever it pops is a '.'. */
  lemma ReduceNoParen(s: Stacks, op: char)
    ensures Reduce(s, op).Ok? ==>
      forall i | |Reduce(s, op).value.operators| <= i < |s.operators| :: s.operators[i] != '('
  {
    ReducePrefix(s, op);
    if op == '|' && |s.operands| > 0 && DotOnTop(s.operators) && |s.operands| > 1 {
      CollectRunPopsDots(Stacks(s.operators, Init(Init(s.operands))), [Last(Init(s.operands))]);
    }
  }

  /**
   * Two pops in a row, the second after the top, a non-'(', went: if
   * neither popped a '(', together they popped none.
   */
  lemma NoParenBetween(f: seq<char>, r: seq<char>, ops: seq<char>)
    requires |ops| > 0 && Last(ops) != '(' && f <= r <= Init(ops)
    requires forall i | |f| <= i < |r| :: r[i] != '('
    requires forall i | |r| <= i < |Init(ops)| :: Init(ops)[i] != '('
    ensures forall i | |f| <= i < |ops| :: ops[i] != '('
  {
    forall i | |f| <= i < |ops|
      ensures ops[i] != '('
    {
      if i < |r| {
        assert ops[i] == r[i];
      } else if i < |ops| - 1 {
        assert ops[i] == Init(ops)[i];
      }
    }
  }

  /**
   * The drain of a ')' leaves a prefix of the operators that is empty or
   * ends in '(', and pops no '(': it stops at the topmost one.
   */
  lemma {:induction false} DrainToParenStops(s: Stacks)
    ensures DrainToParen(s).Ok? ==>
      var ops := DrainToParen(s).value.operators;
      && ops <= s.operators && (|ops| == 0 || Last(ops) == '(')
      && forall i | |ops| <= i < |s.operators| :: s.operators[i] != '('
    decreases |s.operators|
  {
    if |s.operators| > 0 && Last(s.operators) != '(' {
      var popped := Stacks(Init(s.operators), s.operands);
      ReducePrefix(popped, Last(s.operators));
      ReduceNoParen(popped, Last(s.operators));
      var reduced := Reduce(popped, Last(s.operators));
      if reduced.Ok? {
        DrainToParenStops(reduced.value);
        var drained := DrainToParen(reduced.value);
        assert DrainToParen(s) == drained;
        if drained.Ok? {
          NoParenBetween(drained.value.operators, reduced.value.operators, s.operators);
        }
      }
    }
  }

  /** A successful final drain leaves no operator. */
  lemma {:induction false} FinalDrainEmpties(s: Stacks)
    ensures FinalDrain(s).Ok? ==> FinalDrain(s).value.operators == []
    decreases |s.operators|
  {
    if |s.operators| > 0 && |s.operands| > 0 {
      var reduced := Reduce(Stacks(Init(s.operators), s.operands), Last(s.operators));
      if reduced.Ok? {
        FinalDrainEmpties(reduced.value);
      }
    }
  }

  /** Operators left while no operand remains is the second `exit(1)`. */
  lemma FinalDrainImbalance(s: Stacks)
    requires |s.operators| > 0 && |s.operands| == 0
    ensures FinalDrain(s) == Err(OperandImbalance)
  {
  }

  /** A '(' left on the stack matches no branch of the final drain and is dropped. */
  lemma FinalDrainDropsParen(s: Stacks)
    requires |s.operators| > 0 && Last(s.operators) == '(' && |s.operands| > 0
    ensures FinalDrain(s) == FinalDrain(Stacks(Init(s.operators), s.operands))
  {
  }

  // ---------------------------------------------------------------------
  // A '|' folds the whole '.' run on its left, left to right.
  // ---------------------------------------------------------------------

  /** `k` concatenation operators. */
  function Dots(k: nat): seq<char>
  {
    seq(k, _ => '.')
  }

  function Reverse<T>(s: seq<T>): (r: seq<T>)
    ensures |r| == |s|
  {
    if s == [] then [] else Reverse(s[1..]) + [s[0]]
  }

  /**
   * The reference reading of a '.' run: concatenate the operands in their
   * written order, `((x0 . x1) . x2) ...`, one `concat` call at a time.
   */
  function ConcatChain(acc: Automaton, xs: seq<Automaton>): Result<Automaton>
    decreases |xs|
  {
    if xs == [] then Ok(acc)
    else
      match ConcatStep(acc, xs[0])
      case Err(e) => Err(e)
      case Ok(joined) => ConcatChain(joined, xs[1..])
  }

  lemma {:induction false} ReverseLast<T>(s: seq<T>)
    requires |s| > 0
    ensures Reverse(s) == [s[|s| - 1]] + Reverse(s[..|s| - 1])
  {
    if |s| > 1 {
      ReverseLast(s[1..]);
      assert s[1..][..|s| - 2] == s[..|s| - 1][1..];
    }
  }

  /** Collecting `k` '.'s moves the `k` operands above `below` onto the run, top first. */
  lemma {:induction false} CollectDots(pre: seq<char>, k: nat, below: seq<Automaton>, ys: seq<Automaton>, run: seq<Automaton>)
    requires !DotOnTop(pre) && |ys| == k
    ensures CollectRun(Stacks(pre + Dots(k), below + ys), run) == Ok((Stacks(pre, below), run + Reverse(ys)))
    decreases k
  {
    if k == 0 {
      assert pre + Dots(k) == pre && below + ys == below;
      assert run + Reverse(ys) == run;
    } else {
      var init := ys[..k - 1];
      assert Init(pre + Dots(k)) == pre + Dots(k - 1);
      assert Init(below + ys) == below + init;
      assert Last(below + ys) == ys[k - 1];
      CollectDots(pre, k - 1, below, init, run + [ys[k - 1]]);
      ReverseLast(ys);
      assert run + [ys[k - 1]] + Reverse(init) == run + Reverse(ys);
    }
  }

  /** The source's fold, popping from the collected run, is the written-order chain. */
  lemma {:induction false} FoldFromChain(acc: Automaton, ys: seq<Automaton>)
    ensures FoldFrom(acc, Reverse(ys)) == ConcatChain(acc, ys)
    decreases |ys|
  {
    if ys != [] {
      var r := Reverse(ys);
      assert Last(r) == ys[0] && Init(r) == Reverse(ys[1..]);
      var step := ConcatStep(acc, ys[0]);
      if step.Ok? {
        FoldFromChain(step.value, ys[1..]);
      }
    }
  }

  /** The first two elements come out last from `Reverse`. */
  lemma ReverseFront<T>(xs: seq<T>)
    requires |xs| >= 2
    ensures Reverse(xs) == Reverse(xs[2..]) + [xs[1], xs[0]]
  {
    assert xs[1..][1..] == xs[2..];
  }

  lemma FoldRunChain(xs: seq<Automaton>)
    requires |xs| >= 2
    ensures FoldRun(Reverse(xs)) == ConcatChain(xs[0], xs[1..])
  {
    var r, rest := Reverse(xs), xs[2..];
    ReverseFront(xs);
    assert Last(r) == xs[0] && r[|r| - 2] == xs[1] && r[..|r| - 2] == Reverse(rest);
    assert xs[1..][1..] == rest;
    var step := ConcatStep(xs[0], xs[1]);
    if step.Ok? {
      FoldFromChain(step.value, rest);
    }
  }

  /**
   * A '|' drained while `k` '.'s are exposed: its left operand is the
   * concatenation of all `k + 1` operands of the run in written order, the
   * right operand is the top, and both the run and its '.'s are consumed.
   */
  lemma UnionFoldsRun(pre: seq<char>, k: nat, below: seq<Automaton>, xs: seq<Automaton>, right: Automaton)
    requires !DotOnTop(pre) && k >= 1 && |xs| == k + 1
    ensures ApplyUnion(Stacks(pre + Dots(k), below + xs + [right]))
         == match ConcatChain(xs[0], xs[1..])
            case Err(e) => Err(e)
            case Ok(left) => Ok(Stacks(pre, below + [UnionOf(left, right)]))
  {
    var s := Stacks(pre + Dots(k), below + xs + [right]);
    assert Init(s.operands) == below + xs && Last(s.operands) == right;
    var t := Stacks(s.operators, below + xs);
    assert Init(t.operands) == below + xs[..k] && Last(t.operands) == xs[k];
    CollectDots(pre, k, below, xs[..k], [xs[k]]);
    ReverseLast(xs);
    assert [xs[k]] + Reverse(xs[..k]) == Reverse(xs);
    FoldRunChain(xs);
  }

  /** A popped '.' joins the two top operands by `concat`. */
  lemma ConcatOfTopTwo(ops: seq<char>, below: seq<Automaton>, left: Automaton, right: Automaton)
    requires 0 in right.states
    ensures ApplyConcat(Stacks(ops, below + [left, right])) == Ok(Stacks(ops, below + [ConcatOf(left, right)]))
  {
    var s := Stacks(ops, below + [left, right]);
    assert Init(s.operands) == below + [left];
    assert Init(Init(s.operands)) == below;
  }

  /** With no '.' exposed, a '|' joins just the two top operands. */
  lemma UnionOfTopTwo(ops: seq<char>, below: seq<Automaton>, left: Automaton, right: Automaton)
    requires !DotOnTop(ops)
    ensures ApplyUnion(Stacks(ops, below + [left, right])) == Ok(Stacks(ops, below + [UnionOf(left, right)]))
  {
    var s := Stacks(ops, below + [left, right]);
    assert Init(s.operands) == below + [left];
    assert Init(Init(s.operands)) == below;
  }
}
