/**
 * `compile` as the source runs it: a scan over the characters that pushes
 * and pops `Nfa` objects and operator characters, with the builders
 * updating and allocating objects along the way.  Every method here is
 * proved to agree with the function of the same name in `CompileSpec`,
 * applied to the values the objects hold.
 */
module Compiler {
  import opened Nfas
  import opened Builders
  import opened Validator
  import Spec = CompileSpec

  /** Position by position, the objects `objs` hold the values `vals`. */
  ghost predicate Holds(objs: seq<Nfa>, vals: seq<Automaton>)
    reads objs
  {
    |objs| == |vals| && forall i | 0 <= i < |objs| :: objs[i].Value() == vals[i]
  }

  /** No object occurs twice in the list. */
  ghost predicate Distinct(objs: seq<Nfa>)
  {
    forall i, j | 0 <= i < j < |objs| :: objs[i] != objs[j]
  }

  /** The two lists share no object. */
  ghost predicate Disjoint(s: seq<Nfa>, t: seq<Nfa>)
  {
    forall i, j | 0 <= i < |s| && 0 <= j < |t| :: s[i] != t[j]
  }

  /** An operand list: distinct objects that hold `vals`. */
  ghost predicate Represents(objs: seq<Nfa>, vals: seq<Automaton>)
    reads objs
  {
    Distinct(objs) && Holds(objs, vals)
  }

  /** A result of the stack operations: the operator and operand lists. */
  type Lists = (seq<char>, seq<Nfa>)

  /** The result `r` of a stack operation is the one the specification gives. */
  ghost predicate Mirrors(r: Spec.Result<Lists>, spec: Spec.Result<Spec.Stacks>)
    reads if r.Ok? then r.value.1 else []
  {
    match r
    case Ok((ops, objs)) =>
      spec.Ok? && spec.value.operators == ops && Represents(objs, spec.value.operands)
    case Err(e) => spec == Spec.Err(e)
  }

  lemma Pop(objs: seq<Nfa>, vals: seq<Automaton>)
    requires |objs| > 0 && Represents(objs, vals)
    ensures Represents(objs[..|objs| - 1], vals[..|vals| - 1])
    ensures objs[|objs| - 1] !in objs[..|objs| - 1]
    ensures objs[|objs| - 1].Value() == vals[|vals| - 1]
  {
  }

  lemma Push(objs: seq<Nfa>, vals: seq<Automaton>, x: Nfa)
    requires Represents(objs, vals) && x !in objs
    ensures Represents(objs + [x], vals + [x.Value()])
  {
  }

  /** Moving the top of `rest` onto `run` keeps both lists and their disjointness. */
  lemma Move(rest: seq<Nfa>, restVals: seq<Automaton>, run: seq<Nfa>, runVals: seq<Automaton>)
    requires |rest| > 0 && Represents(rest, restVals) && Represents(run, runVals) && Disjoint(rest, run)
    ensures Represents(rest[..|rest| - 1], restVals[..|rest| - 1])
    ensures Represents(run + [rest[|rest| - 1]], runVals + [restVals[|rest| - 1]])
    ensures Disjoint(rest[..|rest| - 1], run + [rest[|rest| - 1]])
  {
  }

  /** A popped '.' (source lines 144-147 and 176-179). */
  method ApplyConcat(operators: seq<char>, operands: seq<Nfa>, ghost vals: seq<Automaton>)
    returns (r: Spec.Result<Lists>)
    requires Represents(operands, vals)
    modifies operands
    ensures Mirrors(r, Spec.ApplyConcat(Spec.Stacks(operators, vals)))
    ensures r.Ok? ==> forall i | 0 <= i < |r.value.1| :: r.value.1[i] in operands || fresh(r.value.1[i])
  {
    if |operands| == 0 {
      return Spec.Err(Spec.EmptyPop);
    }
    var nfa2 := operands[|operands| - 1];
    var stack := operands[..|operands| - 1];
    Pop(operands, vals);
    if |stack| == 0 {
      return Spec.Err(Spec.EmptyPop);
    }
    var nfa1 := stack[|stack| - 1];
    ghost var below := vals[..|stack|];
    Pop(stack, below);
    stack := stack[..|stack| - 1];
    var joined, removed := Concat(nfa1, nfa2);
    if !removed {
      return Spec.Err(Spec.NoStartState);
    }
    Push(stack, below[..|stack|], joined);
    r := Spec.Ok((operators, stack + [joined]));
  }

  /**
   * The collecting loop of a popped '|' (source lines 151-154 and 183-186):
   * while a '.' is exposed, move the top operand onto `run`, the source's
   * `concat_stack`, and pop the '.'.  No object is changed.
   */
  method CollectRun(operators: seq<char>, operands: seq<Nfa>, run: seq<Nfa>,
                    ghost vals: seq<Automaton>, ghost runVals: seq<Automaton>)
    returns (r: Spec.Result<(seq<char>, seq<Nfa>, seq<Nfa>)>)
    requires Represents(operands, vals) && Represents(run, runVals) && Disjoint(operands, run)
    ensures var spec := Spec.CollectRun(Spec.Stacks(operators, vals), runVals);
      match r
      case Ok((ops, rest, run')) =>
        && spec.Ok? && spec.value.0.operators == ops
        && Represents(rest, spec.value.0.operands) && Represents(run', spec.value.1)
        && Disjoint(rest, run')
      case Err(e) => spec == Spec.Err(e)
    ensures r.Ok? ==> r.value.1 <= operands
    ensures r.Ok? ==> forall i | 0 <= i < |r.value.2| :: r.value.2[i] in run || r.value.2[i] in operands
  {
    var ops, rest, stack := operators, operands, run;
    ghost var restVals, stackVals := vals, runVals;
    while Spec.DotOnTop(ops)
      invariant Represents(rest, restVals) && Represents(stack, stackVals) && Disjoint(rest, stack)
      invariant rest <= operands
      invariant forall i | 0 <= i < |stack| :: stack[i] in run || stack[i] in operands
      invariant Spec.CollectRun(Spec.Stacks(ops, restVals), stackVals)
             == Spec.CollectRun(Spec.Stacks(operators, vals), runVals)
      decreases |ops|
    {
      if |rest| == 0 {
        return Spec.Err(Spec.EmptyPop);
      }
      var x := rest[|rest| - 1];
      Move(rest, restVals, stack, stackVals);
      assert x == operands[|rest| - 1];
      rest, stack := rest[..|rest| - 1], stack + [x];
      restVals, stackVals := restVals[..|restVals| - 1], stackVals + [restVals[|restVals| - 1]];
      ops := ops[..|ops| - 1];
    }
    r := Spec.Ok((ops, rest, stack));
  }

  /**
   * The loop `while concat_stack: nfa1 = concat(nfa1, concat_stack.pop())`
   * (source lines 157-158 and 188-189): `acc` is updated in place by every
   * `concat` and returned.
   */
  method FoldFrom(acc: Nfa, pending: seq<Nfa>, ghost vals: seq<Automaton>) returns (r: Spec.Result<Nfa>)
    requires Represents(pending, vals) && acc !in pending
    modifies acc, pending
    ensures match r
      case Ok(o) => o == acc && Spec.FoldFrom(old(acc.Value()), vals) == Spec.Ok(acc.Value())
      case Err(e) => Spec.FoldFrom(old(acc.Value()), vals) == Spec.Err(e)
  {
    var stack := pending;
    ghost var stackVals := vals;
    while |stack| > 0
      invariant Represents(stack, stackVals) && acc !in stack && stack <= pending
      invariant Spec.FoldFrom(acc.Value(), stackVals) == Spec.FoldFrom(old(acc.Value()), vals)
      decreases |stack|
    {
      var x := stack[|stack| - 1];
      assert x == pending[|stack| - 1];
      Pop(stack, stackVals);
      stack := stack[..|stack| - 1];
      stackVals := stackVals[..|stack|];
      var joined, removed := Concat(acc, x);
      if !removed {
        return Spec.Err(Spec.NoStartState);
      }
    }
    r := Spec.Ok(acc);
  }

  /**
   * `concat(concat_stack.pop(), concat_stack.pop())` and then the loop
   * above (source lines 155-158 and 187-189).  The object popped first, the
   * leftmost operand, is updated in place and returned.
   */
  method FoldRun(run: seq<Nfa>, ghost vals: seq<Automaton>) returns (r: Spec.Result<Nfa>)
    requires |run| >= 2 && Represents(run, vals)
    modifies run
    ensures match r
      case Ok(o) => o == run[|run| - 1] && Spec.FoldRun(vals) == Spec.Ok(o.Value())
      case Err(e) => Spec.FoldRun(vals) == Spec.Err(e)
  {
    var first := run[|run| - 1];
    var stack := run[..|run| - 1];
    Pop(run, vals);
    var second := stack[|stack| - 1];
    Pop(stack, vals[..|stack|]);
    stack := stack[..|stack| - 1];
    assert first !in stack;
    var joined, removed := Concat(first, second);
    if !removed {
      return Spec.Err(Spec.NoStartState);
    }
    r := FoldFrom(first, stack, vals[..|stack|]);
  }

  /**
   * The left operand of a popped '|' (source lines 150-160 and 182-191):
   * the fold of the exposed '.' run, or else the top operand.
   */
  method UnionLeft(operators: seq<char>, operands: seq<Nfa>, ghost vals: seq<Automaton>)
    returns (r: Spec.Result<(seq<char>, seq<Nfa>, Nfa)>)
    requires Represents(operands, vals)
    modifies operands
    ensures var spec := Spec.UnionLeft(Spec.Stacks(operators, vals));
      match r
      case Ok((ops, rest, left)) =>
        && spec.Ok? && spec.value.0.operators == ops
        && Represents(rest, spec.value.0.operands) && left.Value() == spec.value.1
        && rest <= operands && left in operands && left !in rest
      case Err(e) => spec == Spec.Err(e)
  {
    if Spec.DotOnTop(operators) {
      if |operands| == 0 {
        return Spec.Err(Spec.EmptyPop);
      }
      var top := operands[|operands| - 1];
      Pop(operands, vals);
      var collected := CollectRun(operators, operands[..|operands| - 1], [top], vals[..|operands| - 1], [vals[|operands| - 1]]);
      if collected.Err? {
        return Spec.Err(collected.error);
      }
      ghost var spec := Spec.CollectRun(Spec.Stacks(operators, vals[..|operands| - 1]), [vals[|operands| - 1]]).value;
      var ops, rest, run := collected.value.0, collected.value.1, collected.value.2;
      var folded := FoldRun(run, spec.1);
      if folded.Err? {
        return Spec.Err(folded.error);
      }
      r := Spec.Ok((ops, rest, folded.value));
    } else {
      if |operands| == 0 {
        return Spec.Err(Spec.EmptyPop);
      }
      Pop(operands, vals);
      r := Spec.Ok((operators, operands[..|operands| - 1], operands[|operands| - 1]));
    }
  }

  /** A popped '|' (source lines 149-161 and 181-192). */
  method ApplyUnion(operators: seq<char>, operands: seq<Nfa>, ghost vals: seq<Automaton>)
    returns (r: Spec.Result<Lists>)
    requires Represents(operands, vals)
    modifies operands
    ensures Mirrors(r, Spec.ApplyUnion(Spec.Stacks(operators, vals)))
    ensures r.Ok? ==> forall i | 0 <= i < |r.value.1| :: r.value.1[i] in operands || fresh(r.value.1[i])
  {
    if |operands| == 0 {
      return Spec.Err(Spec.EmptyPop);
    }
    var nfa2 := operands[|operands| - 1];
    Pop(operands, vals);
    var left := UnionLeft(operators, operands[..|operands| - 1], vals[..|operands| - 1]);
    if left.Err? {
      return Spec.Err(left.error);
    }
    ghost var spec := Spec.UnionLeft(Spec.Stacks(operators, vals[..|operands| - 1])).value;
    var ops, stack, nfa1 := left.value.0, left.value.1, left.value.2;
    var joined := Union(nfa1, nfa2);
    Push(stack, spec.0.operands, joined);
    r := Spec.Ok((ops, stack + [joined]));
  }

  /** Apply an operator already popped from the operator list (source lines 144-161). */
  method Reduce(op: char, operators: seq<char>, operands: seq<Nfa>, ghost vals: seq<Automaton>)
    returns (r: Spec.Result<Lists>)
    requires Represents(operands, vals)
    modifies operands
    ensures Mirrors(r, Spec.Reduce(Spec.Stacks(operators, vals), op))
    ensures r.Ok? ==> forall i | 0 <= i < |r.value.1| :: r.value.1[i] in operands || fresh(r.value.1[i])
  {
    if op == '.' {
      r := ApplyConcat(operators, operands, vals);
    } else if op == '|' {
      r := ApplyUnion(operators, operands, vals);
    } else {
      r := Spec.Ok((operators, operands));
    }
  }

  /**
   * The drain of a ')' (source lines 142-161): reduce until the operator
   * list is empty or shows '(', which stays where it is.
   */
  method DrainToParen(operators: seq<char>, operands: seq<Nfa>, ghost vals: seq<Automaton>)
    returns (r: Spec.Result<Lists>)
    requires Represents(operands, vals)
    modifies operands
    ensures Mirrors(r, Spec.DrainToParen(Spec.Stacks(operators, vals)))
    ensures r.Ok? ==> forall i | 0 <= i < |r.value.1| :: r.value.1[i] in operands || fresh(r.value.1[i])
  {
    var ops, objs := operators, operands;
    ghost var objVals := vals;
    while |ops| > 0 && ops[|ops| - 1] != '('
      invariant Represents(objs, objVals)
      invariant forall i | 0 <= i < |objs| :: objs[i] in operands || fresh(objs[i])
      invariant Spec.DrainToParen(Spec.Stacks(ops, objVals)) == Spec.DrainToParen(Spec.Stacks(operators, vals))
      decreases |ops|
    {
      var op := ops[|ops| - 1];
      ops := ops[..|ops| - 1];
      ghost var spec := Spec.Reduce(Spec.Stacks(ops, objVals), op);
      var reduced := Reduce(op, ops, objs, objVals);
      if reduced.Err? {
        return Spec.Err(reduced.error);
      }
      ops, objs := reduced.value.0, reduced.value.1;
      objVals := spec.value.operands;
    }
    r := Spec.Ok((ops, objs));
  }

  /**
   * The final `while len(operators) > 0` loop (source lines 171-192): an
   * empty operand list while operators remain is the imbalance error.
   */
  method FinalDrain(operators: seq<char>, operands: seq<Nfa>, ghost vals: seq<Automaton>)
    returns (r: Spec.Result<Lists>)
    requires Represents(operands, vals)
    modifies operands
    ensures Mirrors(r, Spec.FinalDrain(Spec.Stacks(operators, vals)))
  {
    var ops, objs := operators, operands;
    ghost var objVals := vals;
    while |ops| > 0
      invariant Represents(objs, objVals)
      invariant forall i | 0 <= i < |objs| :: objs[i] in operands || fresh(objs[i])
      invariant Spec.FinalDrain(Spec.Stacks(ops, objVals)) == Spec.FinalDrain(Spec.Stacks(operators, vals))
      decreases |ops|
    {
      if |objs| == 0 {
        return Spec.Err(Spec.OperandImbalance);
      }
      var op := ops[|ops| - 1];
      ops := ops[..|ops| - 1];
      ghost var spec := Spec.Reduce(Spec.Stacks(ops, objVals), op);
      var reduced := Reduce(op, ops, objs, objVals);
      if reduced.Err? {
        return Spec.Err(reduced.error);
      }
      ops, objs := reduced.value.0, reduced.value.1;
      objVals := spec.value.operands;
    }
    r := Spec.Ok((ops, objs));
  }

  /** The scan state the loop of `compile` keeps in its local variables. */
  datatype Scanner = Scanner(operators: seq<char>, operands: seq<Nfa>, concatFlag: bool, paraCount: nat)

  /** The scan state `sc` is the machine `m` of the specification. */
  ghost predicate MirrorsMachine(sc: Scanner, m: Spec.Machine)
    reads sc.operands
  {
    && sc.operators == m.stacks.operators && Represents(sc.operands, m.stacks.operands)
    && sc.concatFlag == m.concatFlag && sc.paraCount == m.paraCount
  }

  /** The body of the `for c in regex` loop (source lines 128-170). */
  method Step(sc: Scanner, c: char, ghost m: Spec.Machine) returns (r: Spec.Result<Scanner>)
    requires MirrorsMachine(sc, m)
    modifies sc.operands
    ensures match r
      case Ok(sc') =>
        && Spec.Step(m, c).Ok? && MirrorsMachine(sc', Spec.Step(m, c).value)
        && forall i | 0 <= i < |sc'.operands| :: sc'.operands[i] in sc.operands || fresh(sc'.operands[i])
      case Err(e) => Spec.Step(m, c) == Spec.Err(e)
  {
    var operators, operands, concatFlag, paraCount := sc.operators, sc.operands, sc.concatFlag, sc.paraCount;
    if Alphabet(c) {
      var literal := new Nfa.Literal(c);
      Push(operands, m.stacks.operands, literal);
      operands := operands + [literal];
      if concatFlag {
        operators := operators + ['.'];
      } else {
        concatFlag := true;
      }
    } else if c == ')' {
      concatFlag := false;
      if paraCount == 0 {
        return Spec.Err(Spec.UnmatchedBracket);
      }
      paraCount := paraCount - 1;
      var drained := DrainToParen(operators, operands, m.stacks.operands);
      if drained.Err? {
        return Spec.Err(drained.error);
      }
      operators, operands := drained.value.0, drained.value.1;
    } else if c == '*' {
      if |operands| == 0 {
        return Spec.Err(Spec.EmptyPop);
      }
      var top := operands[|operands| - 1];
      Pop(operands, m.stacks.operands);
      operands := operands[..|operands| - 1];
      var starred := Kleene(top);
      Push(operands, m.stacks.operands[..|operands|], starred);
      operands := operands + [starred];
      concatFlag := true;
    } else if c == '(' {
      operators := operators + [c];
      paraCount := paraCount + 1;
    } else if c == '|' {
      operators := operators + [c];
      concatFlag := false;
    }
    r := Spec.Ok(Scanner(operators, operands, concatFlag, paraCount));
  }

  /**
   * `compile(regex)` (source lines 111-193): the epsilon literal for an
   * invalid input; otherwise the scan, the final drain and the top operand,
   * with every early stop of the source returned as an error.
   */
  method Compile(regex: string) returns (r: Spec.Result<Nfa>)
    ensures match r
      case Ok(n) => Spec.Compile(regex) == Spec.Ok(n.Value())
      case Err(e) => Spec.Compile(regex) == Spec.Err(e)
  {
    if !ValidRegex(regex) {
      var n := new Nfa.Literal(Epsilon);
      return Spec.Ok(n);
    }
    var sc := Scanner([], [], false, 0);
    ghost var m := Spec.Start;
    for i := 0 to |regex|
      invariant MirrorsMachine(sc, m)
      invariant forall j | 0 <= j < |sc.operands| :: fresh(sc.operands[j])
      invariant Spec.Scan(m, regex[i..]) == Spec.Scan(Spec.Start, regex)
    {
      assert regex[i..][1..] == regex[i + 1..];
      var next := Step(sc, regex[i], m);
      if next.Err? {
        return Spec.Err(next.error);
      }
      m := Spec.Step(m, regex[i]).value;
      sc := next.value;
    }
    assert regex[|regex|..] == [];
    var drained := FinalDrain(sc.operators, sc.operands, m.stacks.operands);
    if drained.Err? {
      return Spec.Err(drained.error);
    }
    var operands := drained.value.1;
    if |operands| == 0 {
      return Spec.Err(Spec.EmptyPop);
    }
    r := Spec.Ok(operands[|operands| - 1]);
  }
}
