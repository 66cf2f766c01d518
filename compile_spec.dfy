/**
 * What `compile` computes, written as functions over `Automaton` values.
 *
 * The scan keeps the source's state: the operator stack, the operand stack,
 * `concat_flag` and `para_count`.  Each function below is one piece of the
 * source's loop body.  Every way the source can stop early becomes an `Err`
 * result: the two `exit(1)` calls, an `IndexError` on a pop from an empty
 * list, and a `ValueError` from `m.states.remove(0)` inside `concat`.  The
 * `Compiler` module runs the same algorithm on `Nfa` objects and is proved
 * to agree with these functions.
 */
module CompileSpec {
  import opened Nfas
  import opened Builders
  import opened Validator

  /** Why a compilation stopped. */
  datatype CompileError =
    | UnmatchedBracket   // `exit(1)` on a ')' with no open group
    | OperandImbalance   // `exit(1)` when the final drain finds no operand
    | EmptyPop           // `IndexError`: a pop from an empty list
    | NoStartState       // `ValueError`: `concat` finds no state 0 to remove

  datatype Result<T> = Ok(value: T) | Err(error: CompileError)

  /** The `operators` and `operands` lists; the top is the last element. */
  datatype Stacks = Stacks(operators: seq<char>, operands: seq<Automaton>)

  /** The whole state of the scan. */
  datatype Machine = Machine(stacks: Stacks, concatFlag: bool, paraCount: nat)

  /** The state before the first character. */
  const Start: Machine := Machine(Stacks([], []), false, 0)

  function Last<T>(s: seq<T>): T
    requires |s| > 0
  {
    s[|s| - 1]
  }

  function Init<T>(s: seq<T>): seq<T>
    requires |s| > 0
  {
    s[..|s| - 1]
  }

  /** The '.' operator is exposed on top of the operator stack. */
  predicate DotOnTop(ops: seq<char>)
  {
    |ops| > 0 && Last(ops) == '.'
  }

  /** One call `concat(left, right)`, failing where `m.states.remove(0)` raises. */
  function ConcatStep(left: Automaton, right: Automaton): Result<Automaton>
  {
    if 0 in right.states then Ok(ConcatOf(left, right)) else Err(NoStartState)
  }

  /** A popped '.': pop the right operand, then the left, push their concat. */
  function ApplyConcat(s: Stacks): Result<Stacks>
  {
    if |s.operands| == 0 then Err(EmptyPop)
    else
      var right, below := Last(s.operands), Init(s.operands);
      if |below| == 0 then Err(EmptyPop)
      else
        match ConcatStep(Last(below), right)
        case Err(e) => Err(e)
        case Ok(joined) => Ok(Stacks(s.operators, Init(below) + [joined]))
  }

  /**
   * The collecting loop of a popped '|': while a '.' is exposed, move the
   * top operand onto `run` (the source's `concat_stack`) and pop the '.'.
   */
  function CollectRun(s: Stacks, run: seq<Automaton>): (r: Result<(Stacks, seq<Automaton>)>)
    ensures r.Ok? ==> !DotOnTop(r.value.0.operators) && |r.value.0.operators| <= |s.operators|
    ensures r.Ok? ==> run <= r.value.1 && (DotOnTop(s.operators) ==> |r.value.1| > |run|)
    decreases |s.operators|
  {
    if DotOnTop(s.operators) then
      if |s.operands| == 0 then Err(EmptyPop)
      else CollectRun(Stacks(Init(s.operators), Init(s.operands)), run + [Last(s.operands)])
    else Ok((s, run))
  }

  /** The loop `while concat_stack: nfa1 = concat(nfa1, concat_stack.pop())`. */
  function FoldFrom(acc: Automaton, rest: seq<Automaton>): Result<Automaton>
    decreases |rest|
  {
    if |rest| == 0 then Ok(acc)
    else
      match ConcatStep(acc, Last(rest))
      case Err(e) => Err(e)
      case Ok(joined) => FoldFrom(joined, Init(rest))
  }

  /** `concat(concat_stack.pop(), concat_stack.pop())`, then the loop above. */
  function FoldRun(run: seq<Automaton>): Result<Automaton>
    requires |run| >= 2
  {
    match ConcatStep(Last(run), run[|run| - 2])
    case Err(e) => Err(e)
    case Ok(joined) => FoldFrom(joined, run[..|run| - 2])
  }

  /**
   * The left operand of a popped '|', once the right one is off the stack:
   * if a '.' is exposed, the fold of the whole '.' run, else the top operand.
   */
  function UnionLeft(s: Stacks): (r: Result<(Stacks, Automaton)>)
    ensures r.Ok? ==> |r.value.0.operators| <= |s.operators|
  {
    if DotOnTop(s.operators) then
      if |s.operands| == 0 then Err(EmptyPop)
      else
        match CollectRun(Stacks(s.operators, Init(s.operands)), [Last(s.operands)])
        case Err(e) => Err(e)
        case Ok((t, run)) =>
          match FoldRun(run)
          case Err(e) => Err(e)
          case Ok(left) => Ok((t, left))
    else if |s.operands| == 0 then Err(EmptyPop)
    else Ok((Stacks(s.operators, Init(s.operands)), Last(s.operands)))
  }

  /** A popped '|': pop the right operand, then the left one, push their union. */
  function ApplyUnion(s: Stacks): (r: Result<Stacks>)
    ensures r.Ok? ==> |r.value.operators| <= |s.operators|
  {
    if |s.operands| == 0 then Err(EmptyPop)
    else
      match UnionLeft(Stacks(s.operators, Init(s.operands)))
      case Err(e) => Err(e)
      case Ok((t, left)) => Ok(Stacks(t.operators, t.operands + [UnionOf(left, Last(s.operands))]))
  }

  /** Apply an operator already popped from the operator stack. */
  function Reduce(s: Stacks, op: char): (r: Result<Stacks>)
    ensures r.Ok? ==> |r.value.operators| <= |s.operators|
  {
    if op == '.' then ApplyConcat(s)
    else if op == '|' then ApplyUnion(s)
    else Ok(s)
  }

  /** The drain of a ')': reduce until the stack is empty or shows '('. */
  function DrainToParen(s: Stacks): Result<Stacks>
    decreases |s.operators|
  {
    if |s.operators| > 0 && Last(s.operators) != '(' then
      var popped := Stacks(Init(s.operators), s.operands);
      match Reduce(popped, Last(s.operators))
      case Err(e) => Err(e)
      case Ok(t) => DrainToParen(t)
    else Ok(s)
  }

  /** The body of the `for c in regex` loop. */
  function Step(m: Machine, c: char): Result<Machine>
  {
    var s := m.stacks;
    if Alphabet(c) then
      var ops := if m.concatFlag then s.operators + ['.'] else s.operators;
      Ok(Machine(Stacks(ops, s.operands + [LiteralOf(c)]), true, m.paraCount))
    else if c == ')' then
      if m.paraCount == 0 then Err(UnmatchedBracket)
      else
        match DrainToParen(s)
        case Err(e) => Err(e)
        case Ok(t) => Ok(Machine(t, false, m.paraCount - 1))
    else if c == '*' then
      if |s.operands| == 0 then Err(EmptyPop)
      else Ok(Machine(Stacks(s.operators, Init(s.operands) + [KleeneOf(Last(s.operands))]), true, m.paraCount))
    else if c == '(' then
      Ok(Machine(Stacks(s.operators + ['('], s.operands), m.concatFlag, m.paraCount + 1))
    else if c == '|' then
      Ok(Machine(Stacks(s.operators + ['|'], s.operands), false, m.paraCount))
    else
      Ok(m)
  }

  /** The `for c in regex` loop: stops at the first error. */
  function Scan(m: Machine, cs: string): Result<Machine>
    decreases |cs|
  {
    if |cs| == 0 then Ok(m)
    else
      match Step(m, cs[0])
      case Err(e) => Err(e)
      case Ok(m') => Scan(m', cs[1..])
  }

  /** The final `while len(operators) > 0` loop. */
  function FinalDrain(s: Stacks): Result<Stacks>
    decreases |s.operators|
  {
    if |s.operators| == 0 then Ok(s)
    else if |s.operands| == 0 then Err(OperandImbalance)
    else
      var popped := Stacks(Init(s.operators), s.operands);
      match Reduce(popped, Last(s.operators))
      case Err(e) => Err(e)
      case Ok(t) => FinalDrain(t)
  }

  /**
   * `compile(regex)`: the epsilon literal for an invalid input, otherwise
   * the scan, the final drain, and the top operand.
   */
  function Compile(regex: string): Result<Automaton>
  {
    if !ValidRegex(regex) then Ok(LiteralOf(Epsilon))
    else
      match Scan(Start, regex)
      case Err(e) => Err(e)
      case Ok(m) =>
        match FinalDrain(m.stacks)
        case Err(e) => Err(e)
        case Ok(t) => if |t.operands| == 0 then Err(EmptyPop) else Ok(Last(t.operands))
  }
}
