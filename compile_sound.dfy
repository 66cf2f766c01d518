/**
 * The structural invariant through the whole of `compile`: every operand
 * the scan ever holds is well formed, so the `ValueError` of
 * `m.states.remove(0)` never happens, and every automaton `compile`
 * returns keeps the endpoint invariant.
 */
module CompileSound {
  import opened Nfas
  import opened Builders
  import opened CompileSpec

  /** Every automaton on the operand stack keeps the structural invariant. */
  ghost predicate AllWellFormed(vals: seq<Automaton>)
  {
    forall i | 0 <= i < |vals| :: WellFormed(vals[i])
  }

  /** A stack result holds only well-formed operands, and is not a `ValueError`. */
  ghost predicate Sound(r: Result<Stacks>)
  {
    match r
    case Ok(s) => AllWellFormed(s.operands)
    case Err(e) => e != NoStartState
  }

  lemma ConcatStepSound(a: Automaton, b: Automaton)
    requires WellFormed(a) && WellFormed(b)
    ensures ConcatStep(a, b) == Ok(ConcatOf(a, b)) && WellFormed(ConcatOf(a, b))
  {
    ConcatWellFormed(a, b);
  }

  lemma ApplyConcatSound(s: Stacks)
    requires AllWellFormed(s.operands)
    ensures Sound(ApplyConcat(s))
  {
    var n := |s.operands|;
    if n >= 2 {
      ConcatStepSound(s.operands[n - 2], s.operands[n - 1]);
      assert Init(Init(s.operands)) == s.operands[..n - 2];
    }
  }

  lemma {:induction false} CollectRunSound(s: Stacks, run: seq<Automaton>)
    requires AllWellFormed(s.operands) && AllWellFormed(run)
    ensures match CollectRun(s, run)
      case Ok((t, run')) => AllWellFormed(t.operands) && AllWellFormed(run')
      case Err(e) => e == EmptyPop
    decreases |s.operators|
  {
    if DotOnTop(s.operators) && |s.operands| > 0 {
      CollectRunSound(Stacks(Init(s.operators), Init(s.operands)), run + [Last(s.operands)]);
    }
  }

  /** Over well-formed operands the fold never fails. */
  lemma {:induction false} FoldFromSound(acc: Automaton, rest: seq<Automaton>)
    requires WellFormed(acc) && AllWellFormed(rest)
    ensures FoldFrom(acc, rest).Ok? && WellFormed(FoldFrom(acc, rest).value)
    decreases |rest|
  {
    if |rest| > 0 {
      ConcatStepSound(acc, Last(rest));
      FoldFromSound(ConcatOf(acc, Last(rest)), Init(rest));
    }
  }

  lemma FoldRunSound(run: seq<Automaton>)
    requires |run| >= 2 && AllWellFormed(run)
    ensures FoldRun(run).Ok? && WellFormed(FoldRun(run).value)
  {
    ConcatStepSound(Last(run), run[|run| - 2]);
    FoldFromSound(ConcatOf(Last(run), run[|run| - 2]), run[..|run| - 2]);
  }

  lemma UnionLeftSound(s: Stacks)
    requires AllWellFormed(s.operands)
    ensures match UnionLeft(s)
      case Ok((t, left)) => AllWellFormed(t.operands) && WellFormed(left)
      case Err(e) => e == EmptyPop
  {
    if DotOnTop(s.operators) && |s.operands| > 0 {
      var t := Stacks(s.operators, Init(s.operands));
      CollectRunSound(t, [Last(s.operands)]);
      var collected := CollectRun(t, [Last(s.operands)]);
      if collected.Ok? {
        FoldRunSound(collected.value.1);
      }
    }
  }

  lemma ApplyUnionSound(s: Stacks)
    requires AllWellFormed(s.operands)
    ensures Sound(ApplyUnion(s))
  {
    if |s.operands| > 0 {
      var t := Stacks(s.operators, Init(s.operands));
      UnionLeftSound(t);
      var left := UnionLeft(t);
      if left.Ok? {
        UnionWellFormed(left.value.1, Last(s.operands));
      }
    }
  }

  lemma ReduceSound(s: Stacks, op: char)
    requires AllWellFormed(s.operands)
    ensures Sound(Reduce(s, op))
  {
    if op == '.' {
      ApplyConcatSound(s);
    } else if op == '|' {
      ApplyUnionSound(s);
    }
  }

  lemma {:induction false} DrainToParenSound(s: Stacks)
    requires AllWellFormed(s.operands)
    ensures Sound(DrainToParen(s))
    decreases |s.operators|
  {
    if |s.operators| > 0 && Last(s.operators) != '(' {
      var popped := Stacks(Init(s.operators), s.operands);
      ReduceSound(popped, Last(s.operators));
      var reduced := Reduce(popped, Last(s.operators));
      if reduced.Ok? {
        DrainToParenSound(reduced.value);
      }
    }
  }

  lemma {:induction false} FinalDrainSound(s: Stacks)
    requires AllWellFormed(s.operands)
    ensures Sound(FinalDrain(s))
    decreases |s.operators|
  {
    if |s.operators| > 0 && |s.operands| > 0 {
      var popped := Stacks(Init(s.operators), s.operands);
      ReduceSound(popped, Last(s.operators));
      var reduced := Reduce(popped, Last(s.operators));
      if reduced.Ok? {
        FinalDrainSound(reduced.value);
      }
    }
  }

  lemma StepSound(m: Machine, c: char)
    requires AllWellFormed(m.stacks.operands)
    ensures match Step(m, c)
      case Ok(m') => AllWellFormed(m'.stacks.operands)
      case Err(e) => e != NoStartState
  {
    var s := m.stacks;
    if Validator.Alphabet(c) {
      LiteralShape(c);
    } else if c == ')' {
      DrainToParenSound(s);
    } else if c == '*' && |s.operands| > 0 {
      KleeneWellFormed(Last(s.operands));
    }
  }

  lemma {:induction false} ScanSound(m: Machine, cs: string)
    requires AllWellFormed(m.stacks.operands)
    ensures match Scan(m, cs)
      case Ok(m') => AllWellFormed(m'.stacks.operands)
      case Err(e) => e != NoStartState
    decreases |cs|
  {
    if |cs| > 0 {
      StepSound(m, cs[0]);
      var next := Step(m, cs[0]);
      if next.Ok? {
        ScanSound(next.value, cs[1..]);
      }
    }
  }

  /**
   * Every automaton `compile` returns keeps the endpoint invariant (at
   * least two states, state 0 present, every endpoint below the number of
   * states), and `compile` never stops on the `ValueError` of `concat`.
   */
  lemma CompileSound(regex: string)
    ensures match Compile(regex)
      case Ok(a) => WellFormed(a)
      case Err(e) => e != NoStartState
  {
    if !Validator.ValidRegex(regex) {
      LiteralShape(Epsilon);
    } else {
      ScanSound(Start, regex);
      var scanned := Scan(Start, regex);
      if scanned.Ok? {
        FinalDrainSound(scanned.value.stacks);
      }
    }
  }
}
