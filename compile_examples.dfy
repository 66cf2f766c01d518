/**
 * `compile` on small inputs: what the source returns for a literal, a
 * star, a concatenation, the two ways a union meets a concatenation, a
 * parenthesised group, and inputs that make it stop.  Each proof walks
 * the scan one character at a time.
 */
module CompileExamples {
  import opened Nfas
  import opened Builders
  import opened Validator
  import opened CompileSpec
  import opened CompileLaws

  /** The scan state `r` is `Ok`, with exactly these parts. */
  predicate Reaches(r: Result<Machine>, ops: seq<char>, vals: seq<Automaton>, flag: bool, count: nat)
  {
    && r.Ok? && r.value.stacks.operators == ops && r.value.stacks.operands == vals
    && r.value.concatFlag == flag && r.value.paraCount == count
  }

  /** The stacks `r` are `Ok`, with exactly these lists. */
  predicate Leaves(r: Result<Stacks>, ops: seq<char>, vals: seq<Automaton>)
  {
    r.Ok? && r.value.operators == ops && r.value.operands == vals
  }

  /** The final drain of one '.' over two operands is their concat. */
  lemma DrainConcat(x: Automaton, y: Automaton)
    requires 0 in y.states
    ensures FinalDrain(Stacks(['.'], [x, y])) == Ok(Stacks([], [ConcatOf(x, y)]))
  {
    var d := Reduce(Stacks([], [x, y]), '.');
    assert Leaves(d, [], [ConcatOf(x, y)]);
  }

  /** The final drain of '.' below '|' folds the two lower operands, then joins the top. */
  lemma DrainConcatThenUnion(x: Automaton, y: Automaton, z: Automaton)
    requires 0 in y.states
    ensures FinalDrain(Stacks(['.', '|'], [x, y, z])) == Ok(Stacks([], [UnionOf(ConcatOf(x, y), z)]))
  {
    var xy := ConcatOf(x, y);
    assert ConcatChain(x, [y]) == Ok(xy) by {
      assert [y][1..] == [];
    }
    var popped := Stacks(['.'], [x, y, z]);
    assert popped == Stacks([] + Dots(1), [] + [x, y] + [z]);
    UnionFoldsRun([], 1, [], [x, y], z);
    var d := Reduce(popped, '|');
    assert Leaves(d, [], [UnionOf(xy, z)]);
    assert FinalDrain(Stacks(['.', '|'], [x, y, z])) == FinalDrain(d.value);
  }

  /** The final drain of '.' above '|' concatenates the top two, then joins the bottom. */
  lemma DrainUnionThenConcat(x: Automaton, y: Automaton, z: Automaton)
    requires 0 in z.states
    ensures FinalDrain(Stacks(['|', '.'], [x, y, z])) == Ok(Stacks([], [UnionOf(x, ConcatOf(y, z))]))
  {
    var yz := ConcatOf(y, z);
    ConcatOfTopTwo(['|'], [x], y, z);
    assert [x] + [y, z] == [x, y, z] && [x] + [yz] == [x, yz];
    UnionOfTopTwo([], [], x, yz);
    assert [] + [x, yz] == [x, yz] && [] + [UnionOf(x, yz)] == [UnionOf(x, yz)];
    assert Reduce(Stacks([], [x, yz]), '|') == Ok(Stacks([], [UnionOf(x, yz)]));
    assert FinalDrain(Stacks([], [UnionOf(x, yz)])) == Ok(Stacks([], [UnionOf(x, yz)]));
    assert FinalDrain(Stacks(['|'], [x, yz])) == Ok(Stacks([], [UnionOf(x, yz)]));
  }

  /** A single symbol compiles to its literal automaton. */
  lemma CompileSymbol(c: char)
    requires Alphabet(c)
    ensures Compile([c]) == Ok(LiteralOf(c))
  {
    var m1 := Step(Start, c);
    assert Reaches(m1, [], [LiteralOf(c)], true, 0);
    assert [c][1..] == [];
    assert ValidRegex([c]);
    assert Scan(Start, [c]) == m1;
    assert FinalDrain(m1.value.stacks) == Ok(m1.value.stacks);
  }

  /** An invalid input, the empty string among them, gives the epsilon literal. */
  lemma CompileInvalid(regex: string)
    requires !ValidRegex(regex)
    ensures Compile(regex) == Ok(LiteralOf(Epsilon))
    ensures Compile("") == Ok(LiteralOf(Epsilon)) && Compile("a+") == Ok(LiteralOf(Epsilon))
  {
    assert !RegexChar('+');
  }

  /** "a*": four states and five transitions, four of them epsilon edges. */
  lemma CompileStar()
    ensures Compile("a*") == Ok(KleeneOf(LiteralOf('a')))
    ensures |KleeneOf(LiteralOf('a')).states| == 4 && |KleeneOf(LiteralOf('a')).transitions| == 5
    ensures CountSymbol(KleeneOf(LiteralOf('a')).transitions, Epsilon) == 4
  {
    var a := LiteralOf('a');
    var r1 := Step(Start, 'a');
    assert Reaches(r1, [], [a], true, 0);
    var r2 := Step(r1.value, '*');
    assert Reaches(r2, [], [KleeneOf(a)], true, 0);
    assert "a*"[1..] == "*" && "*"[1..] == "";
    assert Scan(r1.value, "*") == r2;
    assert ValidRegex("a*");
    assert Scan(Start, "a*") == r2;
    assert FinalDrain(r2.value.stacks) == Ok(r2.value.stacks);
    KleeneCounts(a, Epsilon);
    CountSymbolSingle(Transition(0, 1, 'a'), Epsilon);
  }

  /** "ab": the two literals merged at state 1, with the state list [0, 1, 4]. */
  lemma CompileConcat()
    ensures Compile("ab") == Ok(ConcatOf(LiteralOf('a'), LiteralOf('b')))
    ensures ConcatOf(LiteralOf('a'), LiteralOf('b'))
         == Automaton([0, 1, 4], [Transition(0, 1, 'a'), Transition(1, 2, 'b')], 2)
  {
    var a, b := LiteralOf('a'), LiteralOf('b');
    var r1 := Step(Start, 'a');
    assert Reaches(r1, [], [a], true, 0);
    var r2 := Step(r1.value, 'b');
    assert Reaches(r2, ['.'], [a, b], true, 0);
    assert "ab"[1..] == "b" && "b"[1..] == "";
    assert Scan(r1.value, "b") == r2;
    assert ValidRegex("ab");
    assert Scan(Start, "ab") == r2;
    ConcatLiterals('a', 'b');
    LiteralShape('b');
    DrainConcat(a, b);
  }

  /**
   * "a|b": the union of the two literals.  Its only edge out of the start
   * state is (0,1,E); the right branch, which starts at state 3, has no
   * entry edge.
   */
  lemma CompileUnion()
    ensures Compile("a|b") == Ok(UnionOf(LiteralOf('a'), LiteralOf('b')))
    ensures UnionOf(LiteralOf('a'), LiteralOf('b')).transitions
         == [Transition(0, 1, 'E'), Transition(1, 2, 'a'), Transition(2, 5, 'E'),
             Transition(3, 4, 'b'), Transition(4, 5, 'E')]
    ensures UnionOf(LiteralOf('a'), LiteralOf('b')).finalState == 5
  {
    var a, b := LiteralOf('a'), LiteralOf('b');
    var r1 := Step(Start, 'a');
    assert Reaches(r1, [], [a], true, 0);
    var r2 := Step(r1.value, '|');
    assert Reaches(r2, ['|'], [a], false, 0);
    var r3 := Step(r2.value, 'b');
    assert Reaches(r3, ['|'], [a, b], true, 0);
    assert "a|b"[1..] == "|b" && "|b"[1..] == "b" && "b"[1..] == "";
    assert Scan(r2.value, "b") == r3;
    assert Scan(r1.value, "|b") == r3;
    assert ValidRegex("a|b");
    assert Scan(Start, "a|b") == r3;
    var left := UnionLeft(Stacks([], [a]));
    assert left == Ok((Stacks([], []), a));
    var d := ApplyUnion(Stacks([], [a, b]));
    assert Leaves(d, [], [UnionOf(a, b)]);
    assert FinalDrain(r3.value.stacks) == FinalDrain(d.value);
    LiteralShape('a');
    LiteralShape('b');
    assert Shift([Transition(0, 1, 'a')], 1) == [Transition(1, 2, 'a')];
    assert Shift([Transition(0, 1, 'b')], 3) == [Transition(3, 4, 'b')];
  }

  /** The scan of "ab|c" stacks '.' below '|' and all three literals. */
  lemma ScanConcatThenUnion()
    ensures Reaches(Scan(Start, "ab|c"), ['.', '|'], [LiteralOf('a'), LiteralOf('b'), LiteralOf('c')], true, 0)
  {
    var a, b, c := LiteralOf('a'), LiteralOf('b'), LiteralOf('c');
    var r1 := Step(Start, 'a');
    assert Reaches(r1, [], [a], true, 0);
    var r2 := Step(r1.value, 'b');
    assert Reaches(r2, ['.'], [a, b], true, 0);
    var r3 := Step(r2.value, '|');
    assert Reaches(r3, ['.', '|'], [a, b], false, 0);
    var r4 := Step(r3.value, 'c');
    assert Reaches(r4, ['.', '|'], [a, b, c], true, 0);
    assert "ab|c"[1..] == "b|c" && "b|c"[1..] == "|c" && "|c"[1..] == "c" && "c"[1..] == "";
    assert Scan(r3.value, "c") == r4;
    assert Scan(r2.value, "|c") == r4;
    assert Scan(r1.value, "b|c") == r4;
  }

  /** "ab|c": the '.' run on the left of the '|' is folded first, giving (ab)|c. */
  lemma CompileConcatThenUnion()
    ensures Compile("ab|c") == Ok(UnionOf(ConcatOf(LiteralOf('a'), LiteralOf('b')), LiteralOf('c')))
  {
    var a, b, c := LiteralOf('a'), LiteralOf('b'), LiteralOf('c');
    ScanConcatThenUnion();
    assert ValidRegex("ab|c");
    var scanned := Scan(Start, "ab|c").value.stacks;
    assert scanned == Stacks(['.', '|'], [a, b, c]);
    LiteralShape('b');
    DrainConcatThenUnion(a, b, c);
  }

  /** The scan of "a|bc" stacks '.' above '|' and all three literals. */
  lemma ScanUnionThenConcat()
    ensures Reaches(Scan(Start, "a|bc"), ['|', '.'], [LiteralOf('a'), LiteralOf('b'), LiteralOf('c')], true, 0)
  {
    var a, b, c := LiteralOf('a'), LiteralOf('b'), LiteralOf('c');
    var r1 := Step(Start, 'a');
    assert Reaches(r1, [], [a], true, 0);
    var r2 := Step(r1.value, '|');
    assert Reaches(r2, ['|'], [a], false, 0);
    var r3 := Step(r2.value, 'b');
    assert Reaches(r3, ['|'], [a, b], true, 0);
    var r4 := Step(r3.value, 'c');
    assert Reaches(r4, ['|', '.'], [a, b, c], true, 0);
    assert "a|bc"[1..] == "|bc" && "|bc"[1..] == "bc" && "bc"[1..] == "c" && "c"[1..] == "";
    assert Scan(r3.value, "c") == r4;
    assert Scan(r2.value, "bc") == r4;
    assert Scan(r1.value, "|bc") == r4;
  }

  /** "a|bc": the concatenation on the right is reduced first, giving a|(bc). */
  lemma CompileUnionThenConcat()
    ensures Compile("a|bc") == Ok(UnionOf(LiteralOf('a'), ConcatOf(LiteralOf('b'), LiteralOf('c'))))
  {
    var a, b, c := LiteralOf('a'), LiteralOf('b'), LiteralOf('c');
    ScanUnionThenConcat();
    assert ValidRegex("a|bc");
    var scanned := Scan(Start, "a|bc").value.stacks;
    assert scanned == Stacks(['|', '.'], [a, b, c]);
    LiteralShape('c');
    DrainUnionThenConcat(a, b, c);
  }

  /**
   * "(a)b": the ')' leaves its '(' on the stack and clears the flag, so no
   * '.' joins the two symbols; the final drain drops the '(' and `compile`
   * returns the top operand, the literal b, alone.
   */
  lemma CompileGroupThenSymbol()
    ensures Compile("(a)b") == Ok(LiteralOf('b'))
  {
    var a, b := LiteralOf('a'), LiteralOf('b');
    var r1 := Step(Start, '(');
    assert Reaches(r1, ['('], [], false, 1);
    var r2 := Step(r1.value, 'a');
    assert Reaches(r2, ['('], [a], true, 1);
    var r3 := Step(r2.value, ')');
    assert DrainToParen(Stacks(['('], [a])) == Ok(Stacks(['('], [a]));
    assert Reaches(r3, ['('], [a], false, 0);
    var r4 := Step(r3.value, 'b');
    assert Reaches(r4, ['('], [a, b], true, 0);
    assert "(a)b"[1..] == "a)b" && "a)b"[1..] == ")b" && ")b"[1..] == "b" && "b"[1..] == "";
    assert Scan(r3.value, "b") == r4;
    assert Scan(r2.value, ")b") == r4;
    assert Scan(r1.value, "a)b") == r4;
    assert ValidRegex("(a)b");
    assert Scan(Start, "(a)b") == r4;
    assert FinalDrain(r4.value.stacks) == FinalDrain(Stacks([], [a, b]));
  }

  /** "ab*": the concat of a literal and a star records final state 6 over only five states. */
  lemma CompileConcatStar()
    ensures 0 in KleeneOf(LiteralOf('b')).states
    ensures Compile("ab*") == Ok(ConcatOf(LiteralOf('a'), KleeneOf(LiteralOf('b'))))
    ensures |ConcatOf(LiteralOf('a'), KleeneOf(LiteralOf('b'))).states| == 5
    ensures ConcatOf(LiteralOf('a'), KleeneOf(LiteralOf('b'))).finalState == 6
  {
    var a, kb := LiteralOf('a'), KleeneOf(LiteralOf('b'));
    var r1 := Step(Start, 'a');
    assert Reaches(r1, [], [a], true, 0);
    var r2 := Step(r1.value, 'b');
    assert Reaches(r2, ['.'], [a, LiteralOf('b')], true, 0);
    var r3 := Step(r2.value, '*');
    assert Reaches(r3, ['.'], [a, kb], true, 0);
    assert "ab*"[1..] == "b*" && "b*"[1..] == "*" && "*"[1..] == "";
    assert Scan(r2.value, "*") == r3;
    assert Scan(r1.value, "b*") == r3;
    assert ValidRegex("ab*");
    assert Scan(Start, "ab*") == r3;
    LiteralShape('a');
    KleeneShape(LiteralOf('b'));
    assert kb.states[0] == 0;
    DrainConcat(a, kb);
    ConcatShape(a, kb);
    ConcatFinalState(a, kb);
  }

  /** ')' with no open group stops at the first `exit(1)`, whatever precedes it. */
  lemma CompileUnmatched()
    ensures Compile(")") == Err(UnmatchedBracket)
    ensures Compile("a)") == Err(UnmatchedBracket)
  {
    assert ValidRegex(")") && ValidRegex("a)");
    assert ")"[1..] == "" && "a)"[1..] == ")";
    var r1 := Step(Start, 'a');
    assert Reaches(r1, [], [LiteralOf('a')], true, 0);
    assert Scan(r1.value, ")") == Err(UnmatchedBracket);
  }

  /** A '(' with nothing after it: operators remain and no operand, the second `exit(1)`. */
  lemma CompileOpenOnly()
    ensures Compile("(") == Err(OperandImbalance)
  {
    var r1 := Step(Start, '(');
    assert Reaches(r1, ['('], [], false, 1);
    assert "("[1..] == "";
    assert ValidRegex("(");
    assert Scan(Start, "(") == r1;
  }

  /** "a|": the union pops its right operand, then finds no left one: an `IndexError`. */
  lemma CompileDanglingBar()
    ensures Compile("a|") == Err(EmptyPop)
  {
    var a := LiteralOf('a');
    var r1 := Step(Start, 'a');
    assert Reaches(r1, [], [a], true, 0);
    var r2 := Step(r1.value, '|');
    assert Reaches(r2, ['|'], [a], false, 0);
    assert "a|"[1..] == "|" && "|"[1..] == "";
    assert Scan(r1.value, "|") == r2;
    assert ValidRegex("a|");
    assert Scan(Start, "a|") == r2;
    assert UnionLeft(Stacks([], [])) == Err(EmptyPop);
    assert ApplyUnion(Stacks([], [a])) == Err(EmptyPop);
    assert Reduce(Stacks([], [a]), '|') == Err(EmptyPop);
  }
}
