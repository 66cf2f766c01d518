# otomata: a regular-expression to NFA compiler, modelled in Dafny

`otomata.py` compiles a regular expression into a nondeterministic finite
automaton by Thompson's construction. The alphabet is the lower-case
letters, plus `E` as the epsilon symbol. The operators are `*`, `|`,
parentheses, and implicit concatenation. A single left-to-right scan keeps
two stacks: operator characters and operand automata. A symbol pushes a
two-state literal automaton. Three builders combine automata:

- `kleene` and `union` build a fresh automaton;
- `concat` renumbers its right operand into its left one and updates the
  left one in place.

This project models that core as the code is written:

- **`Nfas`** (`nfa.dfy`): the `Transition` value, the `Automaton` value an
  NFA object holds, the `Nfa` class with its three constructors and
  `SetStateSize`, and the structural invariant `WellFormed`. That invariant
  is: at least two states, state 0 present, and every transition endpoint
  below the number of states.
- **`Builders`** (`builders.dfy`): `KleeneOf`, `ConcatOf` and `UnionOf` are
  functions that say what each builder produces. `Kleene`, `Concat` and
  `Union` are methods that build it the way the source does, by appending
  renumbered transitions in loops. Lemmas give the exact shape of each
  result, the symbol counts, and preservation of the invariant.
- **`Validator`** (`validator.dfy`): the character classes and
  `validRegex`.
- **`CompileSpec`** (`compile_spec.dfy`): the scan of `compile` as functions
  over values. This covers one character, the drain on `)`, the collection
  and fold of a `.` run under a `|`, and the final drain. Every way the
  source can stop early is an error value:
  - `UnmatchedBracket` and `OperandImbalance`: the two `exit(1)` calls;
  - `EmptyPop`: the `IndexError` of a pop from an empty list;
  - `NoStartState`: the `ValueError` of `m.states.remove(0)`.
- **`Compiler`** (`compiler.dfy`): the same scan run imperatively on `Nfa`
  objects. Each method is proved to agree with its function in
  `CompileSpec`, applied to the values the objects hold. The methods keep
  the operand objects pairwise distinct, so the in-place updates of
  `concat` never reach an object that is still on the stack.
- **`CompileSound`** (`compile_sound.dfy`): every operand the scan holds is
  well formed. So `NoStartState` never occurs, and every automaton
  `compile` returns keeps the invariant.
- **`CompileLaws`** (`compile_laws.dfy`): what each character does to the
  scan state, and what the drains do to the operator stack. It also proves
  that a `|` folds the whole `.` run on its left in written order.
- **`CompileExamples`** (`compile_examples.dfy`): `compile` on concrete
  inputs, including the inputs that stop it.

The model keeps these behaviours of the code, several of which depart from
the textbook Thompson construction:

- `(` leaves the implicit-concatenation flag unchanged, and `)` clears it.
  So no `.` joins a closed group to the symbol after it, and `(a)b`
  compiles to the literal `b` alone (`CompileExamples.CompileGroupThenSymbol`).
- `a*` has five transitions, four of them epsilon edges.
- `union` adds a single entry edge, `(0,1,E)`, into its left branch and none
  into its right branch. Textbook Thompson adds one to each branch.
- `concat` records the final state `k+2q-4`, which is the last state only
  when the right operand has two states. Its state list is not contiguous:
  `ab` gives `[0, 1, 4]`.
- A dangling `a|` stops on an `IndexError` (`EmptyPop`), at the union's
  second pop, and not on the operand-imbalance exit.

## Model

| member | source | states |
|---|---|---|
| Nfas.Range | otomata.py:29-31 | `range(n)` has length `max(n, 0)`, and its element `i` is `i` |
| Nfas.Shift | otomata.py:45-47 | renumbering a transition list keeps its length and maps each transition, in order, to its shifted copy |
| Nfas.ShiftRoundTrip | otomata.py:45-47 | renumbering by `d` and then by `-d` gives back the original transition list |
| Nfas.RemoveFirst | otomata.py:56 | `list.remove(x)` shortens the list by one, and drops the head when the head is `x` |
| Nfas.FirstIndex | otomata.py:56 | the position `list.remove(x)` deletes holds `x`, and no earlier position does |
| Nfas.RemoveFirstAt | otomata.py:56 | `list.remove(x)` deletes exactly the first `x`; the elements before and after it keep their order |
| Nfas.RemoveFirstContents | otomata.py:56 | `list.remove(x)` removes exactly one copy of `x` and keeps every other element |
| Nfas.CountSymbolShift | otomata.py:45-47 | renumbering changes no transition's symbol, so every symbol count is unchanged |
| Nfas.LiteralShape | otomata.py:24-27 | `NFA(symbol)` has states `[0,1]`, the single transition `(0,1,symbol)`, final state 1, and is well formed |
| Nfas.SizedShape | otomata.py:21-23 | `NFA(size)` has states `0..size-1`, no transitions, final state 0, and is well formed for `size >= 2` |
| Nfas.Nfa.Empty | otomata.py:17-20 | `NFA()` holds no states, no transitions, and final state 0 |
| Nfas.Nfa.OfSize | otomata.py:21-23 | `NFA(size)` holds the value `SizedOf(size)` |
| Nfas.Nfa.Literal | otomata.py:24-27 | `NFA(symbol)` holds the value `LiteralOf(symbol)` |
| Nfas.Nfa.SetStateSize | otomata.py:29-31 | appends `0..size-1` to `states` and leaves the transitions and the final state unchanged |
| Validator.AllRegexChars | otomata.py:105-107 | the loop finishes without returning early iff every character passes `regexChar` |
| Validator.ValidRegex | otomata.py:102-108 | true iff the regex is non-empty and every character is a letter, `E`, `(`, `)`, `*` or `\|` |
| Validator.CharClasses | otomata.py:86-99 | `regexChar` accepts exactly `a..z` and `E()*\|`, and no symbol is an operator |
| Builders.Kleene | otomata.py:41-52 | returns a fresh object holding `KleeneOf` of the input's value |
| Builders.Concat | otomata.py:55-65 | returns `n` itself, now holding `ConcatOf` of the two old values. `m.states` loses its 0, and `m`'s other fields are unchanged. Without a 0 in `m.states`, nothing changes and `removed` is false |
| Builders.Union | otomata.py:68-83 | returns a fresh object holding `UnionOf` of the two inputs' values |
| Builders.KleeneShape | otomata.py:41-52 | on `k` states: `k+2` contiguous states, final `k+1`, and transitions `(0,1,E)`, the input's shifted by one, `(k,k+1,E)`, `(k,1,E)`, `(0,k+1,E)`, in that order |
| Builders.KleeneWellFormed | otomata.py:42-50 | `kleene` keeps the endpoint invariant |
| Builders.KleeneCounts | otomata.py:43-50 | `kleene` adds exactly four epsilon edges and no edge of other symbols |
| Builders.KleeneFinalIsSink | otomata.py:48-51 | over a well-formed input, no transition leaves the new final state |
| Builders.UnionShape | otomata.py:68-83 | on `p` and `q` states: `p+q+2` contiguous states, final `p+q+1`, and transitions `(0,1,E)`, the left's shifted by 1, `(p,p+q+1,E)`, the right's shifted by `p+1`, `(p+q,p+q+1,E)`, in that order |
| Builders.UnionWellFormed | otomata.py:69-81 | `union` keeps the endpoint invariant |
| Builders.UnionCounts | otomata.py:70-81 | `union` adds exactly three epsilon edges and no edge of other symbols |
| Builders.UnionSoleEntry | otomata.py:70 | over well-formed inputs, the only transition from state 0 is the first one, and no edge enters the right branch's start from state 0 |
| Builders.ConcatShape | otomata.py:55-63 | `k+q-1` states that begin with the left's, then the left's transitions followed by the right's shifted by `k-1`; the right's state 0 lands on `k-1` |
| Builders.ConcatFinalState | otomata.py:64 | the final state is `k+2q-4`, and it is the last index iff the right operand has two states |
| Builders.ConcatWellFormed | otomata.py:56-63 | keeps the endpoints in range when the left operand has a state and the right one holds 0; keeps well-formedness over well-formed operands |
| Builders.ConcatCounts | otomata.py:58-60 | `concat` adds no edge: the symbol counts of the two operands add up |
| Builders.ConcatLiterals | otomata.py:56-64 | two literals give states `[0,1,4]`, transitions `(0,1,x)`, `(1,2,y)`, and final state 2 |
| CompileSpec.CollectRun | otomata.py:151-154 | collecting stops with no `.` exposed and never grows the operator stack; it only appends to the run, and appends at least once when a `.` was exposed |
| CompileSpec.UnionLeft | otomata.py:150-160 | finding the union's left operand never grows the operator stack |
| CompileSpec.ApplyUnion | otomata.py:148-161 | a popped `\|` never grows the operator stack |
| CompileSpec.Reduce | otomata.py:143-161 | applying a popped operator never grows the operator stack |
| Compiler.ApplyConcat | otomata.py:144-147 | the object-level `.` step gives the stacks `CompileSpec.ApplyConcat` gives, or the same error |
| Compiler.CollectRun | otomata.py:151-154 | the object-level collection agrees with `CompileSpec.CollectRun` and keeps `concat_stack` and the operands disjoint |
| Compiler.FoldFrom | otomata.py:157-158 | the in-place fold leaves in `nfa1` the value `CompileSpec.FoldFrom` gives, or stops with its error |
| Compiler.FoldRun | otomata.py:155-158 | the first popped object is returned, holding the value `CompileSpec.FoldRun` gives, or stops with its error |
| Compiler.UnionLeft | otomata.py:150-160 | the object-level left operand holds the value `CompileSpec.UnionLeft` gives, and is taken off the remaining operands |
| Compiler.ApplyUnion | otomata.py:148-161 | the object-level `\|` step agrees with `CompileSpec.ApplyUnion` |
| Compiler.Reduce | otomata.py:143-161 | applying a popped operator to objects agrees with `CompileSpec.Reduce` |
| Compiler.DrainToParen | otomata.py:142-161 | the loop of `)` agrees with `CompileSpec.DrainToParen` |
| Compiler.FinalDrain | otomata.py:171-192 | the final loop agrees with `CompileSpec.FinalDrain`, including the imbalance error |
| Compiler.Step | otomata.py:128-170 | one character on objects agrees with `CompileSpec.Step`; every operand is an old object or a fresh one |
| Compiler.Compile | otomata.py:111-193 | the returned object holds `CompileSpec.Compile(regex)`'s value, or the error that function gives |
| CompileSound.ConcatStepSound | otomata.py:55-65 | over well-formed operands, `concat` does not raise, and its result is well formed |
| CompileSound.ApplyConcatSound | otomata.py:144-147 | a popped `.` over well-formed operands gives well-formed operands and never `NoStartState` |
| CompileSound.CollectRunSound | otomata.py:151-154 | collection keeps both lists well formed and can fail only on an empty pop |
| CompileSound.FoldFromSound | otomata.py:157-158 | the fold over well-formed operands succeeds and is well formed |
| CompileSound.FoldRunSound | otomata.py:155-158 | the fold of a run of two or more well-formed operands succeeds and is well formed |
| CompileSound.UnionLeftSound | otomata.py:150-160 | the union's left operand is well formed, and the only possible error is an empty pop |
| CompileSound.ApplyUnionSound | otomata.py:148-161 | a popped `\|` keeps the operands well formed and never gives `NoStartState` |
| CompileSound.ReduceSound | otomata.py:143-161 | any popped operator keeps the operands well formed and never gives `NoStartState` |
| CompileSound.DrainToParenSound | otomata.py:142-161 | the drain of `)` keeps the operands well formed and never gives `NoStartState` |
| CompileSound.FinalDrainSound | otomata.py:171-192 | the final drain keeps the operands well formed and never gives `NoStartState` |
| CompileSound.StepSound | otomata.py:127-170 | one character keeps the operands well formed and never gives `NoStartState` |
| CompileSound.ScanSound | otomata.py:127-170 | the whole scan keeps the operands well formed and never gives `NoStartState` |
| CompileSound.CompileSound | otomata.py:111-193 | every automaton `compile` returns is well formed, and `compile` never stops on the `ValueError` of `concat` |
| CompileLaws.StepSymbol | otomata.py:128-133 | a symbol pushes its literal and sets the flag; it pushes one `.` iff the flag was set |
| CompileLaws.StepStar | otomata.py:162-164 | `*` replaces the top operand by its kleene and sets the flag; it fails with an empty pop iff there is no operand |
| CompileLaws.StepOpen | otomata.py:165-167 | `(` is pushed and counted, and the flag is unchanged |
| CompileLaws.StepBar | otomata.py:168-170 | `\|` is pushed and the flag is cleared |
| CompileLaws.StepCloseUnmatched | otomata.py:135-139 | `)` with no open group fails with `UnmatchedBracket` |
| CompileLaws.StepClose | otomata.py:135-142 | `)` in a group lowers the count and clears the flag; the operators left are a prefix of the old ones that is empty or ends in `(`, and no popped operator is a `(` |
| CompileLaws.CollectRunPrefix | otomata.py:151-154 | collection only pops operators |
| CompileLaws.ReducePrefix | otomata.py:143-161 | applying an operator leaves a prefix of the operator stack |
| CompileLaws.CollectRunPopsDots | otomata.py:152-154 | collection pops only `.` operators |
| CompileLaws.ReduceNoParen | otomata.py:143-161 | applying an operator pops no `(` |
| CompileLaws.DrainToParenStops | otomata.py:142 | the drain of `)` leaves a prefix of the operators that is empty or shows `(`, and pops no `(`: it stops at the topmost one |
| CompileLaws.FinalDrainEmpties | otomata.py:171-192 | a successful final drain leaves no operator |
| CompileLaws.FinalDrainImbalance | otomata.py:171-174 | operators with no operand give `OperandImbalance` |
| CompileLaws.FinalDrainDropsParen | otomata.py:175-192 | a `(` left over matches no branch of the final drain and is dropped |
| CompileLaws.CollectDots | otomata.py:151-154 | collecting `k` exposed `.` operators moves the `k` operands above them onto the run, top first |
| CompileLaws.FoldFromChain | otomata.py:157-158 | folding by popping the collected run equals concatenating the operands in written order |
| CompileLaws.FoldRunChain | otomata.py:155-158 | the whole fold of a run equals the written-order concatenation chain |
| CompileLaws.UnionFoldsRun | otomata.py:148-161 | with `k >= 1` exposed `.`s, the union's left operand is the written-order concatenation of all `k+1` operands of the run; the run and its `.`s are consumed |
| CompileLaws.ConcatOfTopTwo | otomata.py:144-147 | a popped `.` replaces the two top operands by their concat |
| CompileLaws.UnionOfTopTwo | otomata.py:159-161 | with no `.` exposed, a popped `\|` joins just the two top operands |
| CompileExamples.DrainConcat | otomata.py:176-179 | the final drain of one `.` over two operands leaves their concat |
| CompileExamples.DrainConcatThenUnion | otomata.py:180-192 | the final drain of `.` below `\|` leaves `(x.y)\|z` |
| CompileExamples.DrainUnionThenConcat | otomata.py:171-192 | the final drain of `.` above `\|` leaves `x\|(y.z)` |
| CompileExamples.CompileSymbol | otomata.py:111-193 | a single symbol compiles to its literal |
| CompileExamples.CompileInvalid | otomata.py:112-115 | invalid input, including the empty string and `a+`, returns the epsilon literal |
| CompileExamples.CompileStar | otomata.py:111-193 | `a*` gives the kleene of the literal: four states and five transitions, four of them epsilon |
| CompileExamples.CompileConcat | otomata.py:111-193 | `ab` gives states `[0,1,4]`, transitions `(0,1,a)`, `(1,2,b)`, and final state 2 |
| CompileExamples.CompileUnion | otomata.py:111-193 | `a\|b` gives the five listed transitions and final state 5, with no entry edge to the `b` branch |
| CompileExamples.ScanConcatThenUnion | otomata.py:127-170 | the scan of `ab\|c` leaves operators `.`, `\|` over three literals |
| CompileExamples.CompileConcatThenUnion | otomata.py:111-193 | `ab\|c` compiles to `(ab)\|c` |
| CompileExamples.ScanUnionThenConcat | otomata.py:127-170 | the scan of `a\|bc` leaves operators `\|`, `.` over three literals |
| CompileExamples.CompileUnionThenConcat | otomata.py:111-193 | `a\|bc` compiles to `a\|(bc)` |
| CompileExamples.CompileGroupThenSymbol | otomata.py:111-193 | `(a)b` compiles to the literal `b` alone |
| CompileExamples.CompileConcatStar | otomata.py:111-193 | `ab*` gives five states with final state 6 |
| CompileExamples.CompileUnmatched | otomata.py:135-139 | `)` and `a)` fail with `UnmatchedBracket` |
| CompileExamples.CompileOpenOnly | otomata.py:171-174 | `(` fails with `OperandImbalance` |
| CompileExamples.CompileDanglingBar | otomata.py:180-192 | `a\|` fails with an empty pop: the union finds no left operand |

## Left out

- `nfaGraph` (otomata.py:196-201) and the module-level `directedGraph` (otomata.py:5-6): they only build `networkx` graphs, a library outside this model.
- The interactive loop, the `:q` exit and the `matplotlib` drawing (otomata.py:204-222): input, output and display only.
- `NFA.display` (otomata.py:33-38) and the diagnostic `print` calls (otomata.py:113, 138, 173): console output only. The model keeps what follows each print: the fallback value or the error.
- `exit(1)` does not end a process here. It is the error value `UnmatchedBracket` or `OperandImbalance`. Likewise a Python `IndexError` is `EmptyPop` and the `ValueError` of `list.remove` is `NoStartState`.
- What the automata accept: the source never runs an automaton, so no language is claimed. Because `union` has no entry edge to its right branch, "`a|b` accepts `b`" would be false for the source.
- `NFA(*args)` dispatches on the type and number of its arguments at run time. The model has one constructor per case the source uses: no argument, an `int`, and a one-character string. Any other call leaves the object as `NFA()` does.
- Symbols are `char`. Every string the source passes to `NFA(str)` or to `Transition` is a single character.
- The unused initial objects `nfa1 = NFA()` and `nfa2 = NFA()` (otomata.py:124-125) are not modelled: they are overwritten before they are read.
- `concat_stack` (otomata.py:118) is one list for the whole call, but each fold empties it before the next use. The model starts each fold with a fresh run.
- Builders.Concat: requires its two arguments to be different objects, which the source does not check. With `n` and `m` the same object, both loops walk the list they append to. The call never ends unless `m` has no transitions and `states == [0]`, in which case it sets `final_state` to -2, or unless `m.states` holds no 0, in which case `remove` raises before either loop. `compile` never passes one object twice.
