/**
 * The three automaton builders of otomata.py: `kleene`, `concat` and `union`.
 * Each is given twice: as a function on `Automaton` values that says what the
 * result is, and as a method on `Nfa` objects that builds it the way the
 * source does, appending renumbered transitions in a loop.  The lemmas state
 * the shapes of the results and the structural invariant they keep.
 */
module Builders {
  import opened Nfas

  /** The value `kleene(n)` returns for an input whose value is `a`. */
  function KleeneOf(a: Automaton): Automaton
  {
    var k := |a.states|;
    Automaton(
      Range(k + 2),
      [Transition(0, 1, Epsilon)] + Shift(a.transitions, 1)
        + [Transition(k, k + 1, Epsilon), Transition(k, 1, Epsilon), Transition(0, k + 1, Epsilon)],
      k + 1)
  }

  /** The value `union(n, m)` returns for inputs whose values are `a` and `b`. */
  function UnionOf(a: Automaton, b: Automaton): Automaton
  {
    var p, q := |a.states|, |b.states|;
    Automaton(
      Range(p + q + 2),
      [Transition(0, 1, Epsilon)] + Shift(a.transitions, 1)
        + [Transition(p, p + q + 1, Epsilon)] + Shift(b.transitions, p + 1)
        + [Transition(p + q, p + q + 1, Epsilon)],
      p + q + 1)
  }

  /**
   * The state values `concat` appends: the j-th remaining right state `s`
   * is appended as `s + len(n.states) + 1`, where the length has already
   * grown by the j states appended before it.
   */
  function Appended(rest: seq<int>, k: int): seq<int>
  {
    seq(|rest|, j requires 0 <= j < |rest| => rest[j] + k + j + 1)
  }

  /** The value the left operand holds after `concat(n, m)`. */
  function ConcatOf(a: Automaton, b: Automaton): Automaton
    requires 0 in b.states
  {
    var k := |a.states|;
    var rest := RemoveFirst(b.states, 0);
    Automaton(
      a.states + Appended(rest, k),
      a.transitions + Shift(b.transitions, k - 1),
      (k + |rest|) + |rest| - 2)
  }

  /** `kleene(n)`: a fresh automaton; `n` is only read. */
  method Kleene(n: Nfa) returns (r: Nfa)
    ensures fresh(r)
    ensures r.Value() == KleeneOf(n.Value())
  {
    r := new Nfa.OfSize(|n.states| + 2);
    r.transitions := r.transitions + [Transition(0, 1, Epsilon)];
    for i := 0 to |n.transitions|
      invariant r.transitions == [Transition(0, 1, Epsilon)] + Shift(n.transitions[..i], 1)
      invariant r.states == Range(|n.states| + 2) && r.finalState == 0
    {
      var t := n.transitions[i];
      assert n.transitions[..i + 1][..i] == n.transitions[..i];
      r.transitions := r.transitions + [Transition(t.stateFrom + 1, t.stateTo + 1, t.symbol)];
    }
    assert n.transitions[..|n.transitions|] == n.transitions;
    r.transitions := r.transitions + [Transition(|n.states|, |n.states| + 1, Epsilon)];
    r.transitions := r.transitions + [Transition(|n.states|, 1, Epsilon)];
    r.transitions := r.transitions + [Transition(0, |n.states| + 1, Epsilon)];
    r.finalState := |n.states| + 1;
  }

  /**
   * `concat(n, m)`: updates and returns `n` itself; `m` loses its state 0.
   * `removed` is false when `m.states` holds no 0, where `list.remove`
   * raises before anything is changed.  The two must be different objects,
   * which the source does not check: with `n` and `m` the same object, both
   * loops walk the list they append to, and the call ends only when `m` has
   * no transitions and its states are `[0]`, or when `remove` raises.
   */
  method Concat(n: Nfa, m: Nfa) returns (r: Nfa, removed: bool)
    requires n != m
    modifies n, m
    ensures r == n && removed == (0 in old(m.states))
    ensures removed ==> n.Value() == ConcatOf(old(n.Value()), old(m.Value()))
    ensures removed ==> m.states == RemoveFirst(old(m.states), 0)
    ensures !removed ==> n.Value() == old(n.Value()) && m.states == old(m.states)
    ensures m.transitions == old(m.transitions) && m.finalState == old(m.finalState)
  {
    r := n;
    removed := 0 in m.states;
    if !removed {
      return;
    }
    m.states := RemoveFirst(m.states, 0);
    for i := 0 to |m.transitions|
      invariant m.states == RemoveFirst(old(m.states), 0) && m.transitions == old(m.transitions)
      invariant m.finalState == old(m.finalState)
      invariant n.transitions == old(n.transitions) + Shift(m.transitions[..i], |n.states| - 1)
      invariant n.states == old(n.states) && n.finalState == old(n.finalState)
    {
      var t := m.transitions[i];
      assert m.transitions[..i + 1][..i] == m.transitions[..i];
      n.transitions := n.transitions
        + [Transition(t.stateFrom + |n.states| - 1, t.stateTo + |n.states| - 1, t.symbol)];
    }
    assert m.transitions[..|m.transitions|] == m.transitions;
    for i := 0 to |m.states|
      invariant m.states == RemoveFirst(old(m.states), 0) && m.transitions == old(m.transitions)
      invariant m.finalState == old(m.finalState)
      invariant n.states == old(n.states) + Appended(m.states[..i], |old(n.states)|)
      invariant n.transitions == old(n.transitions) + Shift(m.transitions, |old(n.states)| - 1)
      invariant n.finalState == old(n.finalState)
    {
      var s := m.states[i];
      assert m.states[..i + 1][..i] == m.states[..i];
      n.states := n.states + [s + |n.states| + 1];
    }
    assert m.states[..|m.states|] == m.states;
    n.finalState := |n.states| + |m.states| - 2;
  }

  /** `union(n, m)`: a fresh automaton; `n` and `m` are only read. */
  method Union(n: Nfa, m: Nfa) returns (r: Nfa)
    ensures fresh(r)
    ensures r.Value() == UnionOf(n.Value(), m.Value())
  {
    var p, q := |n.states|, |m.states|;
    r := new Nfa.OfSize(p + q + 2);
    r.transitions := r.transitions + [Transition(0, 1, Epsilon)];
    for i := 0 to |n.transitions|
      invariant r.transitions == [Transition(0, 1, Epsilon)] + Shift(n.transitions[..i], 1)
      invariant r.states == Range(p + q + 2) && r.finalState == 0
    {
      var t := n.transitions[i];
      assert n.transitions[..i + 1][..i] == n.transitions[..i];
      r.transitions := r.transitions + [Transition(t.stateFrom + 1, t.stateTo + 1, t.symbol)];
    }
    assert n.transitions[..|n.transitions|] == n.transitions;
    r.transitions := r.transitions + [Transition(p, p + q + 1, Epsilon)];
    ghost var front := r.transitions;
    assert front == [Transition(0, 1, Epsilon)] + Shift(n.transitions, 1) + [Transition(p, p + q + 1, Epsilon)];
    for i := 0 to |m.transitions|
      invariant r.transitions == front + Shift(m.transitions[..i], p + 1)
      invariant r.states == Range(p + q + 2) && r.finalState == 0
    {
      var t := m.transitions[i];
      assert m.transitions[..i + 1][..i] == m.transitions[..i];
      r.transitions := r.transitions + [Transition(t.stateFrom + p + 1, t.stateTo + p + 1, t.symbol)];
    }
    assert m.transitions[..|m.transitions|] == m.transitions;
    r.transitions := r.transitions + [Transition(q + p, q + p + 1, Epsilon)];
    r.finalState := p + q + 1;
  }

  // ---------------------------------------------------------------------
  // Shapes of the results and the structural invariant.
  // ---------------------------------------------------------------------

  /**
   * `kleene` on k states: k+2 contiguous states, final k+1, and the
   * transitions (0,1,E), the input's shifted by one, (k,k+1,E), (k,1,E),
   * (0,k+1,E), in that order.
   */
  lemma KleeneShape(a: Automaton)
    ensures var r, k, t := KleeneOf(a), |a.states|, |a.transitions|;
      && |r.states| == k + 2
      && (forall i | 0 <= i < k + 2 :: r.states[i] == i)
      && r.finalState == k + 1
      && |r.transitions| == t + 4
      && r.transitions[0] == Transition(0, 1, Epsilon)
      && (forall j | 0 <= j < t :: r.transitions[j + 1] == a.transitions[j].Shifted(1))
      && r.transitions[t + 1] == Transition(k, k + 1, Epsilon)
      && r.transitions[t + 2] == Transition(k, 1, Epsilon)
      && r.transitions[t + 3] == Transition(0, k + 1, Epsilon)
  {
  }

  lemma KleeneWellFormed(a: Automaton)
    requires WellFormed(a)
    ensures WellFormed(KleeneOf(a))
  {
    var r := KleeneOf(a);
    assert r.states[0] == 0;
  }

  /** Kleene adds exactly four epsilon edges and no edge of any other symbol. */
  lemma KleeneCounts(a: Automaton, symbol: char)
    ensures CountSymbol(KleeneOf(a).transitions, symbol)
         == CountSymbol(a.transitions, symbol) + (if symbol == Epsilon then 4 else 0)
  {
    var k := |a.states|;
    var tail := [Transition(k, k + 1, Epsilon), Transition(k, 1, Epsilon), Transition(0, k + 1, Epsilon)];
    CountSymbolAppend([Transition(0, 1, Epsilon)], Shift(a.transitions, 1), symbol);
    CountSymbolAppend([Transition(0, 1, Epsilon)] + Shift(a.transitions, 1), tail, symbol);
    CountSymbolShift(a.transitions, 1, symbol);
    CountSymbolSingle(Transition(0, 1, Epsilon), symbol);
    CountSymbolAppend([tail[0]], [tail[1]], symbol);
    CountSymbolAppend([tail[0], tail[1]], [tail[2]], symbol);
    CountSymbolSingle(tail[0], symbol);
    CountSymbolSingle(tail[1], symbol);
    CountSymbolSingle(tail[2], symbol);
    assert tail == [tail[0], tail[1]] + [tail[2]];
  }

  /** Over a well-formed input no transition leaves the new final state. */
  lemma KleeneFinalIsSink(a: Automaton)
    requires WellFormed(a)
    ensures var r := KleeneOf(a);
      forall j | 0 <= j < |r.transitions| :: r.transitions[j].stateFrom != r.finalState
  {
  }

  /**
   * `union` on p and q states: p+q+2 contiguous states, final p+q+1, and
   * the transitions (0,1,E), the left's shifted by 1, (p,p+q+1,E), the
   * right's shifted by p+1, (p+q,p+q+1,E), in that order.
   */
  lemma UnionShape(a: Automaton, b: Automaton)
    ensures var r, p, q := UnionOf(a, b), |a.states|, |b.states|;
      var tn, tm := |a.transitions|, |b.transitions|;
      && |r.states| == p + q + 2
      && (forall i | 0 <= i < p + q + 2 :: r.states[i] == i)
      && r.finalState == p + q + 1
      && |r.transitions| == tn + tm + 3
      && r.transitions[0] == Transition(0, 1, Epsilon)
      && (forall j | 0 <= j < tn :: r.transitions[j + 1] == a.transitions[j].Shifted(1))
      && r.transitions[tn + 1] == Transition(p, p + q + 1, Epsilon)
      && (forall j | 0 <= j < tm :: r.transitions[tn + 2 + j] == b.transitions[j].Shifted(p + 1))
      && r.transitions[tn + tm + 2] == Transition(p + q, p + q + 1, Epsilon)
  {
  }

  lemma UnionWellFormed(a: Automaton, b: Automaton)
    requires WellFormed(a) && WellFormed(b)
    ensures WellFormed(UnionOf(a, b))
  {
    var r := UnionOf(a, b);
    assert r.states[0] == 0;
    UnionShape(a, b);
  }

  /** Union adds exactly three epsilon edges and no edge of any other symbol. */
  lemma UnionCounts(a: Automaton, b: Automaton, symbol: char)
    ensures CountSymbol(UnionOf(a, b).transitions, symbol)
         == CountSymbol(a.transitions, symbol) + CountSymbol(b.transitions, symbol)
            + (if symbol == Epsilon then 3 else 0)
  {
    var p, q := |a.states|, |b.states|;
    var e0, e1, e2 := [Transition(0, 1, Epsilon)], [Transition(p, p + q + 1, Epsilon)], [Transition(p + q, p + q + 1, Epsilon)];
    var s1, s2 := Shift(a.transitions, 1), Shift(b.transitions, p + 1);
    CountSymbolAppend(e0, s1, symbol);
    CountSymbolAppend(e0 + s1, e1, symbol);
    CountSymbolAppend(e0 + s1 + e1, s2, symbol);
    CountSymbolAppend(e0 + s1 + e1 + s2, e2, symbol);
    CountSymbolShift(a.transitions, 1, symbol);
    CountSymbolShift(b.transitions, p + 1, symbol);
    CountSymbolSingle(e0[0], symbol);
    CountSymbolSingle(e1[0], symbol);
    CountSymbolSingle(e2[0], symbol);
  }

  /**
   * The entry edge of a union goes to the left branch only: over
   * well-formed inputs the sole transition leaving state 0 is the first,
   * (0,1,E), so the shifted right start p+1 has no edge from state 0.
   */
  lemma UnionSoleEntry(a: Automaton, b: Automaton)
    requires WellFormed(a) && WellFormed(b)
    ensures var r := UnionOf(a, b);
      forall j | 0 <= j < |r.transitions| :: r.transitions[j].stateFrom == 0 <==> j == 0
    ensures var r := UnionOf(a, b);
      forall j | 0 <= j < |r.transitions| ::
        r.transitions[j] != Transition(0, |a.states| + 1, Epsilon)
  {
    UnionShape(a, b);
  }

  /**
   * `concat` on k and q states: k+q-1 states beginning with the left's,
   * the left's transitions followed by the right's shifted by k-1, so that
   * the right's state 0 lands on the left's last index k-1.
   */
  lemma ConcatShape(a: Automaton, b: Automaton)
    requires 0 in b.states
    ensures var r, k, q := ConcatOf(a, b), |a.states|, |b.states|;
      && |r.states| == k + q - 1
      && r.states[..k] == a.states
      && |r.transitions| == |a.transitions| + |b.transitions|
      && r.transitions[..|a.transitions|] == a.transitions
      && (forall j | 0 <= j < |b.transitions| ::
            r.transitions[|a.transitions| + j] == b.transitions[j].Shifted(k - 1))
      && (forall j | 0 <= j < |b.transitions| && b.transitions[j].stateFrom == 0 ::
            r.transitions[|a.transitions| + j].stateFrom == k - 1)
  {
  }

  /**
   * The final state `concat` records is (k+q-1) + (q-1) - 2 = k+2q-4; it
   * is the last index k+q-2 exactly when the right operand has two states.
   */
  lemma ConcatFinalState(a: Automaton, b: Automaton)
    requires 0 in b.states
    ensures var r, k, q := ConcatOf(a, b), |a.states|, |b.states|;
      r.finalState == k + 2 * q - 4
      && (r.finalState == |r.states| - 1 <==> q == 2)
  {
  }

  /**
   * `concat` keeps the endpoint invariant when the left operand has a
   * state and the right one holds a 0; over two well-formed operands the
   * result is well formed.
   */
  lemma ConcatWellFormed(a: Automaton, b: Automaton)
    requires |a.states| >= 1 && EndpointsBelow(a.transitions, |a.states|)
    requires 0 in b.states && EndpointsBelow(b.transitions, |b.states|)
    ensures EndpointsBelow(ConcatOf(a, b).transitions, |ConcatOf(a, b).states|)
    ensures WellFormed(a) && WellFormed(b) ==> WellFormed(ConcatOf(a, b))
  {
    ConcatShape(a, b);
    if WellFormed(a) {
      var r := ConcatOf(a, b);
      assert 0 in r.states[..|a.states|];
    }
  }

  /** `concat` adds no edge: the counts of the two operands add up. */
  lemma ConcatCounts(a: Automaton, b: Automaton, symbol: char)
    requires 0 in b.states
    ensures CountSymbol(ConcatOf(a, b).transitions, symbol)
         == CountSymbol(a.transitions, symbol) + CountSymbol(b.transitions, symbol)
  {
    CountSymbolAppend(a.transitions, Shift(b.transitions, |a.states| - 1), symbol);
    CountSymbolShift(b.transitions, |a.states| - 1, symbol);
  }

  /**
   * Two literals concatenated: the state list is [0, 1, 4], not contiguous,
   * because each appended value adds the already grown length.
   */
  lemma ConcatLiterals(x: char, y: char)
    ensures ConcatOf(LiteralOf(x), LiteralOf(y))
         == Automaton([0, 1, 4], [Transition(0, 1, x), Transition(1, 2, y)], 2)
  {
    LiteralShape(x);
    LiteralShape(y);
    assert RemoveFirst([0, 1], 0) == [1];
    assert Appended([1], 2) == [4];
    assert Shift([Transition(0, 1, y)], 1) == [Transition(1, 2, y)];
  }
}
