/**
 * The automaton record of otomata.py: transitions, the value an NFA holds,
 * the `NFA` class with its three constructors, and the structural invariant
 * every builder is meant to keep.
 */
module Nfas {

  /** The symbol the compiler uses for an epsilon edge. */
  const Epsilon: char := 'E'

  /** A directed, labelled edge.  Transitions are never updated in place. */
  datatype Transition = Transition(stateFrom: int, stateTo: int, symbol: char)
  {
    /** The same edge with both endpoints renumbered by `d`. */
    function Shifted(d: int): Transition
    {
      Transition(stateFrom + d, stateTo + d, symbol)
    }
  }

  /** A snapshot of the three fields of an NFA object. */
  datatype Automaton = Automaton(states: seq<int>, transitions: seq<Transition>, finalState: int)

  /** The list `[0, 1, ..., n-1]` that `range(n)` yields (empty when n <= 0). */
  function Range(n: int): (r: seq<int>)
    ensures |r| == if n <= 0 then 0 else n
    ensures forall i | 0 <= i < |r| :: r[i] == i
  {
    if n <= 0 then [] else Range(n - 1) + [n - 1]
  }

  /** Every transition renumbered by `d`, in the original order. */
  function Shift(ts: seq<Transition>, d: int): (r: seq<Transition>)
    ensures |r| == |ts|
    ensures forall j | 0 <= j < |ts| :: r[j] == ts[j].Shifted(d)
  {
    if ts == [] then [] else Shift(ts[..|ts| - 1], d) + [ts[|ts| - 1].Shifted(d)]
  }

  /** Python's `list.remove(x)`: drops the first occurrence of `x`. */
  function RemoveFirst(s: seq<int>, x: int): (r: seq<int>)
    requires x in s
    ensures |r| == |s| - 1
    ensures s[0] == x ==> r == s[1..]
  {
    if s[0] == x then s[1..] else [s[0]] + RemoveFirst(s[1..], x)
  }

  /** `list.remove(x)` takes away one copy of `x` and keeps everything else. */
  lemma {:induction false} RemoveFirstContents(s: seq<int>, x: int)
    requires x in s
    ensures multiset(RemoveFirst(s, x)) == multiset(s) - multiset{x}
  {
    assert s == [s[0]] + s[1..];
    if s[0] != x {
      RemoveFirstContents(s[1..], x);
    }
  }

  /** The position of the first `x` in `s`, which `list.remove(x)` deletes. */
  function FirstIndex(s: seq<int>, x: int): (i: nat)
    requires x in s
    ensures i < |s| && s[i] == x && x !in s[..i]
  {
    if s[0] == x then 0
    else
      assert x in s[1..] by {
        assert s == [s[0]] + s[1..];
      }
      var j := FirstIndex(s[1..], x);
      assert s[..j + 1] == [s[0]] + s[1..][..j];
      j + 1
  }

  /**
   * `list.remove(x)` drops the first occurrence of `x`: the elements before
   * it and the elements after it keep their order.
   */
  lemma {:induction false} RemoveFirstAt(s: seq<int>, x: int)
    requires x in s
    ensures RemoveFirst(s, x) == s[..FirstIndex(s, x)] + s[FirstIndex(s, x) + 1..]
  {
    if s[0] == x {
      assert s[..0] == [];
    } else {
      var tail := s[1..];
      assert x in tail by {
        assert s == [s[0]] + tail;
      }
      RemoveFirstAt(tail, x);
      var j := FirstIndex(tail, x);
      assert s[..j + 1] == [s[0]] + tail[..j];
      assert s[j + 2..] == tail[j + 1..];
    }
  }

  /** Renumbering by `d` and then by `-d` gives back the original transitions. */
  lemma ShiftRoundTrip(ts: seq<Transition>, d: int)
    ensures Shift(Shift(ts, d), -d) == ts
  {
  }

  /** How many transitions carry `symbol`. */
  function CountSymbol(ts: seq<Transition>, symbol: char): nat
  {
    if ts == [] then 0
    else CountSymbol(ts[..|ts| - 1], symbol) + (if ts[|ts| - 1].symbol == symbol then 1 else 0)
  }

  lemma {:induction false} CountSymbolAppend(xs: seq<Transition>, ys: seq<Transition>, symbol: char)
    ensures CountSymbol(xs + ys, symbol) == CountSymbol(xs, symbol) + CountSymbol(ys, symbol)
  {
    if ys == [] {
      assert xs + ys == xs;
    } else {
      var init := ys[..|ys| - 1];
      assert (xs + ys)[..|xs + ys| - 1] == xs + init;
      CountSymbolAppend(xs, init, symbol);
    }
  }

  lemma CountSymbolSingle(t: Transition, symbol: char)
    ensures CountSymbol([t], symbol) == if t.symbol == symbol then 1 else 0
  {
    assert [t][..0] == [];
  }

  /** Renumbering does not change how many edges carry a symbol. */
  lemma {:induction false} CountSymbolShift(ts: seq<Transition>, d: int, symbol: char)
    ensures CountSymbol(Shift(ts, d), symbol) == CountSymbol(ts, symbol)
  {
    if ts != [] {
      var init := ts[..|ts| - 1];
      var shifted := Shift(ts, d);
      assert shifted == Shift(init, d) + [ts[|ts| - 1].Shifted(d)];
      assert shifted[..|shifted| - 1] == Shift(init, d);
      CountSymbolShift(init, d, symbol);
    }
  }

  /** Both endpoints of every transition are state indices below `n`. */
  ghost predicate EndpointsBelow(ts: seq<Transition>, n: int)
  {
    forall j | 0 <= j < |ts| :: 0 <= ts[j].stateFrom < n && 0 <= ts[j].stateTo < n
  }

  /**
   * The structural invariant the builders keep: at least two states, the
   * start state 0 present, and every endpoint below the number of states.
   */
  ghost predicate WellFormed(a: Automaton)
  {
    && |a.states| >= 2
    && 0 in a.states
    && EndpointsBelow(a.transitions, |a.states|)
  }

  /** The value `NFA(symbol)` builds. */
  function LiteralOf(symbol: char): Automaton
  {
    Automaton(Range(2), [Transition(0, 1, symbol)], 1)
  }

  /** The value `NFA(size)` builds. */
  function SizedOf(size: int): Automaton
  {
    Automaton(Range(size), [], 0)
  }

  lemma LiteralShape(symbol: char)
    ensures LiteralOf(symbol).states == [0, 1]
    ensures LiteralOf(symbol).transitions == [Transition(0, 1, symbol)]
    ensures LiteralOf(symbol).finalState == 1
    ensures WellFormed(LiteralOf(symbol))
  {
    assert Range(2) == [0, 1];
  }

  lemma SizedShape(size: int)
    ensures |SizedOf(size).states| == if size <= 0 then 0 else size
    ensures forall i | 0 <= i < |SizedOf(size).states| :: SizedOf(size).states[i] == i
    ensures SizedOf(size).transitions == [] && SizedOf(size).finalState == 0
    ensures size >= 2 ==> WellFormed(SizedOf(size))
  {
    if size >= 2 {
      assert SizedOf(size).states[0] == 0;
    }
  }

  /** The mutable automaton object. */
  class Nfa {
    var states: seq<int>
    var transitions: seq<Transition>
    var finalState: int

    /** The current contents of the three fields. */
    function Value(): Automaton
      reads this
    {
      Automaton(states, transitions, finalState)
    }

    /** `NFA()`: no states, no transitions, final state 0. */
    constructor Empty()
      ensures Value() == Automaton([], [], 0)
    {
      states := [];
      transitions := [];
      finalState := 0;
    }

    /** `NFA(size)`: `size` bare states numbered from 0. */
    constructor OfSize(size: int)
      ensures Value() == SizedOf(size)
    {
      states := [];
      transitions := [];
      finalState := 0;
      new;
      SetStateSize(size);
    }

    /** `NFA(symbol)`: states 0 and 1 joined by one edge labelled `symbol`. */
    constructor Literal(symbol: char)
      ensures Value() == LiteralOf(symbol)
    {
      states := [];
      transitions := [];
      finalState := 0;
      new;
      SetStateSize(2);
      finalState := 1;
      transitions := transitions + [Transition(0, 1, symbol)];
    }

    /** `setStateSize`: appends the indices `0 .. size-1` to `states`. */
    method SetStateSize(size: int)
      modifies this
      ensures states == old(states) + Range(size)
      ensures transitions == old(transitions) && finalState == old(finalState)
    {
      var i := 0;
      while i < size
        invariant 0 <= i <= if size <= 0 then 0 else size
        invariant states == old(states) + Range(i)
        invariant transitions == old(transitions) && finalState == old(finalState)
      {
        states := states + [i];
        i := i + 1;
      }
    }
  }
}
