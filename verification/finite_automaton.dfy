/** Deterministic finite automata over an explicit transition table, and their
    execution on an input string (the DFA class of regular_sets/finite_automaton.py).

    A transition table maps a state to a map from symbols to SETS of successor
    states, even for a DFA.  Execution takes the only member of each successor
    set; the source raises an exception when a state or symbol is missing or a
    successor set is empty, so here the run must exist (`Runs`) before
    `Compute` may be asked for its result. */
module Automaton {

  type State = string
  type Symbol = char

  /** state -> (symbol -> set of successor states) */
  type Delta = map<State, map<Symbol, set<State>>>

  datatype DFA = DFA(delta: Delta, initial: State, accept: set<State>)

  /** The constructor keeps the table and the initial state and turns the list
      of accept states into a set. */
  function MakeDFA(delta: Delta, initial: State, acceptList: seq<State>): (d: DFA)
    ensures d.delta == delta && d.initial == initial
    ensures forall q :: q in d.accept <==> q in acceptList
  {
    DFA(delta, initial, set q | q in acceptList)
  }

  /** Listing the accept states in another order, or with repetitions, builds
      the same automaton. */
  lemma AcceptListOrderIrrelevant(delta: Delta, initial: State, l1: seq<State>, l2: seq<State>)
    requires forall q :: q in l1 <==> q in l2
    ensures MakeDFA(delta, initial, l1) == MakeDFA(delta, initial, l2)
  {
  }

  /** A one-element set has no two different members. */
  lemma SingletonMembers(S: set<State>)
    requires |S| == 1
    ensures forall x, y :: x in S && y in S ==> x == y
  {
    forall x, y | x in S && y in S
      ensures x == y
    {
      assert |S - {x}| == 0;
      assert S - {x} == {};
      assert y !in S - {x};
    }
  }

  /** The member that `next(iter(S))` takes from a one-element set. */
  function Only(S: set<State>): (q: State)
    requires |S| == 1
    ensures S == {q}
  {
    SingletonMembers(S);
    var q :| q in S;
    q
  }

  /** From `s` the table has exactly one successor on `a`. */
  predicate HasStep(delta: Delta, s: State, a: Symbol)
  {
    s in delta && a in delta[s] && |delta[s][a]| == 1
  }

  /** The run of `compute` from `s` over `w` exists: every state it visits has
      an entry for the next symbol and that entry holds exactly one state. */
  predicate Runs(delta: Delta, s: State, w: seq<Symbol>)
    decreases |w|
  {
    |w| == 0 || (HasStep(delta, s, w[0]) && Runs(delta, Only(delta[s][w[0]]), w[1..]))
  }

  /** The state reached from `s` after reading `w`: a left fold of the table
      over the input. */
  function Compute(delta: Delta, s: State, w: seq<Symbol>): State
    requires Runs(delta, s, w)
    decreases |w|
  {
    if |w| == 0 then s else Compute(delta, Only(delta[s][w[0]]), w[1..])
  }

  /** `qs` is a path labelled `w` through the table: one more state than
      symbols, each state followed by one of its successors on the symbol
      between them. */
  ghost predicate IsPath(delta: Delta, w: seq<Symbol>, qs: seq<State>)
  {
    && |qs| == |w| + 1
    && forall i :: 0 <= i < |w| ==>
         qs[i] in delta && w[i] in delta[qs[i]] && qs[i + 1] in delta[qs[i]][w[i]]
  }

  /** The loop of `compute`: it holds a one-element set of states and replaces
      it, symbol by symbol, with the successor set of its member. */
  method ComputeLoop(delta: Delta, s: State, w: seq<Symbol>) returns (t: State)
    requires Runs(delta, s, w)
    ensures t == Compute(delta, s, w)
    ensures forall qs :: IsPath(delta, w, qs) && qs[0] == s ==> qs[|w|] == t
  {
    var current: set<State> := {s};
    var i := 0;
    while i < |w|
      invariant 0 <= i <= |w|
      invariant |current| == 1
      invariant Runs(delta, Only(current), w[i..])
      invariant Compute(delta, Only(current), w[i..]) == Compute(delta, s, w)
    {
      assert w[i..][0] == w[i] && w[i..][1..] == w[i + 1..];
      current := delta[Only(current)][w[i]];
      i := i + 1;
    }
    t := Only(current);
    forall qs | IsPath(delta, w, qs) && qs[0] == s
      ensures qs[|w|] == t
    {
      PathEndsAtCompute(delta, s, w, qs);
    }
  }

  /** A run that exists is the only path: every path labelled `w` from `s`
      ends where `Compute` does. */
  lemma {:induction false} PathEndsAtCompute(delta: Delta, s: State, w: seq<Symbol>, qs: seq<State>)
    requires Runs(delta, s, w)
    requires IsPath(delta, w, qs) && qs[0] == s
    ensures qs[|w|] == Compute(delta, s, w)
    decreases |w|
  {
    if |w| > 0 {
      assert qs[1] in delta[s][w[0]];
      assert qs[1] == Only(delta[s][w[0]]);
      var w', qs' := w[1..], qs[1..];
      assert IsPath(delta, w', qs') by {
        forall i | 0 <= i < |w'|
          ensures qs'[i] in delta && w'[i] in delta[qs'[i]] && qs'[i + 1] in delta[qs'[i]][w'[i]]
        {
          assert qs'[i] == qs[i + 1] && w'[i] == w[i + 1] && qs'[i + 1] == qs[i + 2];
        }
      }
      PathEndsAtCompute(delta, qs[1], w', qs');
    }
  }

  /** Conversely, a run that exists traces a path labelled `w` from `s` to the
      state `Compute` returns. */
  lemma {:induction false} ComputeHasPath(delta: Delta, s: State, w: seq<Symbol>)
    requires Runs(delta, s, w)
    ensures exists qs :: IsPath(delta, w, qs) && qs[0] == s && qs[|w|] == Compute(delta, s, w)
    decreases |w|
  {
    if |w| == 0 {
      assert IsPath(delta, w, [s]);
    } else {
      var next := Only(delta[s][w[0]]);
      ComputeHasPath(delta, next, w[1..]);
      var rest :| IsPath(delta, w[1..], rest) && rest[0] == next
                  && rest[|w[1..]|] == Compute(delta, next, w[1..]);
      var qs := [s] + rest;
      forall i | 0 <= i < |w|
        ensures qs[i] in delta && w[i] in delta[qs[i]] && qs[i + 1] in delta[qs[i]][w[i]]
      {
        if i > 0 {
          assert qs[i] == rest[i - 1] && qs[i + 1] == rest[i] && w[i] == w[1..][i - 1];
        }
      }
      assert IsPath(delta, w, qs);
    }
  }

  /** `validate_sentence`: run the automaton from its initial state and test
      the state reached for membership in the accept states. */
  function Validate(d: DFA, w: seq<Symbol>): (accepted: bool)
    requires Runs(d.delta, d.initial, w)
    ensures accepted <==> exists qs :: IsPath(d.delta, w, qs) && qs[0] == d.initial && qs[|w|] in d.accept
  {
    ComputeHasPath(d.delta, d.initial, w);
    PathsEndAtCompute(d.delta, d.initial, w);
    Compute(d.delta, d.initial, w) in d.accept
  }

  lemma PathsEndAtCompute(delta: Delta, s: State, w: seq<Symbol>)
    requires Runs(delta, s, w)
    ensures forall qs :: IsPath(delta, w, qs) && qs[0] == s ==> qs[|w|] == Compute(delta, s, w)
  {
    forall qs | IsPath(delta, w, qs) && qs[0] == s
      ensures qs[|w|] == Compute(delta, s, w)
    {
      PathEndsAtCompute(delta, s, w, qs);
    }
  }

  /** Reading nothing stays put; reading one symbol moves to the only member
      of that symbol's successor set. */
  lemma ComputeEmptyAndSingle(delta: Delta, s: State, a: Symbol)
    ensures Runs(delta, s, []) && Compute(delta, s, []) == s
    ensures Runs(delta, s, [a]) <==> HasStep(delta, s, a)
    ensures HasStep(delta, s, a) ==> delta[s][a] == {Compute(delta, s, [a])}
  {
  }

  /** `compute` is a left fold: reading `u + v` is reading `u` and then `v`
      from wherever `u` led, and the run over `u + v` exists exactly when
      both of those runs do. */
  lemma {:induction false} ComputeAppend(delta: Delta, s: State, u: seq<Symbol>, v: seq<Symbol>)
    ensures Runs(delta, s, u + v) <==> Runs(delta, s, u) && Runs(delta, Compute(delta, s, u), v)
    ensures Runs(delta, s, u + v) ==> Compute(delta, s, u + v) == Compute(delta, Compute(delta, s, u), v)
    decreases |u|
  {
    if |u| == 0 {
      assert u + v == v;
    } else {
      assert (u + v)[0] == u[0] && (u + v)[1..] == u[1..] + v;
      if HasStep(delta, s, u[0]) {
        ComputeAppend(delta, Only(delta[s][u[0]]), u[1..], v);
      }
    }
  }

  /** The automaton of the unit test: it alternates between q0 and q1 on every
      `a` or `b`, and accepts in q0, so it recognises the words of even length. */
  const ParityDelta: Delta :=
    map["q0" := map['a' := {"q1"}, 'b' := {"q1"}],
        "q1" := map['a' := {"q0"}, 'b' := {"q0"}]]

  function Parity(): (d: DFA)
    ensures d.initial == "q0" && d.accept == {"q0"}
  {
    MakeDFA(ParityDelta, "q0", ["q0"])
  }

  predicate OverAB(w: seq<Symbol>)
  {
    forall i :: 0 <= i < |w| ==> w[i] == 'a' || w[i] == 'b'
  }

  /** Over {a, b}, the parity automaton is back where it started after an even
      number of symbols and in the other state after an odd number. */
  lemma {:induction false} ParityCompute(w: seq<Symbol>)
    requires OverAB(w)
    ensures Runs(ParityDelta, "q0", w) && Runs(ParityDelta, "q1", w)
    ensures Compute(ParityDelta, "q0", w) == (if |w| % 2 == 0 then "q0" else "q1")
    ensures Compute(ParityDelta, "q1", w) == (if |w| % 2 == 0 then "q1" else "q0")
    decreases |w|
  {
    if |w| > 0 {
      assert OverAB(w[1..]) by {
        forall i | 0 <= i < |w[1..]| ensures w[1..][i] == 'a' || w[1..][i] == 'b' {
          assert w[1..][i] == w[i + 1];
        }
      }
      ParityCompute(w[1..]);
      assert Only({"q0"}) == "q0" && Only({"q1"}) == "q1";
    }
  }

  /** `compute(q0, w) == q0` exactly when `w` has even length, so the parity
      automaton accepts exactly the even-length words over {a, b}. */
  lemma ParityAcceptsEven(w: seq<Symbol>)
    requires OverAB(w)
    ensures Runs(Parity().delta, Parity().initial, w)
    ensures Compute(ParityDelta, "q0", w) == "q0" <==> |w| % 2 == 0
    ensures Validate(Parity(), w) <==> |w| % 2 == 0
  {
    ParityCompute(w);
  }

  /** The two sentences of the unit test. */
  lemma ParityExamples()
    ensures Runs(Parity().delta, Parity().initial, "abab") && Validate(Parity(), "abab")
    ensures Runs(Parity().delta, Parity().initial, "ababa") && !Validate(Parity(), "ababa")
  {
    assert OverAB("abab") && OverAB("ababa");
    ParityAcceptsEven("abab");
    ParityAcceptsEven("ababa");
  }
}
