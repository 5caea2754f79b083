/** The grammar of the unit test in regular_sets/regular_grammar_tests.py,
    parsed token by token.  The test's text is these tokens joined by single
    spaces. */
module GrammarExamples {

  import opened Automaton
  import opened Grammar

  const TestTokens: seq<string> :=
    ["S1", "->", "aA", "|", "aB", "|", "aC", "|", "bB", "|", "bC", "|", "cC", "|", "a", "|", "b", "|", "c", "|", "&",
     "A", "->", "aA", "|", "aB", "|", "aC", "|", "a",
     "B", "->", "bB", "|", "bC", "|", "b",
     "C", "->", "cC", "|", "c"]

  // One lemma per kind of token: what a single loop iteration does to the state.

  lemma StepSeparator(ts: seq<string>, i: int, acc: ParseState)
    requires WellSplit(ts) && 0 <= i < |ts| - 1 && ts[i] == "|"
    ensures Step(ts, i, acc) == acc
  {
    assert !HasUpperLetter("|");
  }

  lemma StepNonTerminal(ts: seq<string>, i: int, acc: ParseState)
    requires WellSplit(ts) && 0 <= i < |ts| - 1 && IsUpper(ts[i]) && ts[i] != "->"
    ensures Step(ts, i, acc) == acc.(nonTerminals := acc.nonTerminals + {ts[i]})
  {
  }

  lemma StepRhs(ts: seq<string>, i: int, acc: ParseState)
    requires WellSplit(ts) && 0 < i < |ts| - 1 && !IsUpper(ts[i]) && ts[i] != "->" && ts[i] != "|"
    ensures Step(ts, i, acc) == acc.(beta := acc.beta + {ts[i]}, terminals := acc.terminals + {ts[i][0]})
  {
  }

  lemma StepArrow(ts: seq<string>, i: int, acc: ParseState)
    requires WellSplit(ts) && 0 <= i < |ts| - 1 && ts[i] == "->"
    ensures Step(ts, i, acc) == acc.(alfa := Before(ts, i), beta := {},
      productions := if |acc.beta| > 0 then acc.productions[acc.alfa := acc.beta] else acc.productions)
  {
    assert !HasUpperLetter("->");
  }

  lemma StepLast(ts: seq<string>, i: int, acc: ParseState)
    requires WellSplit(ts) && 0 < i == |ts| - 1 && !IsUpper(ts[i]) && ts[i] != "->" && ts[i] != "|"
    ensures Step(ts, i, acc) == acc.(alfa := Before(ts, i), beta := {}, terminals := acc.terminals + {ts[i][0]},
      productions := acc.productions[acc.alfa := acc.beta + {ts[i]}])
  {
  }

  // The loop over the test tokens.  `IterationK` states the loop state after
  // the token at position K from the state before it, and `IterationsXToY`
  // chains seven of them through `FoldStep`.  The states are written out in
  // full at every step: each lemma then asks the solver for one iteration on
  // known values, whereas unfolding the loop over the literal token list, or
  // proving several iterations in one lemma, costs many times more.

  lemma TestTokensWellSplit()
    ensures WellSplit(TestTokens)
  {
  }

  lemma TestTokensSpaceFree()
    ensures forall i :: 0 <= i < |TestTokens| ==> ' ' !in TestTokens[i]
  {
  }

  /** One iteration of the fold, taken out of `ParseFrom`. */
  lemma FoldStep(ts: seq<string>, i: int, acc: ParseState, acc': ParseState)
    requires WellSplit(ts) && 0 <= i < |ts| && Step(ts, i, acc) == acc'
    ensures ParseFrom(ts, i, acc) == ParseFrom(ts, i + 1, acc')
  {
  }

  lemma Iteration0(ts: seq<string>)
    requires ts == TestTokens && WellSplit(ts)
    ensures Step(ts, 0, ParseState({}, {}, "", {}, map[]))
         == ParseState({"S1"}, {}, "", {}, map[])
  {
    assert ts[0] == "S1";
    assert IsUpper("S1");
    StepNonTerminal(ts, 0, ParseState({}, {}, "", {}, map[]));
  }

  lemma Iteration1(ts: seq<string>)
    requires ts == TestTokens && WellSplit(ts)
    ensures Step(ts, 1, ParseState({"S1"}, {}, "", {}, map[]))
         == ParseState({"S1"}, {}, "S1", {}, map[])
  {
    assert ts[1] == "->";
    StepArrow(ts, 1, ParseState({"S1"}, {}, "", {}, map[]));
  }

  lemma Iteration2(ts: seq<string>)
    requires ts == TestTokens && WellSplit(ts)
    ensures Step(ts, 2, ParseState({"S1"}, {}, "S1", {}, map[]))
         == ParseState({"S1"}, {'a'}, "S1", {"aA"}, map[])
  {
    assert ts[2] == "aA";
    assert !IsUpper("aA");
    StepRhs(ts, 2, ParseState({"S1"}, {}, "S1", {}, map[]));
  }

  lemma Iteration3(ts: seq<string>)
    requires ts == TestTokens && WellSplit(ts)
    ensures Step(ts, 3, ParseState({"S1"}, {'a'}, "S1", {"aA"}, map[]))
         == ParseState({"S1"}, {'a'}, "S1", {"aA"}, map[])
  {
    assert ts[3] == "|";
    StepSeparator(ts, 3, ParseState({"S1"}, {'a'}, "S1", {"aA"}, map[]));
  }

  lemma Iteration4(ts: seq<string>)
    requires ts == TestTokens && WellSplit(ts)
    ensures Step(ts, 4, ParseState({"S1"}, {'a'}, "S1", {"aA"}, map[]))
         == ParseState({"S1"}, {'a'}, "S1", {"aA", "aB"}, map[])
  {
    assert ts[4] == "aB";
    assert !IsUpper("aB");
    StepRhs(ts, 4, ParseState({"S1"}, {'a'}, "S1", {"aA"}, map[]));
  }

  lemma Iteration5(ts: seq<string>)
    requires ts == TestTokens && WellSplit(ts)
    ensures Step(ts, 5, ParseState({"S1"}, {'a'}, "S1", {"aA", "aB"}, map[]))
         == ParseState({"S1"}, {'a'}, "S1", {"aA", "aB"}, map[])
  {
    assert ts[5] == "|";
    StepSeparator(ts, 5, ParseState({"S1"}, {'a'}, "S1", {"aA", "aB"}, map[]));
  }

  lemma Iteration6(ts: seq<string>)
    requires ts == TestTokens && WellSplit(ts)
    ensures Step(ts, 6, ParseState({"S1"}, {'a'}, "S1", {"aA", "aB"}, map[]))
         == ParseState({"S1"}, {'a'}, "S1", {"aA", "aB", "aC"}, map[])
  {
    assert ts[6] == "aC";
    assert !IsUpper("aC");
    StepRhs(ts, 6, ParseState({"S1"}, {'a'}, "S1", {"aA", "aB"}, map[]));
  }

  lemma Iteration7(ts: seq<string>)
    requires ts == TestTokens && WellSplit(ts)
    ensures Step(ts, 7, ParseState({"S1"}, {'a'}, "S1", {"aA", "aB", "aC"}, map[]))
         == ParseState({"S1"}, {'a'}, "S1", {"aA", "aB", "aC"}, map[])
  {
    assert ts[7] == "|";
    StepSeparator(ts, 7, ParseState({"S1"}, {'a'}, "S1", {"aA", "aB", "aC"}, map[]));
  }

  lemma Iteration8(ts: seq<string>)
    requires ts == TestTokens && WellSplit(ts)
    ensures Step(ts, 8, ParseState({"S1"}, {'a'}, "S1", {"aA", "aB", "aC"}, map[]))
         == ParseState({"S1"}, {'a', 'b'}, "S1", {"aA", "aB", "aC", "bB"}, map[])
  {
    assert ts[8] == "bB";
    assert !IsUpper("bB");
    StepRhs(ts, 8, ParseState({"S1"}, {'a'}, "S1", {"aA", "aB", "aC"}, map[]));
  }

  lemma Iteration9(ts: seq<string>)
    requires ts == TestTokens && WellSplit(ts)
    ensures Step(ts, 9, ParseState({"S1"}, {'a', 'b'}, "S1", {"aA", "aB", "aC", "bB"}, map[]))
         == ParseState({"S1"}, {'a', 'b'}, "S1", {"aA", "aB", "aC", "bB"}, map[])
  {
    assert ts[9] == "|";
    StepSeparator(ts, 9, ParseState({"S1"}, {'a', 'b'}, "S1", {"aA", "aB", "aC", "bB"}, map[]));
  }

  lemma Iteration10(ts: seq<string>)
    requires ts == TestTokens && WellSplit(ts)
    ensures Step(ts, 10, ParseState({"S1"}, {'a', 'b'}, "S1", {"aA", "aB", "aC", "bB"}, map[]))
         == ParseState({"S1"}, {'a', 'b'}, "S1", {"aA", "aB", "aC", "bB", "bC"}, map[])
  {
    assert ts[10] == "bC";
    assert !IsUpper("bC");
    StepRhs(ts, 10, ParseState({"S1"}, {'a', 'b'}, "S1", {"aA", "aB", "aC", "bB"}, map[]));
  }

  lemma Iteration11(ts: seq<string>)
    requires ts == TestTokens && WellSplit(ts)
    ensures Step(ts, 11, ParseState({"S1"}, {'a', 'b'}, "S1", {"aA", "aB", "aC", "bB", "bC"}, map[]))
         == ParseState({"S1"}, {'a', 'b'}, "S1", {"aA", "aB", "aC", "bB", "bC"}, map[])
  {
    assert ts[11] == "|";
    StepSeparator(ts, 11, ParseState({"S1"}, {'a', 'b'}, "S1", {"aA", "aB", "aC", "bB", "bC"}, map[]));
  }

  lemma Iteration12(ts: seq<string>)
    requires ts == TestTokens && WellSplit(ts)
    ensures Step(ts, 12, ParseState({"S1"}, {'a', 'b'}, "S1", {"aA", "aB", "aC", "bB", "bC"}, map[]))
         == ParseState({"S1"}, {'a', 'b', 'c'}, "S1", {"aA", "aB", "aC", "bB", "bC", "cC"}, map[])
  {
    assert ts[12] == "cC";
    assert !IsUpper("cC");
    StepRhs(ts, 12, ParseState({"S1"}, {'a', 'b'}, "S1", {"aA", "aB", "aC", "bB", "bC"}, map[]));
  }

  lemma Iteration13(ts: seq<string>)
    requires ts == TestTokens && WellSplit(ts)
    ensures Step(ts, 13, ParseState({"S1"}, {'a', 'b', 'c'}, "S1", {"aA", "aB", "aC", "bB", "bC", "cC"}, map[]))
         == ParseState({"S1"}, {'a', 'b', 'c'}, "S1", {"aA", "aB", "aC", "bB", "bC", "cC"}, map[])
  {
    assert ts[13] == "|";
    StepSeparator(ts, 13, ParseState({"S1"}, {'a', 'b', 'c'}, "S1", {"aA", "aB", "aC", "bB", "bC", "cC"}, map[]));
  }

  lemma Iteration14(ts: seq<string>)
    requires ts == TestTokens && WellSplit(ts)
    ensures Step(ts, 14, ParseState({"S1"}, {'a', 'b', 'c'}, "S1", {"aA", "aB", "aC", "bB", "bC", "cC"}, map[]))
         == ParseState({"S1"}, {'a', 'b', 'c'}, "S1", {"aA", "aB", "aC", "bB", "bC", "cC", "a"}, map[])
  {
    assert ts[14] == "a";
    assert !IsUpper("a");
    StepRhs(ts, 14, ParseState({"S1"}, {'a', 'b', 'c'}, "S1", {"aA", "aB", "aC", "bB", "bC", "cC"}, map[]));
  }

  lemma Iteration15(ts: seq<string>)
    requires ts == TestTokens && WellSplit(ts)
    ensures Step(ts, 15, ParseState({"S1"}, {'a', 'b', 'c'}, "S1", {"aA", "aB", "aC", "bB", "bC", "cC", "a"}, map[]))
         == ParseState({"S1"}, {'a', 'b', 'c'}, "S1", {"aA", "aB", "aC", "bB", "bC", "cC", "a"}, map[])
  {
    assert ts[15] == "|";
    StepSeparator(ts, 15, ParseState({"S1"}, {'a', 'b', 'c'}, "S1", {"aA", "aB", "aC", "bB", "bC", "cC", "a"}, map[]));
  }

  lemma Iteration16(ts: seq<string>)
    requires ts == TestTokens && WellSplit(ts)
    ensures Step(ts, 16, ParseState({"S1"}, {'a', 'b', 'c'}, "S1", {"aA", "aB", "aC", "bB", "bC", "cC", "a"}, map[]))
         == ParseState({"S1"}, {'a', 'b', 'c'}, "S1", {"aA", "aB", "aC", "bB", "bC", "cC", "a", "b"}, map[])
  {
    assert ts[16] == "b";
    assert !IsUpper("b");
    StepRhs(ts, 16, ParseState({"S1"}, {'a', 'b', 'c'}, "S1", {"aA", "aB", "aC", "bB", "bC", "cC", "a"}, map[]));
  }

  lemma Iteration17(ts: seq<string>)
    requires ts == TestTokens && WellSplit(ts)
    ensures Step(ts, 17, ParseState({"S1"}, {'a', 'b', 'c'}, "S1", {"aA", "aB", "aC", "bB", "bC", "cC", "a", "b"}, map[]))
         == ParseState({"S1"}, {'a', 'b', 'c'}, "S1", {"aA", "aB", "aC", "bB", "bC", "cC", "a", "b"}, map[])
  {
    assert ts[17] == "|";
    StepSeparator(ts, 17, ParseState({"S1"}, {'a', 'b', 'c'}, "S1", {"aA", "aB", "aC", "bB", "bC", "cC", "a", "b"}, map[]));
  }

  lemma Iteration18(ts: seq<string>)
    requires ts == TestTokens && WellSplit(ts)
    ensures Step(ts, 18, ParseState({"S1"}, {'a', 'b', 'c'}, "S1", {"aA", "aB", "aC", "bB", "bC", "cC", "a", "b"}, map[]))
         == ParseState({"S1"}, {'a', 'b', 'c'}, "S1", {"aA", "aB", "aC", "bB", "bC", "cC", "a", "b", "c"}, map[])
  {
    assert ts[18] == "c";
    assert !IsUpper("c");
    StepRhs(ts, 18, ParseState({"S1"}, {'a', 'b', 'c'}, "S1", {"aA", "aB", "aC", "bB", "bC", "cC", "a", "b"}, map[]));
  }

  lemma Iteration19(ts: seq<string>)
    requires ts == TestTokens && WellSplit(ts)
    ensures Step(ts, 19, ParseState({"S1"}, {'a', 'b', 'c'}, "S1", {"aA", "aB", "aC", "bB", "bC", "cC", "a", "b", "c"}, map[]))
         == ParseState({"S1"}, {'a', 'b', 'c'}, "S1", {"aA", "aB", "aC", "bB", "bC", "cC", "a", "b", "c"}, map[])
  {
    assert ts[19] == "|";
    StepSeparator(ts, 19, ParseState({"S1"}, {'a', 'b', 'c'}, "S1", {"aA", "aB", "aC", "bB", "bC", "cC", "a", "b", "c"}, map[]));
  }

  lemma Iteration20(ts: seq<string>)
    requires ts == TestTokens && WellSplit(ts)
    ensures Step(ts, 20, ParseState({"S1"}, {'a', 'b', 'c'}, "S1", {"aA", "aB", "aC", "bB", "bC", "cC", "a", "b", "c"}, map[]))
         == ParseState({"S1"}, {'a', 'b', 'c', '&'}, "S1", {"aA", "aB", "aC", "bB", "bC", "cC", "a", "b", "c", "&"}, map[])
  {
    assert ts[20] == "&";
    assert !IsUpper("&");
    StepRhs(ts, 20, ParseState({"S1"}, {'a', 'b', 'c'}, "S1", {"aA", "aB", "aC", "bB", "bC", "cC", "a", "b", "c"}, map[]));
  }

  lemma Iteration21(ts: seq<string>)
    requires ts == TestTokens && WellSplit(ts)
    ensures Step(ts, 21, ParseState({"S1"}, {'a', 'b', 'c', '&'}, "S1", {"aA", "aB", "aC", "bB", "bC", "cC", "a", "b", "c", "&"}, map[]))
         == ParseState({"S1", "A"}, {'a', 'b', 'c', '&'}, "S1", {"aA", "aB", "aC", "bB", "bC", "cC", "a", "b", "c", "&"}, map[])
  {
    assert ts[21] == "A";
    assert IsUpper("A");
    StepNonTerminal(ts, 21, ParseState({"S1"}, {'a', 'b', 'c', '&'}, "S1", {"aA", "aB", "aC", "bB", "bC", "cC", "a", "b", "c", "&"}, map[]));
  }

  lemma Iteration22(ts: seq<string>)
    requires ts == TestTokens && WellSplit(ts)
    ensures Step(ts, 22, ParseState({"S1", "A"}, {'a', 'b', 'c', '&'}, "S1", {"aA", "aB", "aC", "bB", "bC", "cC", "a", "b", "c", "&"}, map[]))
         == ParseState({"S1", "A"}, {'a', 'b', 'c', '&'}, "A", {}, map["S1" := {"aA", "aB", "aC", "bB", "bC", "cC", "a", "b", "c", "&"}])
  {
    assert ts[22] == "->";
    StepArrow(ts, 22, ParseState({"S1", "A"}, {'a', 'b', 'c', '&'}, "S1", {"aA", "aB", "aC", "bB", "bC", "cC", "a", "b", "c", "&"}, map[]));
  }

  lemma Iteration23(ts: seq<string>)
    requires ts == TestTokens && WellSplit(ts)
    ensures Step(ts, 23, ParseState({"S1", "A"}, {'a', 'b', 'c', '&'}, "A", {}, map["S1" := {"aA", "aB", "aC", "bB", "bC", "cC", "a", "b", "c", "&"}]))
         == ParseState({"S1", "A"}, {'a', 'b', 'c', '&'}, "A", {"aA"}, map["S1" := {"aA", "aB", "aC", "bB", "bC", "cC", "a", "b", "c", "&"}])
  {
    assert ts[23] == "aA";
    assert !IsUpper("aA");
    StepRhs(ts, 23, ParseState({"S1", "A"}, {'a', 'b', 'c', '&'}, "A", {}, map["S1" := {"aA", "aB", "aC", "bB", "bC", "cC", "a", "b", "c", "&"}]));
  }

  lemma Iteration24(ts: seq<string>)
    requires ts == TestTokens && WellSplit(ts)
    ensures Step(ts, 24, ParseState({"S1", "A"}, {'a', 'b', 'c', '&'}, "A", {"aA"}, map["S1" := {"aA", "aB", "aC", "bB", "bC", "cC", "a", "b", "c", "&"}]))
         == ParseState({"S1", "A"}, {'a', 'b', 'c', '&'}, "A", {"aA"}, map["S1" := {"aA", "aB", "aC", "bB", "bC", "cC", "a", "b", "c", "&"}])
  {
    assert ts[24] == "|";
    StepSeparator(ts, 24, ParseState({"S1", "A"}, {'a', 'b', 'c', '&'}, "A", {"aA"}, map["S1" := {"aA", "aB", "aC", "bB", "bC", "cC", "a", "b", "c", "&"}]));
  }

  lemma Iteration25(ts: seq<string>)
    requires ts == TestTokens && WellSplit(ts)
    ensures Step(ts, 25, ParseState({"S1", "A"}, {'a', 'b', 'c', '&'}, "A", {"aA"}, map["S1" := {"aA", "aB", "aC", "bB", "bC", "cC", "a", "b", "c", "&"}]))
         == ParseState({"S1", "A"}, {'a', 'b', 'c', '&'}, "A", {"aA", "aB"}, map["S1" := {"aA", "aB", "aC", "bB", "bC", "cC", "a", "b", "c", "&"}])
  {
    assert ts[25] == "aB";
    assert !IsUpper("aB");
    StepRhs(ts, 25, ParseState({"S1", "A"}, {'a', 'b', 'c', '&'}, "A", {"aA"}, map["S1" := {"aA", "aB", "aC", "bB", "bC", "cC", "a", "b", "c", "&"}]));
  }

  lemma Iteration26(ts: seq<string>)
    requires ts == TestTokens && WellSplit(ts)
    ensures Step(ts, 26, ParseState({"S1", "A"}, {'a', 'b', 'c', '&'}, "A", {"aA", "aB"}, map["S1" := {"aA", "aB", "aC", "bB", "bC", "cC", "a", "b", "c", "&"}]))
         == ParseState({"S1", "A"}, {'a', 'b', 'c', '&'}, "A", {"aA", "aB"}, map["S1" := {"aA", "aB", "aC", "bB", "bC", "cC", "a", "b", "c", "&"}])
  {
    assert ts[26] == "|";
    StepSeparator(ts, 26, ParseState({"S1", "A"}, {'a', 'b', 'c', '&'}, "A", {"aA", "aB"}, map["S1" := {"aA", "aB", "aC", "bB", "bC", "cC", "a", "b", "c", "&"}]));
  }

  lemma Iteration27(ts: seq<string>)
    requires ts == TestTokens && WellSplit(ts)
    ensures Step(ts, 27, ParseState({"S1", "A"}, {'a', 'b', 'c', '&'}, "A", {"aA", "aB"}, map["S1" := {"aA", "aB", "aC", "bB", "bC", "cC", "a", "b", "c", "&"}]))
         == ParseState({"S1", "A"}, {'a', 'b', 'c', '&'}, "A", {"aA", "aB", "aC"}, map["S1" := {"aA", "aB", "aC", "bB", "bC", "cC", "a", "b", "c", "&"}])
  {
    assert ts[27] == "aC";
    assert !IsUpper("aC");
    StepRhs(ts, 27, ParseState({"S1", "A"}, {'a', 'b', 'c', '&'}, "A", {"aA", "aB"}, map["S1" := {"aA", "aB", "aC", "bB", "bC", "cC", "a", "b", "c", "&"}]));
  }

  lemma Iteration28(ts: seq<string>)
    requires ts == TestTokens && WellSplit(ts)
    ensures Step(ts, 28, ParseState({"S1", "A"}, {'a', 'b', 'c', '&'}, "A", {"aA", "aB", "aC"}, map["S1" := {"aA", "aB", "aC", "bB", "bC", "cC", "a", "b", "c", "&"}]))
         == ParseState({"S1", "A"}, {'a', 'b', 'c', '&'}, "A", {"aA", "aB", "aC"}, map["S1" := {"aA", "aB", "aC", "bB", "bC", "cC", "a", "b", "c", "&"}])
  {
    assert ts[28] == "|";
    StepSeparator(ts, 28, ParseState({"S1", "A"}, {'a', 'b', 'c', '&'}, "A", {"aA", "aB", "aC"}, map["S1" := {"aA", "aB", "aC", "bB", "bC", "cC", "a", "b", "c", "&"}]));
  }

  lemma Iteration29(ts: seq<string>)
    requires ts == TestTokens && WellSplit(ts)
    ensures Step(ts, 29, ParseState({"S1", "A"}, {'a', 'b', 'c', '&'}, "A", {"aA", "aB", "aC"}, map["S1" := {"aA", "aB", "aC", "bB", "bC", "cC", "a", "b", "c", "&"}]))
         == ParseState({"S1", "A"}, {'a', 'b', 'c', '&'}, "A", {"aA", "aB", "aC", "a"}, map["S1" := {"aA", "aB", "aC", "bB", "bC", "cC", "a", "b", "c", "&"}])
  {
    assert ts[29] == "a";
    assert !IsUpper("a");
    StepRhs(ts, 29, ParseState({"S1", "A"}, {'a', 'b', 'c', '&'}, "A", {"aA", "aB", "aC"}, map["S1" := {"aA", "aB", "aC", "bB", "bC", "cC", "a", "b", "c", "&"}]));
  }

  lemma Iteration30(ts: seq<string>)
    requires ts == TestTokens && WellSplit(ts)
    ensures Step(ts, 30, ParseState({"S1", "A"}, {'a', 'b', 'c', '&'}, "A", {"aA", "aB", "aC", "a"}, map["S1" := {"aA", "aB", "aC", "bB", "bC", "cC", "a", "b", "c", "&"}]))
         == ParseState({"S1", "A", "B"}, {'a', 'b', 'c', '&'}, "A", {"aA", "aB", "aC", "a"}, map["S1" := {"aA", "aB", "aC", "bB", "bC", "cC", "a", "b", "c", "&"}])
  {
    assert ts[30] == "B";
    assert IsUpper("B");
    StepNonTerminal(ts, 30, ParseState({"S1", "A"}, {'a', 'b', 'c', '&'}, "A", {"aA", "aB", "aC", "a"}, map["S1" := {"aA", "aB", "aC", "bB", "bC", "cC", "a", "b", "c", "&"}]));
  }

  lemma Iteration31(ts: seq<string>)
    requires ts == TestTokens && WellSplit(ts)
    ensures Step(ts, 31, ParseState({"S1", "A", "B"}, {'a', 'b', 'c', '&'}, "A", {"aA", "aB", "aC", "a"}, map["S1" := {"aA", "aB", "aC", "bB", "bC", "cC", "a", "b", "c", "&"}]))
         == ParseState({"S1", "A", "B"}, {'a', 'b', 'c', '&'}, "B", {}, map["S1" := {"aA", "aB", "aC", "bB", "bC", "cC", "a", "b", "c", "&"}, "A" := {"aA", "aB", "aC", "a"}])
  {
    assert ts[31] == "->";
    StepArrow(ts, 31, ParseState({"S1", "A", "B"}, {'a', 'b', 'c', '&'}, "A", {"aA", "aB", "aC", "a"}, map["S1" := {"aA", "aB", "aC", "bB", "bC", "cC", "a", "b", "c", "&"}]));
  }

  lemma Iteration32(ts: seq<string>)
    requires ts == TestTokens && WellSplit(ts)
    ensures Step(ts, 32, ParseState({"S1", "A", "B"}, {'a', 'b', 'c', '&'}, "B", {}, map["S1" := {"aA", "aB", "aC", "bB", "bC", "cC", "a", "b", "c", "&"}, "A" := {"aA", "aB", "aC", "a"}]))
         == ParseState({"S1", "A", "B"}, {'a', 'b', 'c', '&'}, "B", {"bB"}, map["S1" := {"aA", "aB", "aC", "bB", "bC", "cC", "a", "b", "c", "&"}, "A" := {"aA", "aB", "aC", "a"}])
  {
    assert ts[32] == "bB";
    assert !IsUpper("bB");
    StepRhs(ts, 32, ParseState({"S1", "A", "B"}, {'a', 'b', 'c', '&'}, "B", {}, map["S1" := {"aA", "aB", "aC", "bB", "bC", "cC", "a", "b", "c", "&"}, "A" := {"aA", "aB", "aC", "a"}]));
  }

  lemma Iteration33(ts: seq<string>)
    requires ts == TestTokens && WellSplit(ts)
    ensures Step(ts, 33, ParseState({"S1", "A", "B"}, {'a', 'b', 'c', '&'}, "B", {"bB"}, map["S1" := {"aA", "aB", "aC", "bB", "bC", "cC", "a", "b", "c", "&"}, "A" := {"aA", "aB", "aC", "a"}]))
         == ParseState({"S1", "A", "B"}, {'a', 'b', 'c', '&'}, "B", {"bB"}, map["S1" := {"aA", "aB", "aC", "bB", "bC", "cC", "a", "b", "c", "&"}, "A" := {"aA", "aB", "aC", "a"}])
  {
    assert ts[33] == "|";
    StepSeparator(ts, 33, ParseState({"S1", "A", "B"}, {'a', 'b', 'c', '&'}, "B", {"bB"}, map["S1" := {"aA", "aB", "aC", "bB", "bC", "cC", "a", "b", "c", "&"}, "A" := {"aA", "aB", "aC", "a"}]));
  }

  lemma Iteration34(ts: seq<string>)
    requires ts == TestTokens && WellSplit(ts)
    ensures Step(ts, 34, ParseState({"S1", "A", "B"}, {'a', 'b', 'c', '&'}, "B", {"bB"}, map["S1" := {"aA", "aB", "aC", "bB", "bC", "cC", "a", "b", "c", "&"}, "A" := {"aA", "aB", "aC", "a"}]))
         == ParseState({"S1", "A", "B"}, {'a', 'b', 'c', '&'}, "B", {"bB", "bC"}, map["S1" := {"aA", "aB", "aC", "bB", "bC", "cC", "a", "b", "c", "&"}, "A" := {"aA", "aB", "aC", "a"}])
  {
    assert ts[34] == "bC";
    assert !IsUpper("bC");
    StepRhs(ts, 34, ParseState({"S1", "A", "B"}, {'a', 'b', 'c', '&'}, "B", {"bB"}, map["S1" := {"aA", "aB", "aC", "bB", "bC", "cC", "a", "b", "c", "&"}, "A" := {"aA", "aB", "aC", "a"}]));
  }

  lemma Iteration35(ts: seq<string>)
    requires ts == TestTokens && WellSplit(ts)
    ensures Step(ts, 35, ParseState({"S1", "A", "B"}, {'a', 'b', 'c', '&'}, "B", {"bB", "bC"}, map["S1" := {"aA", "aB", "aC", "bB", "bC", "cC", "a", "b", "c", "&"}, "A" := {"aA", "aB", "aC", "a"}]))
         == ParseState({"S1", "A", "B"}, {'a', 'b', 'c', '&'}, "B", {"bB", "bC"}, map["S1" := {"aA", "aB", "aC", "bB", "bC", "cC", "a", "b", "c", "&"}, "A" := {"aA", "aB", "aC", "a"}])
  {
    assert ts[35] == "|";
    StepSeparator(ts, 35, ParseState({"S1", "A", "B"}, {'a', 'b', 'c', '&'}, "B", {"bB", "bC"}, map["S1" := {"aA", "aB", "aC", "bB", "bC", "cC", "a", "b", "c", "&"}, "A" := {"aA", "aB", "aC", "a"}]));
  }

  lemma Iteration36(ts: seq<string>)
    requires ts == TestTokens && WellSplit(ts)
    ensures Step(ts, 36, ParseState({"S1", "A", "B"}, {'a', 'b', 'c', '&'}, "B", {"bB", "bC"}, map["S1" := {"aA", "aB", "aC", "bB", "bC", "cC", "a", "b", "c", "&"}, "A" := {"aA", "aB", "aC", "a"}]))
         == ParseState({"S1", "A", "B"}, {'a', 'b', 'c', '&'}, "B", {"bB", "bC", "b"}, map["S1" := {"aA", "aB", "aC", "bB", "bC", "cC", "a", "b", "c", "&"}, "A" := {"aA", "aB", "aC", "a"}])
  {
    assert ts[36] == "b";
    assert !IsUpper("b");
    StepRhs(ts, 36, ParseState({"S1", "A", "B"}, {'a', 'b', 'c', '&'}, "B", {"bB", "bC"}, map["S1" := {"aA", "aB", "aC", "bB", "bC", "cC", "a", "b", "c", "&"}, "A" := {"aA", "aB", "aC", "a"}]));
  }

  lemma Iteration37(ts: seq<string>)
    requires ts == TestTokens && WellSplit(ts)
    ensures Step(ts, 37, ParseState({"S1", "A", "B"}, {'a', 'b', 'c', '&'}, "B", {"bB", "bC", "b"}, map["S1" := {"aA", "aB", "aC", "bB", "bC", "cC", "a", "b", "c", "&"}, "A" := {"aA", "aB", "aC", "a"}]))
         == ParseState({"S1", "A", "B", "C"}, {'a', 'b', 'c', '&'}, "B", {"bB", "bC", "b"}, map["S1" := {"aA", "aB", "aC", "bB", "bC", "cC", "a", "b", "c", "&"}, "A" := {"aA", "aB", "aC", "a"}])
  {
    assert ts[37] == "C";
    assert IsUpper("C");
    StepNonTerminal(ts, 37, ParseState({"S1", "A", "B"}, {'a', 'b', 'c', '&'}, "B", {"bB", "bC", "b"}, map["S1" := {"aA", "aB", "aC", "bB", "bC", "cC", "a", "b", "c", "&"}, "A" := {"aA", "aB", "aC", "a"}]));
  }

  lemma Iteration38(ts: seq<string>)
    requires ts == TestTokens && WellSplit(ts)
    ensures Step(ts, 38, ParseState({"S1", "A", "B", "C"}, {'a', 'b', 'c', '&'}, "B", {"bB", "bC", "b"}, map["S1" := {"aA", "aB", "aC", "bB", "bC", "cC", "a", "b", "c", "&"}, "A" := {"aA", "aB", "aC", "a"}]))
         == ParseState({"S1", "A", "B", "C"}, {'a', 'b', 'c', '&'}, "C", {}, map["S1" := {"aA", "aB", "aC", "bB", "bC", "cC", "a", "b", "c", "&"}, "A" := {"aA", "aB", "aC", "a"}, "B" := {"bB", "bC", "b"}])
  {
    assert ts[38] == "->";
    StepArrow(ts, 38, ParseState({"S1", "A", "B", "C"}, {'a', 'b', 'c', '&'}, "B", {"bB", "bC", "b"}, map["S1" := {"aA", "aB", "aC", "bB", "bC", "cC", "a", "b", "c", "&"}, "A" := {"aA", "aB", "aC", "a"}]));
  }

  lemma Iteration39(ts: seq<string>)
    requires ts == TestTokens && WellSplit(ts)
    ensures Step(ts, 39, ParseState({"S1", "A", "B", "C"}, {'a', 'b', 'c', '&'}, "C", {}, map["S1" := {"aA", "aB", "aC", "bB", "bC", "cC", "a", "b", "c", "&"}, "A" := {"aA", "aB", "aC", "a"}, "B" := {"bB", "bC", "b"}]))
         == ParseState({"S1", "A", "B", "C"}, {'a', 'b', 'c', '&'}, "C", {"cC"}, map["S1" := {"aA", "aB", "aC", "bB", "bC", "cC", "a", "b", "c", "&"}, "A" := {"aA", "aB", "aC", "a"}, "B" := {"bB", "bC", "b"}])
  {
    assert ts[39] == "cC";
    assert !IsUpper("cC");
    StepRhs(ts, 39, ParseState({"S1", "A", "B", "C"}, {'a', 'b', 'c', '&'}, "C", {}, map["S1" := {"aA", "aB", "aC", "bB", "bC", "cC", "a", "b", "c", "&"}, "A" := {"aA", "aB", "aC", "a"}, "B" := {"bB", "bC", "b"}]));
  }

  lemma Iteration40(ts: seq<string>)
    requires ts == TestTokens && WellSplit(ts)
    ensures Step(ts, 40, ParseState({"S1", "A", "B", "C"}, {'a', 'b', 'c', '&'}, "C", {"cC"}, map["S1" := {"aA", "aB", "aC", "bB", "bC", "cC", "a", "b", "c", "&"}, "A" := {"aA", "aB", "aC", "a"}, "B" := {"bB", "bC", "b"}]))
         == ParseState({"S1", "A", "B", "C"}, {'a', 'b', 'c', '&'}, "C", {"cC"}, map["S1" := {"aA", "aB", "aC", "bB", "bC", "cC", "a", "b", "c", "&"}, "A" := {"aA", "aB", "aC", "a"}, "B" := {"bB", "bC", "b"}])
  {
    assert ts[40] == "|";
    StepSeparator(ts, 40, ParseState({"S1", "A", "B", "C"}, {'a', 'b', 'c', '&'}, "C", {"cC"}, map["S1" := {"aA", "aB", "aC", "bB", "bC", "cC", "a", "b", "c", "&"}, "A" := {"aA", "aB", "aC", "a"}, "B" := {"bB", "bC", "b"}]));
  }

  lemma Iteration41(ts: seq<string>)
    requires ts == TestTokens && WellSplit(ts)
    ensures Step(ts, 41, ParseState({"S1", "A", "B", "C"}, {'a', 'b', 'c', '&'}, "C", {"cC"}, map["S1" := {"aA", "aB", "aC", "bB", "bC", "cC", "a", "b", "c", "&"}, "A" := {"aA", "aB", "aC", "a"}, "B" := {"bB", "bC", "b"}]))
         == ParseState({"S1", "A", "B", "C"}, {'a', 'b', 'c', '&'}, "|", {}, map["S1" := {"aA", "aB", "aC", "bB", "bC", "cC", "a", "b", "c", "&"}, "A" := {"aA", "aB", "aC", "a"}, "B" := {"bB", "bC", "b"}, "C" := {"cC", "c"}])
  {
    assert ts[41] == "c";
    assert !IsUpper("c");
    assert {"cC"} + {"c"} == {"cC", "c"};
    StepLast(ts, 41, ParseState({"S1", "A", "B", "C"}, {'a', 'b', 'c', '&'}, "C", {"cC"}, map["S1" := {"aA", "aB", "aC", "bB", "bC", "cC", "a", "b", "c", "&"}, "A" := {"aA", "aB", "aC", "a"}, "B" := {"bB", "bC", "b"}]));
  }

  lemma Iterations0To7(ts: seq<string>)
    requires ts == TestTokens && WellSplit(ts)
    ensures ParseFrom(ts, 0, ParseState({}, {}, "", {}, map[]))
         == ParseFrom(ts, 7, ParseState({"S1"}, {'a'}, "S1", {"aA", "aB", "aC"}, map[]))
  {
    Iteration0(ts);
    FoldStep(ts, 0, ParseState({}, {}, "", {}, map[]), ParseState({"S1"}, {}, "", {}, map[]));
    Iteration1(ts);
    FoldStep(ts, 1, ParseState({"S1"}, {}, "", {}, map[]), ParseState({"S1"}, {}, "S1", {}, map[]));
    Iteration2(ts);
    FoldStep(ts, 2, ParseState({"S1"}, {}, "S1", {}, map[]), ParseState({"S1"}, {'a'}, "S1", {"aA"}, map[]));
    Iteration3(ts);
    FoldStep(ts, 3, ParseState({"S1"}, {'a'}, "S1", {"aA"}, map[]), ParseState({"S1"}, {'a'}, "S1", {"aA"}, map[]));
    Iteration4(ts);
    FoldStep(ts, 4, ParseState({"S1"}, {'a'}, "S1", {"aA"}, map[]), ParseState({"S1"}, {'a'}, "S1", {"aA", "aB"}, map[]));
    Iteration5(ts);
    FoldStep(ts, 5, ParseState({"S1"}, {'a'}, "S1", {"aA", "aB"}, map[]), ParseState({"S1"}, {'a'}, "S1", {"aA", "aB"}, map[]));
    Iteration6(ts);
    FoldStep(ts, 6, ParseState({"S1"}, {'a'}, "S1", {"aA", "aB"}, map[]), ParseState({"S1"}, {'a'}, "S1", {"aA", "aB", "aC"}, map[]));
  }

  lemma Iterations7To14(ts: seq<string>)
    requires ts == TestTokens && WellSplit(ts)
    ensures ParseFrom(ts, 7, ParseState({"S1"}, {'a'}, "S1", {"aA", "aB", "aC"}, map[]))
         == ParseFrom(ts, 14, ParseState({"S1"}, {'a', 'b', 'c'}, "S1", {"aA", "aB", "aC", "bB", "bC", "cC"}, map[]))
  {
    Iteration7(ts);
    FoldStep(ts, 7, ParseState({"S1"}, {'a'}, "S1", {"aA", "aB", "aC"}, map[]), ParseState({"S1"}, {'a'}, "S1", {"aA", "aB", "aC"}, map[]));
    Iteration8(ts);
    FoldStep(ts, 8, ParseState({"S1"}, {'a'}, "S1", {"aA", "aB", "aC"}, map[]), ParseState({"S1"}, {'a', 'b'}, "S1", {"aA", "aB", "aC", "bB"}, map[]));
    Iteration9(ts);
    FoldStep(ts, 9, ParseState({"S1"}, {'a', 'b'}, "S1", {"aA", "aB", "aC", "bB"}, map[]), ParseState({"S1"}, {'a', 'b'}, "S1", {"aA", "aB", "aC", "bB"}, map[]));
    Iteration10(ts);
    FoldStep(ts, 10, ParseState({"S1"}, {'a', 'b'}, "S1", {"aA", "aB", "aC", "bB"}, map[]), ParseState({"S1"}, {'a', 'b'}, "S1", {"aA", "aB", "aC", "bB", "bC"}, map[]));
    Iteration11(ts);
    FoldStep(ts, 11, ParseState({"S1"}, {'a', 'b'}, "S1", {"aA", "aB", "aC", "bB", "bC"}, map[]), ParseState({"S1"}, {'a', 'b'}, "S1", {"aA", "aB", "aC", "bB", "bC"}, map[]));
    Iteration12(ts);
    FoldStep(ts, 12, ParseState({"S1"}, {'a', 'b'}, "S1", {"aA", "aB", "aC", "bB", "bC"}, map[]), ParseState({"S1"}, {'a', 'b', 'c'}, "S1", {"aA", "aB", "aC", "bB", "bC", "cC"}, map[]));
    Iteration13(ts);
    FoldStep(ts, 13, ParseState({"S1"}, {'a', 'b', 'c'}, "S1", {"aA", "aB", "aC", "bB", "bC", "cC"}, map[]), ParseState({"S1"}, {'a', 'b', 'c'}, "S1", {"aA", "aB", "aC", "bB", "bC", "cC"}, map[]));
  }

  lemma Iterations14To21(ts: seq<string>)
    requires ts == TestTokens && WellSplit(ts)
    ensures ParseFrom(ts, 14, ParseState({"S1"}, {'a', 'b', 'c'}, "S1", {"aA", "aB", "aC", "bB", "bC", "cC"}, map[]))
         == ParseFrom(ts, 21, ParseState({"S1"}, {'a', 'b', 'c', '&'}, "S1", {"aA", "aB", "aC", "bB", "bC", "cC", "a", "b", "c", "&"}, map[]))
  {
    Iteration14(ts);
    FoldStep(ts, 14, ParseState({"S1"}, {'a', 'b', 'c'}, "S1", {"aA", "aB", "aC", "bB", "bC", "cC"}, map[]), ParseState({"S1"}, {'a', 'b', 'c'}, "S1", {"aA", "aB", "aC", "bB", "bC", "cC", "a"}, map[]));
    Iteration15(ts);
    FoldStep(ts, 15, ParseState({"S1"}, {'a', 'b', 'c'}, "S1", {"aA", "aB", "aC", "bB", "bC", "cC", "a"}, map[]), ParseState({"S1"}, {'a', 'b', 'c'}, "S1", {"aA", "aB", "aC", "bB", "bC", "cC", "a"}, map[]));
    Iteration16(ts);
    FoldStep(ts, 16, ParseState({"S1"}, {'a', 'b', 'c'}, "S1", {"aA", "aB", "aC", "bB", "bC", "cC", "a"}, map[]), ParseState({"S1"}, {'a', 'b', 'c'}, "S1", {"aA", "aB", "aC", "bB", "bC", "cC", "a", "b"}, map[]));
    Iteration17(ts);
    FoldStep(ts, 17, ParseState({"S1"}, {'a', 'b', 'c'}, "S1", {"aA", "aB", "aC", "bB", "bC", "cC", "a", "b"}, map[]), ParseState({"S1"}, {'a', 'b', 'c'}, "S1", {"aA", "aB", "aC", "bB", "bC", "cC", "a", "b"}, map[]));
    Iteration18(ts);
    FoldStep(ts, 18, ParseState({"S1"}, {'a', 'b', 'c'}, "S1", {"aA", "aB", "aC", "bB", "bC", "cC", "a", "b"}, map[]), ParseState({"S1"}, {'a', 'b', 'c'}, "S1", {"aA", "aB", "aC", "bB", "bC", "cC", "a", "b", "c"}, map[]));
    Iteration19(ts);
    FoldStep(ts, 19, ParseState({"S1"}, {'a', 'b', 'c'}, "S1", {"aA", "aB", "aC", "bB", "bC", "cC", "a", "b", "c"}, map[]), ParseState({"S1"}, {'a', 'b', 'c'}, "S1", {"aA", "aB", "aC", "bB", "bC", "cC", "a", "b", "c"}, map[]));
    Iteration20(ts);
    FoldStep(ts, 20, ParseState({"S1"}, {'a', 'b', 'c'}, "S1", {"aA", "aB", "aC", "bB", "bC", "cC", "a", "b", "c"}, map[]), ParseState({"S1"}, {'a', 'b', 'c', '&'}, "S1", {"aA", "aB", "aC", "bB", "bC", "cC", "a", "b", "c", "&"}, map[]));
  }

  lemma Iterations21To28(ts: seq<string>)
    requires ts == TestTokens && WellSplit(ts)
    ensures ParseFrom(ts, 21, ParseState({"S1"}, {'a', 'b', 'c', '&'}, "S1", {"aA", "aB", "aC", "bB", "bC", "cC", "a", "b", "c", "&"}, map[]))
         == ParseFrom(ts, 28, ParseState({"S1", "A"}, {'a', 'b', 'c', '&'}, "A", {"aA", "aB", "aC"}, map["S1" := {"aA", "aB", "aC", "bB", "bC", "cC", "a", "b", "c", "&"}]))
  {
    Iteration21(ts);
    FoldStep(ts, 21, ParseState({"S1"}, {'a', 'b', 'c', '&'}, "S1", {"aA", "aB", "aC", "bB", "bC", "cC", "a", "b", "c", "&"}, map[]), ParseState({"S1", "A"}, {'a', 'b', 'c', '&'}, "S1", {"aA", "aB", "aC", "bB", "bC", "cC", "a", "b", "c", "&"}, map[]));
    Iteration22(ts);
    FoldStep(ts, 22, ParseState({"S1", "A"}, {'a', 'b', 'c', '&'}, "S1", {"aA", "aB", "aC", "bB", "bC", "cC", "a", "b", "c", "&"}, map[]), ParseState({"S1", "A"}, {'a', 'b', 'c', '&'}, "A", {}, map["S1" := {"aA", "aB", "aC", "bB", "bC", "cC", "a", "b", "c", "&"}]));
    Iteration23(ts);
    FoldStep(ts, 23, ParseState({"S1", "A"}, {'a', 'b', 'c', '&'}, "A", {}, map["S1" := {"aA", "aB", "aC", "bB", "bC", "cC", "a", "b", "c", "&"}]), ParseState({"S1", "A"}, {'a', 'b', 'c', '&'}, "A", {"aA"}, map["S1" := {"aA", "aB", "aC", "bB", "bC", "cC", "a", "b", "c", "&"}]));
    Iteration24(ts);
    FoldStep(ts, 24, ParseState({"S1", "A"}, {'a', 'b', 'c', '&'}, "A", {"aA"}, map["S1" := {"aA", "aB", "aC", "bB", "bC", "cC", "a", "b", "c", "&"}]), ParseState({"S1", "A"}, {'a', 'b', 'c', '&'}, "A", {"aA"}, map["S1" := {"aA", "aB", "aC", "bB", "bC", "cC", "a", "b", "c", "&"}]));
    Iteration25(ts);
    FoldStep(ts, 25, ParseState({"S1", "A"}, {'a', 'b', 'c', '&'}, "A", {"aA"}, map["S1" := {"aA", "aB", "aC", "bB", "bC", "cC", "a", "b", "c", "&"}]), ParseState({"S1", "A"}, {'a', 'b', 'c', '&'}, "A", {"aA", "aB"}, map["S1" := {"aA", "aB", "aC", "bB", "bC", "cC", "a", "b", "c", "&"}]));
    Iteration26(ts);
    FoldStep(ts, 26, ParseState({"S1", "A"}, {'a', 'b', 'c', '&'}, "A", {"aA", "aB"}, map["S1" := {"aA", "aB", "aC", "bB", "bC", "cC", "a", "b", "c", "&"}]), ParseState({"S1", "A"}, {'a', 'b', 'c', '&'}, "A", {"aA", "aB"}, map["S1" := {"aA", "aB", "aC", "bB", "bC", "cC", "a", "b", "c", "&"}]));
    Iteration27(ts);
    FoldStep(ts, 27, ParseState({"S1", "A"}, {'a', 'b', 'c', '&'}, "A", {"aA", "aB"}, map["S1" := {"aA", "aB", "aC", "bB", "bC", "cC", "a", "b", "c", "&"}]), ParseState({"S1", "A"}, {'a', 'b', 'c', '&'}, "A", {"aA", "aB", "aC"}, map["S1" := {"aA", "aB", "aC", "bB", "bC", "cC", "a", "b", "c", "&"}]));
  }

  lemma Iterations28To35(ts: seq<string>)
    requires ts == TestTokens && WellSplit(ts)
    ensures ParseFrom(ts, 28, ParseState({"S1", "A"}, {'a', 'b', 'c', '&'}, "A", {"aA", "aB", "aC"}, map["S1" := {"aA", "aB", "aC", "bB", "bC", "cC", "a", "b", "c", "&"}]))
         == ParseFrom(ts, 35, ParseState({"S1", "A", "B"}, {'a', 'b', 'c', '&'}, "B", {"bB", "bC"}, map["S1" := {"aA", "aB", "aC", "bB", "bC", "cC", "a", "b", "c", "&"}, "A" := {"aA", "aB", "aC", "a"}]))
  {
    Iteration28(ts);
    FoldStep(ts, 28, ParseState({"S1", "A"}, {'a', 'b', 'c', '&'}, "A", {"aA", "aB", "aC"}, map["S1" := {"aA", "aB", "aC", "bB", "bC", "cC", "a", "b", "c", "&"}]), ParseState({"S1", "A"}, {'a', 'b', 'c', '&'}, "A", {"aA", "aB", "aC"}, map["S1" := {"aA", "aB", "aC", "bB", "bC", "cC", "a", "b", "c", "&"}]));
    Iteration29(ts);
    FoldStep(ts, 29, ParseState({"S1", "A"}, {'a', 'b', 'c', '&'}, "A", {"aA", "aB", "aC"}, map["S1" := {"aA", "aB", "aC", "bB", "bC", "cC", "a", "b", "c", "&"}]), ParseState({"S1", "A"}, {'a', 'b', 'c', '&'}, "A", {"aA", "aB", "aC", "a"}, map["S1" := {"aA", "aB", "aC", "bB", "bC", "cC", "a", "b", "c", "&"}]));
    Iteration30(ts);
    FoldStep(ts, 30, ParseState({"S1", "A"}, {'a', 'b', 'c', '&'}, "A", {"aA", "aB", "aC", "a"}, map["S1" := {"aA", "aB", "aC", "bB", "bC", "cC", "a", "b", "c", "&"}]), ParseState({"S1", "A", "B"}, {'a', 'b', 'c', '&'}, "A", {"aA", "aB", "aC", "a"}, map["S1" := {"aA", "aB", "aC", "bB", "bC", "cC", "a", "b", "c", "&"}]));
    Iteration31(ts);
    FoldStep(ts, 31, ParseState({"S1", "A", "B"}, {'a', 'b', 'c', '&'}, "A", {"aA", "aB", "aC", "a"}, map["S1" := {"aA", "aB", "aC", "bB", "bC", "cC", "a", "b", "c", "&"}]), ParseState({"S1", "A", "B"}, {'a', 'b', 'c', '&'}, "B", {}, map["S1" := {"aA", "aB", "aC", "bB", "bC", "cC", "a", "b", "c", "&"}, "A" := {"aA", "aB", "aC", "a"}]));
    Iteration32(ts);
    FoldStep(ts, 32, ParseState({"S1", "A", "B"}, {'a', 'b', 'c', '&'}, "B", {}, map["S1" := {"aA", "aB", "aC", "bB", "bC", "cC", "a", "b", "c", "&"}, "A" := {"aA", "aB", "aC", "a"}]), ParseState({"S1", "A", "B"}, {'a', 'b', 'c', '&'}, "B", {"bB"}, map["S1" := {"aA", "aB", "aC", "bB", "bC", "cC", "a", "b", "c", "&"}, "A" := {"aA", "aB", "aC", "a"}]));
    Iteration33(ts);
    FoldStep(ts, 33, ParseState({"S1", "A", "B"}, {'a', 'b', 'c', '&'}, "B", {"bB"}, map["S1" := {"aA", "aB", "aC", "bB", "bC", "cC", "a", "b", "c", "&"}, "A" := {"aA", "aB", "aC", "a"}]), ParseState({"S1", "A", "B"}, {'a', 'b', 'c', '&'}, "B", {"bB"}, map["S1" := {"aA", "aB", "aC", "bB", "bC", "cC", "a", "b", "c", "&"}, "A" := {"aA", "aB", "aC", "a"}]));
    Iteration34(ts);
    FoldStep(ts, 34, ParseState({"S1", "A", "B"}, {'a', 'b', 'c', '&'}, "B", {"bB"}, map["S1" := {"aA", "aB", "aC", "bB", "bC", "cC", "a", "b", "c", "&"}, "A" := {"aA", "aB", "aC", "a"}]), ParseState({"S1", "A", "B"}, {'a', 'b', 'c', '&'}, "B", {"bB", "bC"}, map["S1" := {"aA", "aB", "aC", "bB", "bC", "cC", "a", "b", "c", "&"}, "A" := {"aA", "aB", "aC", "a"}]));
  }

  lemma Iterations35To42(ts: seq<string>)
    requires ts == TestTokens && WellSplit(ts)
    ensures ParseFrom(ts, 35, ParseState({"S1", "A", "B"}, {'a', 'b', 'c', '&'}, "B", {"bB", "bC"}, map["S1" := {"aA", "aB", "aC", "bB", "bC", "cC", "a", "b", "c", "&"}, "A" := {"aA", "aB", "aC", "a"}]))
         == ParseFrom(ts, 42, ParseState({"S1", "A", "B", "C"}, {'a', 'b', 'c', '&'}, "|", {}, map["S1" := {"aA", "aB", "aC", "bB", "bC", "cC", "a", "b", "c", "&"}, "A" := {"aA", "aB", "aC", "a"}, "B" := {"bB", "bC", "b"}, "C" := {"cC", "c"}]))
  {
    Iteration35(ts);
    FoldStep(ts, 35, ParseState({"S1", "A", "B"}, {'a', 'b', 'c', '&'}, "B", {"bB", "bC"}, map["S1" := {"aA", "aB", "aC", "bB", "bC", "cC", "a", "b", "c", "&"}, "A" := {"aA", "aB", "aC", "a"}]), ParseState({"S1", "A", "B"}, {'a', 'b', 'c', '&'}, "B", {"bB", "bC"}, map["S1" := {"aA", "aB", "aC", "bB", "bC", "cC", "a", "b", "c", "&"}, "A" := {"aA", "aB", "aC", "a"}]));
    Iteration36(ts);
    FoldStep(ts, 36, ParseState({"S1", "A", "B"}, {'a', 'b', 'c', '&'}, "B", {"bB", "bC"}, map["S1" := {"aA", "aB", "aC", "bB", "bC", "cC", "a", "b", "c", "&"}, "A" := {"aA", "aB", "aC", "a"}]), ParseState({"S1", "A", "B"}, {'a', 'b', 'c', '&'}, "B", {"bB", "bC", "b"}, map["S1" := {"aA", "aB", "aC", "bB", "bC", "cC", "a", "b", "c", "&"}, "A" := {"aA", "aB", "aC", "a"}]));
    Iteration37(ts);
    FoldStep(ts, 37, ParseState({"S1", "A", "B"}, {'a', 'b', 'c', '&'}, "B", {"bB", "bC", "b"}, map["S1" := {"aA", "aB", "aC", "bB", "bC", "cC", "a", "b", "c", "&"}, "A" := {"aA", "aB", "aC", "a"}]), ParseState({"S1", "A", "B", "C"}, {'a', 'b', 'c', '&'}, "B", {"bB", "bC", "b"}, map["S1" := {"aA", "aB", "aC", "bB", "bC", "cC", "a", "b", "c", "&"}, "A" := {"aA", "aB", "aC", "a"}]));
    Iteration38(ts);
    FoldStep(ts, 38, ParseState({"S1", "A", "B", "C"}, {'a', 'b', 'c', '&'}, "B", {"bB", "bC", "b"}, map["S1" := {"aA", "aB", "aC", "bB", "bC", "cC", "a", "b", "c", "&"}, "A" := {"aA", "aB", "aC", "a"}]), ParseState({"S1", "A", "B", "C"}, {'a', 'b', 'c', '&'}, "C", {}, map["S1" := {"aA", "aB", "aC", "bB", "bC", "cC", "a", "b", "c", "&"}, "A" := {"aA", "aB", "aC", "a"}, "B" := {"bB", "bC", "b"}]));
    Iteration39(ts);
    FoldStep(ts, 39, ParseState({"S1", "A", "B", "C"}, {'a', 'b', 'c', '&'}, "C", {}, map["S1" := {"aA", "aB", "aC", "bB", "bC", "cC", "a", "b", "c", "&"}, "A" := {"aA", "aB", "aC", "a"}, "B" := {"bB", "bC", "b"}]), ParseState({"S1", "A", "B", "C"}, {'a', 'b', 'c', '&'}, "C", {"cC"}, map["S1" := {"aA", "aB", "aC", "bB", "bC", "cC", "a", "b", "c", "&"}, "A" := {"aA", "aB", "aC", "a"}, "B" := {"bB", "bC", "b"}]));
    Iteration40(ts);
    FoldStep(ts, 40, ParseState({"S1", "A", "B", "C"}, {'a', 'b', 'c', '&'}, "C", {"cC"}, map["S1" := {"aA", "aB", "aC", "bB", "bC", "cC", "a", "b", "c", "&"}, "A" := {"aA", "aB", "aC", "a"}, "B" := {"bB", "bC", "b"}]), ParseState({"S1", "A", "B", "C"}, {'a', 'b', 'c', '&'}, "C", {"cC"}, map["S1" := {"aA", "aB", "aC", "bB", "bC", "cC", "a", "b", "c", "&"}, "A" := {"aA", "aB", "aC", "a"}, "B" := {"bB", "bC", "b"}]));
    Iteration41(ts);
    FoldStep(ts, 41, ParseState({"S1", "A", "B", "C"}, {'a', 'b', 'c', '&'}, "C", {"cC"}, map["S1" := {"aA", "aB", "aC", "bB", "bC", "cC", "a", "b", "c", "&"}, "A" := {"aA", "aB", "aC", "a"}, "B" := {"bB", "bC", "b"}]), ParseState({"S1", "A", "B", "C"}, {'a', 'b', 'c', '&'}, "|", {}, map["S1" := {"aA", "aB", "aC", "bB", "bC", "cC", "a", "b", "c", "&"}, "A" := {"aA", "aB", "aC", "a"}, "B" := {"bB", "bC", "b"}, "C" := {"cC", "c"}]));
  }

  /** The test grammar parses into four productions, with `&` as a terminal.
      The tokens are a parameter, equal to the test's, so that the parse is
      unfolded only through the lemmas above. */
  lemma TestGrammarParse(ts: seq<string>)
    requires ts == TestTokens
    ensures WellSplit(ts)
    ensures Split(Join(ts)) == ts
    ensures MakeItProperToGrammar(Join(ts)) == ParseTokens(ts)
    ensures ParseTokens(ts) == RegularGrammar(
      {"S1", "A", "B", "C"},
      {'a', 'b', 'c', '&'},
      map["S1" := {"aA", "aB", "aC", "bB", "bC", "cC", "a", "b", "c", "&"},
          "A" := {"aA", "aB", "aC", "a"},
          "B" := {"bB", "bC", "b"},
          "C" := {"cC", "c"}],
      "S1")
  {
    TestTokensWellSplit();
    Iterations0To7(ts);
    Iterations7To14(ts);
    Iterations14To21(ts);
    Iterations21To28(ts);
    Iterations28To35(ts);
    Iterations35To42(ts);
    assert ParseFrom(ts, 42, ParseState({"S1", "A", "B", "C"}, {'a', 'b', 'c', '&'}, "|", {}, map["S1" := {"aA", "aB", "aC", "bB", "bC", "cC", "a", "b", "c", "&"}, "A" := {"aA", "aB", "aC", "a"}, "B" := {"bB", "bC", "b"}, "C" := {"cC", "c"}])) == ParseState({"S1", "A", "B", "C"}, {'a', 'b', 'c', '&'}, "|", {}, map["S1" := {"aA", "aB", "aC", "bB", "bC", "cC", "a", "b", "c", "&"}, "A" := {"aA", "aB", "aC", "a"}, "B" := {"bB", "bC", "b"}, "C" := {"cC", "c"}]);
    ParseTokensIsFold(ts);
    TestTokensSpaceFree();
    ParseJoinedTokens(ts);
  }

  lemma ParseTokensIsFold(ts: seq<string>)
    requires WellSplit(ts)
    ensures var acc := ParseFrom(ts, 0, Start);
      ParseTokens(ts) == RegularGrammar(acc.nonTerminals, acc.terminals, acc.productions, ts[0])
  {
  }
}
