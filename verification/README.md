# Regular sets: DFA execution and right-linear grammars

A Dafny model of the core of a small Python library for regular languages
(`regular_sets/`). It covers two pieces.

- **The DFA engine.** A DFA holds a transition table, which maps each state
  to a map from symbols to *sets* of successor states. It also holds an
  initial state and a set of accept states. `compute` runs the table from a
  state over an input string. At each step it takes the only member of the
  successor set. `validate_sentence` reports whether the state reached from
  the initial state is an accept state.
- **The grammar bridge.** `make_it_proper_to_grammar` reads a right-linear
  grammar from text such as `S1 -> aA | a A -> aA | a`. `regular_grammar`
  holds the result: non-terminals, terminals, productions and the start
  symbol. `to_automata` turns its productions into a transition table. Each
  right-hand side `b` of a head `A` becomes an edge labelled `b[0]`. The edge
  leads to the state named by `b[1]` when `b` has two characters, and to the
  synthetic state `qAccept` otherwise.

Modules:

- `Automaton` (`finite_automaton.dfy`) models the DFA class. It contains:
  - `MakeDFA`, the constructor;
  - `Compute`, the reference fold over the input;
  - `ComputeLoop`, the set-holding loop of the source;
  - `Validate`;
  - an independent path semantics `IsPath`, related to `Compute` in both
    directions;
  - the parity automaton of the unit test.
- `Grammar` (`regular_grammar.dfy`) models the grammar bridge. It contains:
  - the `RegularGrammar` record;
  - `Split` and `Join` for `str.split(' ')`;
  - the parser, as a fold (`Step`, `ParseFrom`) over the tokens. Its result
    is characterised position by position (`LastFlushBefore`, `HeadAt`,
    `GroupAt`, `GroupsStored`) and tied to the fold by a loop invariant;
  - `ToAutomata`.
- `GrammarExamples` (`grammar_examples.dfy`) follows the parser through the
  grammar of the grammar unit test, one loop iteration per lemma, and
  derives the grammar that the parse yields.

Points where the code behaves differently from what a reader might expect,
and which the model follows:

- `compute` has no rejection value. A missing state or symbol raises
  `KeyError`, and an empty successor set raises `StopIteration`
  (regular_sets/finite_automaton.py:19-20). The model makes the run's
  existence (`Runs`) a precondition.
- `&` is an ordinary one-character right-hand side
  (regular_sets/regular_grammar.py:21-23). So `&` becomes a terminal, and
  `to_automata` adds an edge labelled `&` to `qAccept`
  (regular_sets/regular_grammar.py:59, 64).
- Every right-hand side whose length is not 2 leads to `qAccept`
  (regular_sets/regular_grammar.py:56-64).
- When a head appears twice, the later group of right-hand sides replaces
  the earlier one (regular_sets/regular_grammar.py:26-27). The model states
  this as "the last non-empty group stored under a head".

## Model

| member | source | states |
|---|---|---|
| Automaton.MakeDFA | regular_sets/finite_automaton.py:6-9 | The DFA keeps the table and the initial state; its accept set holds exactly the states of the given list. |
| Automaton.AcceptListOrderIrrelevant | regular_sets/finite_automaton.py:9 | Two accept lists with the same members, in any order and with any repetition, build the same DFA. |
| Automaton.Only | regular_sets/finite_automaton.py:19-20 | `next(iter(S))` on a one-element set returns its member, and the set is exactly that member. |
| Automaton.Compute | regular_sets/finite_automaton.py:17-20 | The definition of `compute` as a left fold of the table over the input, defined where `Runs` holds; it has no contract beyond its body, and the rows below state its properties. |
| Automaton.ComputeLoop | regular_sets/finite_automaton.py:11-20 | The loop that holds a one-element state set returns the same state as the left fold of the table over the input. Every path labelled by the input from the start state ends at that state. |
| Automaton.PathEndsAtCompute | regular_sets/finite_automaton.py:17-20 | When the run exists, any path through the table labelled `w` from `s` ends where `compute` ends. |
| Automaton.ComputeHasPath | regular_sets/finite_automaton.py:17-20 | When the run exists, there is a path labelled `w` from `s` to the state `compute` returns. |
| Automaton.Validate | regular_sets/finite_automaton.py:22-28 | A sentence is accepted exactly when some path labelled by it leads from the initial state to an accept state. |
| Automaton.ComputeEmptyAndSingle | regular_sets/finite_automaton.py:17-20 | The empty input returns the start state. A one-symbol input runs exactly when the table has one successor for that symbol, and then returns that successor. |
| Automaton.ComputeAppend | regular_sets/finite_automaton.py:18-19 | The run over `u + v` exists exactly when the run over `u` exists and the run over `v` from its end exists; the result is reading `v` from where `u` led. |
| Automaton.ParityCompute | regular_sets/finite_automaton_test.py:8-19 | Over {a, b}, the test's table returns to the start state after an even number of symbols and swaps q0/q1 after an odd number. |
| Automaton.ParityAcceptsEven | regular_sets/finite_automaton_test.py:10-19 | The test automaton accepts a word over {a, b} exactly when its length is even. |
| Automaton.ParityExamples | regular_sets/finite_automaton_test.py:21-33 | `abab` is accepted and `ababa` is rejected. |
| Grammar.Split | regular_sets/regular_grammar.py:6 | `str.split(' ')` yields at least one piece, and no piece contains a space. |
| Grammar.JoinAfterSplit | regular_sets/regular_grammar.py:6 | Joining the pieces with single spaces gives back the text. |
| Grammar.SplitAfterJoin | regular_sets/regular_grammar.py:6 | Splitting space-free tokens joined by single spaces gives back the tokens. |
| Grammar.FirstPiece | regular_sets/regular_grammar.py:6-7 | The first piece is the text up to its first space, or the whole text when there is none. |
| Grammar.IsUpperMeaning | regular_sets/regular_grammar.py:18 | A token counts as upper case exactly when it has an upper-case letter and no lower-case letter. |
| Grammar.Step | regular_sets/regular_grammar.py:18-30 | The definition of one loop iteration on the token at `i`; it has no contract beyond its body, and `StepKeepsInvariant` states what it preserves. |
| Grammar.ParseFrom | regular_sets/regular_grammar.py:17-30 | The definition of the loop as a fold of `Step` over the remaining tokens; it has no contract beyond its body, and `FoldKeepsInvariant` states what it yields. |
| Grammar.StepKeepsInvariant | regular_sets/regular_grammar.py:17-30 | One loop iteration keeps the invariant: upper-case tokens so far, first characters of right-hand sides so far, the current head, the group being collected, and the groups stored so far. |
| Grammar.FoldKeepsInvariant | regular_sets/regular_grammar.py:17-30 | The remaining iterations carry the invariant to the end of the token list. |
| Grammar.ParseTokens | regular_sets/regular_grammar.py:7-32 | The start symbol is the first token. The non-terminals are exactly the upper-case tokens. The terminals are exactly the first characters of right-hand sides. Each head maps to the last non-empty group stored under it, and a head is a key exactly when such a group exists. |
| Grammar.MakeItProperToGrammar | regular_sets/regular_grammar.py:6-7 | The start symbol is a space-free prefix of the text, ending at the text's end or at a space. |
| Grammar.ParseJoinedTokens | regular_sets/regular_grammar.py:6 | Text made by joining space-free tokens parses as the grammar of those tokens. |
| Grammar.ParsedRightHandSidesNonEmpty | regular_sets/regular_grammar.py:21-23 | Every stored right-hand side is a non-empty token, so `to_automata` can read its first character. |
| Grammar.Target | regular_sets/regular_grammar.py:56-64 | The definition of the `len(_beta) == 2` choice: the second character as a state, otherwise `qAccept`; it has no contract beyond its body. |
| Grammar.BuildRow | regular_sets/regular_grammar.py:54-64 | The row of one head has a key for exactly the first characters of its right-hand sides. It holds the target of every right-hand side, and nothing that no right-hand side yields. |
| Grammar.ToAutomata | regular_sets/regular_grammar.py:44-68 | The table has a row for exactly the production heads. `q in delta[A][a]` holds exactly when some right-hand side `b` of `A` has `b[0] == a` and target `q`. The grammar's non-terminals gain `qAccept`. |
| GrammarExamples.TestGrammarParse | regular_sets/regular_grammar_tests.py:10-15 | The test grammar's text (its tokens joined by single spaces) parses into the following grammar. Non-terminals: S1, A, B, C. Terminals: a, b, c, &. Productions: S1 has all ten right-hand sides; A has aA, aB, aC, a; B has bB, bC, b; C has cC, c. |

## Left out

- `NDFA`, `epsilon_closure`, `determinization`, `get_alphabet` and `to_grammar` are not modelled. None of them is part of the two modelled files. The grammar unit test also runs an NDFA on the converted table; that part is not modelled either.
- `regular_sets/formais.py` is not part of this model: its command-line driver and its copy of the parser.
- Runs: a successor set with several members is where `next(iter(...))` picks a member in hash order. The model requires one-element successor sets along the run, as a DFA has, instead of modelling that choice.
- Runs: the exceptions the source raises are not modelled as values. These are a `KeyError` for a missing state or symbol and `StopIteration` for an empty successor set. The run's existence is a precondition of `Compute`, `ComputeLoop` and `Validate`.
- IsUpper: Python's `str.isupper` is reduced to ASCII letters. Upper-case and lower-case letters outside A-Z and a-z are not recognised.
- WellSplit: an empty token after the first makes the source fail with `IndexError` on `grammar[i][0]`. The model requires that no token after the first is empty, and does not model that failure.
- ToAutomata: the source mutates the grammar's own non-terminal set through an alias. The model returns the updated grammar instead.
- ToAutomata: Python's iteration order over sets and dicts does not affect the result, so the loops pick elements in no particular order.
- GrammarExamples.TestGrammarParse: the test's literal text is not spelled out. The lemma is stated over the tokens that the text joins with single spaces.
