/** Right-linear grammars read from text, and their conversion into a
    transition table (regular_sets/regular_grammar.py).

    The text is split on single spaces.  Reading the tokens left to right,
    each one plays one or more roles: the first token is the start symbol, an
    upper-case token is a non-terminal, `|` and `->` are separators, and every
    other token after the first is a right-hand side.  Right-hand sides are
    gathered into a group that is stored under its head at each `->` and at
    the last token. */
module Grammar {

  import opened Automaton

  datatype RegularGrammar = RegularGrammar(
    nonTerminals: set<string>,
    terminals: set<char>,
    productions: map<string, set<string>>,
    initial: string)

  // ---------------------------------------------------------------------
  // Splitting on single spaces (Python's str.split(' '))
  // ---------------------------------------------------------------------

  /** The pieces of `s` between single spaces; two spaces in a row, or a
      space at either end, give an empty piece. */
  function Split(s: string): (ts: seq<string>)
    ensures |ts| >= 1
    ensures forall i :: 0 <= i < |ts| ==> ' ' !in ts[i]
  {
    if |s| == 0 then [""]
    else
      var rest := Split(s[1..]);
      if s[0] == ' ' then [""] + rest
      else [[s[0]] + rest[0]] + rest[1..]
  }

  /** The pieces put back together with one space between neighbours. */
  function Join(ts: seq<string>): string
    requires |ts| >= 1
  {
    if |ts| == 1 then ts[0] else ts[0] + " " + Join(ts[1..])
  }

  lemma {:induction false} JoinAfterSplit(s: string)
    ensures Join(Split(s)) == s
  {
    if |s| > 0 {
      var rest := Split(s[1..]);
      JoinAfterSplit(s[1..]);
      if s[0] == ' ' {
        assert ([""] + rest)[1..] == rest;
      } else {
        var ts := [[s[0]] + rest[0]] + rest[1..];
        if |rest| == 1 {
          assert Join(ts) == [s[0]] + rest[0];
        } else {
          assert ts[1..] == rest[1..];
          assert Join(ts) == [s[0]] + (rest[0] + " " + Join(rest[1..]));
        }
      }
    }
  }

  /** Splitting a space-free word followed by more text puts the word in front
      of the first piece. */
  lemma {:induction false} SplitWordPrefix(a: string, s: string)
    requires ' ' !in a
    ensures Split(a + s) == [a + Split(s)[0]] + Split(s)[1..]
    decreases |a|
  {
    if |a| > 0 {
      assert (a + s)[0] == a[0] && (a + s)[1..] == a[1..] + s;
      SplitWordPrefix(a[1..], s);
      assert [a[0]] + (a[1..] + Split(s)[0]) == a + Split(s)[0];
    } else {
      assert a + s == s;
      assert a + Split(s)[0] == Split(s)[0];
    }
  }

  lemma {:induction false} SplitAfterJoin(ts: seq<string>)
    requires |ts| >= 1
    requires forall i :: 0 <= i < |ts| ==> ' ' !in ts[i]
    ensures Split(Join(ts)) == ts
    decreases |ts|
  {
    if |ts| == 1 {
      SplitWordPrefix(ts[0], "");
      assert ts[0] + "" == ts[0];
    } else {
      var tail := " " + Join(ts[1..]);
      SplitAfterJoin(ts[1..]);
      assert tail[0] == ' ' && tail[1..] == Join(ts[1..]);
      assert Split(tail) == [""] + ts[1..];
      assert Join(ts) == ts[0] + tail;
      SplitWordPrefix(ts[0], tail);
      assert ts[0] + "" == ts[0];
    }
  }

  /** The first piece is the text up to the first space. */
  lemma {:induction false} FirstPiece(s: string)
    ensures |Split(s)[0]| <= |s| && Split(s)[0] == s[..|Split(s)[0]|]
    ensures |Split(s)[0]| == |s| || s[|Split(s)[0]|] == ' '
  {
    if |s| > 0 && s[0] != ' ' {
      FirstPiece(s[1..]);
      var p := Split(s[1..])[0];
      assert Split(s)[0] == [s[0]] + p;
      assert s[..|p| + 1] == [s[0]] + s[1..][..|p|];
      if |p| < |s[1..]| {
        assert s[|p| + 1] == s[1..][|p|];
      }
    }
  }

  // ---------------------------------------------------------------------
  // Token roles
  // ---------------------------------------------------------------------

  predicate HasUpperLetter(t: string)
  {
    |t| > 0 && ('A' <= t[0] <= 'Z' || HasUpperLetter(t[1..]))
  }

  predicate HasLowerLetter(t: string)
  {
    |t| > 0 && ('a' <= t[0] <= 'z' || HasLowerLetter(t[1..]))
  }

  /** Python's str.isupper restricted to ASCII: some upper-case letter and no
      lower-case letter, so "S1" qualifies and "&" and "aA" do not. */
  predicate IsUpper(t: string)
  {
    HasUpperLetter(t) && !HasLowerLetter(t)
  }

  lemma {:induction false} IsUpperMeaning(t: string)
    ensures IsUpper(t) <==>
      (exists i :: 0 <= i < |t| && 'A' <= t[i] <= 'Z') && forall i :: 0 <= i < |t| ==> !('a' <= t[i] <= 'z')
  {
    HasUpperLetterMeaning(t);
    HasLowerLetterMeaning(t);
  }

  lemma {:induction false} HasUpperLetterMeaning(t: string)
    ensures HasUpperLetter(t) <==> exists i :: 0 <= i < |t| && 'A' <= t[i] <= 'Z'
  {
    if |t| > 0 {
      HasUpperLetterMeaning(t[1..]);
      if exists i :: 0 <= i < |t| && 'A' <= t[i] <= 'Z' {
        var i :| 0 <= i < |t| && 'A' <= t[i] <= 'Z';
        if i > 0 {
          assert t[1..][i - 1] == t[i];
        }
      }
      if HasUpperLetter(t[1..]) {
        var i :| 0 <= i < |t[1..]| && 'A' <= t[1..][i] <= 'Z';
        assert t[i + 1] == t[1..][i];
      }
    }
  }

  lemma {:induction false} HasLowerLetterMeaning(t: string)
    ensures HasLowerLetter(t) <==> exists i :: 0 <= i < |t| && 'a' <= t[i] <= 'z'
  {
    if |t| > 0 {
      HasLowerLetterMeaning(t[1..]);
      if exists i :: 0 <= i < |t| && 'a' <= t[i] <= 'z' {
        var i :| 0 <= i < |t| && 'a' <= t[i] <= 'z';
        if i > 0 {
          assert t[1..][i - 1] == t[i];
        }
      }
      if HasLowerLetter(t[1..]) {
        var i :| 0 <= i < |t[1..]| && 'a' <= t[1..][i] <= 'z';
        assert t[i + 1] == t[1..][i];
      }
    }
  }

  /** No token after the first is empty: reading the first character of an
      empty right-hand side fails in the source. */
  predicate WellSplit(ts: seq<string>)
  {
    |ts| >= 1 && forall i :: 0 < i < |ts| ==> ts[i] != ""
  }

  /** The token at `i` is a right-hand side: not the first token, not a
      separator, not upper case. */
  predicate IsRhs(ts: seq<string>, i: int)
    requires 0 <= i < |ts|
  {
    i != 0 && ts[i] != "|" && ts[i] != "->" && !IsUpper(ts[i])
  }

  /** At `i` the group collected so far is stored: at each `->` and at the
      last token. */
  predicate IsFlush(ts: seq<string>, i: int)
    requires 0 <= i < |ts|
  {
    ts[i] == "->" || i == |ts| - 1
  }

  /** The token before `i`, where position -1 is the last token (Python's
      negative indexing). */
  function Before(ts: seq<string>, i: int): string
    requires 0 <= i < |ts|
  {
    if i == 0 then ts[|ts| - 1] else ts[i - 1]
  }

  // ---------------------------------------------------------------------
  // The parser as a fold over the tokens
  // ---------------------------------------------------------------------

  /** The parser's loop variables. */
  datatype ParseState = ParseState(
    nonTerminals: set<string>,
    terminals: set<char>,
    alfa: string,          // head of the group being collected
    beta: set<string>,     // right-hand sides collected for that head
    productions: map<string, set<string>>)

  const Start := ParseState({}, {}, "", {}, map[])

  /** One iteration of the loop, on the token at `i`. */
  function Step(ts: seq<string>, i: int, acc: ParseState): ParseState
    requires WellSplit(ts) && 0 <= i < |ts|
  {
    var t := ts[i];
    var nonTerminals := if IsUpper(t) then acc.nonTerminals + {t} else acc.nonTerminals;
    var beta := if IsRhs(ts, i) then acc.beta + {t} else acc.beta;
    var terminals := if IsRhs(ts, i) then acc.terminals + {t[0]} else acc.terminals;
    if IsFlush(ts, i) then
      var productions := if |beta| > 0 then acc.productions[acc.alfa := beta] else acc.productions;
      ParseState(nonTerminals, terminals, Before(ts, i), {}, productions)
    else
      ParseState(nonTerminals, terminals, acc.alfa, beta, acc.productions)
  }

  function ParseFrom(ts: seq<string>, i: int, acc: ParseState): ParseState
    requires WellSplit(ts) && 0 <= i <= |ts|
    decreases |ts| - i
  {
    if i == |ts| then acc else ParseFrom(ts, i + 1, Step(ts, i, acc))
  }

  // ---------------------------------------------------------------------
  // What the parse means, position by position
  // ---------------------------------------------------------------------

  /** The last position before `i` at which a group was stored, or -1. */
  function LastFlushBefore(ts: seq<string>, i: int): (f: int)
    requires 0 <= i <= |ts|
    ensures -1 <= f < i
    ensures f >= 0 ==> IsFlush(ts, f)
    ensures forall k :: f < k < i ==> !IsFlush(ts, k)
  {
    if i == 0 then -1 else if IsFlush(ts, i - 1) then i - 1 else LastFlushBefore(ts, i - 1)
  }

  /** The head in force while the token at `i` is read: the empty string
      before the first store, afterwards the token just before the last
      store. */
  function HeadAt(ts: seq<string>, i: int): string
    requires 0 <= i <= |ts|
  {
    var f := LastFlushBefore(ts, i);
    if f < 0 then "" else Before(ts, f)
  }

  /** The right-hand sides of the group stored at `f`: those read after the
      previous store, up to and including `f`. */
  ghost function GroupAt(ts: seq<string>, f: int): set<string>
    requires 0 <= f < |ts|
  {
    set k | LastFlushBefore(ts, f) < k <= f && IsRhs(ts, k) :: ts[k]
  }

  /** A non-empty group is stored at position `f`. */
  ghost predicate Stores(ts: seq<string>, f: int)
  {
    0 <= f < |ts| && IsFlush(ts, f) && GroupAt(ts, f) != {}
  }

  /** A non-empty group with head `h` is stored at position `f`. */
  ghost predicate StoresGroup(ts: seq<string>, f: int, h: string)
  {
    Stores(ts, f) && HeadAt(ts, f) == h
  }

  /** `P` is what storing the groups of positions before `n` in order leaves:
      a head is a key exactly when some non-empty group was stored under it,
      and its value is the last such group. */
  ghost predicate GroupsStored(ts: seq<string>, n: int, P: map<string, set<string>>)
  {
    && (forall f :: 0 <= f < n && Stores(ts, f) ==> HeadAt(ts, f) in P)
    && (forall h :: h in P ==>
          exists f :: 0 <= f < n && StoresGroup(ts, f, h) && P[h] == GroupAt(ts, f) && LastStore(ts, n, f, h))
  }

  /** No later position before `n` stores a non-empty group under `h`. */
  ghost predicate LastStore(ts: seq<string>, n: int, f: int, h: string)
  {
    forall g :: f < g < n ==> !StoresGroup(ts, g, h)
  }

  /** The loop's state before it reads the token at `i`. */
  ghost predicate Invariant(ts: seq<string>, i: int, acc: ParseState)
    requires WellSplit(ts) && 0 <= i <= |ts|
  {
    && acc.nonTerminals == (set k | 0 <= k < i && IsUpper(ts[k]) :: ts[k])
    && acc.terminals == (set k | 0 <= k < i && IsRhs(ts, k) :: ts[k][0])
    && acc.alfa == HeadAt(ts, i)
    && acc.beta == (set k | LastFlushBefore(ts, i) < k < i && IsRhs(ts, k) :: ts[k])
    && GroupsStored(ts, i, acc.productions)
  }

  lemma StepKeepsInvariant(ts: seq<string>, i: int, acc: ParseState)
    requires WellSplit(ts) && 0 <= i < |ts|
    requires Invariant(ts, i, acc)
    ensures Invariant(ts, i + 1, Step(ts, i, acc))
  {
    var acc' := Step(ts, i, acc);
    StepNonTerminals(ts, i, acc.nonTerminals);
    StepTerminals(ts, i, acc.terminals);
    var beta := if IsRhs(ts, i) then acc.beta + {ts[i]} else acc.beta;
    StepBeta(ts, i, LastFlushBefore(ts, i), acc.beta);
    if IsFlush(ts, i) {
      assert LastFlushBefore(ts, i + 1) == i;
      assert beta == GroupAt(ts, i);
      ProductionsAfterStore(ts, i, acc.productions, beta);
    } else {
      assert LastFlushBefore(ts, i + 1) == LastFlushBefore(ts, i);
      ProductionsWithoutStore(ts, i, acc.productions);
    }
  }

  lemma StepNonTerminals(ts: seq<string>, i: int, N: set<string>)
    requires WellSplit(ts) && 0 <= i < |ts|
    requires N == (set k | 0 <= k < i && IsUpper(ts[k]) :: ts[k])
    ensures (if IsUpper(ts[i]) then N + {ts[i]} else N) == (set k | 0 <= k < i + 1 && IsUpper(ts[k]) :: ts[k])
  {
  }

  lemma StepTerminals(ts: seq<string>, i: int, T: set<char>)
    requires WellSplit(ts) && 0 <= i < |ts|
    requires T == (set k | 0 <= k < i && IsRhs(ts, k) :: ts[k][0])
    ensures (if IsRhs(ts, i) then T + {ts[i][0]} else T) == (set k | 0 <= k < i + 1 && IsRhs(ts, k) :: ts[k][0])
  {
  }

  lemma StepBeta(ts: seq<string>, i: int, lo: int, B: set<string>)
    requires WellSplit(ts) && -1 <= lo < i < |ts|
    requires B == (set k | lo < k < i && IsRhs(ts, k) :: ts[k])
    ensures (if IsRhs(ts, i) then B + {ts[i]} else B) == (set k | lo < k < i + 1 && IsRhs(ts, k) :: ts[k])
  {
    var B' := set k | lo < k < i + 1 && IsRhs(ts, k) :: ts[k];
    if IsRhs(ts, i) {
      assert ts[i] in B';
    }
    forall x | x in B'
      ensures x in (if IsRhs(ts, i) then B + {ts[i]} else B)
    {
      var k :| lo < k < i + 1 && IsRhs(ts, k) && ts[k] == x;
      if k < i {
        assert x in B;
      }
    }
  }

  lemma ProductionsAfterStore(ts: seq<string>, i: int, P: map<string, set<string>>, beta: set<string>)
    requires WellSplit(ts) && 0 <= i < |ts| && IsFlush(ts, i)
    requires beta == GroupAt(ts, i)
    requires GroupsStored(ts, i, P)
    ensures GroupsStored(ts, i + 1, if |beta| > 0 then P[HeadAt(ts, i) := beta] else P)
  {
    var P' := if |beta| > 0 then P[HeadAt(ts, i) := beta] else P;
    forall f | 0 <= f < i + 1 && Stores(ts, f)
      ensures HeadAt(ts, f) in P'
    {
      if f == i {
        assert beta != {};
      }
    }
    forall h | h in P'
      ensures exists f :: 0 <= f < i + 1 && StoresGroup(ts, f, h) && P'[h] == GroupAt(ts, f) && LastStore(ts, i + 1, f, h)
    {
      StoredGroupAfterStore(ts, i, P, beta, h);
    }
  }

  lemma StoredGroupAfterStore(ts: seq<string>, i: int, P: map<string, set<string>>, beta: set<string>, h: string)
    requires WellSplit(ts) && 0 <= i < |ts| && IsFlush(ts, i)
    requires beta == GroupAt(ts, i)
    requires GroupsStored(ts, i, P)
    requires h in (if |beta| > 0 then P[HeadAt(ts, i) := beta] else P)
    ensures var P' := if |beta| > 0 then P[HeadAt(ts, i) := beta] else P;
      exists f :: 0 <= f < i + 1 && StoresGroup(ts, f, h) && P'[h] == GroupAt(ts, f) && LastStore(ts, i + 1, f, h)
  {
    if |beta| > 0 && h == HeadAt(ts, i) {
      assert StoresGroup(ts, i, h) && LastStore(ts, i + 1, i, h);
    } else {
      var f :| 0 <= f < i && StoresGroup(ts, f, h) && P[h] == GroupAt(ts, f) && LastStore(ts, i, f, h);
      assert !StoresGroup(ts, i, h);
      assert LastStore(ts, i + 1, f, h);
    }
  }

  lemma ProductionsWithoutStore(ts: seq<string>, i: int, P: map<string, set<string>>)
    requires WellSplit(ts) && 0 <= i < |ts| && !IsFlush(ts, i)
    requires GroupsStored(ts, i, P)
    ensures GroupsStored(ts, i + 1, P)
  {
    forall h | h in P
      ensures exists f :: 0 <= f < i + 1 && StoresGroup(ts, f, h) && P[h] == GroupAt(ts, f) && LastStore(ts, i + 1, f, h)
    {
      var f :| 0 <= f < i && StoresGroup(ts, f, h) && P[h] == GroupAt(ts, f) && LastStore(ts, i, f, h);
      assert LastStore(ts, i + 1, f, h);
    }
  }

  lemma {:induction false} FoldKeepsInvariant(ts: seq<string>, i: int, acc: ParseState)
    requires WellSplit(ts) && 0 <= i <= |ts|
    requires Invariant(ts, i, acc)
    ensures Invariant(ts, |ts|, ParseFrom(ts, i, acc))
    decreases |ts| - i
  {
    if i < |ts| {
      StepKeepsInvariant(ts, i, acc);
      FoldKeepsInvariant(ts, i + 1, Step(ts, i, acc));
    }
  }

  /** `make_it_proper_to_grammar` on the tokens of the text. */
  function ParseTokens(ts: seq<string>): (g: RegularGrammar)
    requires WellSplit(ts)
    ensures g.initial == ts[0]
    ensures forall x :: x in g.nonTerminals <==> x in ts && IsUpper(x)
    ensures forall c :: c in g.terminals <==> exists i :: 0 < i < |ts| && IsRhs(ts, i) && ts[i][0] == c
    ensures GroupsStored(ts, |ts|, g.productions)
  {
    assert Invariant(ts, 0, Start);
    FoldKeepsInvariant(ts, 0, Start);
    var acc := ParseFrom(ts, 0, Start);
    assert forall x :: x in ts ==> exists k :: 0 <= k < |ts| && ts[k] == x;
    RegularGrammar(acc.nonTerminals, acc.terminals, acc.productions, ts[0])
  }

  /** `make_it_proper_to_grammar` on the text itself; the start symbol is the
      text up to its first space. */
  function MakeItProperToGrammar(text: string): (g: RegularGrammar)
    requires WellSplit(Split(text))
    ensures ' ' !in g.initial && |g.initial| <= |text| && g.initial == text[..|g.initial|]
    ensures |g.initial| == |text| || text[|g.initial|] == ' '
  {
    FirstPiece(text);
    ParseTokens(Split(text))
  }

  /** Text made by joining space-free tokens with single spaces parses as
      those tokens. */
  lemma ParseJoinedTokens(ts: seq<string>)
    requires WellSplit(ts)
    requires forall i :: 0 <= i < |ts| ==> ' ' !in ts[i]
    ensures Split(Join(ts)) == ts
    ensures MakeItProperToGrammar(Join(ts)) == ParseTokens(ts)
  {
    SplitAfterJoin(ts);
  }

  /** Every stored right-hand side is one of the tokens, so none is empty. */
  lemma ParsedRightHandSidesNonEmpty(ts: seq<string>)
    requires WellSplit(ts)
    ensures RightHandSidesNonEmpty(ParseTokens(ts))
  {
    var P := ParseTokens(ts).productions;
    forall h, b | h in P && b in P[h]
      ensures |b| >= 1
    {
      var f :| 0 <= f < |ts| && StoresGroup(ts, f, h) && P[h] == GroupAt(ts, f) && LastStore(ts, |ts|, f, h);
      var k :| LastFlushBefore(ts, f) < k <= f && IsRhs(ts, k) && ts[k] == b;
    }
  }

  // ---------------------------------------------------------------------
  // Grammar -> transition table (regular_grammar.to_automata)
  // ---------------------------------------------------------------------

  /** The synthetic accepting state every terminal-only production leads to. */
  const AcceptState: State := "qAccept"

  /** Every right-hand side has a first character to label its transition. */
  predicate RightHandSidesNonEmpty(g: RegularGrammar)
  {
    forall h, b :: h in g.productions && b in g.productions[h] ==> |b| >= 1
  }

  /** Where the transition of right-hand side `b` leads: its second character
      when it has exactly two, the accepting state otherwise (a lone terminal,
      `&`, or anything longer). */
  function Target(b: string): State
    requires |b| >= 1
  {
    if |b| == 2 then [b[1]] else AcceptState
  }

  /** The transitions out of one head, built by visiting its right-hand sides
      one at a time and either creating or extending the entry for the first
      character. */
  method BuildRow(rhs: set<string>) returns (row: map<Symbol, set<State>>)
    requires forall b :: b in rhs ==> |b| >= 1
    ensures row.Keys == set b | b in rhs :: b[0]
    ensures forall b :: b in rhs ==> Target(b) in row[b[0]]
    ensures forall a, q :: a in row && q in row[a] ==> exists b :: b in rhs && b[0] == a && Target(b) == q
  {
    row := map[];
    var todo := rhs;
    while todo != {}
      invariant todo <= rhs
      invariant row.Keys == set b | b in rhs - todo :: b[0]
      invariant forall b :: b in rhs - todo ==> Target(b) in row[b[0]]
      invariant forall a, q :: a in row && q in row[a] ==> exists b :: b in rhs - todo && b[0] == a && Target(b) == q
      decreases todo
    {
      var b :| b in todo;
      if b[0] in row {
        row := row[b[0] := row[b[0]] + {Target(b)}];
      } else {
        row := row[b[0] := {Target(b)}];
      }
      todo := todo - {b};
    }
  }

  /** `to_automata`: one row per production head, with a transition
      `A --b[0]--> Target(b)` for every right-hand side `b` of `A`.  The source
      also adds the accepting state to the grammar's own non-terminal set,
      which the returned grammar records. */
  method ToAutomata(g: RegularGrammar) returns (delta: Delta, g': RegularGrammar)
    requires RightHandSidesNonEmpty(g)
    ensures g' == g.(nonTerminals := g.nonTerminals + {AcceptState})
    ensures delta.Keys == g.productions.Keys
    ensures forall A :: A in delta ==> delta[A].Keys == set b | b in g.productions[A] :: b[0]
    ensures forall A, b :: A in g.productions && b in g.productions[A] ==> Target(b) in delta[A][b[0]]
    ensures forall A, a, q :: A in delta && a in delta[A] && q in delta[A][a] ==>
              exists b :: b in g.productions[A] && b[0] == a && Target(b) == q
  {
    g' := g.(nonTerminals := g.nonTerminals + {AcceptState});
    delta := map[];
    var heads := g.productions.Keys;
    while heads != {}
      invariant heads <= g.productions.Keys
      invariant delta.Keys == g.productions.Keys - heads
      invariant forall A :: A in delta ==> delta[A].Keys == set b | b in g.productions[A] :: b[0]
      invariant forall A, b :: A in delta && b in g.productions[A] ==> Target(b) in delta[A][b[0]]
      invariant forall A, a, q :: A in delta && a in delta[A] && q in delta[A][a] ==>
                  exists b :: b in g.productions[A] && b[0] == a && Target(b) == q
      decreases heads
    {
      var A :| A in heads;
      var row := BuildRow(g.productions[A]);
      delta := delta[A := row];
      heads := heads - {A};
    }
  }
}
