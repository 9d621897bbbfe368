/** The read-only views of the game state: whose turn it is, which question
    is on screen, whether the game is over and who won. */
module QuizComputed {
  import opened QuizTypes

  /** The group whose turn it is, or None once the index has run past the last group. */
  function CurrentGroup(s: GameState): (r: Option<Group>)
    ensures r.Some? <==> s.currentGroupIndex < |s.groups|
    ensures r.Some? ==> r.value == s.groups[s.currentGroupIndex]
  {
    if s.currentGroupIndex < |s.groups| then Some(s.groups[s.currentGroupIndex]) else None
  }

  /** The question shown to the current group: the entry of the shared list at
      that group's cursor, or None when there is no current group or the cursor
      is past the end of the list. */
  function CurrentQuestion(s: GameState): (r: Option<Question>)
    ensures r.Some? <==> s.currentGroupIndex < |s.groups|
                          && s.groups[s.currentGroupIndex].currentQuestion < |s.questions|
    ensures r.Some? ==> r.value == s.questions[s.groups[s.currentGroupIndex].currentQuestion]
  {
    match CurrentGroup(s)
    case None => None
    case Some(g) => if g.currentQuestion < |s.questions| then Some(s.questions[g.currentQuestion]) else None
  }

  /** Whether some group has played at least one turn. */
  function AnyProgress(gs: seq<Group>): (b: bool)
    ensures b <==> exists i :: 0 <= i < |gs| && gs[i].currentQuestion > 0
  {
    if gs == [] then false
    else gs[0].currentQuestion > 0 || AnyProgress(gs[1..])
  }

  /** The game is over when it is not running and some group has played, which
      tells a finished game apart from one that never started. */
  function IsGameOver(s: GameState): (r: bool)
    ensures r <==> !s.isGameStarted && exists i :: 0 <= i < |s.groups| && s.groups[i].currentQuestion > 0
    ensures r ==> |s.groups| > 0
  {
    !s.isGameStarted && AnyProgress(s.groups)
  }

  /** The highest score among a non-empty list of groups. */
  function MaxScore(gs: seq<Group>): (m: nat)
    requires |gs| > 0
    ensures forall i :: 0 <= i < |gs| ==> gs[i].score <= m
    ensures exists i :: 0 <= i < |gs| && gs[i].score == m
  {
    if |gs| == 1 then gs[0].score
    else
      var rest := MaxScore(gs[1..]);
      assert forall i :: 1 <= i < |gs| ==> gs[i] == gs[1..][i - 1];
      if gs[0].score >= rest then gs[0].score else rest
  }

  /** The groups whose score is `m`, in their original order, duplicates kept. */
  function WithScore(gs: seq<Group>, m: nat): (r: seq<Group>)
    ensures forall g :: multiset(r)[g] == if g.score == m then multiset(gs)[g] else 0
  {
    if gs == [] then []
    else
      assert gs == [gs[0]] + gs[1..];
      (if gs[0].score == m then [gs[0]] else []) + WithScore(gs[1..], m)
  }

  /** Filtering by score keeps the order of the groups: it distributes over concatenation. */
  lemma {:induction false} WithScoreAppend(a: seq<Group>, b: seq<Group>, m: nat)
    ensures WithScore(a + b, m) == WithScore(a, m) + WithScore(b, m)
  {
    if a == [] {
      assert a + b == b;
    } else {
      assert (a + b)[0] == a[0];
      assert (a + b)[1..] == a[1..] + b;
      WithScoreAppend(a[1..], b, m);
    }
  }

  /** The winners: empty unless the game is over; otherwise every group that
      holds the top score, so a tie yields several winners. */
  function Winners(s: GameState): (r: seq<Group>)
    ensures !IsGameOver(s) ==> r == []
    ensures IsGameOver(s) ==> |r| > 0
    ensures IsGameOver(s) ==>
              forall g :: multiset(r)[g] == if g.score == MaxScore(s.groups) then multiset(s.groups)[g] else 0
    ensures forall w, i :: w in r && 0 <= i < |s.groups| ==> s.groups[i].score <= w.score
  {
    if !IsGameOver(s) then []
    else
      TopScorersExist(s.groups);
      WithScore(s.groups, MaxScore(s.groups))
  }

  /** A non-empty list of groups always has at least one group with the top score. */
  lemma TopScorersExist(gs: seq<Group>)
    requires |gs| > 0
    ensures |WithScore(gs, MaxScore(gs))| > 0
  {
  }

  /** Every group with the top score is among the winners, and every winner is one of the groups. */
  lemma WinnersAreExactlyTheTopScorers(s: GameState, g: Group)
    requires IsGameOver(s)
    ensures g in Winners(s) <==> g in s.groups && g.score == MaxScore(s.groups)
  {
  }

  /** The three groups of the tie example below: the first and the last share the top score. */
  function TieExample(a: string, b: string, c: string): seq<Group>
  {
    [Group(a, 25, 3), Group(b, 10, 3), Group(c, 25, 3)]
  }

  lemma TieExampleMax(a: string, b: string, c: string)
    ensures MaxScore(TieExample(a, b, c)) == 25
  {
  }

  lemma TieExampleFilter(a: string, b: string, c: string)
    ensures WithScore(TieExample(a, b, c), 25) == [Group(a, 25, 3), Group(c, 25, 3)]
  {
    var groups := TieExample(a, b, c);
    assert groups[1..][1..] == [groups[2]];
    assert groups[1..][1..][1..] == [];
    assert WithScore(groups[1..], 25) == [groups[2]];
  }

  /** A finished game in which two of three groups share the top score has
      both of them, in group order, as winners. */
  lemma TieKeepsAllTopScorers(a: string, b: string, c: string)
    ensures Winners(GameState(TieExample(a, b, c), 3, [], 3, 30, false, false, None, 0))
            == [Group(a, 25, 3), Group(c, 25, 3)]
  {
    var s := GameState(TieExample(a, b, c), 3, [], 3, 30, false, false, None, 0);
    TieExampleMax(a, b, c);
    TieExampleFilter(a, b, c);
    assert IsGameOver(s) by { assert s.groups[0].currentQuestion > 0; }
  }
}
