/** The rules of a turn, as functions from one game state to the next: how an
    answer is scored, how the turn passes from question to question and from
    group to group, and the invariant every reachable state satisfies. The
    class in QuizGame performs these steps in place and is proved against them. */
module QuizRules {
  import opened QuizTypes
  import opened QuizComputed

  /** The speed bonus: half of the seconds left, rounded down. */
  function TimeBonus(timer: nat): (b: nat)
    ensures 2 * b <= timer < 2 * b + 2
  {
    timer / 2
  }

  /** Points for a correct answer given with `timer` seconds left: never below
      the base award, and never above MaxPoints while the countdown is in range. */
  function CorrectAnswerPoints(timer: nat): (p: nat)
    ensures BasePoints <= p
    ensures 2 * (p - BasePoints) <= timer < 2 * (p - BasePoints) + 2
    ensures timer <= TimePerQuestion ==> p <= MaxPoints
  {
    BasePoints + TimeBonus(timer)
  }

  /** How many entries `slice(0, end)` keeps of a list of length `len`: a negative
      end counts back from the end of the list, as JavaScript's `Array.prototype.slice` does. */
  function SliceEnd(len: nat, end: int): (e: nat)
    ensures e <= len
    ensures 0 <= end <= len ==> e == end
    ensures len <= end ==> e == len
    ensures end < 0 ==> e + (-end) == len || (e == 0 && len <= -end)
  {
    if end < 0 then (if len + end > 0 then len + end else 0)
    else if end < len then end
    else len
  }

  /** `drawn` is what taking the first `k` of some shuffle of `pool` can give:
      the right number of questions, each taken from the pool no more often than it occurs there. */
  ghost predicate IsDraw(pool: seq<Question>, k: int, drawn: seq<Question>)
  {
    |drawn| == SliceEnd(|pool|, k) && multiset(drawn) <= multiset(pool)
  }

  /** A prefix of any reordering of the pool is a draw from it. */
  lemma PrefixOfShuffleIsDraw(pool: seq<Question>, shuffled: seq<Question>, k: int)
    requires multiset(shuffled) == multiset(pool)
    ensures |shuffled| == |pool|
    ensures IsDraw(pool, k, shuffled[..SliceEnd(|shuffled|, k)])
  {
    assert |shuffled| == |multiset(shuffled)|;
    var n := SliceEnd(|shuffled|, k);
    assert shuffled == shuffled[..n] + shuffled[n..];
    assert multiset(shuffled) == multiset(shuffled[..n]) + multiset(shuffled[n..]);
  }

  /** The number of turns each group plays: one per question of the shared list,
      and a single (necessarily timed-out) turn when the list is empty. */
  function TurnsPerGroup(total: nat): (t: nat)
    ensures t >= 1 && t >= total
    ensures total > 0 ==> t == total
  {
    if total > 0 then total else 1
  }

  /** The invariant of every state the engine can reach: the countdown is in
      range, `totalQuestions` is the length of the shared list, groups play
      strictly in order (the ones before the current group have played all
      their turns, the ones after it none), and no group has more than
      MaxPoints per turn played. */
  ghost predicate Consistent(s: GameState)
  {
    && s.timePerQuestion == TimePerQuestion
    && s.timer <= s.timePerQuestion
    && s.totalQuestions == |s.questions|
    && s.currentGroupIndex <= |s.groups|
    && (forall i :: 0 <= i < s.currentGroupIndex ==>
          s.groups[i].currentQuestion == TurnsPerGroup(s.totalQuestions))
    && (s.currentGroupIndex < |s.groups| ==>
          s.groups[s.currentGroupIndex].currentQuestion < TurnsPerGroup(s.totalQuestions))
    && (forall i :: s.currentGroupIndex < i < |s.groups| ==> s.groups[i].currentQuestion == 0)
    && (forall i :: 0 <= i < |s.groups| ==> s.groups[i].score <= MaxPoints * s.groups[i].currentQuestion)
  }

  /** `t` is a later state of the same game than `s`: no group has disappeared
      or been renamed, and no score, cursor or group index has gone down. */
  ghost predicate Progressed(s: GameState, t: GameState)
  {
    && |s.groups| <= |t.groups|
    && s.currentGroupIndex <= t.currentGroupIndex
    && forall i :: 0 <= i < |s.groups| ==>
         && t.groups[i].name == s.groups[i].name
         && s.groups[i].score <= t.groups[i].score
         && s.groups[i].currentQuestion <= t.groups[i].currentQuestion
  }

  /** The state after `nextTurn`: the current group's cursor moves on by one;
      once it has reached `totalQuestions` play passes to the next group, and
      passing the last group stops the game. Without a current group nothing happens. */
  function AdvanceTurn(s: GameState): (r: GameState)
    ensures s.currentGroupIndex >= |s.groups| ==> r == s
    ensures s.currentGroupIndex < |s.groups| ==>
      var i := s.currentGroupIndex;
      && |r.groups| == |s.groups|
      && r.groups[i] == s.groups[i].(currentQuestion := s.groups[i].currentQuestion + 1)
      && (forall j :: 0 <= j < |s.groups| && j != i ==> r.groups[j] == s.groups[j])
      && r.currentGroupIndex == (if s.groups[i].currentQuestion + 1 >= s.totalQuestions then i + 1 else i)
      && r.isGameStarted == (s.isGameStarted && r.currentGroupIndex < |s.groups|)
    ensures r == s.(groups := r.groups, currentGroupIndex := r.currentGroupIndex, isGameStarted := r.isGameStarted)
    ensures Progressed(s, r)
  {
    var i := s.currentGroupIndex;
    if i >= |s.groups| then s
    else
      var g := s.groups[i].(currentQuestion := s.groups[i].currentQuestion + 1);
      var s1 := s.(groups := s.groups[i := g]);
      if g.currentQuestion >= s.totalQuestions then
        var s2 := s1.(currentGroupIndex := i + 1);
        if s2.currentGroupIndex >= |s2.groups| then s2.(isGameStarted := false) else s2
      else s1
  }

  /** Whether `nextTurn` schedules another question: only when there was a
      current group and there still is one afterwards. */
  function Continues(s: GameState): (b: bool)
    ensures b <==> CurrentGroup(s).Some? && CurrentGroup(AdvanceTurn(s)).Some?
    ensures b ==> AdvanceTurn(s).isGameStarted == s.isGameStarted
    ensures !b && s.currentGroupIndex < |s.groups| ==> !AdvanceTurn(s).isGameStarted
  {
    s.currentGroupIndex < |s.groups| && AdvanceTurn(s).currentGroupIndex < |s.groups|
  }

  /** The scoring step of `submitAnswer`: a correct answer adds
      CorrectAnswerPoints of the timer to the current group. */
  function Award(s: GameState, correct: bool): (r: GameState)
    ensures |r.groups| == |s.groups|
    ensures forall j :: 0 <= j < |s.groups| && j != s.currentGroupIndex ==> r.groups[j] == s.groups[j]
    ensures s.currentGroupIndex < |s.groups| ==>
      r.groups[s.currentGroupIndex] ==
        s.groups[s.currentGroupIndex].(score := s.groups[s.currentGroupIndex].score
                                                + (if correct then CorrectAnswerPoints(s.timer) else 0))
    ensures !correct ==> r == s
    ensures r == s.(groups := r.groups)
  {
    var i := s.currentGroupIndex;
    if correct && i < |s.groups| then
      s.(groups := s.groups[i := s.groups[i].(score := s.groups[i].score + CorrectAnswerPoints(s.timer))])
    else s
  }

  /** Whether `submitAnswer(answer)` is accepted: a question must be live and resolve for the current group. */
  function Accepts(s: GameState): (b: bool)
    ensures b ==> s.currentGroupIndex < |s.groups|
  {
    s.isQuestionActive && CurrentQuestion(s).Some?
  }

  /** The state `submitAnswer(answer)` leaves behind (the turn already advanced).
      When no question is live or none resolves, nothing changes. Otherwise the
      answer is recorded, the question closes, the current group gains
      10 + floor(timer / 2) points exactly when the answer equals the
      question's answer, no other group's score changes, and the turn advances. */
  function Answer(s: GameState, answer: string): (r: GameState)
    ensures !Accepts(s) ==> r == s
    ensures Accepts(s) ==>
      var i := s.currentGroupIndex;
      var correct := answer == CurrentQuestion(s).value.answer;
      && |r.groups| == |s.groups|
      && r.groups[i].score == s.groups[i].score + (if correct then CorrectAnswerPoints(s.timer) else 0)
      && r.groups[i].currentQuestion == s.groups[i].currentQuestion + 1
      && (forall j :: 0 <= j < |s.groups| && j != i ==> r.groups[j] == s.groups[j])
      && r.selectedAnswer == Some(answer)
      && !r.isQuestionActive
    ensures Progressed(s, r)
  {
    if !Accepts(s) then s
    else
      var closed := s.(selectedAnswer := Some(answer), isQuestionActive := false);
      AdvanceTurn(Award(closed, answer == CurrentQuestion(s).value.answer))
  }

  /** The state `handleTimeout` leaves behind: the question closes, nobody
      scores, and the turn advances. */
  function Timeout(s: GameState): (r: GameState)
    ensures !r.isQuestionActive
    ensures |r.groups| == |s.groups|
    ensures forall j :: 0 <= j < |s.groups| ==> r.groups[j].score == s.groups[j].score
    ensures s.currentGroupIndex < |s.groups| ==>
              r.groups[s.currentGroupIndex].currentQuestion == s.groups[s.currentGroupIndex].currentQuestion + 1
    ensures Progressed(s, r)
  {
    AdvanceTurn(s.(isQuestionActive := false))
  }

  /** The turns still to be played in the game, counting the current one. */
  ghost function RemainingTurns(s: GameState): (n: nat)
    requires Consistent(s)
    ensures n == 0 <==> s.currentGroupIndex == |s.groups|
  {
    var t := TurnsPerGroup(s.totalQuestions);
    if s.currentGroupIndex < |s.groups| then
      (t - s.groups[s.currentGroupIndex].currentQuestion) + t * (|s.groups| - s.currentGroupIndex - 1)
    else 0
  }

  /** A game in which no group has played yet lasts exactly
      TurnsPerGroup(totalQuestions) turns per group. */
  lemma FreshGameLength(s: GameState)
    requires Consistent(s)
    requires |s.groups| > 0 && !AnyProgress(s.groups)
    ensures RemainingTurns(s) == |s.groups| * TurnsPerGroup(s.totalQuestions)
  {
  }

  /** Every turn advance keeps the invariant. */
  lemma AdvanceTurnKeeps(s: GameState)
    requires Consistent(s)
    ensures Consistent(AdvanceTurn(s))
  {
    var i := s.currentGroupIndex;
    if i < |s.groups| {
      var r := AdvanceTurn(s);
      var t := TurnsPerGroup(s.totalQuestions);
      assert r.groups[i].currentQuestion <= t;
      assert r.groups[i].score <= MaxPoints * r.groups[i].currentQuestion;
      forall j | 0 <= j < |r.groups|
        ensures r.groups[j].score <= MaxPoints * r.groups[j].currentQuestion
      {
        if j != i {
          assert r.groups[j] == s.groups[j];
        }
      }
      if r.currentGroupIndex == i + 1 {
        forall j | 0 <= j < r.currentGroupIndex
          ensures r.groups[j].currentQuestion == t
        {
          if j < i {
            assert r.groups[j] == s.groups[j];
          }
        }
        forall j | r.currentGroupIndex <= j < |r.groups|
          ensures r.groups[j].currentQuestion == 0
        {
          assert r.groups[j] == s.groups[j];
        }
      } else {
        forall j | 0 <= j < i
          ensures r.groups[j].currentQuestion == t
        {
          assert r.groups[j] == s.groups[j];
        }
        forall j | i < j < |r.groups|
          ensures r.groups[j].currentQuestion == 0
        {
          assert r.groups[j] == s.groups[j];
        }
      }
    }
  }

  /** Every turn advance with a current group uses up exactly one turn. */
  lemma AdvanceTurnCountsDown(s: GameState)
    requires Consistent(s)
    requires s.currentGroupIndex < |s.groups|
    ensures Consistent(AdvanceTurn(s))
    ensures RemainingTurns(AdvanceTurn(s)) + 1 == RemainingTurns(s)
  {
    AdvanceTurnKeeps(s);
    var r := AdvanceTurn(s);
    var i := s.currentGroupIndex;
    var t := TurnsPerGroup(s.totalQuestions);
    var c := s.groups[i].currentQuestion;
    var later := |s.groups| - i - 1;
    assert RemainingTurns(s) == (t - c) + t * later;
    if r.currentGroupIndex == i + 1 {
      assert c + 1 == t;
      if i + 1 < |s.groups| {
        assert r.groups[i + 1].currentQuestion == 0;
        assert RemainingTurns(r) == t + t * (later - 1);
        assert t * later == t + t * (later - 1);
      }
    } else {
      assert RemainingTurns(r) == (t - (c + 1)) + t * later;
    }
  }


  /** Scoring then advancing keeps the invariant: the points of one answer are
      matched by the turn that is played for it. */
  lemma AnswerKeeps(s: GameState, answer: string)
    requires Consistent(s)
    ensures Consistent(Answer(s, answer))
  {
    if Accepts(s) {
      var i := s.currentGroupIndex;
      var closed := s.(selectedAnswer := Some(answer), isQuestionActive := false);
      var awarded := Award(closed, answer == CurrentQuestion(s).value.answer);
      var r := AdvanceTurn(awarded);
      assert r.groups[i].score <= MaxPoints * r.groups[i].currentQuestion by {
        assert awarded.groups[i].score <= s.groups[i].score + MaxPoints;
      }
      forall j | 0 <= j < |s.groups|
        ensures r.groups[j].score <= MaxPoints * r.groups[j].currentQuestion
      {
        if j != i {
          assert r.groups[j] == s.groups[j];
        }
      }
    }
  }

  /** A timeout keeps the invariant. */
  lemma TimeoutKeeps(s: GameState)
    requires Consistent(s)
    ensures Consistent(Timeout(s))
  {
    AdvanceTurnKeeps(s.(isQuestionActive := false));
  }

  /** While a group is up and the shared list is not empty, there is always a
      question on screen; with an empty list there never is. */
  lemma CurrentQuestionWhilePlaying(s: GameState)
    requires Consistent(s)
    ensures CurrentQuestion(s).Some? <==> s.currentGroupIndex < |s.groups| && s.totalQuestions > 0
  {
  }

  /** The last turn of the last group ends the game: it stops running, no
      further question is scheduled, the game is over and there is a winner. */
  lemma LastTurnEndsGame(s: GameState)
    requires Consistent(s)
    requires s.currentGroupIndex < |s.groups| && RemainingTurns(s) == 1
    ensures !Continues(s)
    ensures !AdvanceTurn(s).isGameStarted
    ensures IsGameOver(AdvanceTurn(s))
    ensures |Winners(AdvanceTurn(s))| > 0
  {
    var i := s.currentGroupIndex;
    var t := TurnsPerGroup(s.totalQuestions);
    var c := s.groups[i].currentQuestion;
    assert i == |s.groups| - 1 && c + 1 == t by {
      var later := |s.groups| - i - 1;
      assert RemainingTurns(s) == (t - c) + t * later;
      assert t * later >= later;
    }
    var r := AdvanceTurn(s);
    assert r.currentGroupIndex == |s.groups|;
    assert r.groups[i].currentQuestion > 0;
  }
}
