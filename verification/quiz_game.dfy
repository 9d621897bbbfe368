/** The quiz engine object: the game state it updates in place, and the
    timers it hands to the browser. nextTurn, handleTimeout and submitAnswer
    are proved to leave exactly the state their rule in QuizRules describes;
    the other commands state their new state in their own contracts. */
module QuizGame {
  import opened QuizTypes
  import opened QuizComputed
  import opened QuizRules

  /** Reorders a list of questions in some unspecified way. The engine sorts
      with a comparator that answers at random, which yields some permutation
      of its input and nothing more can be said; the choice is left open here. */
  method Shuffle(s: seq<Question>) returns (r: seq<Question>)
    ensures multiset(r) == multiset(s)
    ensures |r| == |s|
  {
    r :| multiset(r) == multiset(s);
    assert |r| == |multiset(r)|;
  }

  /** The lists of `ds` one after another. */
  function Concat(ds: seq<seq<Question>>): seq<Question>
  {
    if ds == [] then [] else Concat(ds[..|ds| - 1]) + ds[|ds| - 1]
  }

  /** The live intervals once `clearInterval` has been called on `handle` (if any). */
  function Cleared(handle: Option<nat>, live: set<nat>): (r: set<nat>)
    ensures r <= live
    ensures handle.None? ==> r == live
    ensures handle.Some? ==> handle.value !in r && live - r <= {handle.value}
  {
    if handle.Some? then live - {handle.value} else live
  }

  class QuizGame {
    /** The game state record. */
    var state: GameState
    /** The handle of the most recently started countdown interval. Clearing an
        interval does not reset it. */
    var timerInterval: Option<nat>
    /** The intervals the browser still fires every second. */
    var liveIntervals: set<nat>
    /** The handle the next interval will get; handles are never reused. */
    var nextIntervalId: nat
    /** Delayed `startQuestion` callbacks scheduled by `nextTurn` that have not run yet. */
    var pendingStarts: nat

    /** Interval handles already given out are below `nextIntervalId`. */
    ghost predicate HandlesIssued()
      reads this
    {
      && (forall id :: id in liveIntervals ==> id < nextIntervalId)
      && (timerInterval.Some? ==> timerInterval.value < nextIntervalId)
    }

    ghost predicate Valid()
      reads this
    {
      Consistent(state) && HandlesIssued()
    }

    /** The timer discipline of an undisturbed game: while a question is live
        exactly one interval runs and it is the one the handle names, and
        otherwise no interval runs and at most one next question is pending. */
    ghost predicate SingleTimer()
      reads this
    {
      && (state.isQuestionActive ==>
            timerInterval.Some? && liveIntervals == {timerInterval.value} && pendingStarts == 0)
      && (!state.isQuestionActive ==> liveIntervals == {} && pendingStarts <= 1)
    }

    constructor ()
      ensures Valid() && SingleTimer()
      ensures state == InitialState
      ensures timerInterval == None && liveIntervals == {} && pendingStarts == 0
    {
      state := InitialState;
      timerInterval := None;
      liveIntervals := {};
      nextIntervalId := 1;
      pendingStarts := 0;
    }

    /** Empties the group list and draws a new shared question list: from each
        tier, in the order easy, medium, hard, the first `questionsPerDifficulty`
        questions of a shuffle of that tier's pool; then the whole list is
        shuffled. `groupCount` is accepted and not used. The countdown and any
        running interval are left as they are. */
    method InitializeGame(groupCount: int, questionsPerDifficulty: int, data: QuizData)
      returns (ghost draws: seq<seq<Question>>)
      requires Valid()
      modifies this`state
      ensures Valid()
      ensures state.groups == [] && state.currentGroupIndex == 0
      ensures !state.isGameStarted && !state.isQuestionActive && state.selectedAnswer == None
      ensures |draws| == |Difficulties|
      ensures forall t :: 0 <= t < |Difficulties| ==>
                IsDraw(Pool(data, Difficulties[t]), questionsPerDifficulty, draws[t])
      ensures multiset(state.questions) == multiset(draws[0] + draws[1] + draws[2])
      ensures state.totalQuestions == |state.questions|
      ensures |state.questions| == |draws[0]| + |draws[1]| + |draws[2]|
      ensures state.timer == old(state.timer) && state.timePerQuestion == old(state.timePerQuestion)
      ensures old(SingleTimer()) && !old(state.isQuestionActive) ==> SingleTimer()
    {
      state := state.(groups := [], questions := [], currentGroupIndex := 0,
                      isGameStarted := false, isQuestionActive := false, selectedAnswer := None);
      draws := [];
      for t := 0 to |Difficulties|
        invariant |draws| == t
        invariant forall u :: 0 <= u < t ==> IsDraw(Pool(data, Difficulties[u]), questionsPerDifficulty, draws[u])
        invariant state.questions == Concat(draws)
        invariant state == old(state).(groups := [], questions := state.questions, currentGroupIndex := 0,
                                       isGameStarted := false, isQuestionActive := false, selectedAnswer := None)
      {
        var pool := Pool(data, Difficulties[t]);
        var shuffled := Shuffle(pool);
        var drawn := shuffled[..SliceEnd(|shuffled|, questionsPerDifficulty)];
        PrefixOfShuffleIsDraw(pool, shuffled, questionsPerDifficulty);
        state := state.(questions := state.questions + drawn);
        assert (draws + [drawn])[..t] == draws;
        draws := draws + [drawn];
      }
      assert draws[..1][..0] == [];
      assert Concat(draws[..1]) == draws[0];
      assert draws[..2][..1] == draws[..1];
      assert Concat(draws[..2]) == draws[0] + draws[1];
      assert draws[..3] == draws;
      var mixed := Shuffle(state.questions);
      state := state.(questions := mixed, totalQuestions := |mixed|);
    }

    /** Appends a group with no points that has played no turns. */
    method AddGroup(name: string)
      requires Valid()
      modifies this`state
      ensures Valid()
      ensures state == old(state).(groups := old(state.groups) + [Group(name, 0, 0)])
      ensures Progressed(old(state), state)
      ensures old(SingleTimer()) ==> SingleTimer()
    {
      state := state.(groups := state.groups + [Group(name, 0, 0)]);
    }

    /** Marks the game as running and opens its first question. The group
        index is not reset. */
    method StartGame()
      requires Valid()
      modifies this`state, this`timerInterval, this`liveIntervals, this`nextIntervalId
      ensures Valid()
      ensures state == old(state).(isGameStarted := true, isQuestionActive := true,
                                   selectedAnswer := None, timer := TimePerQuestion)
      ensures timerInterval == Some(old(nextIntervalId))
      ensures liveIntervals == old(liveIntervals) + {old(nextIntervalId)}
      ensures old(SingleTimer()) && !old(state.isQuestionActive) && old(pendingStarts) == 0 ==> SingleTimer()
    {
      state := state.(isGameStarted := true);
      StartQuestion();
    }

    /** Opens a question: it becomes live, the previous answer is forgotten,
        the countdown restarts from `timePerQuestion`, and a new one-second
        interval is started. An interval the handle named before is not cleared. */
    method StartQuestion()
      requires Valid()
      modifies this`state, this`timerInterval, this`liveIntervals, this`nextIntervalId
      ensures Valid()
      ensures state == old(state).(isQuestionActive := true, selectedAnswer := None, timer := TimePerQuestion)
      ensures old(nextIntervalId) !in old(liveIntervals)
      ensures timerInterval == Some(old(nextIntervalId))
      ensures liveIntervals == old(liveIntervals) + {old(nextIntervalId)}
    {
      state := state.(isQuestionActive := true, selectedAnswer := None, timer := state.timePerQuestion);
      timerInterval := Some(nextIntervalId);
      liveIntervals := liveIntervals + {nextIntervalId};
      nextIntervalId := nextIntervalId + 1;
    }

    /** The browser runs one of the delayed `startQuestion` calls that `nextTurn` scheduled. */
    method RunScheduledStart()
      requires Valid() && pendingStarts > 0
      modifies this`state, this`timerInterval, this`liveIntervals, this`nextIntervalId, this`pendingStarts
      ensures Valid()
      ensures pendingStarts == old(pendingStarts) - 1
      ensures state == old(state).(isQuestionActive := true, selectedAnswer := None, timer := TimePerQuestion)
      ensures timerInterval == Some(old(nextIntervalId))
      ensures liveIntervals == old(liveIntervals) + {old(nextIntervalId)}
      ensures old(SingleTimer()) ==> SingleTimer()
    {
      pendingStarts := pendingStarts - 1;
      StartQuestion();
    }

    /** One firing of a live one-second interval: the countdown drops by one
        second, or, when it is already at zero, the question times out. */
    method Tick(id: nat)
      requires Valid() && id in liveIntervals
      modifies this`state, this`liveIntervals, this`pendingStarts
      ensures Valid()
      ensures old(state.timer) > 0 ==>
                && state == old(state).(timer := old(state.timer) - 1)
                && liveIntervals == old(liveIntervals) && pendingStarts == old(pendingStarts)
      ensures old(state.timer) == 0 ==>
                && state == Timeout(old(state))
                && liveIntervals == Cleared(old(timerInterval), old(liveIntervals))
                && pendingStarts == old(pendingStarts) + (if Continues(old(state)) then 1 else 0)
      ensures Progressed(old(state), state)
      ensures old(SingleTimer()) ==> SingleTimer()
    {
      if state.timer > 0 {
        state := state.(timer := state.timer - 1);
      } else {
        HandleTimeout();
      }
    }

    /** The question times out: its interval is cleared, it closes, nobody
        scores, and the turn advances. */
    method HandleTimeout()
      requires Valid()
      modifies this`state, this`liveIntervals, this`pendingStarts
      ensures Valid()
      ensures state == Timeout(old(state))
      ensures liveIntervals == Cleared(old(timerInterval), old(liveIntervals))
      ensures pendingStarts == old(pendingStarts) + (if Continues(old(state)) then 1 else 0)
    {
      TimeoutKeeps(state);
      ClearTimer();
      state := state.(isQuestionActive := false);
      NextTurn();
    }

    /** Submits an answer for the live question. Ignored when no question is
        live or none resolves for the current group; otherwise the interval is
        cleared, the answer is recorded, the question closes, a correct answer
        earns 10 + floor(timer / 2) points for the current group, and the turn advances. */
    method SubmitAnswer(answer: string)
      requires Valid()
      modifies this`state, this`liveIntervals, this`pendingStarts
      ensures Valid()
      ensures state == Answer(old(state), answer)
      ensures !Accepts(old(state)) ==> liveIntervals == old(liveIntervals) && pendingStarts == old(pendingStarts)
      ensures Accepts(old(state)) ==>
                && liveIntervals == Cleared(old(timerInterval), old(liveIntervals))
                && pendingStarts == old(pendingStarts) + (if Continues(old(state)) then 1 else 0)
      ensures old(SingleTimer()) ==> SingleTimer()
    {
      var question := CurrentQuestion(state);
      if !state.isQuestionActive || question.None? {
        return;
      }
      AnswerKeeps(state, answer);
      ClearTimer();
      state := state.(selectedAnswer := Some(answer), isQuestionActive := false);
      ghost var closed := state;
      if answer == question.value.answer {
        var timeBonus := TimeBonus(state.timer);
        var i := state.currentGroupIndex;
        if i < |state.groups| {
          var group := state.groups[i];
          state := state.(groups := state.groups[i := group.(score := group.score + BasePoints + timeBonus)]);
        }
      }
      assert state == Award(closed, answer == question.value.answer);
      NextTurn();
    }

    /** Clears the interval the handle names, if there is a handle. */
    method ClearTimer()
      requires HandlesIssued()
      modifies this`liveIntervals
      ensures HandlesIssued()
      ensures liveIntervals == Cleared(timerInterval, old(liveIntervals))
    {
      if timerInterval.Some? {
        liveIntervals := liveIntervals - {timerInterval.value};
      }
    }

    /** Passes the turn: the current group's cursor moves on by one; when it
        reaches `totalQuestions` play passes to the next group, and past the
        last group the game stops. A next question is scheduled unless the game
        stopped or there was no current group. */
    method NextTurn()
      requires HandlesIssued()
      modifies this`state, this`pendingStarts
      ensures HandlesIssued()
      ensures state == AdvanceTurn(old(state))
      ensures pendingStarts == old(pendingStarts) + (if Continues(old(state)) then 1 else 0)
    {
      var i := state.currentGroupIndex;
      if i >= |state.groups| {
        return;
      }
      var group := state.groups[i];
      group := group.(currentQuestion := group.currentQuestion + 1);
      state := state.(groups := state.groups[i := group]);
      if group.currentQuestion >= state.totalQuestions {
        state := state.(currentGroupIndex := state.currentGroupIndex + 1);
        if state.currentGroupIndex >= |state.groups| {
          state := state.(isGameStarted := false);
          return;
        }
      }
      pendingStarts := pendingStarts + 1;
    }
  }

  /** A client of the engine, reasoning from the contracts alone: two groups
      and one question per tier, so three turns each. Group A answers its
      first question at once and correctly: it earns 10 + 30 / 2 points and,
      since play is strictly sequential, keeps the turn for its next question. */
  method TwoGroupOpening(q: Question)
  {
    var game := new QuizGame();
    ghost var draws := game.InitializeGame(2, 1, QuizData([q], [q], [q]));
    assert |game.state.questions| == 3;
    assert game.state.questions[0] in multiset(game.state.questions);
    game.AddGroup("A");
    game.AddGroup("B");
    game.StartGame();
    assert CurrentQuestion(game.state) == Some(q);

    game.SubmitAnswer(q.answer);
    assert game.state.groups[0].score == 25 && game.state.groups[1].score == 0;
    assert game.state.currentGroupIndex == 0 && game.pendingStarts == 1;
    assert game.liveIntervals == {};
  }
}
