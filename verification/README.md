# Quiz turn engine — a Dafny model

This project models the game engine of a multi-group trivia quiz (`useQuizGame`). The engine draws one shared list of questions from three difficulty tiers: easy, medium and hard. Groups then play strictly one after another. Each group walks the whole shared list, one question per turn. Every question runs a 30-second countdown. A correct answer earns 10 points plus half of the seconds left, rounded down. A timeout earns nothing. When the last group has played its last turn, the game stops. The groups with the highest score are the winners.

Files:

- `quiz_types.dfy` (module `QuizTypes`): the records `Question`, `Group` and `GameState`, the `Difficulty` tiers, the question bank `QuizData`, and the constants (30 seconds, 10 base points, 25 points at most per answer).
- `quiz_computed.dfy` (module `QuizComputed`): the read-only views `CurrentGroup`, `CurrentQuestion`, `IsGameOver` and `Winners`, plus lemmas about ties.
- `quiz_rules.dfy` (module `QuizRules`): the effect of `nextTurn`, `handleTimeout` and `submitAnswer` on the state, written as functions, together with the scoring rule.
  - `Consistent` is the invariant of every reachable state. Groups play strictly in order. Every finished group has played exactly `max(totalQuestions, 1)` turns, and later groups have played none. No group has more than 25 points per turn played. The countdown stays within 0..30.
  - Lemmas show that every command keeps this invariant.
  - Lemmas show that each turn uses up exactly one of the game's remaining turns. A fresh game therefore lasts `groups × max(totalQuestions, 1)` turns.
  - A lemma shows that the last turn ends the game with at least one winner.
- `quiz_game.dfy` (module `QuizGame`): the class `QuizGame`. It holds the game state record and updates it in place. It also holds the browser timers the engine uses:
  - the handle of the latest countdown interval;
  - the set of intervals still firing;
  - the number of delayed "start next question" callbacks still to run.

  `QuizRules` gives the effect of `nextTurn`, `handleTimeout` and `submitAnswer` as functions, and the matching methods are proved to produce exactly that state. The other commands give their new state in their own `ensures`. `InitializeGame` fixes the question list only up to a permutation. The predicate `SingleTimer` says that at most one countdown runs, and only while a question is live. Each method says when it keeps that discipline. `TwoGroupOpening` is a client that works only from the contracts.

The environment drives time. `Tick(id)` is one firing of a live one-second interval. `RunScheduledStart()` runs one of the two-second delayed `startQuestion` calls that a turn advance schedules. The question bank comes in as a `QuizData` parameter. Shuffling is a nondeterministic choice of some permutation.

Behaviour of the code worth knowing:

- All groups share one question list, drawn once by `initializeGame`. Groups do not get their own lists from `addGroup`.
- `totalQuestions` is the number of questions actually drawn. It is not 3 × the per-tier count.
- `initializeGame` does not cancel a running countdown interval.
- `startGame` neither checks for groups nor resets the group index.
- There is no `reset` command.
- Scoring is 10 + ⌊timer / 2⌋.
- Play is strictly sequential: a group plays all its turns before the next group starts.

## Model

| member | source | states |
|---|---|---|
| `QuizTypes.PoolsInDrawOrder` | frontend/src/composables/useQuizGame.ts:38-40 | `Pool` looks a tier up in the question bank: walking the tiers in draw order visits the easy, medium and hard pools, in that order, and every tier occurs |
| `QuizComputed.CurrentGroup` | frontend/src/composables/useQuizGame.ts:20 | there is a current group exactly when the group index is within the group list, and it is the group at that index |
| `QuizComputed.CurrentQuestion` | frontend/src/composables/useQuizGame.ts:22-26 | a question resolves exactly when there is a current group whose cursor is inside the shared list, and it is the list entry at that cursor; otherwise none |
| `QuizComputed.AnyProgress` | frontend/src/composables/useQuizGame.ts:128 | true exactly when some group has played at least one turn |
| `QuizComputed.IsGameOver` | frontend/src/composables/useQuizGame.ts:127-129 | over exactly when the game is not running and some group has played; an over game has at least one group |
| `QuizComputed.MaxScore` | frontend/src/composables/useQuizGame.ts:134 | the result is at least every group's score and is the score of some group |
| `QuizComputed.WithScore` | frontend/src/composables/useQuizGame.ts:135 | keeps each group with the given score exactly as many times as it occurs, and nothing else |
| `QuizComputed.WithScoreAppend` | frontend/src/composables/useQuizGame.ts:135 | filtering by score distributes over concatenation, so the winners come out in group order |
| `QuizComputed.Winners` | frontend/src/composables/useQuizGame.ts:131-136 | empty unless the game is over; then non-empty, holding every top-scoring group with its multiplicity and nothing else, and no group outscores a winner |
| `QuizComputed.TopScorersExist` | frontend/src/composables/useQuizGame.ts:134-135 | a non-empty group list has at least one group holding the top score |
| `QuizComputed.WinnersAreExactlyTheTopScorers` | frontend/src/composables/useQuizGame.ts:131-136 | once the game is over, a group is a winner if and only if it is one of the groups and holds the top score |
| `QuizComputed.TieExampleMax` | frontend/src/composables/useQuizGame.ts:134 | in the three-group example with scores 25, 10, 25 the top score is 25 |
| `QuizComputed.TieExampleFilter` | frontend/src/composables/useQuizGame.ts:135 | in that example the groups with score 25 are the first and the last, in that order |
| `QuizComputed.TieKeepsAllTopScorers` | frontend/src/composables/useQuizGame.ts:131-136 | a finished game whose first and last groups tie on 25 points has exactly those two, in order, as winners |
| `QuizRules.TimeBonus` | frontend/src/composables/useQuizGame.ts:96 | the bonus is half the remaining seconds rounded down: 2·b ≤ timer < 2·b + 2 |
| `QuizRules.CorrectAnswerPoints` | frontend/src/composables/useQuizGame.ts:94-100 | a correct answer earns at least 10 points, 10 plus the rounded-down half of the remaining seconds, and at most 25 while the timer is within 30 |
| `QuizRules.SliceEnd` | frontend/src/composables/useQuizGame.ts:42 | taking the first k of a list keeps k entries when 0 ≤ k ≤ length, the whole list when k ≥ length, and for negative k drops the last −k entries (none left if that is all of them) |
| `QuizRules.PrefixOfShuffleIsDraw` | frontend/src/composables/useQuizGame.ts:41-42 | the first k questions of a reordering of a tier's pool are a draw from that pool: the sliced count, each question at most as often as in the pool |
| `QuizRules.TurnsPerGroup` | frontend/src/composables/useQuizGame.ts:110-112 | a group's turns end once its cursor reaches totalQuestions, so a group plays max(totalQuestions, 1) turns: at least one, and totalQuestions when that is positive |
| `QuizRules.AdvanceTurn` | frontend/src/composables/useQuizGame.ts:106-121 | without a current group nothing changes; otherwise only the current group's cursor grows, by one; the index moves on by exactly one when that cursor reaches totalQuestions; the game stops exactly when the index passes the last group; no score, cursor or index decreases |
| `QuizRules.Continues` | frontend/src/composables/useQuizGame.ts:106-124 | a next question is scheduled exactly when there was a current group and there still is one after the advance, and then the running flag is untouched |
| `QuizRules.Award` | frontend/src/composables/useQuizGame.ts:94-101 | a correct answer adds CorrectAnswerPoints(timer) to the current group's score; a wrong answer changes nothing; no other group changes |
| `QuizRules.Accepts` | frontend/src/composables/useQuizGame.ts:86 | an answer is accepted only while a question is live and resolves, which implies there is a current group |
| `QuizRules.Answer` | frontend/src/composables/useQuizGame.ts:85-104 | without a live, resolving question the state is unchanged; otherwise the answer is recorded and the question closed; the current group gains CorrectAnswerPoints(timer) exactly when the answer equals the question's answer, and its cursor grows by one; every other group is unchanged |
| `QuizRules.Timeout` | frontend/src/composables/useQuizGame.ts:77-83 | the question closes, no score changes, the current group's cursor grows by one and nothing goes backwards |
| `QuizRules.RemainingTurns` | frontend/src/composables/useQuizGame.ts:106-121 | in a consistent state no turns remain exactly when the group index has passed the last group |
| `QuizRules.FreshGameLength` | frontend/src/composables/useQuizGame.ts:106-121 | a game in which no group has played yet has groups × max(totalQuestions, 1) turns to go |
| `QuizRules.AdvanceTurnKeeps` | frontend/src/composables/useQuizGame.ts:106-121 | a turn advance keeps the invariant: strict group order, finished groups at exactly their quota, later groups untouched, points bounded by turns |
| `QuizRules.AdvanceTurnCountsDown` | frontend/src/composables/useQuizGame.ts:106-121 | each advance with a current group uses up exactly one remaining turn, so the game always ends |
| `QuizRules.AnswerKeeps` | frontend/src/composables/useQuizGame.ts:85-104 | submitting an answer keeps the invariant, including at most 25 points per turn played |
| `QuizRules.TimeoutKeeps` | frontend/src/composables/useQuizGame.ts:77-83 | a timeout keeps the invariant |
| `QuizRules.CurrentQuestionWhilePlaying` | frontend/src/composables/useQuizGame.ts:22-26 | in a consistent state a question resolves exactly when a group is up and the shared list is not empty |
| `QuizRules.LastTurnEndsGame` | frontend/src/composables/useQuizGame.ts:112-136 | after the game's last remaining turn no question is scheduled, the game is not running, it is over, and there is at least one winner |
| `QuizGame.Shuffle` | frontend/src/composables/useQuizGame.ts:41-46 | the random-comparator sort returns a permutation of its input |
| `QuizGame.Cleared` | frontend/src/composables/useQuizGame.ts:78-80 | clearing the handle's interval removes that interval, if there is a handle, and nothing else |
| `QuizGame.QuizGame.constructor` | frontend/src/composables/useQuizGame.ts:6-18 | the engine starts with no groups, no questions, index 0, timer 0, nothing running and no timers |
| `QuizGame.QuizGame.InitializeGame` | frontend/src/composables/useQuizGame.ts:28-48 | groups emptied, index 0, nothing started or live, no answer; the question list is a permutation of one draw per tier, each the sliced count and from that tier's pool; totalQuestions is its length; the countdown and any running interval are left alone |
| `QuizGame.QuizGame.AddGroup` | frontend/src/composables/useQuizGame.ts:50-56 | appends a group with score 0 and cursor 0, changing nothing else |
| `QuizGame.QuizGame.StartGame` | frontend/src/composables/useQuizGame.ts:58-61 | the game runs and its question opens: live, no answer, timer 30, a new interval; the group index is kept |
| `QuizGame.QuizGame.StartQuestion` | frontend/src/composables/useQuizGame.ts:63-75 | the question is live, the previous answer is cleared, the timer is 30, and a fresh interval is added to those running without clearing the old one |
| `QuizGame.QuizGame.RunScheduledStart` | frontend/src/composables/useQuizGame.ts:124 | one pending delayed start runs and opens a question as StartQuestion does |
| `QuizGame.QuizGame.Tick` | frontend/src/composables/useQuizGame.ts:68-74 | with time left the timer drops by exactly one and nothing else changes; at zero the question times out (Timeout), its handle's interval is cleared and the next question is scheduled if play continues; the timer stays within 0..30 |
| `QuizGame.QuizGame.HandleTimeout` | frontend/src/composables/useQuizGame.ts:77-83 | the state becomes Timeout of the old one, the handle's interval is cleared, and a next question is scheduled exactly when play continues |
| `QuizGame.QuizGame.SubmitAnswer` | frontend/src/composables/useQuizGame.ts:85-104 | the state becomes Answer of the old one; an ignored answer touches no timer; an accepted one clears the handle's interval and schedules a next question exactly when play continues; the single-timer discipline is kept |
| `QuizGame.QuizGame.ClearTimer` | frontend/src/composables/useQuizGame.ts:78-80 | the interval named by the handle stops firing; the handle itself is kept |
| `QuizGame.QuizGame.NextTurn` | frontend/src/composables/useQuizGame.ts:106-125 | the state becomes AdvanceTurn of the old one, and one delayed start is scheduled exactly when play continues |

## Left out

- Vue reactivity (`ref`, `computed`): the state is a plain field and the computed values are functions of it.
- Wall-clock time: the one-second interval period and the two-second delay before the next question are not modelled. Only the order of events is modelled, through `Tick` and `RunScheduledStart`.
- Randomness: the shuffles are modelled as an arbitrary permutation. Their distribution, and which questions a tier draw picks, are not modelled.
- Loading `data.json`: the question bank is a parameter.
- JavaScript numbers: scores, counters and the timer are unbounded naturals. `questionsPerDifficulty` is an integer, so fractional or NaN values are not modelled.
- `groupCount` in `initializeGame` is accepted and ignored, as in the source.
- Object identity of groups: groups are values in a sequence. Aliasing of the group objects returned by `currentGroup` and `winners`, and callers mutating the exposed `state` directly, are not modelled. Two groups with equal name, score and cursor are indistinguishable values. `Winners` keeps both of them through multiplicity.
- `Math.max` over an empty list, which gives −Infinity: it cannot occur, because `Winners` takes the maximum only when the game is over, and that implies at least one group.
- `TwoGroupOpening`: the client scenario stops after the first answer. It does not play the full two-group game.
