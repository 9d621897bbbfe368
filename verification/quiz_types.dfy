/** The records the quiz engine works on: questions, groups, the game state
    and the question bank split by difficulty. */
module QuizTypes {

  datatype Option<T> = None | Some(value: T)

  /** One multiple-choice question; `answer` is compared verbatim with what a group submits. */
  datatype Question = Question(question: string, options: seq<string>, answer: string)

  /** A participating team: its running score and how many turns it has played. */
  datatype Group = Group(name: string, score: nat, currentQuestion: nat)

  /** The single state record of a game. Counters and the timer never go below
      zero in the engine, so they are natural numbers here. */
  datatype GameState = GameState(
    groups: seq<Group>,
    currentGroupIndex: nat,
    questions: seq<Question>,
    totalQuestions: nat,
    timePerQuestion: nat,
    isGameStarted: bool,
    isQuestionActive: bool,
    selectedAnswer: Option<string>,
    timer: nat)

  datatype Difficulty = Easy | Medium | Hard

  /** The question bank, one pool per difficulty. */
  datatype QuizData = QuizData(easy: seq<Question>, medium: seq<Question>, hard: seq<Question>)

  /** Seconds a group has to answer one question. */
  const TimePerQuestion: nat := 30

  /** Points for a correct answer before the time bonus. */
  const BasePoints: nat := 10

  /** The most a single correct answer can earn: the base plus half of a full countdown. */
  const MaxPoints: nat := BasePoints + TimePerQuestion / 2

  /** The order in which the tiers are drawn from the bank. */
  const Difficulties: seq<Difficulty> := [Easy, Medium, Hard]

  /** The pool of the bank that a tier's questions are drawn from. */
  function Pool(data: QuizData, d: Difficulty): seq<Question>
  {
    match d
    case Easy => data.easy
    case Medium => data.medium
    case Hard => data.hard
  }

  /** Walking the tiers in draw order visits the bank's easy, medium and hard
      pools, in that order, and each tier exactly once. */
  lemma PoolsInDrawOrder(data: QuizData)
    ensures |Difficulties| == 3
    ensures Pool(data, Difficulties[0]) == data.easy
    ensures Pool(data, Difficulties[1]) == data.medium
    ensures Pool(data, Difficulties[2]) == data.hard
    ensures forall d: Difficulty :: d in Difficulties
  {
    forall d: Difficulty
      ensures d in Difficulties
    {
      assert Difficulties[if d.Easy? then 0 else if d.Medium? then 1 else 2] == d;
    }
  }

  /** The state the engine is created with. */
  const InitialState: GameState :=
    GameState([], 0, [], 0, TimePerQuestion, false, false, None, 0)
}
