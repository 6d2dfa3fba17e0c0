/**
 * The bookkeeping rules of the game object, as values.
 *
 * A `State` is a snapshot of the four fields the object keeps (lives, score,
 * difficulty, the running flag). Every method of the object becomes one
 * transition function on snapshots; `Run` folds a sequence of calls. The
 * lemmas state what holds over any history of calls, e.g. that a running game
 * always has a life left and that difficulty follows the score thresholds.
 */
module GameRules {

  /** The four fields of the game object. */
  datatype State = State(lives: int, score: int, difficulty: int, running: bool)

  /** The number of lives a fresh game starts with. */
  const StartLives: int := 3

  /** Score at or above which difficulty becomes 2, and 3. */
  const MediumScore: int := 10
  const HardScore: int := 20

  /** The field values the object literal is created with. */
  const Initial: State := State(StartLives, 0, 1, false)

  /**
   * The difficulty tier the thresholds assign to a score: 1 below 10,
   * 2 from 10 up to 19, 3 from 20 on. This is the reference definition the
   * incremental update rule is compared against.
   */
  function Tier(score: int): (t: int)
    ensures 1 <= t <= 3
  {
    if score >= HardScore then 3 else if score >= MediumScore then 2 else 1
  }

  /** The decision rule of `checkDifficulty`: raise to 3 or 2 at the thresholds, else keep. */
  function NextDifficulty(score: int, difficulty: int): (d: int)
  {
    if score >= HardScore then 3
    else if score >= MediumScore then 2
    else difficulty
  }

  /** `checkDifficulty`: only the difficulty field changes. */
  function CheckDifficulty(s: State): (r: State)
    ensures r.lives == s.lives && r.score == s.score && r.running == s.running
    ensures s.score >= MediumScore ==> r.difficulty == Tier(s.score)
    ensures s.score < MediumScore ==> r.difficulty == s.difficulty
  {
    s.(difficulty := NextDifficulty(s.score, s.difficulty))
  }

  /** `startGame`: a no-op while running, otherwise a full reset into a running game. */
  function StartGame(s: State): (r: State)
    ensures r.running
    ensures s.running ==> r == s
    ensures !s.running ==> r.lives == StartLives && r.score == 0 && r.difficulty == 1
  {
    if s.running then s
    else State(StartLives, 0, 1, true)
  }

  /** `stopGame`: clears the running flag and nothing else. */
  function StopGame(s: State): (r: State)
    ensures !r.running
    ensures r.lives == s.lives && r.score == s.score && r.difficulty == s.difficulty
  {
    s.(running := false)
  }

  /** `gameOver`: stops the game (its alert is output only). */
  function GameOver(s: State): (r: State)
    ensures !r.running
    ensures r.lives == s.lives && r.score == s.score && r.difficulty == s.difficulty
  {
    StopGame(s)
  }

  /** `addScore(points)`: add the points, then re-evaluate difficulty. */
  function AddScore(s: State, points: int): (r: State)
    ensures r.score == s.score + points
    ensures r.lives == s.lives && r.running == s.running
    ensures r.score >= HardScore ==> r.difficulty == 3
    ensures MediumScore <= r.score < HardScore ==> r.difficulty == 2
    ensures r.score < MediumScore ==> r.difficulty == s.difficulty
  {
    CheckDifficulty(s.(score := s.score + points))
  }

  /** Lives after the guarded decrement of `loseLife`. */
  function LivesAfterLoss(lives: int): (l: int)
  {
    if lives > 0 then lives - 1 else lives
  }

  /**
   * Whether `loseLife` goes on to call `gameOver`: exactly when the guarded
   * decrement leaves no life, which is the case for every call made with at
   * most one life, including repeated calls at zero.
   */
  function LoseLifeCallsGameOver(s: State): (b: bool)
    ensures b <==> s.lives <= 1
  {
    LivesAfterLoss(s.lives) <= 0
  }

  /** `loseLife`: decrement lives if any are left, then end the game if none are. */
  function LoseLife(s: State): (r: State)
    ensures s.lives > 0 ==> r.lives == s.lives - 1
    ensures s.lives <= 0 ==> r.lives == s.lives
    ensures s.lives >= 0 ==> r.lives >= 0
    ensures r.score == s.score && r.difficulty == s.difficulty
    ensures r.running <==> s.running && !LoseLifeCallsGameOver(s)
  {
    var t := s.(lives := LivesAfterLoss(s.lives));
    if t.lives <= 0 then GameOver(t) else t
  }

  /** A call made on the game object from outside. */
  datatype Op =
    | Start
    | Stop
    | Score(points: int)
    | Lose
    | Over
    | Check

  /** The effect of one call. */
  function Step(s: State, op: Op): (r: State)
  {
    match op
    case Start => StartGame(s)
    case Stop => StopGame(s)
    case Score(p) => AddScore(s, p)
    case Lose => LoseLife(s)
    case Over => GameOver(s)
    case Check => CheckDifficulty(s)
  }

  /** The state after a sequence of calls, in order. */
  function Run(s: State, ops: seq<Op>): (r: State)
    decreases |ops|
  {
    if ops == [] then s else Run(Step(s, ops[0]), ops[1..])
  }

  /** Every `addScore` call in `ops` adds a non-negative number of points. */
  predicate NonNegativePoints(ops: seq<Op>)
  {
    forall i :: 0 <= i < |ops| && ops[i].Score? ==> ops[i].points >= 0
  }

  /**
   * Applied to `s` in order, `ops` stay within one game: every `startGame`
   * call among them finds the game running, so it is ignored and resets
   * nothing.
   */
  predicate WithinOneGame(s: State, ops: seq<Op>)
    decreases |ops|
  {
    ops == [] || ((ops[0].Start? ==> s.running) && WithinOneGame(Step(s, ops[0]), ops[1..]))
  }

  /** Lives stay within 0..3 and a running game always has at least one life. */
  predicate LivesOk(s: State)
  {
    0 <= s.lives <= StartLives && (s.running ==> s.lives >= 1)
  }

  /** The difficulty field equals the tier of the score. */
  predicate TierOk(s: State)
  {
    s.difficulty == Tier(s.score)
  }

  // ---------------------------------------------------------------------------
  // Single calls

  /** The object literal starts stopped, with 3 lives, score 0 and difficulty 1. */
  lemma InitialState()
    ensures LivesOk(Initial) && TierOk(Initial) && !Initial.running
    ensures Initial.lives == 3 && Initial.score == 0 && Initial.difficulty == 1
  {
  }

  /** Whatever happened before, starting a stopped game yields the same state. */
  lemma StartForgetsHistory(s: State, t: State)
    requires !s.running && !t.running
    ensures StartGame(s) == StartGame(t) == StartGame(Initial)
  {
  }

  /** Stopping twice is stopping once; `gameOver` is the same as `stopGame`. */
  lemma StopIdempotent(s: State)
    ensures StopGame(StopGame(s)) == StopGame(s)
    ensures GameOver(s) == StopGame(s)
  {
  }

  /** A `loseLife` call with no life left keeps lives where they are and stops the game again. */
  lemma LoseLifeAtZero(s: State)
    requires s.lives == 0
    ensures LoseLife(s) == StopGame(s)
    ensures LoseLifeCallsGameOver(s)
    ensures LoseLife(LoseLife(s)) == LoseLife(s)
  {
  }

  /** The threshold tiers are ordered: a higher score never has a lower tier. */
  lemma TierMonotone(a: int, b: int)
    requires a <= b
    ensures Tier(a) <= Tier(b)
  {
  }

  /** With the score past the first threshold the update rule gives the tier, whatever the old difficulty. */
  lemma NextDifficultyAboveThreshold(score: int, d: int)
    requires score >= MediumScore
    ensures NextDifficulty(score, d) == Tier(score)
  {
  }

  /**
   * The update rule agrees with the tier when the score has not gone down
   * and the difficulty was the tier of the old score.
   */
  lemma NextDifficultyTracksTier(oldScore: int, score: int)
    requires oldScore <= score
    ensures NextDifficulty(score, Tier(oldScore)) == Tier(score)
  {
  }

  /** Scores 9, 10, 19 and 20 after a fresh start give tiers 1, 2, 2 and 3. */
  lemma ThresholdsExact()
    ensures AddScore(StartGame(Initial), 9).difficulty == 1
    ensures AddScore(StartGame(Initial), 10).difficulty == 2
    ensures AddScore(StartGame(Initial), 19).difficulty == 2
    ensures AddScore(StartGame(Initial), 20).difficulty == 3
  {
  }

  /**
   * Negative points can lower the difficulty: the rule only raises it at the
   * thresholds, so a drop from 25 to 15 moves difficulty from 3 to 2.
   */
  lemma NegativePointsLowerDifficulty()
    ensures AddScore(AddScore(StartGame(Initial), 25), -10).difficulty == 2
    ensures AddScore(StartGame(Initial), 25).difficulty == 3
  {
  }

  /** One call keeps the lives invariant. */
  lemma StepKeepsLives(s: State, op: Op)
    requires LivesOk(s)
    ensures LivesOk(Step(s, op))
  {
  }

  /** One call with non-negative points keeps difficulty equal to the tier of the score. */
  lemma StepKeepsTier(s: State, op: Op)
    requires TierOk(s)
    requires op.Score? ==> op.points >= 0
    ensures TierOk(Step(s, op))
  {
  }

  // ---------------------------------------------------------------------------
  // Sequences of calls

  /** The suffix of a sequence with non-negative points has non-negative points. */
  lemma NonNegativeTail(ops: seq<Op>)
    requires |ops| > 0 && NonNegativePoints(ops)
    ensures NonNegativePoints(ops[1..])
    ensures ops[0].Score? ==> ops[0].points >= 0
  {
  }

  /**
   * Lives never go negative nor above 3, and a running game always has a
   * life left, after any sequence of calls from a state where that holds.
   */
  lemma {:induction false} RunKeepsLives(s: State, ops: seq<Op>)
    requires LivesOk(s)
    ensures LivesOk(Run(s, ops))
    decreases |ops|
  {
    if ops != [] {
      StepKeepsLives(s, ops[0]);
      RunKeepsLives(Step(s, ops[0]), ops[1..]);
    }
  }

  /**
   * As long as every `addScore` adds non-negative points, difficulty stays
   * the tier of the score: 1 below 10, 2 from 10 to 19, 3 from 20 on.
   */
  lemma {:induction false} RunKeepsTier(s: State, ops: seq<Op>)
    requires TierOk(s)
    requires NonNegativePoints(ops)
    ensures TierOk(Run(s, ops))
    decreases |ops|
  {
    if ops != [] {
      NonNegativeTail(ops);
      StepKeepsTier(s, ops[0]);
      RunKeepsTier(Step(s, ops[0]), ops[1..]);
    }
  }

  /**
   * Within one game (every `startGame` call finds the game running) and
   * with non-negative points, neither the score nor the difficulty ever
   * goes down.
   */
  lemma {:induction false} RunNeverLowersDifficulty(s: State, ops: seq<Op>)
    requires TierOk(s)
    requires NonNegativePoints(ops) && WithinOneGame(s, ops)
    ensures Run(s, ops).score >= s.score
    ensures Run(s, ops).difficulty >= s.difficulty
    decreases |ops|
  {
    if ops != [] {
      NonNegativeTail(ops);
      var t := Step(s, ops[0]);
      StepKeepsTier(s, ops[0]);
      RunNeverLowersDifficulty(t, ops[1..]);
      TierMonotone(s.score, t.score);
    }
  }

  /**
   * A second `startGame` while running does not begin a new game: after a
   * start, scoring 12, starting again and losing four lives stays within the
   * first game, and the score and difficulty reached are kept.
   */
  lemma RepeatedStartStaysInGame()
    ensures WithinOneGame(StartGame(Initial), [Score(12), Start, Lose, Lose, Lose, Lose])
    ensures Run(StartGame(Initial), [Score(12), Start, Lose, Lose, Lose, Lose])
         == State(0, 12, 2, false)
  {
  }

  /**
   * Every history of calls from the object's initial values, with
   * non-negative points, keeps lives in 0..3, keeps a life for a running
   * game, and keeps difficulty at the tier of the score.
   */
  lemma HistoryFromInitial(ops: seq<Op>)
    requires NonNegativePoints(ops)
    ensures LivesOk(Run(Initial, ops)) && TierOk(Run(Initial, ops))
  {
    RunKeepsLives(Initial, ops);
    RunKeepsTier(Initial, ops);
  }
}
