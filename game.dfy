/**
 * The game object itself: four mutable fields and the methods that update
 * them in place. Each method states its new fields outright and ties the
 * snapshot `Model()` to the matching transition of `GameRules`, so the
 * lemmas proved there apply to every sequence of method calls.
 *
 * `updateHUD` only writes the fields to the page, and the `alert` and
 * `console.log` calls only report; none of them changes a field, so no
 * method below performs them.
 */
module GameObject {
  import GameRules

  class Game {
    var lives: int
    var score: int
    var difficulty: int
    var isRunning: bool

    /** The current fields as a value. */
    function Model(): (m: GameRules.State)
      reads this
    {
      GameRules.State(lives, score, difficulty, isRunning)
    }

    /** The object literal's initial values. */
    constructor ()
      ensures lives == GameRules.StartLives && score == 0 && difficulty == 1 && !isRunning
      ensures Model() == GameRules.Initial
    {
      lives := GameRules.StartLives;
      score := 0;
      difficulty := 1;
      isRunning := false;
    }

    /** Does nothing if already running; otherwise resets and starts a game. */
    method StartGame()
      modifies this
      ensures old(isRunning) ==> unchanged(this)
      ensures !old(isRunning) ==> isRunning && lives == GameRules.StartLives && score == 0 && difficulty == 1
      ensures Model() == GameRules.StartGame(old(Model()))
    {
      if isRunning {
        return;
      }
      isRunning := true;
      lives := GameRules.StartLives;
      score := 0;
      difficulty := 1;
    }

    /** Clears the running flag. */
    method StopGame()
      modifies this`isRunning
      ensures !isRunning
      ensures Model() == GameRules.StopGame(old(Model()))
    {
      isRunning := false;
    }

    /** Adds the points (any amount, even negative) and re-evaluates difficulty. */
    method AddScore(points: int)
      modifies this`score, this`difficulty
      ensures score == old(score) + points
      ensures score >= GameRules.HardScore ==> difficulty == 3
      ensures GameRules.MediumScore <= score < GameRules.HardScore ==> difficulty == 2
      ensures score < GameRules.MediumScore ==> difficulty == old(difficulty)
      ensures Model() == GameRules.AddScore(old(Model()), points)
    {
      score := score + points;
      CheckDifficulty();
    }

    /** Takes a life if one is left, then ends the game when none is. */
    method LoseLife()
      modifies this`lives, this`isRunning
      ensures lives == if old(lives) > 0 then old(lives) - 1 else old(lives)
      ensures lives <= 0 ==> !isRunning
      ensures lives > 0 ==> isRunning == old(isRunning)
      ensures Model() == GameRules.LoseLife(old(Model()))
    {
      if lives > 0 {
        lives := lives - 1;
      }
      if lives <= 0 {
        GameOver();
      }
    }

    /** Raises difficulty to 3 from score 20 and to 2 from score 10; below 10 leaves it. */
    method CheckDifficulty()
      modifies this`difficulty
      ensures score >= GameRules.HardScore ==> difficulty == 3
      ensures GameRules.MediumScore <= score < GameRules.HardScore ==> difficulty == 2
      ensures score < GameRules.MediumScore ==> difficulty == old(difficulty)
      ensures Model() == GameRules.CheckDifficulty(old(Model()))
    {
      if score >= GameRules.HardScore {
        difficulty := 3;
      } else if score >= GameRules.MediumScore {
        difficulty := 2;
      }
    }

    /** Ends the game by stopping it. */
    method GameOver()
      modifies this`isRunning
      ensures !isRunning
      ensures Model() == GameRules.GameOver(old(Model()))
    {
      StopGame();
    }
  }

  /**
   * A caller's view, from the method contracts alone: a game that is
   * started, scores, ignores a second start, loses all its lives and is then
   * hit once more ends stopped with no lives and its score kept.
   */
  method PlayToGameOver() returns (g: Game)
    ensures g.lives == 0 && !g.isRunning && g.score == 12 && g.difficulty == 2
  {
    g := new Game();
    g.StartGame();
    g.AddScore(12);
    g.StartGame();
    g.LoseLife();
    g.LoseLife();
    g.LoseLife();
    g.LoseLife();
  }
}
