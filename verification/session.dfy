/**
 * The game's session state (`st.session_state`): the two flags, the score,
 * the high score and the level, the three button handlers that assign them,
 * and the two per-tick updates the frame processor applies to them.
 */
module Session {
  import opened Difficulty

  datatype Session = Session(
    gameActive: bool,
    gameOver: bool,
    score: nat,
    highScore: nat,
    difficultyLevel: nat)

  /** The values the session starts with before any button is pressed. */
  const Initial: Session := Session(false, false, 0, 0, 1)

  /**
   * What every reachable session satisfies: scores are whole multiples of the
   * 10 points a dodge earns, the level is at least 1, and once the game is over the high
   * score has caught up with the score.
   */
  ghost predicate Consistent(s: Session)
  {
    && s.score % 10 == 0
    && s.highScore % 10 == 0
    && s.difficultyLevel >= 1
    && (s.gameOver ==> s.score <= s.highScore)
  }

  lemma InitialIsConsistent()
    ensures Consistent(Initial)
  {
  }

  /** The Start button: play from score 0, also straight out of a finished game. */
  function StartGame(s: Session): (r: Session)
    ensures r.gameActive && !r.gameOver && r.score == 0
    ensures r.highScore == s.highScore && r.difficultyLevel == s.difficultyLevel
    ensures Consistent(s) ==> Consistent(r)
  {
    s.(gameActive := true, gameOver := false, score := 0)
  }

  /** The Pause button: only the active flag drops. */
  function PauseGame(s: Session): (r: Session)
    ensures !r.gameActive
    ensures r.(gameActive := s.gameActive) == s
    ensures Consistent(s) ==> Consistent(r)
  {
    s.(gameActive := false)
  }

  /** The Reset button: both flags drop and the score returns to 0. */
  function ResetGame(s: Session): (r: Session)
    ensures !r.gameActive && !r.gameOver && r.score == 0
    ensures r.highScore == s.highScore && r.difficultyLevel == s.difficultyLevel
    ensures Consistent(s) ==> Consistent(r)
  {
    s.(gameActive := false, gameOver := false, score := 0)
  }

  /** Pressing Pause a second time changes nothing. */
  lemma PauseIdempotent(s: Session)
    ensures PauseGame(PauseGame(s)) == PauseGame(s)
  {
  }

  /** Reset then Start is the same as Start alone: Start needs no Reset before it. */
  lemma StartAfterResetIsStart(s: Session)
    ensures StartGame(ResetGame(s)) == StartGame(s)
  {
  }

  /**
   * The score update of one move-and-prune pass that removed `removed`
   * objects (10 points each), followed by the level update.
   */
  function AfterDodges(s: Session, removed: nat): (r: Session)
    ensures r.score == s.score + (if s.gameOver then 0 else 10 * removed)
    ensures r.difficultyLevel == Level(r.score)
    ensures r.(score := s.score, difficultyLevel := s.difficultyLevel) == s
    ensures Consistent(s) ==> Consistent(r)
  {
    var scored := if s.gameOver then s.score else s.score + 10 * removed;
    s.(score := scored, difficultyLevel := Level(scored))
  }

  /** A finished game earns nothing from objects leaving the screen. */
  lemma NoPointsWhenOver(s: Session, removed: nat)
    requires s.gameOver
    ensures AfterDodges(s, removed).score == s.score
  {
  }

  /** What one collision does: end the game and commit the score to the high score. */
  function Hit(s: Session): (r: Session)
    ensures r.gameOver
    ensures r.highScore == (if s.score > s.highScore then s.score else s.highScore)
    ensures r.highScore >= s.highScore && r.highScore >= r.score
    ensures r.(gameOver := s.gameOver, highScore := s.highScore) == s
    ensures Consistent(s) ==> Consistent(r)
  {
    var best := if s.score > s.highScore then s.score else s.highScore;
    s.(gameOver := true, highScore := best)
  }

  /** A second collision in the same tick changes nothing more. */
  lemma HitIdempotent(s: Session)
    ensures Hit(Hit(s)) == Hit(s)
  {
  }
}
