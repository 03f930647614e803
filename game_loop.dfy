/**
 * The game-rule callbacks of the game loop (`src/gameLoop.js`): what a
 * clover collection, a mushroom power-up and an enemy hit do to the rule
 * state, and the state-setting parts of victory and game over.
 *
 * The level manager's `spawnEnemy` is counted rather than performed, and
 * the player's position is a field of the loop; sounds, popups and the UI
 * are left out.
 */
module GameLoop {
  import opened Wrappers
  import opened GameState
  import opened Collision

  /** Base points for a clover before the combo multiplier. */
  function CloverPoints(isFourLeaf: bool): int {
    if isFourLeaf then 15 else 5
  }

  /**
   * The level `onCloverCollect` moves to after the `collected`-th clover, if
   * any: every third clover, when the level it earns is above the current
   * one and not above the last.
   */
  function LevelUpTo(collected: int, currentLevel: int): (r: Option<int>)
    ensures r.Some? <==> collected % CloversPerLevel == 0
                         && currentLevel < collected / CloversPerLevel + 1 <= MaxLevel
    ensures r.Some? ==> r.value == collected / CloversPerLevel + 1 && currentLevel < r.value <= MaxLevel
  {
    if collected % CloversPerLevel == 0 then
      var newLevel := collected / CloversPerLevel + 1;
      if newLevel > currentLevel && newLevel <= MaxLevel then Some(newLevel) else None
    else None
  }

  /** Collecting the clovers one by one from level 1 reaches level n/3 + 1 at the n-th, for each n below 30 that is a multiple of 3. */
  lemma LevelUpEveryThird(n: int)
    requires 0 < n < TotalClovers && n % 3 == 0
    ensures LevelUpTo(n, n / 3) == Some(n / 3 + 1)
  {
  }

  /** The 30th clover of a game played from level 1 earns no level beyond the last. */
  lemma NoLevelPastLast(collected: int, currentLevel: int)
    requires collected >= TotalClovers
    ensures LevelUpTo(collected, currentLevel).None?
  {
  }

  /** The high score after `checkAndUpdateHighScore`. */
  function HighScoreAfter(score: int, highScore: int): int {
    if score > highScore then score else highScore
  }

  class GameLoop {
    const gameState: GameStateManager
    var playerPosition: Point
    /** How many times the level manager was asked to spawn an enemy. */
    var enemiesSpawned: nat

    constructor(gameState: GameStateManager)
      ensures this.gameState == gameState && playerPosition == Origin && enemiesSpawned == 0
    {
      this.gameState := gameState;
      playerPosition := Origin;
      enemiesSpawned := 0;
    }

    /**
     * `onCloverCollect`: extends the combo, scores the clover with the new
     * multiplier, counts and hides it, raises the level every third clover
     * (spawning one enemy), and triggers victory at the last clover.
     */
    method OnCloverCollect(clover: Clover, now: int)
      requires gameState.Valid()
      modifies gameState`comboCount, gameState`lastCollectTime, gameState`comboMultiplier,
               gameState`score, gameState`cloversCollected, gameState`currentLevel,
               gameState`gameWon, gameState`highScore, gameState`isNewHighScore,
               clover`visible, this`enemiesSpawned
      ensures gameState.Valid()
      ensures gameState.comboCount == old(gameState.comboCount) + 1
      ensures gameState.lastCollectTime == now
      ensures gameState.comboMultiplier == ComboMultiplierFor(gameState.comboCount)
      ensures gameState.score == old(gameState.score) + CloverPoints(clover.isFourLeaf) * gameState.comboMultiplier
      ensures gameState.cloversCollected == old(gameState.cloversCollected) + 1
      ensures !clover.visible
      ensures var up := LevelUpTo(gameState.cloversCollected, old(gameState.currentLevel));
              && gameState.currentLevel == (if up.Some? then up.value else old(gameState.currentLevel))
              && enemiesSpawned == old(enemiesSpawned) + (if up.Some? then 1 else 0)
      ensures var won := gameState.cloversCollected >= TotalClovers && !old(gameState.gameWon);
              && gameState.gameWon == (old(gameState.gameWon) || won)
              && gameState.highScore == (if won then HighScoreAfter(gameState.score, old(gameState.highScore))
                                         else old(gameState.highScore))
              && gameState.isNewHighScore == (if won && gameState.score > old(gameState.highScore) then true
                                              else old(gameState.isNewHighScore))
    {
      ScoreClover(clover.isFourLeaf, now);
      clover.visible := false;
      CheckLevelUp();
      CheckVictory();
    }

    /** The combo and scoring steps of `onCloverCollect`. */
    method ScoreClover(isFourLeaf: bool, now: int)
      requires gameState.Valid()
      modifies gameState`comboCount, gameState`lastCollectTime, gameState`comboMultiplier,
               gameState`score, gameState`cloversCollected
      ensures gameState.Valid()
      ensures gameState.comboCount == old(gameState.comboCount) + 1
      ensures gameState.lastCollectTime == now
      ensures gameState.comboMultiplier == ComboMultiplierFor(gameState.comboCount)
      ensures gameState.score == old(gameState.score) + CloverPoints(isFourLeaf) * gameState.comboMultiplier
      ensures gameState.cloversCollected == old(gameState.cloversCollected) + 1
    {
      gameState.IncrementComboCount();
      gameState.SetLastCollectTime(now);
      gameState.UpdateComboMultiplier();

      var points := CloverPoints(isFourLeaf) * gameState.comboMultiplier;
      gameState.AddScore(points);
      gameState.AddCloverCollected();
    }

    /** The victory check of `onCloverCollect`: all clovers collected and the game not yet won. */
    method CheckVictory()
      modifies gameState`gameWon, gameState`highScore, gameState`isNewHighScore
      ensures var won := gameState.cloversCollected >= TotalClovers && !old(gameState.gameWon);
              && gameState.gameWon == (old(gameState.gameWon) || won)
              && gameState.highScore == (if won then HighScoreAfter(gameState.score, old(gameState.highScore))
                                         else old(gameState.highScore))
              && gameState.isNewHighScore == (if won && gameState.score > old(gameState.highScore) then true
                                              else old(gameState.isNewHighScore))
    {
      if gameState.cloversCollected >= TotalClovers && !gameState.gameWon {
        Victory();
      }
    }

    /** The level-up step of `onCloverCollect`. */
    method CheckLevelUp()
      requires gameState.Valid()
      modifies gameState`currentLevel, this`enemiesSpawned
      ensures gameState.Valid()
      ensures var up := LevelUpTo(gameState.cloversCollected, old(gameState.currentLevel));
              && gameState.currentLevel == (if up.Some? then up.value else old(gameState.currentLevel))
              && enemiesSpawned == old(enemiesSpawned) + (if up.Some? then 1 else 0)
    {
      var collected := gameState.cloversCollected;
      if collected % CloversPerLevel == 0 {
        var newLevel := collected / CloversPerLevel + 1;
        if newLevel > gameState.currentLevel && newLevel <= MaxLevel {
          gameState.SetCurrentLevel(newLevel);
          enemiesSpawned := enemiesSpawned + 1;
        }
      }
    }

    /**
     * `handleMushroomPowerUp`: a health mushroom refills health, a speed or
     * invincibility mushroom activates that power-up from `now`, and any
     * other variant changes nothing.
     */
    method HandleMushroomPowerUp(variant: string, now: int)
      requires gameState.Valid()
      modifies gameState`playerHealth, gameState`speedBoostActive, gameState`speedBoostEndTime,
               gameState`invincibilityActive, gameState`invincibilityEndTime
      ensures gameState.Valid()
      ensures gameState.playerHealth ==
                if variant == "health" then ClampHealth(gameState.maxHealth, gameState.maxHealth)
                else old(gameState.playerHealth)
      ensures variant == "health" && gameState.maxHealth >= 0 ==> gameState.playerHealth == gameState.maxHealth
      ensures variant == "speed" ==> gameState.speedBoostActive && gameState.speedBoostEndTime == now + SpeedBoostDuration
      ensures variant != "speed" ==> gameState.speedBoostActive == old(gameState.speedBoostActive)
                                     && gameState.speedBoostEndTime == old(gameState.speedBoostEndTime)
      ensures variant == "invincibility" ==>
                gameState.invincibilityActive && gameState.invincibilityEndTime == now + InvincibilityDuration
      ensures variant != "invincibility" ==>
                gameState.invincibilityActive == old(gameState.invincibilityActive)
                && gameState.invincibilityEndTime == old(gameState.invincibilityEndTime)
    {
      if variant == "health" {
        gameState.SetPlayerHealth(gameState.maxHealth);
      } else if variant == "speed" {
        gameState.ActivateSpeedBoost(now);
      } else if variant == "invincibility" {
        gameState.ActivateInvincibility(now);
      }
    }

    /**
     * `onEnemyHit`: nothing happens while invincible. Otherwise the hit does
     * the selected difficulty's damage; at 0 health one extra life is spent,
     * health refilled and the player put back at the origin, or, with no
     * life left, the game is over.
     */
    method OnEnemyHit(now: int)
      requires gameState.Valid()
      modifies gameState`playerHealth, gameState`extraLives, gameState`gameState, this`playerPosition
      ensures gameState.Valid()
      ensures old(gameState.invincibilityActive) ==>
                gameState.playerHealth == old(gameState.playerHealth) && gameState.extraLives == old(gameState.extraLives)
                && gameState.gameState == old(gameState.gameState) && playerPosition == old(playerPosition)
      ensures !old(gameState.invincibilityActive) ==>
                var health := old(gameState.playerHealth) - DamageFor(gameState.selectedDifficulty);
                if health > 0 then
                  gameState.playerHealth == health && gameState.extraLives == old(gameState.extraLives)
                  && gameState.gameState == old(gameState.gameState) && playerPosition == old(playerPosition)
                else if old(gameState.extraLives) > 0 then
                  gameState.extraLives == old(gameState.extraLives) - 1
                  && gameState.playerHealth == ClampHealth(gameState.maxHealth, gameState.maxHealth)
                  && gameState.gameState == old(gameState.gameState) && playerPosition == Origin
                else
                  gameState.playerHealth == 0 && gameState.extraLives == old(gameState.extraLives)
                  && gameState.gameState == PlayState.GameOver && playerPosition == old(playerPosition)
    {
      if gameState.invincibilityActive {
        return;
      }

      var damage := DamageFor(gameState.selectedDifficulty);
      var _ := gameState.DamagePlayer(damage);

      if gameState.playerHealth <= 0 && gameState.extraLives > 0 {
        var _ := gameState.UseExtraLife();
        gameState.SetPlayerHealth(gameState.maxHealth);
        playerPosition := Origin;
      } else if gameState.playerHealth <= 0 && gameState.extraLives <= 0 {
        GameOver();
      }
    }

    /** The state-setting part of `victory`: the game is won and the high score updated. */
    method Victory()
      modifies gameState`gameWon, gameState`highScore, gameState`isNewHighScore
      ensures gameState.gameWon
      ensures gameState.highScore == HighScoreAfter(gameState.score, old(gameState.highScore))
      ensures gameState.isNewHighScore == (gameState.score > old(gameState.highScore) || old(gameState.isNewHighScore))
    {
      gameState.SetGameWon(true);
      var _ := gameState.CheckAndUpdateHighScore();
    }

    /** The state-setting part of `gameOver`. */
    method GameOver()
      modifies gameState`gameState
      ensures gameState.gameState == PlayState.GameOver
    {
      gameState.SetGameState(PlayState.GameOver);
    }
  }
}
