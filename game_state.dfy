/**
 * The game's rule state (`src/gameState.js`): score and high score, level
 * progression, difficulty presets, the combo multiplier, health and extra
 * lives, and the two timed power-ups.
 *
 * Times are integer milliseconds handed in by the caller. The difficulty
 * multipliers are exact rationals; every product the rules take of them
 * is an exact integer or rational.
 */
module GameState {
  import opened Wrappers

  datatype PlayState = Playing | Paused | GameOver

  datatype Difficulty = Easy | Medium | Hard

  const MaxLevel := 10
  const CloversPerLevel := 3
  const TotalClovers := 30
  const ComboWindow := 3000
  const MaxComboMultiplier := 5
  const BaseMaxHealth := 100
  const SpeedBoostDuration := 8000
  const InvincibilityDuration := 10000

  // ---------------------------------------------------------------------
  // Difficulty presets
  // ---------------------------------------------------------------------

  /** The preset multipliers the rules use (speeds are left out). */
  datatype Preset = Preset(playerHealthMultiplier: real, enemyCountMultiplier: real,
                           spawnRateMultiplier: real, damageMultiplier: real)

  function PresetOf(d: Difficulty): Preset {
    match d
    case Easy => Preset(1.5, 0.7, 1.5, 0.7)
    case Medium => Preset(1.0, 1.0, 1.0, 1.0)
    case Hard => Preset(0.75, 1.3, 0.7, 1.5)
  }

  /** The key of a preset in the preset table. */
  function NameOf(d: Difficulty): string {
    match d
    case Easy => "easy"
    case Medium => "medium"
    case Hard => "hard"
  }

  /** The preset-table lookup that `setSelectedDifficulty` tests: only the three keys name a preset. */
  function DifficultyNamed(name: string): (r: Option<Difficulty>)
    ensures r.Some? <==> name == "easy" || name == "medium" || name == "hard"
    ensures r.Some? ==> NameOf(r.value) == name
  {
    if name == "easy" then Some(Easy)
    else if name == "medium" then Some(Medium)
    else if name == "hard" then Some(Hard)
    else None
  }

  /** Every preset is found again under its own key. */
  lemma NamedRoundTrip(d: Difficulty)
    ensures DifficultyNamed(NameOf(d)) == Some(d)
  {
  }

  /** The integer part of a level's base settings (enemy speed is left out). */
  datatype BaseSettings = BaseSettings(maxEnemies: nat, spawnRate: nat)

  /** The base table, levels 1 to 10; any other level has no entry. */
  function BaseSettingsFor(level: int): (r: Option<BaseSettings>)
    ensures r.Some? <==> 1 <= level <= MaxLevel
  {
    if level == 1 then Some(BaseSettings(3, 0))
    else if level == 2 then Some(BaseSettings(4, 15000))
    else if level == 3 then Some(BaseSettings(5, 12000))
    else if level == 4 then Some(BaseSettings(6, 10000))
    else if level == 5 then Some(BaseSettings(7, 9000))
    else if level == 6 then Some(BaseSettings(9, 7000))
    else if level == 7 then Some(BaseSettings(10, 6000))
    else if level == 8 then Some(BaseSettings(11, 5000))
    else if level == 9 then Some(BaseSettings(13, 4500))
    else if level == 10 then Some(BaseSettings(15, 4500))
    else None
  }

  /** `Math.ceil` on an exact rational: the least integer not below `x`. */
  function Ceil(x: real): (r: int)
    ensures r as real - 1.0 < x <= r as real
  {
    -((-x).Floor)
  }

  datatype Settings = Settings(maxEnemies: int, spawnRate: real)

  /**
   * `getDifficultySettings`: the enemy cap scaled by the count multiplier and
   * rounded up, and the spawn interval scaled unless it is 0. A level with no
   * base entry has no settings (the lookup of a field of `undefined` throws).
   */
  function DifficultySettings(level: int, d: Difficulty): (r: Option<Settings>)
    ensures r.Some? <==> 1 <= level <= MaxLevel
    ensures r.Some? ==>
      var base := BaseSettingsFor(level).value;
      r.value.maxEnemies as real - 1.0 < base.maxEnemies as real * PresetOf(d).enemyCountMultiplier
      && base.maxEnemies as real * PresetOf(d).enemyCountMultiplier <= r.value.maxEnemies as real
    ensures r.Some? ==> (r.value.spawnRate == 0.0 <==> BaseSettingsFor(level).value.spawnRate == 0)
  {
    match BaseSettingsFor(level)
    case None => None
    case Some(base) =>
      var preset := PresetOf(d);
      Some(Settings(Ceil(base.maxEnemies as real * preset.enemyCountMultiplier),
                    if base.spawnRate > 0 then base.spawnRate as real * preset.spawnRateMultiplier else 0.0))
  }

  /** On medium the settings are the base table itself. */
  lemma MediumIsBase(level: int)
    requires 1 <= level <= MaxLevel
    ensures DifficultySettings(level, Medium).value.maxEnemies == BaseSettingsFor(level).value.maxEnemies
    ensures DifficultySettings(level, Medium).value.spawnRate == BaseSettingsFor(level).value.spawnRate as real
  {
  }

  /** Easy never fields more enemies than medium, and hard never fewer. */
  lemma EnemyCapOrdered(level: int)
    requires 1 <= level <= MaxLevel
    ensures DifficultySettings(level, Easy).value.maxEnemies <= DifficultySettings(level, Medium).value.maxEnemies
    ensures DifficultySettings(level, Medium).value.maxEnemies <= DifficultySettings(level, Hard).value.maxEnemies
  {
    var m := BaseSettingsFor(level).value.maxEnemies as real;
    CeilMonotone(m * 0.7, m);
    CeilMonotone(m, m * 1.3);
  }

  /** Easy spawns enemies no more often than medium, and hard no less often. */
  lemma SpawnIntervalOrdered(level: int)
    requires 1 <= level <= MaxLevel
    ensures DifficultySettings(level, Easy).value.spawnRate >= DifficultySettings(level, Medium).value.spawnRate
    ensures DifficultySettings(level, Medium).value.spawnRate >= DifficultySettings(level, Hard).value.spawnRate
  {
  }

  lemma CeilMonotone(x: real, y: real)
    requires x <= y
    ensures Ceil(x) <= Ceil(y)
  {
  }

  /** The damage an enemy hit does: 20 scaled by the preset, always a whole number. */
  function DamageFor(d: Difficulty): (r: int)
    ensures r as real == 20.0 * PresetOf(d).damageMultiplier
  {
    match d
    case Easy => 14
    case Medium => 20
    case Hard => 30
  }

  // ---------------------------------------------------------------------
  // Pure rules
  // ---------------------------------------------------------------------

  /** `updateComboMultiplier`: one more step for every 3 collections in a row, capped at 5. */
  function ComboMultiplierFor(count: int): (m: int)
    ensures m <= MaxComboMultiplier
    ensures count >= 0 ==> m >= 1
    ensures m == MaxComboMultiplier <==> count >= 12
  {
    var steps := 1 + count / 3;
    if steps < MaxComboMultiplier then steps else MaxComboMultiplier
  }

  /** Longer streaks never earn a smaller multiplier. */
  lemma {:induction false} ComboMultiplierMonotone(a: int, b: int)
    requires a <= b
    ensures ComboMultiplierFor(a) <= ComboMultiplierFor(b)
  {
    assert a / 3 <= b / 3 by {
      DivMonotone(a, b, 3);
    }
  }

  lemma DivMonotone(a: int, b: int, d: int)
    requires a <= b && d > 0
    ensures a / d <= b / d
  {
    if a / d > b / d {
      assert a == d * (a / d) + a % d;
      assert b == d * (b / d) + b % d;
      assert d * (a / d) >= d * (b / d + 1) by {
        MulMonotone(d, b / d + 1, a / d);
      }
    }
  }

  lemma MulMonotone(d: int, x: int, y: int)
    requires d > 0 && x <= y
    ensures d * x <= d * y
  {
  }

  /** Each collection raises the multiplier by at most one step. */
  lemma ComboMultiplierStep(count: int)
    requires count >= 0
    ensures ComboMultiplierFor(count) <= ComboMultiplierFor(count + 1) <= ComboMultiplierFor(count) + 1
  {
    ComboMultiplierMonotone(count, count + 1);
  }

  /** `checkComboExpiration`: a streak has begun and more than the window has passed since its last collection. */
  predicate ComboExpired(lastCollectTime: int, now: int) {
    lastCollectTime > 0 && now - lastCollectTime > ComboWindow
  }

  /** `Math.max(0, Math.min(health, max))`. */
  function ClampHealth(health: int, max: int): (r: int)
    ensures r >= 0
    ensures max >= 0 ==> r <= max
    ensures 0 <= health <= max ==> r == health
    ensures health < 0 ==> r == 0
    ensures 0 <= max < health ==> r == max
  {
    var capped := if health < max then health else max;
    if capped < 0 then 0 else capped
  }

  /**
   * The rule state of one game, updated in place by its mutators. Getters
   * are plain reads of these fields.
   */
  class GameStateManager {
    var score: int
    var highScore: int
    var isNewHighScore: bool
    var cloversCollected: int
    var gameState: PlayState
    var gameWon: bool
    var gameStartTime: int
    var pausedTime: int
    var selectedDifficulty: Difficulty
    var currentLevel: int
    var comboCount: int
    var comboMultiplier: int
    var lastCollectTime: int
    var maxHealth: int
    var playerHealth: int
    var extraLives: int
    var speedBoostActive: bool
    var speedBoostEndTime: int
    var invincibilityActive: bool
    var invincibilityEndTime: int
    var lastEnemySpawnTime: int

    /**
     * What every mutator keeps: the multiplier and the level never pass
     * their caps, extra lives never go negative, and an inactive power-up
     * has no end time.
     */
    ghost predicate Valid()
      reads this
    {
      && comboMultiplier <= MaxComboMultiplier
      && currentLevel <= MaxLevel
      && extraLives >= 0
      && (!speedBoostActive ==> speedBoostEndTime == 0)
      && (!invincibilityActive ==> invincibilityEndTime == 0)
    }

    /** A fresh manager; the saved high score is handed in instead of read from storage. */
    constructor(savedHighScore: int)
      ensures Valid() && Fresh(savedHighScore) && selectedDifficulty == Medium
    {
      score := 0;
      highScore := savedHighScore;
      isNewHighScore := false;
      cloversCollected := 0;
      gameState := Playing;
      gameWon := false;
      gameStartTime := 0;
      pausedTime := 0;
      selectedDifficulty := Medium;
      currentLevel := 1;
      comboCount := 0;
      comboMultiplier := 1;
      lastCollectTime := 0;
      maxHealth := BaseMaxHealth;
      playerHealth := BaseMaxHealth;
      extraLives := 0;
      speedBoostActive := false;
      speedBoostEndTime := 0;
      invincibilityActive := false;
      invincibilityEndTime := 0;
      lastEnemySpawnTime := 0;
    }

    /** The defaults `reset` restores: everything but the high score and the selected difficulty. */
    ghost predicate Fresh(keptHighScore: int)
      reads this
    {
      && score == 0 && highScore == keptHighScore && !isNewHighScore && cloversCollected == 0
      && gameState == Playing && !gameWon && gameStartTime == 0 && pausedTime == 0
      && currentLevel == 1 && comboCount == 0 && comboMultiplier == 1 && lastCollectTime == 0
      && maxHealth == BaseMaxHealth && playerHealth == BaseMaxHealth && extraLives == 0
      && !speedBoostActive && speedBoostEndTime == 0 && !invincibilityActive && invincibilityEndTime == 0
      && lastEnemySpawnTime == 0
    }

    // -- score --------------------------------------------------------

    method AddScore(points: int)
      modifies this`score
      ensures score == old(score) + points
    {
      score := score + points;
    }

    method SetHighScore(value: int)
      modifies this`highScore
      ensures highScore == value
    {
      highScore := value;
    }

    method AddCloverCollected()
      modifies this`cloversCollected
      ensures cloversCollected == old(cloversCollected) + 1
    {
      cloversCollected := cloversCollected + 1;
    }

    /** `checkAndUpdateHighScore`: only a strictly higher score replaces the high score and flags it. */
    method CheckAndUpdateHighScore() returns (updated: bool)
      modifies this`highScore, this`isNewHighScore
      ensures updated <==> old(score) > old(highScore)
      ensures updated ==> highScore == score && isNewHighScore
      ensures !updated ==> highScore == old(highScore) && isNewHighScore == old(isNewHighScore)
      ensures highScore >= old(highScore) && highScore >= score
    {
      if score > highScore {
        highScore := score;
        isNewHighScore := true;
        return true;
      }
      return false;
    }

    // -- play state ---------------------------------------------------

    method SetGameState(state: PlayState)
      modifies this`gameState
      ensures gameState == state
    {
      gameState := state;
    }

    method SetGameWon(won: bool)
      modifies this`gameWon
      ensures gameWon == won
    {
      gameWon := won;
    }

    method SetGameStartTime(time: int)
      modifies this`gameStartTime
      ensures gameStartTime == time
    {
      gameStartTime := time;
    }

    method AddPausedTime(time: int)
      modifies this`pausedTime
      ensures pausedTime == old(pausedTime) + time
    {
      pausedTime := pausedTime + time;
    }

    // -- levels -------------------------------------------------------

    /** `setCurrentLevel`: capped at the last level (there is no lower bound). */
    method SetCurrentLevel(level: int)
      requires Valid()
      modifies this`currentLevel
      ensures Valid()
      ensures currentLevel == if level < MaxLevel then level else MaxLevel
    {
      currentLevel := if level < MaxLevel then level else MaxLevel;
    }

    /** `incrementLevel`: one level up, unless already at the last one. */
    method IncrementLevel() returns (raised: bool)
      requires Valid()
      modifies this`currentLevel
      ensures Valid()
      ensures raised <==> old(currentLevel) < MaxLevel
      ensures currentLevel == if raised then old(currentLevel) + 1 else old(currentLevel)
    {
      if currentLevel < MaxLevel {
        currentLevel := currentLevel + 1;
        return true;
      }
      return false;
    }

    // -- difficulty ---------------------------------------------------

    /** `setSelectedDifficulty`: only a preset's key changes the selection. */
    method SetSelectedDifficulty(name: string) returns (accepted: bool)
      modifies this`selectedDifficulty
      ensures accepted <==> DifficultyNamed(name).Some?
      ensures selectedDifficulty == if accepted then DifficultyNamed(name).value else old(selectedDifficulty)
      ensures accepted ==> NameOf(selectedDifficulty) == name
    {
      var d := DifficultyNamed(name);
      if d.Some? {
        selectedDifficulty := d.value;
        return true;
      }
      return false;
    }

    /** `getDifficultySettings` for the selected preset. */
    function GetDifficultySettings(level: int): (r: Option<Settings>)
      reads this
      ensures r.Some? <==> 1 <= level <= MaxLevel
      ensures r.Some? && level == 1 ==> r.value.spawnRate == 0.0
    {
      DifficultySettings(level, selectedDifficulty)
    }

    // -- combo --------------------------------------------------------

    method SetComboCount(count: int)
      modifies this`comboCount
      ensures comboCount == count
    {
      comboCount := count;
    }

    method IncrementComboCount()
      modifies this`comboCount
      ensures comboCount == old(comboCount) + 1
    {
      comboCount := comboCount + 1;
    }

    method ResetCombo()
      requires Valid()
      modifies this`comboCount, this`comboMultiplier
      ensures Valid()
      ensures comboCount == 0 && comboMultiplier == 1
    {
      comboCount := 0;
      comboMultiplier := 1;
    }

    /** `setComboMultiplier`: capped at the maximum multiplier. */
    method SetComboMultiplier(multiplier: int)
      requires Valid()
      modifies this`comboMultiplier
      ensures Valid()
      ensures comboMultiplier == if multiplier < MaxComboMultiplier then multiplier else MaxComboMultiplier
    {
      comboMultiplier := if multiplier < MaxComboMultiplier then multiplier else MaxComboMultiplier;
    }

    method UpdateComboMultiplier()
      requires Valid()
      modifies this`comboMultiplier
      ensures Valid()
      ensures comboMultiplier == ComboMultiplierFor(comboCount)
    {
      var steps := 1 + comboCount / 3;
      comboMultiplier := if steps < MaxComboMultiplier then steps else MaxComboMultiplier;
    }

    method SetLastCollectTime(time: int)
      modifies this`lastCollectTime
      ensures lastCollectTime == time
    {
      lastCollectTime := time;
    }

    /** `checkComboExpiration`: the streak is reset exactly when it has expired. */
    method CheckComboExpiration(now: int) returns (expired: bool)
      requires Valid()
      modifies this`comboCount, this`comboMultiplier
      ensures Valid()
      ensures expired <==> ComboExpired(lastCollectTime, now)
      ensures expired ==> comboCount == 0 && comboMultiplier == 1
      ensures !expired ==> comboCount == old(comboCount) && comboMultiplier == old(comboMultiplier)
    {
      if lastCollectTime > 0 && now - lastCollectTime > ComboWindow {
        ResetCombo();
        return true;
      }
      return false;
    }

    // -- health and lives ---------------------------------------------

    method SetPlayerHealth(health: int)
      modifies this`playerHealth
      ensures playerHealth == ClampHealth(health, maxHealth)
    {
      var capped := if health < maxHealth then health else maxHealth;
      playerHealth := if capped < 0 then 0 else capped;
    }

    /** `damagePlayer`: health drops by the amount but not below 0. */
    method DamagePlayer(amount: int) returns (health: int)
      modifies this`playerHealth
      ensures health == playerHealth
      ensures playerHealth == if old(playerHealth) - amount > 0 then old(playerHealth) - amount else 0
      ensures playerHealth >= 0
    {
      playerHealth := if playerHealth - amount > 0 then playerHealth - amount else 0;
      return playerHealth;
    }

    /** `healPlayer`: health rises by the amount but not above the maximum. */
    method HealPlayer(amount: int) returns (health: int)
      modifies this`playerHealth
      ensures health == playerHealth
      ensures playerHealth == if maxHealth < old(playerHealth) + amount then maxHealth else old(playerHealth) + amount
      ensures playerHealth <= maxHealth
    {
      playerHealth := if maxHealth < playerHealth + amount then maxHealth else playerHealth + amount;
      return playerHealth;
    }

    method SetMaxHealth(health: int)
      modifies this`maxHealth
      ensures maxHealth == health
    {
      maxHealth := health;
    }

    /** `setExtraLives`: a negative count is stored as 0. */
    method SetExtraLives(lives: int)
      requires Valid()
      modifies this`extraLives
      ensures Valid()
      ensures extraLives == if lives < 0 then 0 else lives
    {
      extraLives := if lives < 0 then 0 else lives;
    }

    method AddExtraLife()
      requires Valid()
      modifies this`extraLives
      ensures Valid()
      ensures extraLives == old(extraLives) + 1
    {
      extraLives := extraLives + 1;
    }

    /** `useExtraLife`: spends one life if there is one. */
    method UseExtraLife() returns (used: bool)
      requires Valid()
      modifies this`extraLives
      ensures Valid()
      ensures used <==> old(extraLives) > 0
      ensures extraLives == if used then old(extraLives) - 1 else old(extraLives)
    {
      if extraLives > 0 {
        extraLives := extraLives - 1;
        return true;
      }
      return false;
    }

    // -- power-ups ----------------------------------------------------

    method ActivateSpeedBoost(now: int)
      requires Valid()
      modifies this`speedBoostActive, this`speedBoostEndTime
      ensures Valid()
      ensures speedBoostActive && speedBoostEndTime == now + SpeedBoostDuration
    {
      speedBoostActive := true;
      speedBoostEndTime := now + SpeedBoostDuration;
    }

    method DeactivateSpeedBoost()
      requires Valid()
      modifies this`speedBoostActive, this`speedBoostEndTime
      ensures Valid()
      ensures !speedBoostActive && speedBoostEndTime == 0
    {
      speedBoostActive := false;
      speedBoostEndTime := 0;
    }

    /** `checkSpeedBoostExpiration`: an active boost whose end time has come is switched off. */
    method CheckSpeedBoostExpiration(now: int) returns (expired: bool)
      requires Valid()
      modifies this`speedBoostActive, this`speedBoostEndTime
      ensures Valid()
      ensures expired <==> old(speedBoostActive) && now >= old(speedBoostEndTime)
      ensures expired ==> !speedBoostActive && speedBoostEndTime == 0
      ensures !expired ==> speedBoostActive == old(speedBoostActive) && speedBoostEndTime == old(speedBoostEndTime)
    {
      if speedBoostActive && now >= speedBoostEndTime {
        DeactivateSpeedBoost();
        return true;
      }
      return false;
    }

    method ActivateInvincibility(now: int)
      requires Valid()
      modifies this`invincibilityActive, this`invincibilityEndTime
      ensures Valid()
      ensures invincibilityActive && invincibilityEndTime == now + InvincibilityDuration
    {
      invincibilityActive := true;
      invincibilityEndTime := now + InvincibilityDuration;
    }

    method DeactivateInvincibility()
      requires Valid()
      modifies this`invincibilityActive, this`invincibilityEndTime
      ensures Valid()
      ensures !invincibilityActive && invincibilityEndTime == 0
    {
      invincibilityActive := false;
      invincibilityEndTime := 0;
    }

    /** `checkInvincibilityExpiration`: as for the speed boost. */
    method CheckInvincibilityExpiration(now: int) returns (expired: bool)
      requires Valid()
      modifies this`invincibilityActive, this`invincibilityEndTime
      ensures Valid()
      ensures expired <==> old(invincibilityActive) && now >= old(invincibilityEndTime)
      ensures expired ==> !invincibilityActive && invincibilityEndTime == 0
      ensures !expired ==> invincibilityActive == old(invincibilityActive)
                           && invincibilityEndTime == old(invincibilityEndTime)
    {
      if invincibilityActive && now >= invincibilityEndTime {
        DeactivateInvincibility();
        return true;
      }
      return false;
    }

    /** `checkPowerUpExpirations`: both checks run, so both power-ups can expire on the same call. */
    method CheckPowerUpExpirations(now: int) returns (anyExpired: bool)
      requires Valid()
      modifies this`speedBoostActive, this`speedBoostEndTime, this`invincibilityActive, this`invincibilityEndTime
      ensures Valid()
      ensures anyExpired <==> (old(speedBoostActive) && now >= old(speedBoostEndTime))
                              || (old(invincibilityActive) && now >= old(invincibilityEndTime))
      ensures old(speedBoostActive) && now >= old(speedBoostEndTime) ==> !speedBoostActive
      ensures old(invincibilityActive) && now >= old(invincibilityEndTime) ==> !invincibilityActive
      ensures !(old(speedBoostActive) && now >= old(speedBoostEndTime)) ==>
                speedBoostActive == old(speedBoostActive) && speedBoostEndTime == old(speedBoostEndTime)
      ensures !(old(invincibilityActive) && now >= old(invincibilityEndTime)) ==>
                invincibilityActive == old(invincibilityActive) && invincibilityEndTime == old(invincibilityEndTime)
    {
      var speedBoostExpired := CheckSpeedBoostExpiration(now);
      var invincibilityExpired := CheckInvincibilityExpiration(now);
      return speedBoostExpired || invincibilityExpired;
    }

    method SetLastEnemySpawnTime(time: int)
      modifies this`lastEnemySpawnTime
      ensures lastEnemySpawnTime == time
    {
      lastEnemySpawnTime := time;
    }

    // -- reset --------------------------------------------------------

    /** `reset` (and `resetForNewGame`): the defaults, keeping the high score and the difficulty. */
    method Reset()
      modifies this
      ensures Valid() && Fresh(old(highScore))
      ensures selectedDifficulty == old(selectedDifficulty)
    {
      ResetProgress();
      ResetComboAndHealth();
      ResetTimers();
    }

    /** The score and progression part of `reset`. */
    method ResetProgress()
      modifies this`score, this`isNewHighScore, this`cloversCollected, this`gameState,
               this`gameWon, this`gameStartTime, this`pausedTime, this`currentLevel
      ensures score == 0 && !isNewHighScore && cloversCollected == 0 && gameState == Playing
      ensures !gameWon && gameStartTime == 0 && pausedTime == 0 && currentLevel == 1
    {
      score := 0;
      isNewHighScore := false;
      cloversCollected := 0;
      gameState := Playing;
      gameWon := false;
      gameStartTime := 0;
      pausedTime := 0;
      currentLevel := 1;
    }

    /** The combo and health part of `reset`. */
    method ResetComboAndHealth()
      modifies this`comboCount, this`comboMultiplier, this`lastCollectTime,
               this`maxHealth, this`playerHealth, this`extraLives
      ensures comboCount == 0 && comboMultiplier == 1 && lastCollectTime == 0
      ensures maxHealth == BaseMaxHealth && playerHealth == BaseMaxHealth && extraLives == 0
    {
      comboCount := 0;
      comboMultiplier := 1;
      lastCollectTime := 0;
      maxHealth := BaseMaxHealth;
      playerHealth := BaseMaxHealth;
      extraLives := 0;
    }

    /** The power-up and spawn-timer part of `reset`. */
    method ResetTimers()
      modifies this`speedBoostActive, this`speedBoostEndTime, this`invincibilityActive,
               this`invincibilityEndTime, this`lastEnemySpawnTime
      ensures !speedBoostActive && speedBoostEndTime == 0
      ensures !invincibilityActive && invincibilityEndTime == 0 && lastEnemySpawnTime == 0
    {
      speedBoostActive := false;
      speedBoostEndTime := 0;
      invincibilityActive := false;
      invincibilityEndTime := 0;
      lastEnemySpawnTime := 0;
    }

    /** `resetAll`: as `reset`, and the difficulty goes back to medium. */
    method ResetAll()
      modifies this
      ensures Valid() && Fresh(old(highScore))
      ensures selectedDifficulty == Medium
    {
      Reset();
      selectedDifficulty := Medium;
    }
  }
}
