# Bugdom: touch-target analyzers and game rules, in Dafny

This project models two parts of the Bugdom browser game's repository.

**The touch-target analyzers.** `test-touch-targets.py` and its older
JavaScript sibling `test-touch-targets.js` read the game page's first
`<style>` region and work out, for ten interactive controls at three mobile
viewports (320, 480 and 768 pixels wide), the rendered touch-target box:

- the minimum dimension if it is set and non-zero, else the plain dimension, else 0;
- plus the padding on both sides of that axis.

Each box is checked against the viewport's minimum. That is 44 by 44 pixels
(WCAG 2.1 success criterion 2.5.5) or the 48 by 48 pixels Material Design
recommends. Each check records a verdict with its issues and counts it in a
summary.

The two analyzers parse differently, and the model keeps each one's own
behaviour:

- **Python.** It collects the `@media (...) {...}` blocks by a regular
  expression. Each block is keyed by the first `max-width: Npx` anywhere
  in the whole match, content included, so a block whose header has no
  `max-width` can still be keyed by a declaration inside it. The widest
  threshold is applied first. The expression's
  content group stops at the first `}`, so a media block's content never
  holds a complete rule. Every media rule set the analyzer builds is
  therefore empty (`TouchPy.MediaRuleSetsEmpty`), and every effective style
  is the base style (`TouchPy.ParsedStyleIsBase`).
- **JavaScript.** It stores every rule block under its trimmed selector
  text, and a media block's header becomes one of those selector texts.
  It keeps only the text between a declaration's first and second colon,
  and splits padding on single spaces. Its `getEffectiveStyle` calls a
  `parseMediaQuery` helper the class never defines. So at a viewport no
  wider than 768 (or 480) pixels, resolving a style throws as soon as a
  rule key mentions `@media (max-width: 768px)` (or `480px`). `analyze`
  then stops with that error, which the model returns as a value
  (`TouchJs.Analyzer.Analyze`).

**The game-rule modules under `src/`:**

- the rule state (score, levels, difficulty presets, combo, health, power-ups);
- the game-loop callbacks that change it (clover collection, mushrooms, enemy hits, victory, game over);
- the error log;
- keyboard and touch input;
- collision tests;
- the day/night clock with its events;
- the particle and ripple bookkeeping.

Objects the source updates in place are classes, and their methods are
proved against specification functions. Pure logic is functions and lemmas.

Conventions of the model:

- Regular expressions are written as deterministic scanners over
  `seq<char>`.
- Whitespace is the six ASCII characters both languages treat as
  whitespace (space, tab, line feed, carriage return, vertical tab, form
  feed). Digits are ASCII digits, and lower-casing covers ASCII letters only.
- Times are parameters. Difficulty multipliers and clock arithmetic are
  exact rationals (`real`).

## Model

| member | source | states |
|---|---|---|
| CssScan.StyleRegion | test-touch-targets.py:59-63 | the region between the first `<style>` and the first `</style>` after it; none exactly when no opening tag is followed by a closing tag |
| CssScan.FindPx | test-touch-targets.py:148 | the leftmost index from which `(\d+)px` matches, or none when it matches nowhere |
| CssScan.ParseSize | test-touch-targets.py:144-149 | `parse_size`/`parseSize`: none exactly when `(\d+)px` matches nowhere, else the value of the whole digit run at the leftmost match |
| CssScan.ParseSizeOfRendered | test-touch-targets.py:144-149 | every natural number written in decimal and followed by `px` parses back to itself, whatever follows |
| CssScan.ParseSizeDropsSign | test-touch-targets.py:148 | a sign is outside the pattern: `-5px` reads as 5 |
| CssScan.ParseSizeDropsIntegerPartOfFraction | test-touch-targets.py:148 | `12.5px` reads as 5, the digits after the point |
| CssScan.NextRule | test-touch-targets.py:88-90 | the leftmost start from which `([^{]+)\{([^}]+)\}` matches, or none when there is none |
| CssScan.RuleMatches | test-touch-targets.py:88-90 | `finditer` with the rule pattern: each selector is free of `{`, each body free of `}`, both non-empty |
| CssScan.FirstRuleMatch | test-touch-targets.py:88-92 | a head, a braced body and a rest give that head and body as the first match |
| CssScan.NoCloseBraceNoRules | test-touch-targets.py:88-90 | text without `}` has no rule match |
| CssScan.CollectKeys | test-touch-targets.py:98-100 | the dictionary built by successive assignments has exactly the assigned keys |
| CssScan.CollectLastWins | test-touch-targets.py:98-100 | a key holds the value of its last assignment |
| CssScan.CollectValueFrom | test-touch-targets.py:98-100 | every stored value was assigned by some entry |
| CssScan.CollectSnoc | test-touch-targets.py:98-100 | one more assignment updates the dictionary by that entry only |
| CssScan.OverlayLastWins | test-touch-targets.py:247-251 | assignments into an existing dictionary: the last one for a key decides it |
| CssScan.OverlayKeeps | test-touch-targets.py:247-251 | a key that no new assignment touches keeps its earlier value |
| Text.TrimIsStripped | test-touch-targets.py:91-92 | `strip()`/`trim()` removes exactly the leading and trailing whitespace, and the kept part neither starts nor ends with whitespace |
| Text.Find | test-touch-targets.py:97 | the first index holding the separator, or the length when there is none |
| Text.Split | test-touch-targets.py:95 | `split(';')`: at least one piece and no piece holds the separator |
| Text.JoinSplit | test-touch-targets.py:95 | joining the pieces of a split with the separator gives the text back |
| Text.SplitJoin | test-touch-targets.js:72-73 | splitting separator-free pieces joined with the separator gives the pieces back |
| Text.WordsAreWords | test-touch-targets.py:157 | `split()` yields non-empty, whitespace-free words |
| Text.WordsOfSpaced | test-touch-targets.py:157 | `split()` undoes joining whitespace-free words with single spaces |
| Text.TrimKeepsOccurrence | test-touch-targets.js:101-103 | trimming keeps every occurrence of a pattern that neither starts nor ends with whitespace |
| Text.NatToString | test-touch-targets.py:214 | the decimal rendering is non-empty, all digits, and reads back as the number |
| Text.PadStart2 | src/daynight.js:914 | `padStart(2, '0')`: at least two characters, the original at the end, zeros before it |
| Text.Lower | src/input.js:32 | `toLowerCase()` keeps the length and lower-cases each character |
| Text.LowerIdempotent | src/input.js:44-46 | lower-casing twice is lower-casing once |
| TouchTargets.Lengths | test-touch-targets.py:156-160 | the parsed lengths of the tokens that hold one, never more than the tokens |
| TouchTargets.PxToken | test-touch-targets.py:158 | a written length `<n>px` has no whitespace and parses back to n |
| TouchTargets.LengthsOfPxTokens | test-touch-targets.py:156-160 | tokens written from lengths give back exactly those lengths, none dropped |
| TouchTargets.TouchTargetBox | test-touch-targets.py:171-181 | each dimension is the set non-zero minimum, else the plain value, else 0, plus the padding on both sides of that axis |
| TouchTargets.BoxOfPaddedButton | test-touch-targets.py:171-181 | a 48px minimum height with 18px/40px padding is an 80 by 84 box |
| TouchTargets.SizeIssues | test-touch-targets.py:202-219 | no issue exactly when both dimensions reach the minimum; otherwise one issue per short dimension, width first |
| TouchTargets.FailureIssues | test-touch-targets.py:212-219 | appending the width issue, then the height issue, yields exactly the size issues |
| TouchTargets.CountSnoc | test-touch-targets.py:205-227 | one more test adds one to the count of its status, and one to a warning count exactly when it carries that recommendation |
| TouchTargets.CountAppend | test-touch-targets.py:243-255 | the status and warning counts over two runs of tests add up |
| TouchTargets.AddedOne | test-touch-targets.py:201-229 | recording one test adds one test, one pass or one failure by its status, and one warning exactly when it carries the recommendation |
| TouchTargets.AddedAppend | test-touch-targets.py:243-255 | recording two runs of tests one after the other moves the counters as recording them together |
| TouchTargets.NoneFailedAllPassed | test-touch-targets.py:285-288 | no failure is counted exactly when every test passed |
| TouchTargets.PassedPlusFailed | test-touch-targets.py:203-210 | every test is counted once, as a pass or as a failure |
| TouchPy.DeclarationSplitsAtFirstColon | test-touch-targets.py:95-98 | a piece declares nothing exactly when it has no colon; otherwise its trimmed halves around the first colon |
| TouchPy.DeclarationEntriesPy | test-touch-targets.py:95-98 | one declaration per `;`-separated piece, in order |
| TouchPy.RuleEntriesPy | test-touch-targets.py:90-100 | each rule match stores its trimmed selector text with the declarations of its trimmed body |
| TouchPy.ParseDeclarations | test-touch-targets.py:94-98 | the declaration loop builds exactly the specified property map |
| TouchPy.ParseRules | test-touch-targets.py:85-102 | `parse_rules` builds exactly the specified rule set |
| TouchPy.LastRuleReplaces | test-touch-targets.py:100 | a selector holds the declarations of its last rule; earlier blocks are replaced, not merged |
| TouchPy.LastDeclarationWins | test-touch-targets.py:98 | a property holds the value of its last declaration in the block |
| TouchPy.DeclarationOrigin | test-touch-targets.py:95-98 | every stored property comes from a piece whose trimmed halves it holds |
| TouchPy.MediaAt | test-touch-targets.py:67 | a media match starting at an index lies inside the text and ends at a `}` with no `}` in its content |
| TouchPy.NextMedia | test-touch-targets.py:69 | the leftmost media match from an index, or none when no index matches |
| TouchPy.MediaMatches | test-touch-targets.py:69 | `finditer` with the media pattern: every match is well placed and after the start |
| TouchPy.BaseText | test-touch-targets.py:80 | `re.sub` of the media pattern: no longer than the text, and the whole text when nothing matches |
| TouchPy.FindMaxWidth | test-touch-targets.py:74 | the leftmost `max-width:\s*(\d+)px` match from an index, or none |
| TouchPy.MediaThresholdIsLeftmost | test-touch-targets.py:74-76 | no threshold exactly when nothing matches, else the value of the leftmost match |
| TouchPy.ThresholdOfHeader | test-touch-targets.py:74-77 | a block opened by `@media (max-width: Npx)` is keyed by N |
| TouchPy.FirstMatchAt | test-touch-targets.py:74-76 | a match with no key before it gives the threshold |
| TouchPy.MediaEntries | test-touch-targets.py:69-77 | one entry per media match: its threshold with its content's rules, or nothing without a threshold |
| TouchPy.ParseCssSpec | test-touch-targets.py:57-83 | `parse_css` gives nothing exactly when there is no style region |
| TouchPy.ParseCss | test-touch-targets.py:57-83 | the loop over media matches builds exactly the specified stylesheet |
| TouchPy.ParseMediaBlock | test-touch-targets.py:70-77 | one media block's entry, as specified |
| TouchPy.NoRulesWithoutCloseBrace | test-touch-targets.py:85-102 | text without `}` parses to no rules |
| TouchPy.ContentHasNoCloseBrace | test-touch-targets.py:67 | the content group of a media match holds no `}` |
| TouchPy.MediaEntryEmpty | test-touch-targets.py:67-77 | every media block's rule set is empty |
| TouchPy.MediaRuleSetsEmpty | test-touch-targets.py:57-83 | every rule set under a media threshold of a parsed page is empty |
| TouchPy.ParsePaddingPy | test-touch-targets.py:151-169 | `parse_padding` gives nothing exactly for the empty value |
| TouchPy.WordsOfPxTokens | test-touch-targets.py:157 | whitespace splitting gives back the tokens of lengths joined with single spaces |
| TouchPy.PaddingOfRenderedPy | test-touch-targets.py:151-169 | a shorthand written from lengths expands by the one-, two- and four-value forms, and three values give no padding |
| TouchPy.ApplyStylesFields | test-touch-targets.py:129-142 | each field becomes the parsed value when its property is declared, and otherwise keeps its value |
| TouchPy.MaxKey | test-touch-targets.py:121 | the largest threshold of a non-empty key set |
| TouchPy.UndeclaredKeeps | test-touch-targets.py:119-125 | a property no applicable media rule set declares keeps its earlier value |
| TouchPy.NarrowestWins | test-touch-targets.py:119-125 | applied widest first, the narrowest applicable threshold declaring a property decides it |
| TouchPy.EmptyRuleSetsKeep | test-touch-targets.py:119-125 | empty media rule sets leave the style unchanged |
| TouchPy.ParsedStyleIsBase | test-touch-targets.py:104-127 | for a parsed page every effective style is the base style |
| TouchPy.VerdictPy | test-touch-targets.py:183-230 | pass exactly when both dimensions meet the minimum; the size issues, then the recommendation exactly when a dimension is under 48 while both reach 44 |
| TouchPy.FailureAlsoWarns | test-touch-targets.py:202-227 | a 46 by 46 box at a 48px viewport fails on both dimensions and is warned about |
| TouchPy.ReportEntriesPy | test-touch-targets.py:243-255 | one report per viewport, under its name, holding one verdict per target |
| TouchPy.RecordedReports | test-touch-targets.py:247-255 | a viewport name holds the report of its last viewport; other names keep their earlier reports |
| TouchPy.AllTestsLength | test-touch-targets.py:243-255 | the run holds one test per viewport and target |
| TouchPy.CountsStep | test-touch-targets.py:243-255 | one more viewport's report moves the counters of the first viewports to those of one more |
| TouchPy.Analyzer.constructor | test-touch-targets.py:44-55 | an analyzer with zero counters, no reports and no stylesheet |
| TouchPy.Analyzer.GetEffectiveStyle | test-touch-targets.py:104-127 | `get_effective_style` returns exactly the specified cascade |
| TouchPy.Analyzer.AnalyzeTarget | test-touch-targets.py:183-230 | the verdict for the target's box; one more test, counted as a pass or a failure, and as a warning exactly when warned; the counters are those of recording that verdict |
| TouchPy.Analyzer.Judge | test-touch-targets.py:201-229 | the verdict for a box, with the same counting |
| TouchPy.Analyzer.AnalyzeViewport | test-touch-targets.py:247-255 | the viewport's report stored under its name; one more test per target, and the passes, failures and warnings of that report's verdicts added to the counters |
| TouchPy.Analyzer.Analyze | test-touch-targets.py:232-266 | the parsed stylesheet; viewports times targets more tests; every viewport's report recorded; passed, failed and warnings grow by the passes, failures and warnings among all the run's verdicts |
| TouchPy.Analyzer.AnalyzeViewports | test-touch-targets.py:243-255 | the viewport loop: viewports times targets more tests, every report recorded, and the counters those of recording every verdict of the run |
| TouchJs.DeclarationJs | test-touch-targets.js:72-77 | a stored declaration has a non-empty name and value |
| TouchJs.DeclarationJsOneColon | test-touch-targets.js:72-77 | a piece without a colon declares nothing; with one colon, its trimmed halves when both are non-empty |
| TouchJs.DeclarationJsDropsAfterSecondColon | test-touch-targets.js:73 | text after a second colon is dropped from the value |
| TouchJs.DeclarationEntriesJs | test-touch-targets.js:72-77 | one declaration per `;`-separated piece, in order |
| TouchJs.DeclarationsNonEmpty | test-touch-targets.js:74-76 | only non-empty names with non-empty values are stored |
| TouchJs.RuleEntriesJs | test-touch-targets.js:67-80 | each rule match stores its trimmed selector text with the declarations of its trimmed body |
| TouchJs.ParseDeclarations | test-touch-targets.js:71-77 | the `forEach` builds exactly the specified property map |
| TouchJs.ParseRule | test-touch-targets.js:68-77 | one rule's trimmed selector text and parsed block |
| TouchJs.ParseCss | test-touch-targets.js:55-83 | `parseCSS` builds exactly the specified rule set |
| TouchJs.ParsePaddingJs | test-touch-targets.js:154-165 | `parsePadding` gives nothing exactly for the empty value |
| TouchJs.PaddingOfRenderedJs | test-touch-targets.js:154-165 | a shorthand written from lengths with single spaces expands by the one-, two- and four-value forms, and three values give no padding |
| TouchJs.ApplyStylesFields | test-touch-targets.js:127-146 | each field becomes the parsed value when its property has a non-empty value, and otherwise keeps its value |
| TouchJs.WideViewportSeesBase | test-touch-targets.js:99-122 | a viewport wider than 768px gets the base style and never throws |
| TouchJs.MediaBlockRaises | test-touch-targets.js:100-122 | a page whose first block is a 768px (480px) media block throws at every viewport no wider than 768px (480px) |
| TouchJs.FirstBlockKey | test-touch-targets.js:64-80 | the trimmed head of the first block is a rule key |
| TouchJs.HeaderSurvivesTrim | test-touch-targets.js:101-103 | a media header stays in its key after trimming |
| TouchJs.ScanKeys | test-touch-targets.js:102-109 | the scan over the keys finds the header exactly when some key mentions it |
| TouchJs.VerdictJs | test-touch-targets.js:179-223 | pass exactly when both dimensions meet the minimum; the size issues, then the recommendation exactly when a dimension is under 48 |
| TouchJs.WarnsExactlyOnFailureAt48 | test-touch-targets.js:196-219 | at a 48px viewport the recommendation comes exactly with a failure |
| TouchJs.PassWithWarningAt44 | test-touch-targets.js:196-219 | at a 44px viewport a 46 by 46 box passes and is warned about |
| TouchJs.Reached | test-touch-targets.js:233-258 | how many viewports finish before the first one that throws |
| TouchJs.ReportEntriesJs | test-touch-targets.js:237-245 | one report per viewport, under its name, holding one verdict per target |
| TouchJs.RecordedReports | test-touch-targets.js:237-245 | a viewport name holds the report of its last viewport; other names keep theirs |
| TouchJs.AllTestsLength | test-touch-targets.js:237-245 | the verdicts of the viewports reached number one per viewport and target |
| TouchJs.CountsStep | test-touch-targets.js:237-245 | one more viewport's report moves the counters of the first viewports to those of one more |
| TouchJs.Analyzer.constructor | test-touch-targets.js:42-53 | an analyzer with zero counters and no reports |
| TouchJs.Analyzer.GetEffectiveStyle | test-touch-targets.js:85-125 | the specified style, or the missing-helper error |
| TouchJs.Analyzer.AnalyzeTarget | test-touch-targets.js:179-223 | an error exactly when the style throws, counting nothing; otherwise the verdict, and the counters those of recording it |
| TouchJs.Analyzer.Judge | test-touch-targets.js:196-221 | the verdict for a box; one more test, counted as a pass or a failure, and as a warning exactly when warned |
| TouchJs.Analyzer.AnalyzeViewport | test-touch-targets.js:237-257 | throws exactly when there is a target and the style throws, leaving the counters as they were; otherwise the report stored and the passes, failures and warnings of its verdicts added |
| TouchJs.Analyzer.Analyze | test-touch-targets.js:225-261 | an error exactly when some viewport throws; tests, passes, failures and warnings counted over the verdicts of the viewports reached; all reports when none throws |
| TouchJs.Analyzer.AnalyzeViewports | test-touch-targets.js:233-258 | the viewport loop over parsed rules, with the same error, reports and counters |
| GameState.DifficultyNamed | src/gameState.js:286-292 | only `easy`, `medium` and `hard` name a preset, and each is found under its own key |
| GameState.NamedRoundTrip | src/gameState.js:36-70 | every preset is found again under its own key |
| GameState.BaseSettingsFor | src/gameState.js:81-92 | the base table has an entry exactly for levels 1 to 10 |
| GameState.Ceil | src/gameState.js:304 | `Math.ceil`: the least integer not below its argument |
| GameState.DifficultySettings | src/gameState.js:298-307 | settings exactly for levels 1 to 10; the enemy cap is the ceiling of the scaled base; a zero spawn rate stays zero |
| GameState.MediumIsBase | src/gameState.js:48-58 | on medium the settings are the base table |
| GameState.EnemyCapOrdered | src/gameState.js:36-70 | easy never fields more enemies than medium, nor medium more than hard |
| GameState.SpawnIntervalOrdered | src/gameState.js:305 | easy spawns no more often than medium, nor medium more often than hard |
| GameState.DamageFor | src/gameLoop.js:140-141 | the damage of a hit is 20 times the preset's damage multiplier |
| GameState.ComboMultiplierFor | src/gameState.js:338-344 | at most 5, at least 1 for a count from 0, and 5 exactly from 12 collections |
| GameState.ComboMultiplierMonotone | src/gameState.js:338-344 | a longer streak never earns a smaller multiplier |
| GameState.ComboMultiplierStep | src/gameState.js:338-344 | each collection raises the multiplier by at most one |
| GameState.ClampHealth | src/gameState.js:381 | health clamped into 0 to the maximum |
| GameState.GameStateManager.constructor | src/gameState.js:8-129 | the initial rule state, with the saved high score and medium difficulty |
| GameState.GameStateManager.AddScore | src/gameState.js:135-137 | the score rises by the points |
| GameState.GameStateManager.SetHighScore | src/gameState.js:147-149 | the high score is the value |
| GameState.GameStateManager.AddCloverCollected | src/gameState.js:155-157 | one more clover |
| GameState.GameStateManager.CheckAndUpdateHighScore | src/gameState.js:192-200 | updated exactly when the score beats the high score, which then becomes the score and is flagged new |
| GameState.GameStateManager.SetGameState | src/gameState.js:210-212 | the play state is the given one |
| GameState.GameStateManager.SetGameWon | src/gameState.js:226-228 | the won flag is the given one |
| GameState.GameStateManager.SetGameStartTime | src/gameState.js:234-236 | the start time is the given one |
| GameState.GameStateManager.AddPausedTime | src/gameState.js:242-244 | the paused time rises by the given time |
| GameState.GameStateManager.SetCurrentLevel | src/gameState.js:258-260 | the level, capped at 10 |
| GameState.GameStateManager.IncrementLevel | src/gameState.js:262-268 | one level up exactly when below 10 |
| GameState.GameStateManager.SetSelectedDifficulty | src/gameState.js:286-292 | accepted exactly for a preset key, which becomes the selection; otherwise nothing changes |
| GameState.GameStateManager.GetDifficultySettings | src/gameState.js:298-307 | settings exactly for levels 1 to 10, with no spawning at level 1 |
| GameState.GameStateManager.SetComboCount | src/gameState.js:317-319 | the combo count is the given one |
| GameState.GameStateManager.IncrementComboCount | src/gameState.js:321-323 | one more in the combo |
| GameState.GameStateManager.ResetCombo | src/gameState.js:325-328 | the combo is 0 with multiplier 1 |
| GameState.GameStateManager.SetComboMultiplier | src/gameState.js:334-336 | the multiplier, capped at 5 |
| GameState.GameStateManager.UpdateComboMultiplier | src/gameState.js:338-344 | the multiplier is the one for the current count |
| GameState.GameStateManager.SetLastCollectTime | src/gameState.js:350-352 | the last collection time is the given one |
| GameState.GameStateManager.CheckComboExpiration | src/gameState.js:363-370 | the combo is reset exactly when a streak began and more than 3 seconds have passed |
| GameState.GameStateManager.SetPlayerHealth | src/gameState.js:380-382 | health clamped into 0 to the maximum |
| GameState.GameStateManager.DamagePlayer | src/gameState.js:384-387 | health drops by the amount but not below 0, and is returned |
| GameState.GameStateManager.HealPlayer | src/gameState.js:389-392 | health rises by the amount but not above the maximum, and is returned |
| GameState.GameStateManager.SetMaxHealth | src/gameState.js:398-400 | the maximum is the given one |
| GameState.GameStateManager.SetExtraLives | src/gameState.js:414-416 | lives, never negative |
| GameState.GameStateManager.AddExtraLife | src/gameState.js:418-420 | one more life |
| GameState.GameStateManager.UseExtraLife | src/gameState.js:422-428 | one life spent exactly when there is one |
| GameState.GameStateManager.ActivateSpeedBoost | src/gameState.js:439-442 | the boost is on and ends 8 seconds from now |
| GameState.GameStateManager.DeactivateSpeedBoost | src/gameState.js:444-447 | the boost is off with no end time |
| GameState.GameStateManager.CheckSpeedBoostExpiration | src/gameState.js:461-467 | switched off exactly when active and its end time has come |
| GameState.GameStateManager.ActivateInvincibility | src/gameState.js:474-477 | invincible until 10 seconds from now |
| GameState.GameStateManager.DeactivateInvincibility | src/gameState.js:479-482 | not invincible, with no end time |
| GameState.GameStateManager.CheckInvincibilityExpiration | src/gameState.js:492-498 | switched off exactly when active and its end time has come |
| GameState.GameStateManager.CheckPowerUpExpirations | src/gameState.js:501-505 | both checks run; true exactly when either expired |
| GameState.GameStateManager.SetLastEnemySpawnTime | src/gameState.js:515-517 | the spawn time is the given one |
| GameState.GameStateManager.Reset | src/gameState.js:523-562 | every default back, keeping the high score and the difficulty |
| GameState.GameStateManager.ResetProgress | src/gameState.js:525-536 | score, clovers, play state, times and level back to their defaults |
| GameState.GameStateManager.ResetComboAndHealth | src/gameState.js:539-546 | combo, health and lives back to their defaults |
| GameState.GameStateManager.ResetTimers | src/gameState.js:549-555 | power-ups off and spawn time cleared |
| GameState.GameStateManager.ResetAll | src/gameState.js:565-568 | as reset, and the difficulty back to medium |
| GameLoop.LevelUpTo | src/gameLoop.js:70-72 | a level-up exactly at a multiple of 3 clovers that earns a higher level not past 10 |
| GameLoop.LevelUpEveryThird | src/gameLoop.js:69-80 | from level 1, the n-th clover (n a multiple of 3 below 30) raises the level to n/3 + 1 |
| GameLoop.NoLevelPastLast | src/gameLoop.js:70-72 | the 30th clover earns no level past the last |
| GameLoop.GameLoop.constructor | src/gameLoop.js:11-33 | a loop over the given rule state, nothing spawned |
| GameLoop.GameLoop.OnCloverCollect | src/gameLoop.js:42-91 | combo extended, clover scored with the new multiplier, counted and hidden, level raised every third clover, victory at the last |
| GameLoop.GameLoop.ScoreClover | src/gameLoop.js:43-56 | the combo and scoring steps |
| GameLoop.GameLoop.CheckVictory | src/gameLoop.js:83-85 | victory exactly when all clovers are in and the game is not yet won |
| GameLoop.GameLoop.CheckLevelUp | src/gameLoop.js:69-80 | the level and one spawned enemy exactly when a level-up is earned |
| GameLoop.GameLoop.HandleMushroomPowerUp | src/gameLoop.js:113-128 | health restored, speed boost or invincibility by variant; other variants change nothing |
| GameLoop.GameLoop.OnEnemyHit | src/gameLoop.js:133-167 | nothing while invincible; else damage by difficulty, then a life spent and health restored, or game over |
| GameLoop.GameLoop.Victory | src/gameLoop.js:172-199 | the game is won and the high score updated |
| GameLoop.GameLoop.GameOver | src/gameLoop.js:204-212 | the play state is game over |
| Collision.DistSq | src/collision.js:33 | the squared distance is never negative |
| Collision.BoundaryIsOutside | src/collision.js:35 | the distance test is strict: a point one radius away is not within it |
| Collision.FirstHitFrom | src/collision.js:29-48 | the first target within the radius, with none before it, or none at all |
| Collision.AllTargets | src/collision.js:93-105 | ants and bees are never skipped |
| Collision.Clover.constructor | src/collision.js:30-31 | a clover not collected and visible |
| Collision.Clover.AsTarget | src/collision.js:31 | a collected clover is skipped |
| Collision.CloverTargets | src/collision.js:30-31 | what the scan sees of each clover |
| Collision.CheckCloverCollisions | src/collision.js:29-49 | the first uncollected clover within 2.5 is marked collected and returned; nothing else changes |
| Collision.CheckEnemyCollisions | src/collision.js:93-106 | a hit exactly when some ant is within 1.5; the first one |
| Collision.CheckBeeCollisions | src/collision.js:115-128 | a hit exactly when some bee is within 1.2; the first one |
| Collision.CheckNewEnemyCollisions | src/collision.js:137-149 | a spider exactly when some spider with a mesh is within 2, else a slug exactly when some slug is |
| Collision.CheckCollectibleCollisions | src/collision.js:60-84 | the collected item is returned and its callback chosen by type; a coin is worth 50 |
| ErrorHandling.Recent | src/errorHandler.js:51-60 | the last n records, all of them when there are fewer |
| ErrorHandling.RecentSnoc | src/errorHandler.js:54-59 | appending then dropping the oldest past the bound keeps the most recent records |
| ErrorHandling.MessageOf | src/errorHandler.js:67 | the message if present and non-empty, else the string form |
| ErrorHandling.HandledRecord | src/errorHandler.js:63-70 | a handled-error record with the message, stack, context (empty by default) and time |
| ErrorHandling.ErrorHandler.constructor | src/errorHandler.js:7-11 | an empty log |
| ErrorHandling.ErrorHandler.LogError | src/errorHandler.js:51-60 | the record appended, the oldest dropped past 100; the log is the last 100 records |
| ErrorHandling.ErrorHandler.HandleError | src/errorHandler.js:63-76 | the handled record logged last; returns false |
| ErrorHandling.ErrorHandler.GetErrorLog | src/errorHandler.js:133-135 | the log's contents |
| ErrorHandling.ErrorHandler.ClearErrorLog | src/errorHandler.js:138-140 | an empty log |
| Input.KeysAfter | src/input.js:31-37 | the lower-cased key set to pressed or released; every other entry unchanged |
| Input.PressThenQuery | src/input.js:31-46 | after a key-down, exactly the keys held before and the new key are held |
| Input.ReleaseThenQuery | src/input.js:35-46 | after a key-up, a query in any case is held exactly when its lower-case form differs from the released key's and was held before; so the released key is not held in any case |
| Input.MovementOf | src/input.js:49-56 | each direction is either of its two keys or its touch flag |
| Input.NoInputNoMovement | src/input.js:49-56 | no keys and no touch controls: no movement |
| Input.UpperCaseKeyMoves | src/input.js:31-56 | holding `W` moves forward |
| Input.QueryIgnoresCase | src/input.js:44-46 | a query and its lower-cased form agree |
| Input.InputManager.constructor | src/input.js:7-20 | no keys held; the touch controls given |
| Input.InputManager.HandleKeyDown | src/input.js:31-33 | the key map after a key-down |
| Input.InputManager.HandleKeyUp | src/input.js:35-37 | the key map after a key-up |
| Input.InputManager.IsKeyPressed | src/input.js:44-46 | held exactly when the lower-cased key is stored as true |
| Input.InputManager.GetMovementInput | src/input.js:49-56 | the movement of the key map and touch controls |
| Input.InputManager.DisableInput | src/input.js:67-71 | no key is held |
| Input.InputManager.Cleanup | src/input.js:74-76 | no key is held |
| DayNight.PhaseOf | src/daynight.js:431-449 | day, sunset, night, sunrise on [0, .35), [.35, .45), [.45, .85), and the rest |
| DayNight.PhasesInOrder | src/daynight.js:17-26 | through a cycle the phases come in order |
| DayNight.AdvanceStaysInCycle | src/daynight.js:385-397 | a step no longer than a cycle keeps the time in the cycle and the progress in [0, 1) |
| DayNight.PausedClockStands | src/daynight.js:385-393 | at zero speed the clock does not move |
| DayNight.Deliveries | src/daynight.js:859-869 | one delivery per listener, in registration order |
| DayNight.IndexOf | src/daynight.js:851 | the first position of a listener, or none exactly when absent |
| DayNight.RemoveFirst | src/daynight.js:849-856 | an absent listener leaves the list as it is; otherwise the list without its first occurrence, the rest in order, one shorter and the same multiset less that listener |
| DayNight.TimeIn24Hour | src/daynight.js:907-916 | the hours are the whole part of progress times 24, the minutes the whole part of the remaining fraction times 60 (0 to 59), formatted `HH:MM` |
| DayNight.HalfCycleIsNoon | src/daynight.js:907-916 | half way through the cycle it is `12:00` |
| DayNight.DayNightCycle.constructor | src/daynight.js:75-94 | the configured or default duration and speed, at the start of day, with no listeners |
| DayNight.DayNightCycle.ListenersOf | src/daynight.js:860 | an unknown event has no listeners |
| DayNight.DayNightCycle.Emit | src/daynight.js:859-869 | every listener of the event receives the data, in order |
| DayNight.DayNightCycle.On | src/daynight.js:840-846 | the listener appended for a known event; unknown events ignored |
| DayNight.DayNightCycle.Off | src/daynight.js:849-856 | the first registration removed for a known event |
| DayNight.DayNightCycle.Update | src/daynight.js:383-407 | the time advanced and wrapped, the progress and phase recomputed, the events emitted |
| DayNight.DayNightCycle.AdvanceTime | src/daynight.js:385-393 | the time advanced and wrapped at most once |
| DayNight.DayNightCycle.UpdatePhase | src/daynight.js:431-458 | the phase of the progress, with `phaseChange` emitted exactly on a change |
| DayNight.DayNightCycle.SetCycleDuration | src/daynight.js:881-887 | a positive duration taken and the progress recomputed; others ignored |
| DayNight.DayNightCycle.SetTimeSpeed | src/daynight.js:895-899 | a non-negative speed taken; others ignored |
| DayNight.DayNightCycle.SetTime | src/daynight.js:831-833 | the time is the given fraction of the cycle |
| DayNight.DayNightCycle.IsNight | src/daynight.js:826-828 | night exactly when the phase is night |
| Particles.OrDefault | src/particles.js:37-40 | a missing or zero option takes the default |
| Particles.NewParticle | src/particles.js:32-46 | fully opaque; lifetime and fade rate default to 1 |
| Particles.Survivors | src/particles.js:52-84 | the surviving particles, never more |
| Particles.SurvivorsAreTheLiving | src/particles.js:72-82 | exactly the particles alive after their step survive it |
| Particles.SurvivorsAppend | src/particles.js:52-84 | no particle's fate depends on another |
| Particles.NoTimeOnlyDeadGo | src/particles.js:80-82 | with no time passing, exactly the dead particles go |
| Particles.ParticleGroup.constructor | src/particles.js:18-20 | an empty group; capacity 200 by default |
| Particles.ParticleGroup.AddParticle | src/particles.js:27-50 | a full group refuses; otherwise exactly one new particle appended and returned |
| Particles.ParticleGroup.Update | src/particles.js:52-84 | the particles are the survivors of the step |
| Particles.ParticleGroup.IsEmpty | src/particles.js:86-88 | empty exactly when there are no particles |
| Particles.LiveGroups | src/particles.js:337-359 | the groups kept by the manager's `update`, never more than there were |
| Particles.LiveGroupsKeepsNonEmpty | src/particles.js:349-357 | only listed groups are kept; a group with survivors is kept; and, in a list without repeats, a kept group has survivors |
| Particles.KeptIffNonEmpty | src/particles.js:349-357 | in a list without repeats, a group is kept exactly when its particles after the step are not all gone |
| Particles.LiveGroupsAppend | src/particles.js:338-357 | keeping distributes over concatenation, so the kept groups stay in their order |
| Particles.LiveGroupsDistinct | src/particles.js:337-359 | the kept groups have no repeats |
| Particles.ParticlesOf | src/particles.js:337-359 | the particles of each group |
| Particles.ParticleEffectsManager.constructor | src/particles.js:96-99 | no groups |
| Particles.ParticleEffectsManager.AddGroup | src/particles.js:109-135 | a new empty group pushed at the end |
| Particles.ParticleEffectsManager.Update | src/particles.js:337-359 | every group's particles are its survivors; a group stays exactly when it still has particles; the list is the kept groups in order |
| Particles.ParticleEffectsManager.UpdateGroupAt | src/particles.js:338-357 | one group updated; removed exactly when left empty, keeping the order of the rest |
| Particles.ParticleEffectsManager.RemoveAll | src/particles.js:412-421 | no groups |
| Particles.FinishedIsFullProgress | src/particles.js:478-480 | finished is exactly a progress of at least 1 |
| Particles.RunningRipples | src/particles.js:473-495 | no more ripples than before, and none of them finished |
| Particles.RunningRipplesAreTheLive | src/particles.js:476-493 | every ripple still running once aged is kept, and every kept ripple is an aged original |
| Particles.RunningRipplesAppend | src/particles.js:476-493 | keeping distributes over concatenation, so the kept ripples stay in their order |
| Particles.WithNewRipple | src/particles.js:437-470 | the new ripple last, at most 20, only the oldest evicted |
| Particles.RippleManager.constructor | src/particles.js:430-434 | no ripples |
| Particles.RippleManager.CreateRipple | src/particles.js:437-470 | the new ripple, with default duration and radius, added after evicting the oldest at the cap |
| Particles.RippleManager.Update | src/particles.js:473-495 | the list becomes the running ripples of the step: the aged unfinished ones, in order |
| Particles.RippleManager.RemoveAll | src/particles.js:498-505 | no ripples |

## Left out

- Console output, the JSON report file, `generate_report`/`generateReport` (the pass rate is a float), `save_report`/`saveReport`, `main` and the exit code: these are I/O.
- The results' timestamp: a clock read.
- The fixed `VIEWPORTS` and `TOUCH_TARGETS` tables: they are parameters of `Analyze`.
- `MIN_SPACING`: never used.
- Regular expressions, in general: the model writes each pattern the analyzers use as a deterministic scanner. Backtracking cannot change the result for these patterns.
- Unicode: whitespace and digits are ASCII. `Text.Lower` folds ASCII letters only.
- Text.Trim, Text.Words and the scanners' `\s`: Python's `strip`, `split()` and `\s` also treat \x1c-\x1f and non-ASCII spaces as whitespace. JavaScript's `trim` treats non-ASCII spaces as whitespace too, but not \x1c-\x1f. The model uses the six ASCII characters both share, so these inputs may parse differently in the two analyzers.
- TouchJs.ParsePaddingJs and the JavaScript side of CssScan.ParseSize: `parseInt` produces a double, which loses precision above 2^53, and the box sums are doubles too. The model uses unbounded naturals.
- GameState.DifficultyNamed: a property lookup in the presets object also finds inherited names such as `toString` or `constructor`, whose value is a function and so truthy. The model knows only the three own keys.
- GameState.GameStateManager.SetSelectedDifficulty: for an inherited name the source accepts it, stores it and returns true, and later settings lookups then compute NaN. The model refuses every name other than the three keys and returns false.
- DayNight.DayNightCycle.On: for an inherited event name such as `toString`, the source's truthy lookup finds a function and calling `push` on it throws a TypeError. The model ignores every name that is not one of its three events.
- DayNight.DayNightCycle.Off: for an inherited event name, calling `indexOf` on the inherited function throws a TypeError. The model ignores such a name.
- DayNight.DayNightCycle.Emit: for an inherited event name, calling `forEach` on the inherited function throws a TypeError. The model delivers nothing.
- The loading and saving of the high score in `localStorage`: the saved value is a constructor parameter.
- `getDifficultyPreset` with a prototype name such as `constructor`: only the three keys are modelled as presets.
- Enemy speeds and the multipliers the rules never read (player health, player speed, enemy health): floats the modelled rules do not use.
- Audio, UI popups, screens, meshes, the player's flash and positions.
- The victory time string: it needs `performance.now()`.
- `onCollectibleCollect`: it compares the type with `buddy-bug` while the collision manager reports `buddybug`. Its mushroom branch is `HandleMushroomPowerUp`; its buddy-bug branch is `AddExtraLife`.
- The animation loop (`animate`, `start`, `stop`): frame scheduling.
- `initGlobalHandlers` and `showUserError`: browser hooks and the DOM.
- `console.error` in `logError`.
- `setupInputListeners` and `enableInput`: listener wiring. `getKeys` and the other getters are plain field reads.
- Every visual part of the day/night cycle: sun, moon, stars, fireflies, lights, colours and the time display.
- Listener exceptions caught in `emit`: listeners are opaque identifiers, so delivery is recorded as a log.
- Particle and ripple positions, velocities, gravity, bounces, rotation, meshes and opacity: only ages, lifetimes, alpha and the list bookkeeping are modelled.
- The `create...` effect builders: randomness and geometry. Their list bookkeeping is `AddGroup`.
- `maxGroups` (50): declared but never enforced, so not modelled.
- Collision.Within: `distanceTo(p) < r` is modelled as the squared distance compared with `r*r`, so square roots are not modelled.
- ErrorHandling.ErrorHandler.GetErrorLog: the log is a value, so the copy's independence from later logging is implicit rather than stated.
- DayNight.TimeIn24Hour: it takes the progress as a parameter rather than reading the field, and it is exact on rationals where the source works in floating point.
- Particles.ParticleGroup.Update and Particles.RippleManager.Update: they state the new lists as values. Particle objects are not modelled as shared references.
