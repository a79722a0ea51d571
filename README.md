# Pipeline defence game core, in Dafny

This project models the game logic of `game.js`, a browser arcade game. A
technician walks along the bottom of the field and zaps the hazards falling on a
pipeline. There are two kinds of hazard: water drops and rust monsters. Five
kinds of power-up also fall:

- a battery doubles the zap range;
- a bullhorn sets off a blast that clears the hazards around it;
- a survey manager brings a duplicate technician that zaps too;
- a carto pac heals the pipeline;
- an AI bomb clears every hazard and slows the game to a tenth of its speed.

The session is the class `Session.Game`. It has the same fields as the game
object, and its methods change them in place, as the source does:

- `Zap` and `PerformZapFromPosition` with its six reverse splice loops;
- the `Collect*` effects, `TriggerBlast` and `TriggerAiBombWave`;
- the spawners;
- `Update`, one tick of the game;
- `NextLevel`, `TogglePause` and `Restart`.

`Player.Technician` and `Structure.Pipeline` are classes too. Hazards and
power-ups are values (`Entities.Projectile`, `Entities.Item`).

Every loop is specified by a pure function of the lists it starts from:

- `Seqs.Filter` gives the survivors, in order;
- `Entities.ZapScore` gives the points;
- `Entities.BatterySweep` gives the battery pass, where the range widens part-way;
- `Entities.Remaining` and `Entities.Impact` give hazards landing on the pipeline;
- `Entities.Drift` gives the falling power-ups.

A whole zap is the function `Zapping.ZapFrom` on a `Zapping.Board`. A Board is a
snapshot of the fields a zap touches. The lemmas about `ZapFrom` and `ZapBoth`
state what a zap promises:

- the points it awards;
- every power-up in reach is collected, and only once;
- hazards left are outside the band;
- the invariants are kept.

The session invariant `Game.Valid` states the following:

- the technician is on the field;
- the level is at least 1;
- the cooldown is within 10 ticks;
- the health is in [0, 100] and the structure agrees with it;
- a destroyed structure means the game is over;
- the score is not negative;
- the range is doubled exactly while the boost timer runs;
- the game is slowed exactly while the slowdown runs;
- the level clock is within its 30 seconds.

Every operation keeps this invariant.

Randomness is passed in as parameters. `Update` takes a `Draws` value of uniform
draws in [0, 1).

Two behaviours follow the code as written:

- `restart` puts the spawn rate back to 0.015, while a fresh game starts at 0.020;
- the hazard loop sets the game over but does not stop the tick, so the level clock may still start the next level in the tick that destroyed the pipeline.

## Model

| member | source | states |
|---|---|---|
| Structure.Floored | game.js:1165-1167 | health after damage is never negative; it is 0 exactly when the damage reaches the health, and otherwise health minus damage |
| Structure.FlooredTwice | game.js:706-726 | several hits in one tick floor once: taking a then b equals taking a + b |
| Structure.Pipeline.constructor | game.js:1154-1163 | a new pipeline has health 100 and has not exploded |
| Structure.Pipeline.TakeDamage | game.js:1165-1167 | health drops by the amount, floored at 0 |
| Structure.Pipeline.Explode | game.js:1220-1222 | the pipeline is exploded and its health is 0 |
| Player.Clamp | game.js:1064 | the position is kept in [20, width − 20]; positions inside are unchanged, and positions outside go to the nearer edge |
| Player.Technician.constructor | game.js:1038-1044 | the technician starts at the given position |
| Player.Technician.Update | game.js:1046-1065 | x stays in [20, width − 20]; without the mouse it moves by 5 per held direction, then is clamped; with the mouse and no key held, it takes the clamped mouse x |
| Entities.InBandWidens | game.js:437-442 | a wider zap range catches every item a narrower one does |
| Entities.BlastAgain | game.js:602-620 | a blast applied to what earlier blasts left equals all the blasts applied at once |
| Entities.ZapSurvivors | game.js:404-468 | after the hazard pass and the blasts, every hazard left was there before and is outside the band |
| Entities.ZapScore | game.js:404-432 | a zap earns 100 per rust monster and 50 per water drop in the band |
| Entities.ZapScoreBounds | game.js:413-419 | hazard points lie between 50 and 100 per hazard hit |
| Entities.FallsAt | game.js:1423-1424 | falling moves each hazard down by its own speed, index by index |
| Entities.ImpactBounds | game.js:1416 | the damage of the landed hazards is exactly 15 per rust monster plus 10 per water drop, hence between 10 and 15 times their number |
| Entities.LandingStep | game.js:706-726 | the hazard at index i either stays aloft after its fall, or lands and adds its damage; the hazards after it account for the rest |
| Entities.RemainingAloft | game.js:706-727 | hazards left after a tick are fallen hazards above the damage line, and every hazard that does not cross the line is left |
| Entities.MovedAt | game.js:1619-1620 | a power-up moves down by its speed and keeps its x |
| Entities.DriftStep | game.js:738-743 | a power-up at index i is kept after its move unless it is now past the limit |
| Entities.DriftKeeps | game.js:737-783 | power-ups left were in the list, moved down, and are not past the limit; every one that did not pass the limit is left |
| Entities.DriftSplice | game.js:738-743 | one step of the drift loop on the list as it stands: splicing item i out, or putting it back moved, leaves the prefix before i followed by the drift from i on |
| Entities.DriftItems | game.js:738-743 | the reverse move-and-splice loop leaves exactly the drift of the list |
| Entities.BatterySweep | game.js:435-450 | every battery is either kept or collected; the range is boosted exactly when one was collected |
| Entities.SweepKeeps | game.js:435-450 | batteries kept were given; none of them was in the band at the starting range; every battery outside even the boosted band is kept; so none is collected twice |
| Entities.DuplicateX | game.js:392-395 | the duplicate stands 100 from the technician: to the right unless that passes width − 50, then to the left |
| Entities.SpawnX | game.js:625 | spawn x lies in [20, width − 20] |
| Zapping.HazardPass | game.js:404-432 | only the hazards and the score change; every hazard removed earns between 50 and 100 |
| Zapping.BatteryPass | game.js:435-450 | only the batteries, range, boost timer and score change: +250 per battery collected; any collection sets the boosted range and a 600-tick boost; none keeps range and timer |
| Zapping.BullhornPass | game.js:453-468 | only the bullhorns, hazards and score change: +250 per bullhorn collected and +5 per hazard its blast cleared |
| Zapping.SurveyManagerPass | game.js:471-486 | only the survey managers, the duplicate timer and the score change: +250 each, and any collection sets the timer to 600; no collection changes nothing |
| Zapping.CartoPacPass | game.js:489-504 | only the carto pacs, both health copies and the score change: +250 each, health becomes min(100, h + 10n); no collection changes nothing |
| Zapping.AiBombPass | game.js:507-520 | only the AI bombs, hazards, slowdown, multiplier and score change: +250 each, and any collection clears every hazard, slowdown 300, multiplier 0.1 |
| Zapping.ZapFrom | game.js:402-521 | the six passes in the game's order; a zap only collects: no list grows and the score never drops (its points, survivors, collections and invariant are the ZapFrom* lemmas below) |
| Zapping.ZapBoth | game.js:387-399 | the technician's zap, then the duplicate's from 100 to the side when the duplicate is active after the first zap; it only collects (its invariant and cleared band are ZapBothKeeps and ZapBothClears) |
| Zapping.ZapFromScore | game.js:402-521 | the score gain is exactly the hazard points of the band, plus 250 for each power-up that left its five lists, plus 5 for each of the `cleared` hazards, the count the bullhorn pass removed from what the hazard and battery passes left; the score never goes down |
| Zapping.ZapFromSurvivors | game.js:404-468 | hazards left after a zap were there before, and none is in the band |
| Zapping.ZapFromBatteries | game.js:435-450 | batteries left after a zap were there before, and none was in the band |
| Zapping.ZapFromCollectsAll | game.js:453-520 | bullhorns, survey managers, carto pacs and AI bombs left were there before, and none is in the band at the final range |
| Zapping.ZapFromKeeps | game.js:402-521 | a zap keeps the board invariant; it never lowers health, duplicate timer, range or score |
| Zapping.ZapBothKeeps | game.js:382-400 | a whole zap, duplicate included, keeps the invariant and never lowers the score |
| Zapping.ZapBothClears | game.js:382-400 | after a whole zap, every hazard left was there before and is outside the technician's band; when the duplicate is active after the technician's zap (already, or through a survey manager that zap collected), none is in the duplicate's band at the range that zap left either |
| Session.Game.constructor | game.js:2-53 | the initial session, with every value the constructor sets; the invariant holds |
| Session.Toggled | game.js:323-331 | a finished game stays finished and nothing else becomes finished; any other state changes, so playing and paused swap |
| Session.Game.TogglePause | game.js:323-331 | playing and paused swap; a game that is over stays over |
| Session.Game.Restart | game.js:333-373 | every reset value, including spawn rate 0.015 and the technician at the centre; the pipeline is not exploded; the zap cooldown is kept; the invariant holds |
| Session.Game.ResetProgress | game.js:334-338 | state playing, level 1, 30 seconds, health 100, score 0 |
| Session.Game.ResetEntities | game.js:339-346 | every entity list is emptied and the technician is centred |
| Session.Game.ResetSettings | game.js:347-359 | speed, rate, range, spawn and buff timers and multiplier go back to their start values |
| Session.Game.ResetDifficulty | game.js:347-352 | hazard speed and spawn rate, zap range and its base, the battery timer and the range boost go back to their start values; nothing else changes |
| Session.Game.ResetTimers | game.js:353-359 | the bullhorn, survey manager, CartoPac and AI bomb timers, the duplicate timer, the slowdown timer and the speed multiplier go back to their start values; nothing else changes |
| Session.Game.ResetPipeline | game.js:365-368 | the structure is back at health 100 and not exploded |
| Session.Game.NextLevel | game.js:832-855 | the whole tick state after it: level + 1, 30 seconds, speed + 0.3, rate + 0.004, survey manager and carto pac timers 0, pipeline not exploded, everything else as it was; the invariant holds |
| Session.Game.NewLevelClock | game.js:833-840 | level + 1, a fresh 30 seconds, and the wreck cleared |
| Session.Game.Harden | game.js:842-849 | speed + 0.3, rate + 0.004, survey manager and carto pac due at once |
| Session.Game.CollectBattery | game.js:523-533 | range 2 × base, boost timer 600 (restarted, not added), +250 |
| Session.Game.TriggerBlast | game.js:602-620 | exactly the hazards inside radius 200 are removed, in order, at +5 each |
| Session.Game.ZapProjectiles | game.js:404-432 | exactly the hazards in the band are removed, others keep their order, and the score rises by their points |
| Session.Game.ZapBatteries | game.js:435-450 | the list, range, boost timer and score become those of the battery sweep |
| Session.Game.ZapBatteryAt | game.js:436-449 | one loop step preserves the sweep invariant |
| Session.Game.CollectBullhorn | game.js:535-544 | blast around the bullhorn, then +250 |
| Session.Game.CollectSurveyManager | game.js:546-555 | duplicate timer 600, +250 |
| Session.Game.CollectCartoPac | game.js:557-568 | health min(100, h + 10), and the pipeline agrees; +250 |
| Session.Game.TriggerAiBombWave | game.js:581-600 | all hazards cleared, slowdown 300 ticks, multiplier 0.1 |
| Session.Game.CollectAiBomb | game.js:570-579 | +250, then the wave |
| Session.Game.ZapBullhorns | game.js:453-468 | bullhorns in the band are collected; the hazards left are those outside every collected bullhorn's blast; score +250 each and +5 per cleared hazard |
| Session.Game.ZapBullhornAt | game.js:454-467 | one loop step preserves the bullhorn pass invariant |
| Session.Game.ZapSurveyManagers | game.js:471-486 | survey managers in the band are collected; any collection makes the duplicate timer 600; +250 each |
| Session.Game.ZapCartoPacs | game.js:489-504 | carto pacs in the band are collected; health min(100, h + 10n); +250 each |
| Session.Game.ZapAiBombs | game.js:507-520 | AI bombs in the band are collected; any collection clears the hazards and starts the slowdown; +250 each |
| Session.Game.ZapHazardsAndBatteries | game.js:404-450 | the board after the hazard and battery passes |
| Session.Game.ZapBullhornsAndSurveyManagers | game.js:453-486 | the board after the bullhorn and survey manager passes |
| Session.Game.ZapCartoPacsAndAiBombs | game.js:489-520 | the board after the carto pac and AI bomb passes |
| Session.Game.Zap | game.js:382-400 | a zap during cooldown changes nothing; otherwise the cooldown is 10 and the board is the technician's zap, followed by the duplicate's if active; the invariant holds |
| Session.Game.ZapTwice | game.js:387-399 | the board becomes ZapBoth of the board before |
| Session.Game.PerformZapFromPosition | game.js:402-521 | the board becomes ZapFrom of the board before, and the board invariant holds |
| Session.Game.ZapPasses | game.js:402-521 | the six passes leave exactly ZapFrom |
| Session.TickedGrowth | game.js:687-830 | a tick adds at most one hazard and at most one item to each power-up list, and the zap cooldown drops by one while it runs |
| Session.TickedOutcome | game.js:705-727 | a tick of a game in play floors the health by the damage of every hazard that landed; the game is over exactly when health is 0; a tick never pauses; the technician ends on the field, on the mouse only when no movement key was held |
| Session.Game.Update | game.js:687-830 | a game not in play is left untouched; otherwise the whole tick state becomes Ticked of the state before (movement, landing, drift, spawns, countdowns, buffs, clock), with the health and game-over outcome of TickedOutcome; the score is unchanged, at most one hazard is added, and the invariant holds |
| Session.Game.Play | game.js:690-827 | the whole tick state becomes Ticked of the state before, at the multiplier read after the keyboard check; the invariant holds |
| Session.Game.CheckKeyboard | game.js:689-693 | the tick state becomes KeyboardChecked: a held movement key switches the mouse off; nothing else changes |
| Session.Game.MoveTechnician | game.js:698-699 | the tick state becomes Walked: the technician follows the mouse or the keys as in Technician.Update; nothing else changes |
| Session.Game.LandHazards | game.js:705-727 | the tick state becomes Landing: hazards become Remaining, health is floored by Impact, game over and explosion exactly at health 0, nothing else changes; the invariant holds |
| Session.Game.LandLoop | game.js:706-727 | the reverse loop leaves the hazards Remaining, the health floored by Impact with the structure agreeing, game over exactly at 0, and the structure exploded exactly when it was or health is 0 |
| Session.Game.LandHazardAt | game.js:706-726 | one loop step preserves the landing invariant |
| Session.Game.Advance | game.js:737-827 | the tick state becomes Advanced: drift, spawns at the given multiplier, countdowns, buffs and clock, in the source's order; the invariant holds |
| Session.Game.DriftPowerUps | game.js:737-783 | the power-ups become Drifted: each list drifts at its own speed, with limit height for batteries and bullhorns and height + 50 for the rest; nothing else changes |
| Session.Game.DriftBatteries | game.js:737-743 | the batteries drift at their speed with limit height; nothing else changes |
| Session.Game.DriftBullhorns | game.js:745-751 | the bullhorns drift at their speed with limit height; nothing else changes |
| Session.Game.DriftSurveyManagers | game.js:761-767 | the survey managers drift at their speed with limit height + 50; nothing else changes |
| Session.Game.DriftCartoPacs | game.js:769-775 | the carto pacs drift at their speed with limit height + 50; nothing else changes |
| Session.Game.DriftAiBombs | game.js:777-783 | the AI bombs drift at their speed with limit height + 50; nothing else changes |
| Session.Game.Spawn | game.js:785-794 | the hazard spawner runs only while the multiplier is at least 0.5, then each power-up spawner; the hazards gain HazardArrival and the power-ups become Supplied; nothing else changes |
| Session.Game.SpawnPowerUps | game.js:789-794 | the five power-up spawners in order: the power-ups become Supplied; nothing else changes |
| Session.Game.SpawnProjectile | game.js:668-685 | a hazard spawns exactly when the draw is under the spawn rate; it is water below 0.6 (speed s), otherwise rust (1.3 s); it appears at y −20 with x in the field; nothing else changes |
| Session.Game.SpawnBattery | game.js:623-630 | a battery is added exactly when the timer is ≤ 0, and then the timer resets into [1125, 1575); nothing else changes |
| Session.Game.SpawnBullhorn | game.js:632-639 | a bullhorn is added exactly when the timer is ≤ 0, and then the timer resets into [2700, 4050); nothing else changes |
| Session.Game.SpawnSurveyManager | game.js:641-648 | a survey manager is added exactly when the timer is ≤ 0, and then the timer resets to 1350; nothing else changes |
| Session.Game.SpawnCartoPac | game.js:650-657 | a carto pac is added exactly when the timer is ≤ 0, and then the timer resets into [2025, 2700); nothing else changes |
| Session.Game.SpawnAiBomb | game.js:659-666 | an AI bomb is added exactly when the timer is ≤ 0, and then the timer resets into [5400, 7200); nothing else changes |
| Session.Game.Tick | game.js:796-827 | the spawn timers count down (and two become due at a level-up), the cooldown and buffs become Counted, the clock becomes Clocked and the wreck is cleared at a level-up; nothing else changes; the invariant holds |
| Session.Game.TickCountdowns | game.js:797-802 | the cooldown and each spawn timer drop by 1, only while positive |
| Session.Game.TickSpawnTimers | game.js:798-802 | each spawn timer drops by 1, only while positive |
| Session.Game.TickBuffs | game.js:803-815 | the timers become Buffed: buff timers drop while positive; the multiplier becomes 1.0 and the range goes back to base when their timers reach 0; nothing else changes |
| Session.Game.TickSlowdown | game.js:804-809 | the slowdown timer drops, and the game is slowed exactly while it runs |
| Session.Game.TickRangeBoost | game.js:810-815 | the boost timer drops, and the range is doubled exactly while it runs |
| Session.Game.TickClock | game.js:821-827 | the clock becomes Clocked: it loses 1/60 s × multiplier, and at 0 the next level starts; speed, rate and the rest are kept while the clock runs |

## Left out

- Rendering is not modelled: canvas drawing, DOM updates, the pause button text, the game-over screen and `updateUI`.
- Audio (`sounds.*`, Web Audio) is not modelled.
- Particle and visual effects are not modelled: zap, damage, collection and floating-score effects, the blast effect, screen shake, explosion flash, pipeline cracks, rust splotches and explosion particles. `Pipeline.update` only animates these.
- The delayed second explosion wave (`setTimeout`) is not modelled.
- `Math.random` is not modelled. Its values are parameters in [0, 1), so the model covers every outcome of the draws.
- Reals are exact, not IEEE doubles, so rounding in the clock and the spawn timers is not modelled.
- `Math.sqrt` in the blast test becomes a comparison of squared distances. For non-negative distances the two are equivalent.
- Event listeners, `gameLoop`/`requestAnimationFrame`, `quit` and `confirm`/`window.close` are not modelled. The listeners' check that the game is playing before zapping sits outside `zap`, so `Session.Game.Zap` does not check it.
- Entities.Fall: the rust monster's sine wiggle of x is not modelled; a hazard only moves down.
- Item rotation, pulse and glow are not modelled.
- The technician's y never changes in the source, so it is a constant here.
- The field width is assumed to be at least 40, the technician's width. Clamping and spawning depend on it.
- Structure.Pipeline.Explode: explosion is not shown to happen exactly once. The source calls it for every hazard that lands once health is 0, and the model does the same.
- Input state (keys, mouse x, mouse in use) is set by the listeners. The model keeps it as fields that only `Update` reads and writes.
- `Update`, `Zap`, `Restart` and `NextLevel` are split into smaller methods that run the same statements in the same order. Each piece keeps the verification small.
