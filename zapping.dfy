/** What one zap does to the session, as pure functions on a snapshot of the
    fields a zap reads and writes. The session's zap methods are proved to
    leave exactly these snapshots behind. */
module Zapping {
  import opened Seqs
  import opened Entities

  /** Points for collecting any power-up. */
  const PowerUpPoints: int := 250

  /** Points for each hazard a bullhorn blast clears. */
  const BlastBonus: int := 5

  function MinInt(a: int, b: int): int { if a < b then a else b }

  /** The fields of the session a zap reads or writes. `structureHealth` is the
      structure's own copy of the health, which a carto pac updates too. */
  datatype Board = Board(
    projectiles: seq<Projectile>,
    batteries: seq<Item>,
    bullhorns: seq<Item>,
    surveyManagers: seq<Item>,
    cartoPacs: seq<Item>,
    aiBombs: seq<Item>,
    zapRange: int,
    rangeBoostTimer: int,
    score: int,
    duplicateTechnicianTimer: int,
    pipelineHealth: int,
    structureHealth: int,
    aiBombSlowdownTimer: int,
    gameSpeedMultiplier: real)

  /** The zap range is doubled exactly while the boost timer runs. */
  predicate BoostOk(range: int, base: int, timer: int)
  {
    && base == 50
    && 0 <= timer <= 600
    && range == (if timer > 0 then 2 * base else base)
  }

  /** The game runs at a tenth of its speed exactly while the slowdown timer runs. */
  predicate SlowdownOk(timer: int, multiplier: real)
  {
    && 0 <= timer <= 300
    && multiplier == (if timer > 0 then 0.1 else 1.0)
  }

  /** What holds of the zap fields between ticks: the structure's health is in
      [0, 100] and the structure agrees about it, a destroyed structure has
      ended the game, the score is not negative, the buffs agree with their
      timers and the duplicate's timer is within its 600 ticks. */
  predicate BoardOk(b: Board, base: int, over: bool)
  {
    var ok :=
      && 0 <= b.pipelineHealth <= 100
      && b.structureHealth == b.pipelineHealth
      && (b.pipelineHealth == 0 ==> over)
      && b.score >= 0
      && BoostOk(b.zapRange, base, b.rangeBoostTimer)
      && 0 <= b.duplicateTechnicianTimer <= 600
      && SlowdownOk(b.aiBombSlowdownTimer, b.gameSpeedMultiplier);
    ok
  }

  /** Hazards in the band and hazards out of it make up the whole list. */
  lemma ProjectileSplit(ps: seq<Projectile>, tipX: real, tipY: real, range: int)
    ensures |Filter(ps, ProjectileHit(tipX, tipY, range))| + |Filter(ps, ProjectileMiss(tipX, tipY, range))| == |ps|
  {
    forall p: Projectile ensures ProjectileMiss(tipX, tipY, range)(p) == !ProjectileHit(tipX, tipY, range)(p) { }
    FilterSplit(ps, ProjectileHit(tipX, tipY, range), ProjectileMiss(tipX, tipY, range));
  }

  /** Items in the band and items out of it make up the whole list. */
  lemma ItemSplit(items: seq<Item>, tipX: real, tipY: real, range: int)
    ensures |Filter(items, ItemHit(tipX, tipY, range))| + |Filter(items, ItemMiss(tipX, tipY, range))| == |items|
  {
    forall it: Item ensures ItemMiss(tipX, tipY, range)(it) == !ItemHit(tipX, tipY, range)(it) { }
    FilterSplit(items, ItemHit(tipX, tipY, range), ItemMiss(tipX, tipY, range));
  }

  /** The hazard pass: hazards in the band go, for 100 (rust) or 50 (water)
      each. Only the hazards and the score change, and every hazard removed
      earns between 50 and 100. */
  function HazardPass(b: Board, tipX: real, tipY: real): (r: Board)
    ensures r.(projectiles := b.projectiles, score := b.score) == b
    ensures var hit := |b.projectiles| - |r.projectiles|;
      hit >= 0 && b.score + 50 * hit <= r.score <= b.score + 100 * hit
  {
    ProjectileSplit(b.projectiles, tipX, tipY, b.zapRange);
    ZapScoreBounds(b.projectiles, tipX, tipY, b.zapRange);
    b.(projectiles := Filter(b.projectiles, ProjectileMiss(tipX, tipY, b.zapRange)),
       score := b.score + ZapScore(b.projectiles, tipX, tipY, b.zapRange))
  }

  /** The battery pass: batteries in the band are collected, each one widening
      the band for the batteries before it in the list. Only the batteries,
      the range, the boost timer and the score change: 250 for each battery
      collected, and any collection boosts the range and restarts the boost's
      600 ticks; a pass that collects nothing keeps the range and the timer. */
  function BatteryPass(b: Board, tipX: real, tipY: real, boosted: int): (r: Board)
    ensures r.(batteries := b.batteries, zapRange := b.zapRange, rangeBoostTimer := b.rangeBoostTimer,
               score := b.score) == b
    ensures var n := |b.batteries| - |r.batteries|;
      && n >= 0
      && r.score == b.score + PowerUpPoints * n
      && (n > 0 ==> r.zapRange == boosted && r.rangeBoostTimer == 600)
      && (n == 0 ==> r.zapRange == b.zapRange && r.rangeBoostTimer == b.rangeBoostTimer)
  {
    var sw := BatterySweep(b.batteries, tipX, tipY, b.zapRange, boosted);
    b.(batteries := sw.kept,
       zapRange := sw.range,
       rangeBoostTimer := if sw.collected > 0 then 600 else b.rangeBoostTimer,
       score := b.score + PowerUpPoints * sw.collected)
  }

  /** The bullhorn pass: every bullhorn in the band is collected and clears the
      hazards within its blast. Only the bullhorns, the hazards and the score
      change: 250 for each bullhorn collected and 5 for each hazard cleared. */
  function BullhornPass(b: Board, tipX: real, tipY: real): (r: Board)
    ensures r.(bullhorns := b.bullhorns, projectiles := b.projectiles, score := b.score) == b
    ensures |r.bullhorns| <= |b.bullhorns| && |r.projectiles| <= |b.projectiles|
    ensures r.score == b.score + PowerUpPoints * (|b.bullhorns| - |r.bullhorns|)
                               + BlastBonus * (|b.projectiles| - |r.projectiles|)
  {
    ItemSplit(b.bullhorns, tipX, tipY, b.zapRange);
    var horns := Filter(b.bullhorns, ItemHit(tipX, tipY, b.zapRange));
    var left := Filter(b.projectiles, Unblasted(horns));
    b.(bullhorns := Filter(b.bullhorns, ItemMiss(tipX, tipY, b.zapRange)),
       projectiles := left,
       score := b.score + PowerUpPoints * |horns| + BlastBonus * (|b.projectiles| - |left|))
  }

  /** The survey manager pass: any collection restarts the duplicate's 600
      ticks. Only the survey managers, that timer and the score change, by 250
      for each one collected; a pass that collects nothing changes nothing. */
  function SurveyManagerPass(b: Board, tipX: real, tipY: real): (r: Board)
    ensures r.(surveyManagers := b.surveyManagers, duplicateTechnicianTimer := b.duplicateTechnicianTimer,
               score := b.score) == b
    ensures var n := |b.surveyManagers| - |r.surveyManagers|;
      && n >= 0
      && r.score == b.score + PowerUpPoints * n
      && (n > 0 ==> r.duplicateTechnicianTimer == 600)
      && (n == 0 ==> r == b)
  {
    ItemSplit(b.surveyManagers, tipX, tipY, b.zapRange);
    FilterFull(b.surveyManagers, ItemMiss(tipX, tipY, b.zapRange));
    var n := |Filter(b.surveyManagers, ItemHit(tipX, tipY, b.zapRange))|;
    b.(surveyManagers := Filter(b.surveyManagers, ItemMiss(tipX, tipY, b.zapRange)),
       duplicateTechnicianTimer := if n > 0 then 600 else b.duplicateTechnicianTimer,
       score := b.score + PowerUpPoints * n)
  }

  /** The carto pac pass: each collection heals 10, capped at 100. Only the
      carto pacs, the health (both copies) and the score change, by 250 for
      each one collected; a pass that collects nothing changes nothing. */
  function CartoPacPass(b: Board, tipX: real, tipY: real): (r: Board)
    ensures r.(cartoPacs := b.cartoPacs, pipelineHealth := b.pipelineHealth, structureHealth := b.structureHealth,
               score := b.score) == b
    ensures var n := |b.cartoPacs| - |r.cartoPacs|;
      && n >= 0
      && r.score == b.score + PowerUpPoints * n
      && (n > 0 ==> r.pipelineHealth == r.structureHealth == MinInt(100, b.pipelineHealth + 10 * n))
      && (n == 0 ==> r == b)
  {
    ItemSplit(b.cartoPacs, tipX, tipY, b.zapRange);
    FilterFull(b.cartoPacs, ItemMiss(tipX, tipY, b.zapRange));
    var n := |Filter(b.cartoPacs, ItemHit(tipX, tipY, b.zapRange))|;
    var healed := MinInt(100, b.pipelineHealth + 10 * n);
    b.(cartoPacs := Filter(b.cartoPacs, ItemMiss(tipX, tipY, b.zapRange)),
       pipelineHealth := if n > 0 then healed else b.pipelineHealth,
       structureHealth := if n > 0 then healed else b.structureHealth,
       score := b.score + PowerUpPoints * n)
  }

  /** The AI bomb pass: any collection clears every hazard and starts the
      slowdown. Only the AI bombs, the hazards, the slowdown and the score
      change, by 250 for each one collected; a pass that collects nothing
      changes nothing. */
  function AiBombPass(b: Board, tipX: real, tipY: real): (r: Board)
    ensures r.(aiBombs := b.aiBombs, projectiles := b.projectiles, aiBombSlowdownTimer := b.aiBombSlowdownTimer,
               gameSpeedMultiplier := b.gameSpeedMultiplier, score := b.score) == b
    ensures var n := |b.aiBombs| - |r.aiBombs|;
      && n >= 0
      && r.score == b.score + PowerUpPoints * n
      && (n > 0 ==> r.projectiles == [] && r.aiBombSlowdownTimer == 300 && r.gameSpeedMultiplier == 0.1)
      && (n == 0 ==> r == b)
  {
    ItemSplit(b.aiBombs, tipX, tipY, b.zapRange);
    FilterFull(b.aiBombs, ItemMiss(tipX, tipY, b.zapRange));
    var n := |Filter(b.aiBombs, ItemHit(tipX, tipY, b.zapRange))|;
    b.(aiBombs := Filter(b.aiBombs, ItemMiss(tipX, tipY, b.zapRange)),
       projectiles := if n > 0 then [] else b.projectiles,
       aiBombSlowdownTimer := if n > 0 then 300 else b.aiBombSlowdownTimer,
       gameSpeedMultiplier := if n > 0 then 0.1 else b.gameSpeedMultiplier,
       score := b.score + PowerUpPoints * n)
  }

  /** Going from b to r only took things away and only added points: no list
      grew and the score did not drop. */
  predicate OnlyCollects(b: Board, r: Board)
  {
    && |r.projectiles| <= |b.projectiles|
    && |r.batteries| <= |b.batteries|
    && |r.bullhorns| <= |b.bullhorns|
    && |r.surveyManagers| <= |b.surveyManagers|
    && |r.cartoPacs| <= |b.cartoPacs|
    && |r.aiBombs| <= |b.aiBombs|
    && r.score >= b.score
  }

  /** Pass number k of a zap, in the game's order: hazards, batteries,
      bullhorns, survey managers, carto pacs, AI bombs. */
  function Pass(k: nat, b: Board, tipX: real, tipY: real, boosted: int): (r: Board)
    ensures OnlyCollects(b, r)
  {
    if k == 0 then HazardPass(b, tipX, tipY)
    else if k == 1 then BatteryPass(b, tipX, tipY, boosted)
    else if k == 2 then BullhornPass(b, tipX, tipY)
    else if k == 3 then SurveyManagerPass(b, tipX, tipY)
    else if k == 4 then CartoPacPass(b, tipX, tipY)
    else AiBombPass(b, tipX, tipY)
  }

  /** The passes from number k to the last, each applied to the board the one
      before it left. (Listing b in the decreases clause keeps the verifier from
      unfolding the whole chain whenever k is a constant.) */
  function PassesFrom(k: nat, b: Board, tipX: real, tipY: real, boosted: int): (r: Board)
    ensures OnlyCollects(b, r)
    decreases 6 - k, b
  {
    if k >= 6 then b else PassesFrom(k + 1, Pass(k, b, tipX, tipY, boosted), tipX, tipY, boosted)
  }

  /** One zap from a cane tip: all six passes. A zap only collects: it adds
      no hazard and no power-up, and never lowers the score. */
  function ZapFrom(b: Board, tipX: real, tipY: real, boosted: int): (r: Board)
    ensures OnlyCollects(b, r)
  {
    PassesFrom(0, b, tipX, tipY, boosted)
  }

  /** A zap written out pass by pass. */
  lemma ZapFromPasses(b: Board, tipX: real, tipY: real, boosted: int)
    ensures ZapFrom(b, tipX, tipY, boosted) ==
      AiBombPass(CartoPacPass(SurveyManagerPass(BullhornPass(
        BatteryPass(HazardPass(b, tipX, tipY), tipX, tipY, boosted), tipX, tipY), tipX, tipY), tipX, tipY), tipX, tipY)
  {
    var b1 := HazardPass(b, tipX, tipY);
    var b2 := BatteryPass(b1, tipX, tipY, boosted);
    var b3 := BullhornPass(b2, tipX, tipY);
    var b4 := SurveyManagerPass(b3, tipX, tipY);
    var b5 := CartoPacPass(b4, tipX, tipY);
    assert PassesFrom(0, b, tipX, tipY, boosted) == PassesFrom(1, b1, tipX, tipY, boosted);
    assert PassesFrom(1, b1, tipX, tipY, boosted) == PassesFrom(2, b2, tipX, tipY, boosted);
    assert PassesFrom(2, b2, tipX, tipY, boosted) == PassesFrom(3, b3, tipX, tipY, boosted);
    assert PassesFrom(3, b3, tipX, tipY, boosted) == PassesFrom(4, b4, tipX, tipY, boosted);
    assert PassesFrom(4, b4, tipX, tipY, boosted) == PassesFrom(5, b5, tipX, tipY, boosted);
    assert PassesFrom(5, b5, tipX, tipY, boosted) == PassesFrom(6, AiBombPass(b5, tipX, tipY), tipX, tipY, boosted);
  }

  /** A full zap by a technician standing at x: from its own cane tip, then, if
      the duplicate is active once that zap is done, from the duplicate's.
      Like each of its zaps, it only collects. */
  function ZapBoth(b: Board, x: real, tipY: real, width: real, boosted: int): (r: Board)
    ensures OnlyCollects(b, r)
  {
    var mid := ZapFrom(b, x + 10.0, tipY, boosted);
    if mid.duplicateTechnicianTimer > 0 then ZapFrom(mid, DuplicateX(x, width) + 10.0, tipY, boosted)
    else mid
  }

  /** A whole zap when the duplicate is not active after the technician's zap:
      that zap alone. */
  lemma ZapBothAlone(b: Board, mid: Board, x: real, tipY: real, width: real, boosted: int)
    requires mid == ZapFrom(b, x + 10.0, tipY, boosted)
    requires mid.duplicateTechnicianTimer <= 0
    ensures mid == ZapBoth(b, x, tipY, width, boosted)
  {
  }

  /** A whole zap when the duplicate is active after the technician's zap: the
      duplicate zaps next, on what the technician's zap left. */
  lemma ZapBothWithDuplicate(b: Board, mid: Board, r: Board, x: real, tipY: real, width: real, boosted: int,
                             duplicateTipX: real)
    requires mid == ZapFrom(b, x + 10.0, tipY, boosted)
    requires mid.duplicateTechnicianTimer > 0
    requires duplicateTipX == DuplicateX(x, width) + 10.0
    requires r == ZapFrom(mid, duplicateTipX, tipY, boosted)
    ensures r == ZapBoth(b, x, tipY, width, boosted)
  {
  }

  /** Power-ups collected by a zap: how many left the five lists. */
  function Collected(b: Board, r: Board): int
  {
    (|b.batteries| - |r.batteries|) + (|b.bullhorns| - |r.bullhorns|)
      + (|b.surveyManagers| - |r.surveyManagers|) + (|b.cartoPacs| - |r.cartoPacs|)
      + (|b.aiBombs| - |r.aiBombs|)
  }

  /** The score a zap awards: the hazard points, exactly 250 for every power-up
      that left its list, and 5 for each hazard a bullhorn's blast cleared
      from what the hazard pass left; so it never goes down. */
  lemma ZapFromScore(b: Board, tipX: real, tipY: real, boosted: int)
    ensures var r := ZapFrom(b, tipX, tipY, boosted);
      var t := BatteryPass(HazardPass(b, tipX, tipY), tipX, tipY, boosted);
      var cleared := |t.projectiles| - |BullhornPass(t, tipX, tipY).projectiles|;
      && Collected(b, r) >= 0
      && cleared >= 0
      && r.score == b.score + ZapScore(b.projectiles, tipX, tipY, b.zapRange)
           + PowerUpPoints * Collected(b, r) + BlastBonus * cleared
      && r.score >= b.score
  {
    ZapFromPasses(b, tipX, tipY, boosted);
    var h := HazardPass(b, tipX, tipY);
    var t := BatteryPass(h, tipX, tipY, boosted);
    var range := t.zapRange;
    ItemSplit(b.bullhorns, tipX, tipY, range);
    ItemSplit(b.surveyManagers, tipX, tipY, range);
    ItemSplit(b.cartoPacs, tipX, tipY, range);
    ItemSplit(b.aiBombs, tipX, tipY, range);
    ZapScoreBounds(b.projectiles, tipX, tipY, b.zapRange);
  }

  /** The hazards left after a zap were all there before, and none of them is
      in the band of the range the zap started with. */
  lemma ZapFromSurvivors(b: Board, tipX: real, tipY: real, boosted: int)
    ensures var r := ZapFrom(b, tipX, tipY, boosted);
      forall k :: 0 <= k < |r.projectiles| ==>
        r.projectiles[k] in b.projectiles && !InBand(r.projectiles[k].x, r.projectiles[k].y, tipX, tipY, b.zapRange)
  {
    ZapFromPasses(b, tipX, tipY, boosted);
    var h := HazardPass(b, tipX, tipY);
    var t := BatteryPass(h, tipX, tipY, boosted);
    var horns := Filter(t.bullhorns, ItemHit(tipX, tipY, t.zapRange));
    var u := BullhornPass(t, tipX, tipY);
    assert u.projectiles == Filter(Filter(b.projectiles, ProjectileMiss(tipX, tipY, b.zapRange)), Unblasted(horns));
    ZapSurvivors(b.projectiles, tipX, tipY, b.zapRange, horns);
    var v := CartoPacPass(SurveyManagerPass(u, tipX, tipY), tipX, tipY);
    assert v.projectiles == u.projectiles;
  }

  /** The batteries left after a zap were all there before, and none of them
      was in the band of the range the zap started with. */
  lemma ZapFromBatteries(b: Board, tipX: real, tipY: real, boosted: int)
    requires b.zapRange <= boosted
    ensures var r := ZapFrom(b, tipX, tipY, boosted);
      forall k :: 0 <= k < |r.batteries| ==>
        r.batteries[k] in b.batteries && !InBand(r.batteries[k].x, r.batteries[k].y, tipX, tipY, b.zapRange)
  {
    ZapFromPasses(b, tipX, tipY, boosted);
    var t := BatteryPass(HazardPass(b, tipX, tipY), tipX, tipY, boosted);
    SweepKeeps(b.batteries, tipX, tipY, b.zapRange, boosted);
    assert ZapFrom(b, tipX, tipY, boosted).batteries == t.batteries;
  }

  /** The other power-ups left after a zap were all there before, and none is
      in the band of the range the zap ended with: none in reach was missed. */
  lemma ZapFromCollectsAll(b: Board, tipX: real, tipY: real, boosted: int)
    ensures var r := ZapFrom(b, tipX, tipY, boosted);
      && (forall k :: 0 <= k < |r.bullhorns| ==>
            r.bullhorns[k] in b.bullhorns && !InBand(r.bullhorns[k].x, r.bullhorns[k].y, tipX, tipY, r.zapRange))
      && (forall k :: 0 <= k < |r.surveyManagers| ==>
            r.surveyManagers[k] in b.surveyManagers
            && !InBand(r.surveyManagers[k].x, r.surveyManagers[k].y, tipX, tipY, r.zapRange))
      && (forall k :: 0 <= k < |r.cartoPacs| ==>
            r.cartoPacs[k] in b.cartoPacs && !InBand(r.cartoPacs[k].x, r.cartoPacs[k].y, tipX, tipY, r.zapRange))
      && (forall k :: 0 <= k < |r.aiBombs| ==>
            r.aiBombs[k] in b.aiBombs && !InBand(r.aiBombs[k].x, r.aiBombs[k].y, tipX, tipY, r.zapRange))
  {
    ZapFromPasses(b, tipX, tipY, boosted);
    var range := ZapFrom(b, tipX, tipY, boosted).zapRange;
    FilterMembers(b.bullhorns, ItemMiss(tipX, tipY, range));
    FilterMembers(b.surveyManagers, ItemMiss(tipX, tipY, range));
    FilterMembers(b.cartoPacs, ItemMiss(tipX, tipY, range));
    FilterMembers(b.aiBombs, ItemMiss(tipX, tipY, range));
  }

  /** A zap keeps the session's buff and health invariants, never lowers the
      health, the range or the duplicate timer, and only ever widens the band. */
  lemma ZapFromKeeps(b: Board, tipX: real, tipY: real, base: int, over: bool)
    requires BoardOk(b, base, over)
    ensures var r := ZapFrom(b, tipX, tipY, 2 * base);
      && BoardOk(r, base, over)
      && b.pipelineHealth <= r.pipelineHealth
      && b.duplicateTechnicianTimer <= r.duplicateTechnicianTimer
      && b.zapRange <= r.zapRange
      && b.score <= r.score
  {
    ZapFromPasses(b, tipX, tipY, 2 * base);
    ZapFromScore(b, tipX, tipY, 2 * base);
  }

  /** A whole zap, from the technician and then from the duplicate if it is
      active by then, keeps the board invariant and never lowers the score. */
  lemma ZapBothKeeps(b: Board, x: real, tipY: real, width: real, base: int, over: bool)
    requires BoardOk(b, base, over)
    ensures var r := ZapBoth(b, x, tipY, width, 2 * base);
      BoardOk(r, base, over) && r.score >= b.score
  {
    var mid := ZapFrom(b, x + 10.0, tipY, 2 * base);
    ZapFromKeeps(b, x + 10.0, tipY, base, over);
    if mid.duplicateTechnicianTimer > 0 {
      ZapFromKeeps(mid, DuplicateX(x, width) + 10.0, tipY, base, over);
    }
  }

  /** A whole zap: the hazards left were there before, none is in the
      technician's band, and, when the duplicate is active once the
      technician's zap is done (already, or through a survey manager that zap
      collected), none is in the duplicate's band at the range that zap left. */
  lemma ZapBothClears(b: Board, x: real, tipY: real, width: real, base: int, over: bool)
    requires BoardOk(b, base, over)
    ensures var mid := ZapFrom(b, x + 10.0, tipY, 2 * base);
      var r := ZapBoth(b, x, tipY, width, 2 * base);
      && (forall k :: 0 <= k < |r.projectiles| ==>
            r.projectiles[k] in b.projectiles
            && !InBand(r.projectiles[k].x, r.projectiles[k].y, x + 10.0, tipY, b.zapRange))
      && (mid.duplicateTechnicianTimer > 0 ==> forall k :: 0 <= k < |r.projectiles| ==>
            !InBand(r.projectiles[k].x, r.projectiles[k].y, DuplicateX(x, width) + 10.0, tipY, mid.zapRange))
  {
    var mid := ZapFrom(b, x + 10.0, tipY, 2 * base);
    ZapFromSurvivors(b, x + 10.0, tipY, 2 * base);
    if mid.duplicateTechnicianTimer > 0 {
      var dupX := DuplicateX(x, width) + 10.0;
      var r := ZapFrom(mid, dupX, tipY, 2 * base);
      ZapFromSurvivors(mid, dupX, tipY, 2 * base);
      forall k | 0 <= k < |r.projectiles|
        ensures r.projectiles[k] in b.projectiles
        ensures !InBand(r.projectiles[k].x, r.projectiles[k].y, x + 10.0, tipY, b.zapRange)
      {
        var p := r.projectiles[k];
        var j :| 0 <= j < |mid.projectiles| && mid.projectiles[j] == p;
      }
    }
  }
}
