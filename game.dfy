/** The game session: one mutable object holding the level, the score, the
    structure's health, the entity lists and every cooldown, spawn and buff
    timer, advanced one tick at a time by Update and changed between ticks by
    Zap, TogglePause and Restart. */
module Session {
  import opened Seqs
  import opened Entities
  import opened Player
  import opened Structure
  import opened Zapping

  datatype GameState = Playing | Paused | GameOver

  /** The state a pause toggle leads to: a finished game stays finished, and
      any other state changes, to the other of playing and paused. */
  function Toggled(s: GameState): (r: GameState)
    ensures (r == GameOver) == (s == GameOver)
    ensures s != GameOver ==> r != s
  {
    match s
    case Playing => Paused
    case Paused => Playing
    case GameOver => GameOver
  }

  /** The uniform draws in [0, 1) that one tick of spawning may consume. */
  datatype Draws = Draws(spawnRoll: real, kindRoll: real, projectileX: real,
                         batteryX: real, batteryDelay: real,
                         bullhornX: real, bullhornDelay: real,
                         surveyManagerX: real,
                         cartoPacX: real, cartoPacDelay: real,
                         aiBombX: real, aiBombDelay: real)
  {
    predicate Unit(r: real) { 0.0 <= r < 1.0 }

    predicate Valid()
    {
      Unit(spawnRoll) && Unit(kindRoll) && Unit(projectileX) &&
      Unit(batteryX) && Unit(batteryDelay) && Unit(bullhornX) && Unit(bullhornDelay) &&
      Unit(surveyManagerX) && Unit(cartoPacX) && Unit(cartoPacDelay) &&
      Unit(aiBombX) && Unit(aiBombDelay)
    }
  }

  /** A counter that counts down while positive. */
  function Dec(n: int): int { if n > 0 then n - 1 else n }

  function DecReal(t: real): real { if t > 0.0 then t - 1.0 else t }

  /** What a power-up spawner adds to the end of its list in one tick: an item
      at x, just above the field, when its timer has run out, and nothing
      otherwise. */
  function Arrival(due: bool, x: real): seq<Item>
  {
    if due then [Item(x, SpawnY)] else []
  }

  /** A spawn timer after its spawner's turn: restarted at `delay` when it had
      run out, and otherwise as it was. */
  function Rearmed(timer: real, delay: real): real
  {
    if timer <= 0.0 then delay else timer
  }

  /** The hazard a spawn creates at x: a water drop at the current speed for a
      kind draw below 0.6, otherwise a rust monster 30% faster. */
  function NewHazard(kindRoll: real, x: real, speed: real): Projectile
  {
    if kindRoll < 0.6 then Projectile(x, SpawnY, Water, speed) else Projectile(x, SpawnY, Rust, speed * 1.3)
  }

  /** What the hazard spawner adds in one tick: a hazard when the tick runs at
      normal speed (a multiplier of at least 0.5) and the spawn draw is under
      the spawn rate, and nothing otherwise. */
  function HazardArrival(speedMultiplier: real, draws: Draws, rate: real, speed: real, width: real): seq<Projectile>
    requires draws.Valid() && width >= 40.0
  {
    if speedMultiplier >= 0.5 && draws.spawnRoll < rate
    then [NewHazard(draws.kindRoll, SpawnX(draws.projectileX, width), speed)]
    else []
  }

  /** The level clock after one tick: a sixtieth of a second, scaled by the
      speed multiplier, has gone. */
  function Elapsed(timeLeft: real, speedMultiplier: real): real
  {
    timeLeft - (1.0 / 60.0) * speedMultiplier
  }

  /** The power-up lists and their spawn timers. */
  datatype Stock = Stock(batteries: seq<Item>, batteryTimer: real,
                         bullhorns: seq<Item>, bullhornTimer: real,
                         surveyManagers: seq<Item>, surveyManagerTimer: int,
                         cartoPacs: seq<Item>, cartoPacTimer: real,
                         aiBombs: seq<Item>, aiBombTimer: real)

  /** The power-up loops of a tick: every power-up falls by its own speed;
      batteries and bullhorns leave below the bottom of the field, survey
      managers, carto pacs and AI bombs 50 further down. */
  function Drifted(s: Stock, height: real): Stock
  {
    s.(batteries := Drift(s.batteries, BatterySpeed, height),
       bullhorns := Drift(s.bullhorns, BullhornSpeed, height),
       surveyManagers := Drift(s.surveyManagers, SurveyManagerSpeed, height + 50.0),
       cartoPacs := Drift(s.cartoPacs, CartoPacSpeed, height + 50.0),
       aiBombs := Drift(s.aiBombs, AiBombSpeed, height + 50.0))
  }

  /** The power-up spawners of a tick: each one whose timer has run out adds
      an item across the field and restarts its timer, at 1125 + 450 d for
      batteries, 2700 + 1350 d for bullhorns, 1350 for survey managers,
      2025 + 675 d for carto pacs and 5400 + 1800 d for AI bombs, where d is
      the spawner's delay draw. */
  function Supplied(s: Stock, draws: Draws, width: real): Stock
    requires draws.Valid() && width >= 40.0
  {
    Stock(s.batteries + Arrival(s.batteryTimer <= 0.0, SpawnX(draws.batteryX, width)),
          Rearmed(s.batteryTimer, 1125.0 + draws.batteryDelay * 450.0),
          s.bullhorns + Arrival(s.bullhornTimer <= 0.0, SpawnX(draws.bullhornX, width)),
          Rearmed(s.bullhornTimer, 2700.0 + draws.bullhornDelay * 1350.0),
          s.surveyManagers + Arrival(s.surveyManagerTimer <= 0, SpawnX(draws.surveyManagerX, width)),
          if s.surveyManagerTimer <= 0 then 1350 else s.surveyManagerTimer,
          s.cartoPacs + Arrival(s.cartoPacTimer <= 0.0, SpawnX(draws.cartoPacX, width)),
          Rearmed(s.cartoPacTimer, 2025.0 + draws.cartoPacDelay * 675.0),
          s.aiBombs + Arrival(s.aiBombTimer <= 0.0, SpawnX(draws.aiBombX, width)),
          Rearmed(s.aiBombTimer, 5400.0 + draws.aiBombDelay * 1800.0))
  }

  /** Every spawn timer drops by one while positive. */
  function CountedDown(s: Stock): Stock
  {
    s.(batteryTimer := DecReal(s.batteryTimer), bullhornTimer := DecReal(s.bullhornTimer),
       surveyManagerTimer := Dec(s.surveyManagerTimer), cartoPacTimer := DecReal(s.cartoPacTimer),
       aiBombTimer := DecReal(s.aiBombTimer))
  }

  /** A new level makes the survey manager and the carto pac due at once. */
  function DueAtOnce(s: Stock): Stock
  {
    s.(surveyManagerTimer := 0, cartoPacTimer := 0.0)
  }

  /** The power-ups over a whole tick: they drift, the spawners run, the spawn
      timers count down, and a level-up makes two of them due. */
  function Restocked(s: Stock, height: real, draws: Draws, width: real, levelUp: bool): Stock
    requires draws.Valid() && width >= 40.0
  {
    var t := CountedDown(Supplied(Drifted(s, height), draws, width));
    if levelUp then DueAtOnce(t) else t
  }

  /** The zap cooldown and the buffs. */
  datatype Timers = Timers(zapCooldown: int, duplicateTechnicianTimer: int, aiBombSlowdownTimer: int,
                           gameSpeedMultiplier: real, rangeBoostTimer: int, zapRange: int)

  /** The buff timers of a tick: each drops by one while positive; the
      slowdown ending restores normal speed, and the range boost ending
      restores the base range. */
  function Buffed(t: Timers, baseZapRange: int): Timers
  {
    t.(duplicateTechnicianTimer := Dec(t.duplicateTechnicianTimer),
       aiBombSlowdownTimer := Dec(t.aiBombSlowdownTimer),
       gameSpeedMultiplier := if t.aiBombSlowdownTimer == 1 then 1.0 else t.gameSpeedMultiplier,
       rangeBoostTimer := Dec(t.rangeBoostTimer),
       zapRange := if t.rangeBoostTimer == 1 then baseZapRange else t.zapRange)
  }

  /** The cooldown and buff timers of a tick: the zap cooldown drops by one
      while positive, then the buffs tick. */
  function Counted(t: Timers, baseZapRange: int): Timers
  {
    Buffed(t.(zapCooldown := Dec(t.zapCooldown)), baseZapRange)
  }

  /** The level clock and the difficulty. */
  datatype Course = Course(timeLeft: real, level: int, projectileSpeed: real, projectileSpawnRate: real)

  /** The level clock of a tick: a sixtieth of a second, scaled by the
      multiplier, goes by; when the clock runs out the next level starts with
      a fresh 30 seconds, hazards 0.3 faster and a spawn rate 0.004 higher. */
  function Clocked(c: Course, speedMultiplier: real): Course
  {
    var t := Elapsed(c.timeLeft, speedMultiplier);
    if t <= 0.0 then Course(LevelSeconds, c.level + 1, c.projectileSpeed + 0.3, c.projectileSpawnRate + 0.004)
    else c.(timeLeft := t)
  }

  /** Ticks a zap cools down for. */
  const ZapCooldownTicks: int := 10

  /** Seconds in a level. */
  const LevelSeconds: real := 30.0

  /** The technician's position, the level and the zap cooldown. */
  datatype Pacing = Pacing(technicianX: real, level: int, zapCooldown: int)

  /** The technician stays on the field, levels count from 1 and the cooldown
      stays within its 10 ticks. */
  predicate PacingOk(p: Pacing, width: real)
  {
    var ok :=
      && width >= 40.0
      && 20.0 <= p.technicianX <= width - 20.0
      && p.level >= 1
      && 0 <= p.zapCooldown <= ZapCooldownTicks;
    ok
  }

  /** The part of the session a tick changes, as one value: the input mode
      and the technician's position, the hazards, the structure, the
      power-ups and their spawners, the cooldown and buffs, and the level
      clock with the difficulty. */
  datatype Scene = Scene(usingMouse: bool, technicianX: real, projectiles: seq<Projectile>,
                         pipelineHealth: int, gameState: GameState, exploded: bool,
                         supplies: Stock, countdowns: Timers, progress: Course)

  /** The keyboard check at the start of a tick: a held movement key
      switches the mouse off. */
  function KeyboardChecked(s: Scene, keys: Keys): Scene
  {
    s.(usingMouse := s.usingMouse && !keys.Moving())
  }

  /** The technician's move: while the mouse is in use and no movement key is
      held the technician goes to the mouse, and otherwise the keys step it by
      `step` (left and right together cancel); either way it is clamped to the
      field. */
  function Walked(s: Scene, keys: Keys, mouseX: real, step: real, width: real): Scene
  {
    s.(technicianX := if s.usingMouse && !keys.Moving() then Clamp(mouseX, width)
                      else Clamp(s.technicianX - (if keys.Left() then step else 0.0)
                                               + (if keys.Right() then step else 0.0), width))
  }

  /** The technician's part of a tick: the keyboard check, then the move. */
  function Steered(s: Scene, keys: Keys, mouseX: real, step: real, width: real): Scene
  {
    Walked(KeyboardChecked(s, keys), keys, mouseX, step, width)
  }

  /** The hazards of a tick: each falls, those below the damage line are
      removed and damage the structure, and a hit that brings a standing
      structure down to 0 explodes it and ends the game. */
  function Landing(s: Scene, line: real): Scene
  {
    var health := Floored(s.pipelineHealth, Impact(s.projectiles, line));
    s.(projectiles := Remaining(s.projectiles, line),
       pipelineHealth := health,
       gameState := if health == 0 then GameOver else s.gameState,
       exploded := health == 0 || s.exploded)
  }

  /** The rest of a tick, at multiplier m: the power-ups drift, the spawners
      run (a hazard only at normal speed, at the current difficulty), the
      countdowns and buffs tick and the level clock runs; when the clock runs
      out the next level starts and the wreck is cleared. */
  function Advanced(s: Scene, draws: Draws, m: real, height: real, width: real, baseZapRange: int): Scene
    requires draws.Valid() && width >= 40.0
  {
    var levelUp := Elapsed(s.progress.timeLeft, m) <= 0.0;
    s.(projectiles := s.projectiles
         + HazardArrival(m, draws, s.progress.projectileSpawnRate, s.progress.projectileSpeed, width),
       supplies := Restocked(s.supplies, height, draws, width, levelUp),
       countdowns := Counted(s.countdowns, baseZapRange),
       progress := Clocked(s.progress, m),
       exploded := !levelUp && s.exploded)
  }

  /** One tick of a game in play, with the movement keys, the mouse position
      and the draws of that tick, at the multiplier the tick starts with. */
  function Ticked(s: Scene, keys: Keys, mouseX: real, step: real, draws: Draws,
                  height: real, width: real, baseZapRange: int): Scene
    requires draws.Valid() && width >= 40.0
  {
    Advanced(Landing(Steered(s, keys, mouseX, step, width), height - 100.0),
             draws, s.countdowns.gameSpeedMultiplier, height, width, baseZapRange)
  }

  /** A tick adds at most one hazard and at most one item to each power-up
      list, and the zap cooldown drops by one while it runs. */
  lemma TickedGrowth(s: Scene, keys: Keys, mouseX: real, step: real, draws: Draws,
                     height: real, width: real, baseZapRange: int)
    requires draws.Valid() && width >= 40.0
    ensures var r := Ticked(s, keys, mouseX, step, draws, height, width, baseZapRange);
      && |r.projectiles| <= |s.projectiles| + 1
      && |r.supplies.batteries| <= |s.supplies.batteries| + 1
      && |r.supplies.bullhorns| <= |s.supplies.bullhorns| + 1
      && |r.supplies.surveyManagers| <= |s.supplies.surveyManagers| + 1
      && |r.supplies.cartoPacs| <= |s.supplies.cartoPacs| + 1
      && |r.supplies.aiBombs| <= |s.supplies.aiBombs| + 1
      && r.countdowns.zapCooldown == Dec(s.countdowns.zapCooldown)
  {
  }

  /** The outcome of a tick of a game in play: the structure takes the
      damage of every hazard that landed, floored at 0, and the game is over
      exactly when nothing is left of it; a tick never pauses the game; the
      technician ends on the field, on the mouse only when no movement key
      was held. */
  lemma TickedOutcome(s: Scene, keys: Keys, mouseX: real, step: real, draws: Draws,
                      height: real, width: real, baseZapRange: int)
    requires draws.Valid() && width >= 40.0 && s.gameState == Playing
    ensures var r := Ticked(s, keys, mouseX, step, draws, height, width, baseZapRange);
      && r.pipelineHealth == Floored(s.pipelineHealth, Impact(s.projectiles, height - 100.0))
      && (r.gameState == GameOver) == (r.pipelineHealth == 0)
      && r.gameState != Paused
      && 20.0 <= r.technicianX <= width - 20.0
      && r.usingMouse == (s.usingMouse && !keys.Moving())
  {
  }

  class Game {
    const width: real
    const height: real
    const technician: Technician
    const pipeline: Pipeline

    var gameState: GameState
    var level: int
    var timeLeft: real
    var pipelineHealth: int
    var score: int

    var projectiles: seq<Projectile>
    var batteries: seq<Item>
    var bullhorns: seq<Item>
    var surveyManagers: seq<Item>
    var cartoPacs: seq<Item>
    var aiBombs: seq<Item>

    var projectileSpawnRate: real
    var projectileSpeed: real
    var zapRange: int
    var baseZapRange: int
    var zapCooldown: int
    var batterySpawnTimer: real
    var rangeBoostTimer: int
    var bullhornSpawnTimer: real
    var surveyManagerSpawnTimer: int
    var cartoPacSpawnTimer: real
    var aiBombSpawnTimer: real
    var duplicateTechnicianTimer: int
    var aiBombSlowdownTimer: int
    var gameSpeedMultiplier: real

    // Input, as last reported by the keyboard and mouse listeners.
    var keys: Keys
    var mouseX: real
    var usingMouse: bool

    /** The session invariant: the level clock runs within its 30 seconds,
        and the rest holds. */
    ghost predicate Valid()
      reads this`timeLeft, technician`x, this`level, this`zapCooldown, this`gameState, this`baseZapRange,
        this`zapRange, this`rangeBoostTimer, this`score, this`duplicateTechnicianTimer, this`pipelineHealth,
        this`aiBombSlowdownTimer, this`gameSpeedMultiplier, pipeline`health
    {
      && Consistent()
      && 0.0 < timeLeft <= LevelSeconds
    }

    /** The invariant but for the level clock, which runs out at the end of a
        level: the part a zap cannot touch, and the part about the fields a zap
        reads and writes. */
    ghost predicate Consistent()
      reads technician`x, this`level, this`zapCooldown, this`gameState, this`baseZapRange,
        this`zapRange, this`rangeBoostTimer, this`score, this`duplicateTechnicianTimer, this`pipelineHealth,
        this`aiBombSlowdownTimer, this`gameSpeedMultiplier, pipeline`health
    {
      && technician.y == height - 80.0
      && PacingOk(Pace(), width)
      && BoardOk(Gauges(), baseZapRange, gameState == GameOver)
    }

    /** The fields outside a zap's reach that the invariant cares about, as one value. */
    function Pace(): Pacing
      reads technician`x, this`level, this`zapCooldown
    {
      Pacing(technician.x, level, zapCooldown)
    }

    /** The cane tip of the technician: 10 right of its centre, 30 above its head. */
    function TipY(): real
      reads technician
    {
      technician.y - technician.height - 30.0
    }

    /** Line below which a hazard damages the pipeline. */
    function DamageLine(): real
    {
      height - 100.0
    }

    /** The numbers a zap reads and writes, as a board without lists: all that
        the board invariant looks at. */
    function Gauges(): Board
      reads this`zapRange, this`rangeBoostTimer, this`score, this`duplicateTechnicianTimer, this`pipelineHealth,
        this`aiBombSlowdownTimer, this`gameSpeedMultiplier, pipeline`health
    {
      Board([], [], [], [], [], [], zapRange, rangeBoostTimer, score, duplicateTechnicianTimer, pipelineHealth,
        pipeline.health, aiBombSlowdownTimer, gameSpeedMultiplier)
    }

    /** The fields a zap reads and writes, as one value. */
    function Snapshot(): Board
      reads this`projectiles, this`batteries, this`bullhorns, this`surveyManagers, this`cartoPacs, this`aiBombs,
        this`zapRange, this`rangeBoostTimer, this`score, this`duplicateTechnicianTimer, this`pipelineHealth,
        this`aiBombSlowdownTimer, this`gameSpeedMultiplier, pipeline`health
    {
      Board(projectiles, batteries, bullhorns, surveyManagers, cartoPacs, aiBombs, zapRange, rangeBoostTimer,
        score, duplicateTechnicianTimer, pipelineHealth, pipeline.health, aiBombSlowdownTimer, gameSpeedMultiplier)
    }

    /** The power-up lists and spawn timers, as one value. */
    function Supplies(): Stock
      reads this`batteries, this`batterySpawnTimer, this`bullhorns, this`bullhornSpawnTimer,
        this`surveyManagers, this`surveyManagerSpawnTimer, this`cartoPacs, this`cartoPacSpawnTimer,
        this`aiBombs, this`aiBombSpawnTimer
    {
      Stock(batteries, batterySpawnTimer, bullhorns, bullhornSpawnTimer, surveyManagers, surveyManagerSpawnTimer,
        cartoPacs, cartoPacSpawnTimer, aiBombs, aiBombSpawnTimer)
    }

    /** The cooldown and buff timers, as one value. */
    function Countdowns(): Timers
      reads this`zapCooldown, this`duplicateTechnicianTimer, this`aiBombSlowdownTimer, this`gameSpeedMultiplier,
        this`rangeBoostTimer, this`zapRange
    {
      Timers(zapCooldown, duplicateTechnicianTimer, aiBombSlowdownTimer, gameSpeedMultiplier, rangeBoostTimer, zapRange)
    }

    /** The level clock and the difficulty, as one value. */
    function Progress(): Course
      reads this`timeLeft, this`level, this`projectileSpeed, this`projectileSpawnRate
    {
      Course(timeLeft, level, projectileSpeed, projectileSpawnRate)
    }

    /** The part of the session a tick changes, as one value. */
    function Stage(): Scene
      reads this`usingMouse, technician`x, this`projectiles, this`pipelineHealth, this`gameState,
        pipeline`exploded, this`batteries, this`batterySpawnTimer, this`bullhorns, this`bullhornSpawnTimer,
        this`surveyManagers, this`surveyManagerSpawnTimer, this`cartoPacs, this`cartoPacSpawnTimer,
        this`aiBombs, this`aiBombSpawnTimer, this`zapCooldown, this`duplicateTechnicianTimer,
        this`aiBombSlowdownTimer, this`gameSpeedMultiplier, this`rangeBoostTimer, this`zapRange,
        this`timeLeft, this`level, this`projectileSpeed, this`projectileSpawnRate
    {
      Scene(usingMouse, technician.x, projectiles, pipelineHealth, gameState, pipeline.exploded,
            Supplies(), Countdowns(), Progress())
    }

    constructor (canvasWidth: real, canvasHeight: real)
      requires canvasWidth >= 40.0
      ensures Valid() && fresh(technician) && fresh(pipeline)
      ensures width == canvasWidth && height == canvasHeight
      ensures gameState == Playing && level == 1 && timeLeft == LevelSeconds
      ensures pipelineHealth == 100 && score == 0
      ensures projectiles == [] && batteries == [] && bullhorns == []
      ensures surveyManagers == [] && cartoPacs == [] && aiBombs == []
      ensures projectileSpawnRate == 0.020 && projectileSpeed == 1.2
      ensures zapRange == 50 && zapCooldown == 0 && rangeBoostTimer == 0
      ensures batterySpawnTimer == 300.0 && bullhornSpawnTimer == 600.0
      ensures surveyManagerSpawnTimer == 900 && cartoPacSpawnTimer == 1200.0
      ensures aiBombSpawnTimer == 1800.0
      ensures duplicateTechnicianTimer == 0 && aiBombSlowdownTimer == 0
      ensures gameSpeedMultiplier == 1.0
      ensures technician.x == canvasWidth / 2.0
      ensures !usingMouse && !keys.Moving() && mouseX == canvasWidth / 2.0
      ensures pipeline.health == 100 && !pipeline.exploded
    {
      width, height := canvasWidth, canvasHeight;
      gameState := Playing;
      level := 1;
      timeLeft := LevelSeconds;
      pipelineHealth := 100;
      score := 0;
      technician := new Technician(canvasWidth / 2.0, canvasHeight - 80.0);
      pipeline := new Pipeline();
      projectiles, batteries, bullhorns := [], [], [];
      surveyManagers, cartoPacs, aiBombs := [], [], [];
      projectileSpawnRate := 0.020;
      projectileSpeed := 1.2;
      zapRange := 50;
      baseZapRange := 50;
      zapCooldown := 0;
      batterySpawnTimer := 300.0;
      rangeBoostTimer := 0;
      bullhornSpawnTimer := 600.0;
      surveyManagerSpawnTimer := 900;
      cartoPacSpawnTimer := 1200.0;
      aiBombSpawnTimer := 1800.0;
      duplicateTechnicianTimer := 0;
      aiBombSlowdownTimer := 0;
      gameSpeedMultiplier := 1.0;
      keys := Keys(false, false, false, false);
      mouseX := canvasWidth / 2.0;
      usingMouse := false;
    }

    /** Playing and paused swap; a finished game stays finished. */
    method TogglePause()
      requires Valid()
      modifies this`gameState
      ensures Valid()
      ensures gameState == Toggled(old(gameState))
      ensures old(gameState) != GameOver ==> Toggled(gameState) == old(gameState)
    {
      if gameState == Playing {
        gameState := Paused;
      } else if gameState == Paused {
        gameState := Playing;
      }
    }

    /** Start a fresh session in the same field. Unlike the constructor, the
        spawn rate goes back to 0.015. The zap cooldown and the input are left
        as they were. */
    method Restart()
      requires Valid()
      modifies this`gameState, this`level, this`timeLeft, this`pipelineHealth, this`score,
        this`projectiles, this`batteries, this`bullhorns, this`surveyManagers, this`cartoPacs, this`aiBombs,
        this`projectileSpeed, this`projectileSpawnRate, this`zapRange, this`baseZapRange,
        this`batterySpawnTimer, this`rangeBoostTimer, this`bullhornSpawnTimer,
        this`surveyManagerSpawnTimer, this`cartoPacSpawnTimer, this`aiBombSpawnTimer,
        this`duplicateTechnicianTimer, this`aiBombSlowdownTimer, this`gameSpeedMultiplier,
        technician`x, pipeline`health, pipeline`exploded
      ensures Valid()
      ensures gameState == Playing && level == 1 && timeLeft == LevelSeconds
      ensures pipelineHealth == 100 && score == 0 && !pipeline.exploded
      ensures projectiles == [] && batteries == [] && bullhorns == []
      ensures surveyManagers == [] && cartoPacs == [] && aiBombs == []
      ensures projectileSpawnRate == 0.015 && projectileSpeed == 1.2
      ensures zapRange == 50 && rangeBoostTimer == 0
      ensures zapCooldown == old(zapCooldown)
      ensures batterySpawnTimer == 300.0 && bullhornSpawnTimer == 600.0
      ensures surveyManagerSpawnTimer == 900 && cartoPacSpawnTimer == 1200.0
      ensures aiBombSpawnTimer == 1800.0
      ensures duplicateTechnicianTimer == 0 && aiBombSlowdownTimer == 0
      ensures gameSpeedMultiplier == 1.0
      ensures technician.x == width / 2.0
    {
      ghost var cooldown := zapCooldown;
      ResetProgress();
      ResetEntities();
      ResetSettings();
      ResetPipeline();
      assert Pace() == Pacing(width / 2.0, 1, cooldown);
      assert Gauges() == Board([], [], [], [], [], [], 50, 0, 0, 0, 100, 100, 0, 1.0);
    }

    method ResetProgress()
      modifies this`gameState, this`level, this`timeLeft, this`pipelineHealth, this`score
      ensures gameState == Playing && level == 1 && timeLeft == LevelSeconds
      ensures pipelineHealth == 100 && score == 0
    {
      gameState := Playing;
      level := 1;
      timeLeft := LevelSeconds;
      pipelineHealth := 100;
      score := 0;
    }

    method ResetEntities()
      modifies this`projectiles, this`batteries, this`bullhorns, this`surveyManagers,
        this`cartoPacs, this`aiBombs, technician`x
      ensures projectiles == [] && batteries == [] && bullhorns == []
      ensures surveyManagers == [] && cartoPacs == [] && aiBombs == []
      ensures technician.x == width / 2.0
    {
      projectiles, batteries, bullhorns := [], [], [];
      surveyManagers, cartoPacs, aiBombs := [], [], [];
      technician.x := width / 2.0;
    }

    /** The difficulty, the zap range and the buff timers go back to their
        start values, in the source's order. */
    method ResetSettings()
      modifies this`projectileSpeed, this`projectileSpawnRate, this`zapRange, this`baseZapRange,
        this`batterySpawnTimer, this`rangeBoostTimer, this`bullhornSpawnTimer,
        this`surveyManagerSpawnTimer, this`cartoPacSpawnTimer, this`aiBombSpawnTimer,
        this`duplicateTechnicianTimer, this`aiBombSlowdownTimer, this`gameSpeedMultiplier
      ensures projectileSpawnRate == 0.015 && projectileSpeed == 1.2
      ensures zapRange == 50 && baseZapRange == 50 && rangeBoostTimer == 0
      ensures batterySpawnTimer == 300.0 && bullhornSpawnTimer == 600.0
      ensures surveyManagerSpawnTimer == 900 && cartoPacSpawnTimer == 1200.0
      ensures aiBombSpawnTimer == 1800.0
      ensures duplicateTechnicianTimer == 0 && aiBombSlowdownTimer == 0
      ensures gameSpeedMultiplier == 1.0
    {
      ResetDifficulty();
      ResetTimers();
    }

    /** Hazard speed and spawn rate, the zap range, the battery spawner and
        the range boost. */
    method ResetDifficulty()
      modifies this`projectileSpeed, this`projectileSpawnRate, this`zapRange, this`baseZapRange,
        this`batterySpawnTimer, this`rangeBoostTimer
      ensures projectileSpawnRate == 0.015 && projectileSpeed == 1.2
      ensures zapRange == 50 && baseZapRange == 50 && rangeBoostTimer == 0
      ensures batterySpawnTimer == 300.0
    {
      projectileSpeed := 1.2;
      projectileSpawnRate := 0.015;
      zapRange := 50;
      baseZapRange := 50;
      batterySpawnTimer := 300.0;
      rangeBoostTimer := 0;
    }

    /** The other spawn timers, the duplicate and the slowdown. */
    method ResetTimers()
      modifies this`bullhornSpawnTimer, this`surveyManagerSpawnTimer, this`cartoPacSpawnTimer,
        this`aiBombSpawnTimer, this`duplicateTechnicianTimer, this`aiBombSlowdownTimer, this`gameSpeedMultiplier
      ensures bullhornSpawnTimer == 600.0 && surveyManagerSpawnTimer == 900 && cartoPacSpawnTimer == 1200.0
      ensures aiBombSpawnTimer == 1800.0
      ensures duplicateTechnicianTimer == 0 && aiBombSlowdownTimer == 0
      ensures gameSpeedMultiplier == 1.0
    {
      bullhornSpawnTimer := 600.0;
      surveyManagerSpawnTimer := 900;
      cartoPacSpawnTimer := 1200.0;
      aiBombSpawnTimer := 1800.0;
      duplicateTechnicianTimer := 0;
      aiBombSlowdownTimer := 0;
      gameSpeedMultiplier := 1.0;
    }

    /** The structure is whole again and no longer exploded. */
    method ResetPipeline()
      modifies pipeline`health, pipeline`exploded
      ensures pipeline.health == 100 && !pipeline.exploded
    {
      pipeline.health := 100;
      pipeline.exploded := false;
    }

    /** Advance to the next level: harder, with a fresh 30 seconds, and with the
        survey manager and carto pac due at once. Health and score are kept. */
    method NextLevel()
      requires Consistent()
      modifies this`level, this`timeLeft, this`projectileSpeed, this`projectileSpawnRate,
        this`surveyManagerSpawnTimer, this`cartoPacSpawnTimer, pipeline`exploded
      ensures Valid()
      ensures Stage() == old(Stage()).(
        progress := Course(LevelSeconds, old(level) + 1, old(projectileSpeed) + 0.3, old(projectileSpawnRate) + 0.004),
        supplies := DueAtOnce(old(Supplies())),
        exploded := false)
    {
      NewLevelClock();
      Harden();
    }

    /** The level counter and clock of the next level, and the wreck cleared. */
    method NewLevelClock()
      requires Consistent()
      modifies this`level, this`timeLeft, pipeline`exploded
      ensures Valid()
      ensures level == old(level) + 1 && timeLeft == LevelSeconds
      ensures !pipeline.exploded
    {
      level := level + 1;
      timeLeft := LevelSeconds;
      pipeline.exploded := false;
    }

    /** The difficulty of the next level, and the survey manager and carto
        pac due at once. */
    method Harden()
      modifies this`projectileSpeed, this`projectileSpawnRate, this`surveyManagerSpawnTimer, this`cartoPacSpawnTimer
      ensures projectileSpeed == old(projectileSpeed) + 0.3
      ensures projectileSpawnRate == old(projectileSpawnRate) + 0.004
      ensures surveyManagerSpawnTimer == 0 && cartoPacSpawnTimer == 0.0
    {
      projectileSpeed := projectileSpeed + 0.3;
      projectileSpawnRate := projectileSpawnRate + 0.004;
      surveyManagerSpawnTimer := 0;
      cartoPacSpawnTimer := 0.0;
    }

    /** Battery: the zap range doubles for 600 ticks; a second battery
        restarts the 600, it does not add to it. */
    method CollectBattery()
      modifies this`zapRange, this`rangeBoostTimer, this`score
      ensures zapRange == 2 * baseZapRange && rangeBoostTimer == 600
      ensures score == old(score) + PowerUpPoints
    {
      zapRange := 2 * baseZapRange;
      rangeBoostTimer := 600;
      score := score + PowerUpPoints;
    }

    /** Remove every hazard strictly within 200 of (cx, cy), 5 points each. */
    method TriggerBlast(cx: real, cy: real)
      modifies this`projectiles, this`score
      ensures projectiles == Filter(old(projectiles), OutsideBlast(cx, cy))
      ensures score == old(score) + 5 * (|old(projectiles)| - |projectiles|)
    {
      ghost var ps0 := projectiles;
      var i := |projectiles| - 1;
      while i >= 0
        invariant -1 <= i < |ps0|
        invariant projectiles == ps0[..i + 1] + Filter(ps0[i + 1..], OutsideBlast(cx, cy))
        invariant score == old(score) + 5 * (|ps0| - |projectiles|)
      {
        ghost var done := Filter(ps0[i + 1..], OutsideBlast(cx, cy));
        FilterAt(ps0, i, OutsideBlast(cx, cy));
        assert ps0[..i + 1] == ps0[..i] + [ps0[i]];
        var p := projectiles[i];
        assert p == ps0[i];
        if InBlast(p.x, p.y, cx, cy) {
          assert projectiles[..i] == ps0[..i] && projectiles[i + 1..] == done;
          projectiles := projectiles[..i] + projectiles[i + 1..];
          score := score + 5;
        } else {
          assert projectiles == ps0[..i] + ([ps0[i]] + done);
        }
        i := i - 1;
      }
      assert ps0[..0] == [];
    }

    /** The hazard pass of a zap: every hazard in the band is removed (100 for a
        rust monster, 50 for a water drop); the others keep their order. */
    method ZapProjectiles(tipX: real, tipY: real)
      modifies this`projectiles, this`score
      ensures projectiles == Filter(old(projectiles), ProjectileMiss(tipX, tipY, zapRange))
      ensures score == old(score) + ZapScore(old(projectiles), tipX, tipY, zapRange)
    {
      ghost var ps0 := projectiles;
      var i := |projectiles| - 1;
      while i >= 0
        invariant -1 <= i < |ps0|
        invariant projectiles == ps0[..i + 1] + Filter(ps0[i + 1..], ProjectileMiss(tipX, tipY, zapRange))
        invariant score == old(score) + SumOf(Filter(ps0[i + 1..], ProjectileHit(tipX, tipY, zapRange)), PointsOf)
      {
        HitPointsStep(ps0, i, tipX, tipY, zapRange);
        SelectStep(ps0, i, ProjectileMiss(tipX, tipY, zapRange));
        var projectile := projectiles[i];
        ProjectileHitIs(projectile, tipX, tipY, zapRange);
        var horizontalDistance := Abs(projectile.x - tipX);
        var verticalDistance := tipY - projectile.y;
        if horizontalDistance < zapRange as real && verticalDistance > 0.0 && verticalDistance < ZapReach {
          var pointsAwarded := if projectile.kind == Rust then 100 else 50;
          score := score + pointsAwarded;
          projectiles := projectiles[..i] + projectiles[i + 1..];
        }
        i := i - 1;
      }
      assert ps0[..0] == [] && ps0[0..] == ps0;
    }

    /** The battery pass of a zap, from the last battery to the first: each
        battery in the band is collected, and once one is, the rest are tested
        with the doubled range. */
    method ZapBatteries(tipX: real, tipY: real)
      modifies this`batteries, this`zapRange, this`rangeBoostTimer, this`score
      ensures var sw := BatterySweep(old(batteries), tipX, tipY, old(zapRange), 2 * baseZapRange);
        && batteries == sw.kept
        && zapRange == sw.range
        && rangeBoostTimer == (if sw.collected > 0 then 600 else old(rangeBoostTimer))
        && score == old(score) + PowerUpPoints * sw.collected
    {
      ghost var bs0, r0, B := batteries, zapRange, 2 * baseZapRange;
      ghost var final := BatterySweep(bs0, tipX, tipY, r0, B);
      ghost var keptTail: seq<Item> := [];
      ghost var got: nat := 0;
      var i := |batteries| - 1;
      assert bs0[..i + 1] == bs0;
      while i >= 0
        invariant -1 <= i < |bs0|
        invariant batteries == bs0[..i + 1] + keptTail
        invariant final.kept == BatterySweep(bs0[..i + 1], tipX, tipY, zapRange, B).kept + keptTail
        invariant final.collected == BatterySweep(bs0[..i + 1], tipX, tipY, zapRange, B).collected + got
        invariant final.range == BatterySweep(bs0[..i + 1], tipX, tipY, zapRange, B).range
        invariant score == old(score) + PowerUpPoints * got
        invariant got > 0 ==> zapRange == B && rangeBoostTimer == 600
        invariant got == 0 ==> zapRange == r0 && rangeBoostTimer == old(rangeBoostTimer)
      {
        keptTail, got := ZapBatteryAt(i, tipX, tipY, bs0, final, keptTail, got, r0, old(rangeBoostTimer), old(score));
        i := i - 1;
      }
      assert bs0[..0] == [];
    }

    /** One step of the battery pass, at index i: the battery there is
        collected when it is in the band at the current range, and is kept
        otherwise. `keptTail` holds the batteries kept so far and `got` counts
        those collected. */
    method ZapBatteryAt(i: int, tipX: real, tipY: real, ghost bs0: seq<Item>, ghost final: Sweep,
                        ghost keptTail: seq<Item>, ghost got: nat, ghost r0: int, ghost t0: int, ghost s0: int)
        returns (ghost keptTail': seq<Item>, ghost got': nat)
      requires 0 <= i < |bs0|
      requires batteries == bs0[..i + 1] + keptTail
      requires final.kept == BatterySweep(bs0[..i + 1], tipX, tipY, zapRange, 2 * baseZapRange).kept + keptTail
      requires final.collected == BatterySweep(bs0[..i + 1], tipX, tipY, zapRange, 2 * baseZapRange).collected + got
      requires final.range == BatterySweep(bs0[..i + 1], tipX, tipY, zapRange, 2 * baseZapRange).range
      requires score == s0 + PowerUpPoints * got
      requires got > 0 ==> zapRange == 2 * baseZapRange && rangeBoostTimer == 600
      requires got == 0 ==> zapRange == r0 && rangeBoostTimer == t0
      modifies this`batteries, this`zapRange, this`rangeBoostTimer, this`score
      ensures batteries == bs0[..i] + keptTail'
      ensures final.kept == BatterySweep(bs0[..i], tipX, tipY, zapRange, 2 * baseZapRange).kept + keptTail'
      ensures final.collected == BatterySweep(bs0[..i], tipX, tipY, zapRange, 2 * baseZapRange).collected + got'
      ensures final.range == BatterySweep(bs0[..i], tipX, tipY, zapRange, 2 * baseZapRange).range
      ensures score == s0 + PowerUpPoints * got'
      ensures got' > 0 ==> zapRange == 2 * baseZapRange && rangeBoostTimer == 600
      ensures got' == 0 ==> zapRange == r0 && rangeBoostTimer == t0
    {
      SpliceAt(bs0, i, keptTail);
      var battery := batteries[i];
      SweepStep(bs0, i, tipX, tipY, zapRange, 2 * baseZapRange);
      if Abs(battery.x - tipX) < zapRange as real && 0.0 < tipY - battery.y < ZapReach {
        CollectBattery();
        batteries := batteries[..i] + batteries[i + 1..];
        keptTail', got' := keptTail, got + 1;
      } else {
        ghost var rest := BatterySweep(bs0[..i], tipX, tipY, zapRange, 2 * baseZapRange);
        ConcatAssoc(rest.kept, [battery], keptTail);
        keptTail', got' := [battery] + keptTail, got;
      }
    }

    /** Bullhorn: a blast around the bullhorn, then 250 points. */
    method CollectBullhorn(b: Item)
      modifies this`projectiles, this`score
      ensures projectiles == Filter(old(projectiles), OutsideBlast(b.x, b.y))
      ensures score == old(score) + PowerUpPoints + 5 * (|old(projectiles)| - |projectiles|)
    {
      TriggerBlast(b.x, b.y);
      score := score + PowerUpPoints;
    }

    /** Survey manager: a duplicate technician for 600 ticks (restarted, not added). */
    method CollectSurveyManager()
      modifies this`duplicateTechnicianTimer, this`score
      ensures duplicateTechnicianTimer == 600
      ensures score == old(score) + PowerUpPoints
    {
      duplicateTechnicianTimer := 600;
      score := score + PowerUpPoints;
    }

    /** Carto pac: heal 10, never above 100, and tell the structure. */
    method CollectCartoPac()
      modifies this`pipelineHealth, this`score, pipeline`health
      ensures pipelineHealth == MinInt(100, old(pipelineHealth) + 10)
      ensures pipeline.health == pipelineHealth
      ensures score == old(score) + PowerUpPoints
    {
      pipelineHealth := MinInt(100, pipelineHealth + 10);
      pipeline.health := pipelineHealth;
      score := score + PowerUpPoints;
    }

    /** Every hazard is cleared and the game slows to a tenth for 300 ticks. */
    method TriggerAiBombWave()
      modifies this`aiBombSlowdownTimer, this`gameSpeedMultiplier, this`projectiles
      ensures aiBombSlowdownTimer == 300 && gameSpeedMultiplier == 0.1
      ensures projectiles == []
    {
      aiBombSlowdownTimer := 300;
      gameSpeedMultiplier := 0.1;
      projectiles := [];
    }

    /** AI bomb: 250 points, then the wave. */
    method CollectAiBomb()
      modifies this`aiBombSlowdownTimer, this`gameSpeedMultiplier, this`projectiles, this`score
      ensures aiBombSlowdownTimer == 300 && gameSpeedMultiplier == 0.1
      ensures projectiles == []
      ensures score == old(score) + PowerUpPoints
    {
      score := score + PowerUpPoints;
      TriggerAiBombWave();
    }

    /** The bullhorn pass of a zap: every bullhorn in the band is collected, and
        each one's blast clears the hazards around it. The hazards left are those
        outside every collected bullhorn's blast, whatever the order. */
    method ZapBullhorns(tipX: real, tipY: real)
      modifies this`bullhorns, this`projectiles, this`score
      ensures bullhorns == Filter(old(bullhorns), ItemMiss(tipX, tipY, zapRange))
      ensures projectiles ==
        Filter(old(projectiles), Unblasted(Filter(old(bullhorns), ItemHit(tipX, tipY, zapRange))))
      ensures score == old(score) + PowerUpPoints * |Filter(old(bullhorns), ItemHit(tipX, tipY, zapRange))|
        + 5 * (|old(projectiles)| - |projectiles|)
    {
      ghost var bh0, ps0 := bullhorns, projectiles;
      UnblastedNone(ps0);
      var i := |bullhorns| - 1;
      assert bh0[..i + 1] == bh0 && bh0[i + 1..] == [];
      while i >= 0
        invariant -1 <= i < |bh0|
        invariant bullhorns == bh0[..i + 1] + Filter(bh0[i + 1..], ItemMiss(tipX, tipY, zapRange))
        invariant i < 0 ==> bullhorns == Filter(bh0, ItemMiss(tipX, tipY, zapRange))
        invariant projectiles == Filter(ps0, Unblasted(Filter(bh0[i + 1..], ItemHit(tipX, tipY, zapRange))))
        invariant score == old(score) + PowerUpPoints * |Filter(bh0[i + 1..], ItemHit(tipX, tipY, zapRange))|
          + 5 * (|ps0| - |projectiles|)
      {
        ZapBullhornAt(i, tipX, tipY, bh0, ps0, old(score));
        if i == 0 {
          assert bh0[..0] == [] && bh0[0..] == bh0;
        }
        i := i - 1;
      }
    }

    /** One step of the bullhorn pass, at index i: the bullhorn there is collected
        (and blasts) when it is in the band, and is kept otherwise. */
    method ZapBullhornAt(i: int, tipX: real, tipY: real, ghost bh0: seq<Item>, ghost ps0: seq<Projectile>,
                         ghost score0: int)
      requires 0 <= i < |bh0|
      requires bullhorns == bh0[..i + 1] + Filter(bh0[i + 1..], ItemMiss(tipX, tipY, zapRange))
      requires projectiles == Filter(ps0, Unblasted(Filter(bh0[i + 1..], ItemHit(tipX, tipY, zapRange))))
      requires score == score0 + PowerUpPoints * |Filter(bh0[i + 1..], ItemHit(tipX, tipY, zapRange))|
        + 5 * (|ps0| - |projectiles|)
      modifies this`bullhorns, this`projectiles, this`score
      ensures bullhorns == bh0[..i] + Filter(bh0[i..], ItemMiss(tipX, tipY, zapRange))
      ensures projectiles == Filter(ps0, Unblasted(Filter(bh0[i..], ItemHit(tipX, tipY, zapRange))))
      ensures score == score0 + PowerUpPoints * |Filter(bh0[i..], ItemHit(tipX, tipY, zapRange))|
        + 5 * (|ps0| - |projectiles|)
    {
      ghost var hits := Filter(bh0[i + 1..], ItemHit(tipX, tipY, zapRange));
      FilterAt(bh0, i, ItemHit(tipX, tipY, zapRange));
      SelectStep(bh0, i, ItemMiss(tipX, tipY, zapRange));
      var bullhorn := bullhorns[i];
      ItemHitIs(bullhorn, tipX, tipY, zapRange);
      if Abs(bullhorn.x - tipX) < zapRange as real && 0.0 < tipY - bullhorn.y < ZapReach {
        assert Filter(bh0[i..], ItemHit(tipX, tipY, zapRange)) == [bullhorn] + hits;
        BlastAgain(ps0, bullhorn, hits);
        CollectBullhorn(bullhorn);
        bullhorns := bullhorns[..i] + bullhorns[i + 1..];
      } else {
        assert Filter(bh0[i..], ItemHit(tipX, tipY, zapRange)) == hits;
      }
    }

    /** The survey manager pass of a zap: each one in the band is collected, and
        any collection (re)starts the duplicate technician's 600 ticks. */
    method ZapSurveyManagers(tipX: real, tipY: real)
      modifies this`surveyManagers, this`duplicateTechnicianTimer, this`score
      ensures surveyManagers == Filter(old(surveyManagers), ItemMiss(tipX, tipY, zapRange))
      ensures var n := |Filter(old(surveyManagers), ItemHit(tipX, tipY, zapRange))|;
        && duplicateTechnicianTimer == (if n > 0 then 600 else old(duplicateTechnicianTimer))
        && score == old(score) + PowerUpPoints * n
    {
      ghost var sm0 := surveyManagers;
      var i := |surveyManagers| - 1;
      assert sm0[..i + 1] == sm0 && sm0[i + 1..] == [];
      while i >= 0
        invariant -1 <= i < |sm0|
        invariant surveyManagers == sm0[..i + 1] + Filter(sm0[i + 1..], ItemMiss(tipX, tipY, zapRange))
        invariant var n := |Filter(sm0[i + 1..], ItemHit(tipX, tipY, zapRange))|;
          && duplicateTechnicianTimer == (if n > 0 then 600 else old(duplicateTechnicianTimer))
          && score == old(score) + PowerUpPoints * n
      {
        ItemHitsStep(sm0, i, tipX, tipY, zapRange);
        SelectStep(sm0, i, ItemMiss(tipX, tipY, zapRange));
        var surveyManager := surveyManagers[i];
        ItemHitIs(surveyManager, tipX, tipY, zapRange);
        if Abs(surveyManager.x - tipX) < zapRange as real && 0.0 < tipY - surveyManager.y < ZapReach {
          CollectSurveyManager();
          surveyManagers := surveyManagers[..i] + surveyManagers[i + 1..];
        }
        i := i - 1;
      }
      assert sm0[..0] == [] && sm0[0..] == sm0;
    }

    /** The carto pac pass of a zap: each one in the band heals 10, capped at 100. */
    method ZapCartoPacs(tipX: real, tipY: real)
      modifies this`cartoPacs, this`pipelineHealth, this`score, pipeline`health
      ensures cartoPacs == Filter(old(cartoPacs), ItemMiss(tipX, tipY, zapRange))
      ensures var n := |Filter(old(cartoPacs), ItemHit(tipX, tipY, zapRange))|;
        && pipelineHealth == (if n > 0 then MinInt(100, old(pipelineHealth) + 10 * n) else old(pipelineHealth))
        && pipeline.health == (if n > 0 then pipelineHealth else old(pipeline.health))
        && score == old(score) + PowerUpPoints * n
    {
      ghost var cp0 := cartoPacs;
      var i := |cartoPacs| - 1;
      assert cp0[..i + 1] == cp0 && cp0[i + 1..] == [];
      while i >= 0
        invariant -1 <= i < |cp0|
        invariant cartoPacs == cp0[..i + 1] + Filter(cp0[i + 1..], ItemMiss(tipX, tipY, zapRange))
        invariant var n := |Filter(cp0[i + 1..], ItemHit(tipX, tipY, zapRange))|;
          && pipelineHealth == (if n > 0 then MinInt(100, old(pipelineHealth) + 10 * n) else old(pipelineHealth))
          && pipeline.health == (if n > 0 then pipelineHealth else old(pipeline.health))
          && score == old(score) + PowerUpPoints * n
      {
        ItemHitsStep(cp0, i, tipX, tipY, zapRange);
        SelectStep(cp0, i, ItemMiss(tipX, tipY, zapRange));
        var cartoPac := cartoPacs[i];
        ItemHitIs(cartoPac, tipX, tipY, zapRange);
        if Abs(cartoPac.x - tipX) < zapRange as real && 0.0 < tipY - cartoPac.y < ZapReach {
          CollectCartoPac();
          cartoPacs := cartoPacs[..i] + cartoPacs[i + 1..];
        }
        i := i - 1;
      }
      assert cp0[..0] == [] && cp0[0..] == cp0;
    }

    /** The AI bomb pass of a zap: each one in the band is worth 250, and any
        collection clears every hazard and starts the 300-tick slowdown. */
    method ZapAiBombs(tipX: real, tipY: real)
      modifies this`aiBombs, this`projectiles, this`aiBombSlowdownTimer, this`gameSpeedMultiplier, this`score
      ensures aiBombs == Filter(old(aiBombs), ItemMiss(tipX, tipY, zapRange))
      ensures var n := |Filter(old(aiBombs), ItemHit(tipX, tipY, zapRange))|;
        && projectiles == (if n > 0 then [] else old(projectiles))
        && aiBombSlowdownTimer == (if n > 0 then 300 else old(aiBombSlowdownTimer))
        && gameSpeedMultiplier == (if n > 0 then 0.1 else old(gameSpeedMultiplier))
        && score == old(score) + PowerUpPoints * n
    {
      ghost var ab0 := aiBombs;
      var i := |aiBombs| - 1;
      assert ab0[..i + 1] == ab0 && ab0[i + 1..] == [];
      while i >= 0
        invariant -1 <= i < |ab0|
        invariant aiBombs == ab0[..i + 1] + Filter(ab0[i + 1..], ItemMiss(tipX, tipY, zapRange))
        invariant var n := |Filter(ab0[i + 1..], ItemHit(tipX, tipY, zapRange))|;
          && projectiles == (if n > 0 then [] else old(projectiles))
          && aiBombSlowdownTimer == (if n > 0 then 300 else old(aiBombSlowdownTimer))
          && gameSpeedMultiplier == (if n > 0 then 0.1 else old(gameSpeedMultiplier))
          && score == old(score) + PowerUpPoints * n
      {
        ItemHitsStep(ab0, i, tipX, tipY, zapRange);
        SelectStep(ab0, i, ItemMiss(tipX, tipY, zapRange));
        var aiBomb := aiBombs[i];
        ItemHitIs(aiBomb, tipX, tipY, zapRange);
        if Abs(aiBomb.x - tipX) < zapRange as real && 0.0 < tipY - aiBomb.y < ZapReach {
          CollectAiBomb();
          aiBombs := aiBombs[..i] + aiBombs[i + 1..];
        }
        i := i - 1;
      }
      assert ab0[..0] == [] && ab0[0..] == ab0;
    }

    /** The first two passes of a zap: hazards at the current range, then
        batteries, which may double the range. */
    method ZapHazardsAndBatteries(tipX: real, tipY: real)
      modifies this`projectiles, this`batteries, this`zapRange, this`rangeBoostTimer, this`score
      ensures Snapshot() == BatteryPass(HazardPass(old(Snapshot()), tipX, tipY), tipX, tipY, 2 * baseZapRange)
    {
      ZapProjectiles(tipX, tipY);
      ZapBatteries(tipX, tipY);
    }

    /** The bullhorn and survey manager passes of a zap. */
    method ZapBullhornsAndSurveyManagers(tipX: real, tipY: real)
      modifies this`projectiles, this`bullhorns, this`surveyManagers, this`score, this`duplicateTechnicianTimer
      ensures Snapshot() == SurveyManagerPass(BullhornPass(old(Snapshot()), tipX, tipY), tipX, tipY)
    {
      ZapBullhorns(tipX, tipY);
      ZapSurveyManagers(tipX, tipY);
    }

    /** The carto pac and AI bomb passes of a zap. */
    method ZapCartoPacsAndAiBombs(tipX: real, tipY: real)
      modifies this`projectiles, this`cartoPacs, this`aiBombs, this`score, this`pipelineHealth,
        this`aiBombSlowdownTimer, this`gameSpeedMultiplier, pipeline`health
      ensures Snapshot() == AiBombPass(CartoPacPass(old(Snapshot()), tipX, tipY), tipX, tipY)
    {
      ghost var b0 := Snapshot();
      ZapCartoPacs(tipX, tipY);
      assert Snapshot() == CartoPacPass(b0, tipX, tipY);
      ZapAiBombs(tipX, tipY);
    }

    /** A zap: ignored while the cooldown runs; otherwise the cooldown restarts
        at 10 ticks and the technician zaps from its cane tip, and then, if the
        duplicate technician is active by then, the duplicate zaps from its own,
        100 to the right of the technician or, near the right edge, 100 to the
        left. The session invariant is kept. */
    method Zap()
      requires Valid()
      modifies this`projectiles, this`batteries, this`bullhorns, this`surveyManagers, this`cartoPacs,
        this`aiBombs, this`zapRange, this`rangeBoostTimer, this`score, this`duplicateTechnicianTimer,
        this`pipelineHealth, this`aiBombSlowdownTimer, this`gameSpeedMultiplier, pipeline`health,
        this`zapCooldown
      ensures Valid()
      ensures zapCooldown == if old(zapCooldown) > 0 then old(zapCooldown) else ZapCooldownTicks
      ensures Snapshot() ==
        if old(zapCooldown) > 0 then old(Snapshot())
        else ZapBoth(old(Snapshot()), technician.x, TipY(), width, 2 * baseZapRange)
    {
      if zapCooldown > 0 {
        return;
      }
      zapCooldown := ZapCooldownTicks;
      ghost var pace := Pace();
      ZapTwice(technician.x, TipY(), old(Snapshot()));
      assert Pace() == pace;
    }

    /** The technician's zap, then the duplicate's if it is active by then. */
    method ZapTwice(x: real, tipY: real, ghost b0: Board)
      requires BoardOk(Snapshot(), baseZapRange, gameState == GameOver) && b0 == Snapshot()
      modifies this`projectiles, this`batteries, this`bullhorns, this`surveyManagers, this`cartoPacs,
        this`aiBombs, this`zapRange, this`rangeBoostTimer, this`score, this`duplicateTechnicianTimer,
        this`pipelineHealth, this`aiBombSlowdownTimer, this`gameSpeedMultiplier, pipeline`health
      ensures BoardOk(Snapshot(), baseZapRange, gameState == GameOver)
      ensures Snapshot() == ZapBoth(b0, x, tipY, width, 2 * baseZapRange)
    {
      ghost var boosted := 2 * baseZapRange;
      PerformZapFromPosition(x + 10.0, tipY);
      ghost var mid := Snapshot();
      assert mid == ZapFrom(b0, x + 10.0, tipY, boosted);
      assert mid.duplicateTechnicianTimer == duplicateTechnicianTimer;
      if duplicateTechnicianTimer > 0 {
        var duplicateX := x + 100.0;
        if duplicateX > width - 50.0 {
          duplicateX := x - 100.0;
        }
        var duplicateTipX := duplicateX + 10.0;
        assert duplicateTipX == DuplicateX(x, width) + 10.0;
        PerformZapFromPosition(duplicateTipX, tipY);
        assert Snapshot() == ZapFrom(mid, duplicateTipX, tipY, boosted);
        ZapBothWithDuplicate(b0, mid, Snapshot(), x, tipY, width, boosted, duplicateTipX);
      } else {
        ZapBothAlone(b0, mid, x, tipY, width, boosted);
      }
    }

    /** One zap from a cane tip: the hazard pass at the current range, then the
        battery pass (which may double the range), then the bullhorn, survey
        manager, carto pac and AI bomb passes at the range the battery pass left. */
    method PerformZapFromPosition(tipX: real, tipY: real)
      requires BoardOk(Snapshot(), baseZapRange, gameState == GameOver)
      modifies this`projectiles, this`batteries, this`bullhorns, this`surveyManagers, this`cartoPacs,
        this`aiBombs, this`zapRange, this`rangeBoostTimer, this`score, this`duplicateTechnicianTimer,
        this`pipelineHealth, this`aiBombSlowdownTimer, this`gameSpeedMultiplier, pipeline`health
      ensures BoardOk(Snapshot(), baseZapRange, gameState == GameOver)
      ensures Snapshot() == ZapFrom(old(Snapshot()), tipX, tipY, 2 * baseZapRange)
    {
      ghost var b0 := Snapshot();
      ZapFromKeeps(b0, tipX, tipY, baseZapRange, gameState == GameOver);
      ZapPasses(tipX, tipY, b0);
    }

    /** The six passes of one zap, in order. */
    method ZapPasses(tipX: real, tipY: real, ghost b0: Board)
      requires b0 == Snapshot()
      modifies this`projectiles, this`batteries, this`bullhorns, this`surveyManagers, this`cartoPacs,
        this`aiBombs, this`zapRange, this`rangeBoostTimer, this`score, this`duplicateTechnicianTimer,
        this`pipelineHealth, this`aiBombSlowdownTimer, this`gameSpeedMultiplier, pipeline`health
      ensures Snapshot() == ZapFrom(b0, tipX, tipY, 2 * baseZapRange)
    {
      ZapFromPasses(b0, tipX, tipY, 2 * baseZapRange);
      ZapHazardsAndBatteries(tipX, tipY);
      ZapBullhornsAndSurveyManagers(tipX, tipY);
      ZapCartoPacsAndAiBombs(tipX, tipY);
    }

    /** One tick of the game. Nothing happens unless the game is being
        played; a tick of a game in play is Ticked, with the keys, the mouse
        position and the draws of that tick. The score is not touched, and at
        most one hazard is added. */
    method Update(draws: Draws)
      requires Valid() && draws.Valid()
      modifies this`usingMouse, technician`x, this`projectiles, this`pipelineHealth, this`gameState,
        pipeline`health, pipeline`exploded, this`batteries, this`bullhorns, this`surveyManagers,
        this`cartoPacs, this`aiBombs, this`batterySpawnTimer, this`bullhornSpawnTimer,
        this`surveyManagerSpawnTimer, this`cartoPacSpawnTimer, this`aiBombSpawnTimer, this`zapCooldown,
        this`duplicateTechnicianTimer, this`aiBombSlowdownTimer, this`gameSpeedMultiplier,
        this`rangeBoostTimer, this`zapRange, this`timeLeft, this`level, this`projectileSpeed,
        this`projectileSpawnRate
      ensures Valid()
      ensures old(gameState) != Playing ==> unchanged(this, technician, pipeline)
      ensures old(gameState) == Playing ==>
        Stage() == Ticked(old(Stage()), old(keys), old(mouseX), technician.speed, draws, height, width,
                          old(baseZapRange))
      ensures old(gameState) == Playing ==>
        && pipelineHealth == Floored(old(pipelineHealth), Impact(old(projectiles), DamageLine()))
        && (gameState == GameOver) == (pipelineHealth == 0)
      ensures score == old(score)
      ensures |projectiles| <= |old(projectiles)| + 1
    {
      if gameState != Playing {
        return;
      }
      Play(draws);
      TickedGrowth(old(Stage()), old(keys), old(mouseX), technician.speed, draws, height, width, baseZapRange);
      TickedOutcome(old(Stage()), old(keys), old(mouseX), technician.speed, draws, height, width, baseZapRange);
    }

    /** A tick of a game in play: a movement key switches the mouse off; the
        multiplier is taken; the technician moves; the hazards land; and the
        rest of the tick runs at the multiplier taken. */
    method Play(draws: Draws)
      requires Valid() && draws.Valid() && gameState == Playing
      modifies this`usingMouse, technician`x, this`projectiles, this`pipelineHealth, this`gameState,
        pipeline`health, pipeline`exploded, this`batteries, this`bullhorns, this`surveyManagers,
        this`cartoPacs, this`aiBombs, this`batterySpawnTimer, this`bullhornSpawnTimer,
        this`surveyManagerSpawnTimer, this`cartoPacSpawnTimer, this`aiBombSpawnTimer, this`zapCooldown,
        this`duplicateTechnicianTimer, this`aiBombSlowdownTimer, this`gameSpeedMultiplier,
        this`rangeBoostTimer, this`zapRange, this`timeLeft, this`level, this`projectileSpeed,
        this`projectileSpawnRate
      ensures Valid()
      ensures Stage() == Ticked(old(Stage()), old(keys), old(mouseX), technician.speed, draws, height, width,
                                old(baseZapRange))
    {
      CheckKeyboard();
      var speedMultiplier := gameSpeedMultiplier;
      MoveTechnician();
      LandHazards();
      Advance(draws, speedMultiplier);
    }

    /** The rest of a tick, after the hazards have landed: the power-ups drift,
        the spawners run, then the countdowns, the buffs and the level clock,
        at the multiplier the tick started with. */
    method Advance(draws: Draws, speedMultiplier: real)
      requires Valid() && draws.Valid() && speedMultiplier > 0.0
      modifies this`batteries, this`bullhorns, this`surveyManagers, this`cartoPacs, this`aiBombs,
        this`projectiles, this`batterySpawnTimer, this`bullhornSpawnTimer, this`surveyManagerSpawnTimer,
        this`cartoPacSpawnTimer, this`aiBombSpawnTimer, this`zapCooldown, this`duplicateTechnicianTimer,
        this`aiBombSlowdownTimer, this`gameSpeedMultiplier, this`rangeBoostTimer, this`zapRange,
        this`timeLeft, this`level, this`projectileSpeed, this`projectileSpawnRate, pipeline`exploded
      ensures Valid()
      ensures Stage() == Advanced(old(Stage()), draws, speedMultiplier, height, width, baseZapRange)
    {
      DriftPowerUps();
      Spawn(draws, speedMultiplier);
      Tick(speedMultiplier);
    }

    /** The countdowns, the buffs and the level clock. */
    method Tick(speedMultiplier: real)
      requires Valid() && speedMultiplier > 0.0
      modifies this`batterySpawnTimer, this`bullhornSpawnTimer, this`surveyManagerSpawnTimer,
        this`cartoPacSpawnTimer, this`aiBombSpawnTimer, this`zapCooldown, this`duplicateTechnicianTimer,
        this`aiBombSlowdownTimer, this`gameSpeedMultiplier, this`rangeBoostTimer, this`zapRange,
        this`timeLeft, this`level, this`projectileSpeed, this`projectileSpawnRate, pipeline`exploded
      ensures Valid()
      ensures var levelUp := Elapsed(old(timeLeft), speedMultiplier) <= 0.0;
        Stage() == old(Stage()).(
          supplies := if levelUp then DueAtOnce(CountedDown(old(Supplies()))) else CountedDown(old(Supplies())),
          countdowns := Counted(old(Countdowns()), baseZapRange),
          progress := Clocked(old(Progress()), speedMultiplier),
          exploded := !levelUp && old(pipeline.exploded))
    {
      TickCountdowns();
      TickBuffs();
      TickClock(speedMultiplier);
    }

    /** The keyboard check of a tick: a held movement key switches the mouse
        off. */
    method CheckKeyboard()
      requires Valid()
      modifies this`usingMouse
      ensures Valid()
      ensures Stage() == KeyboardChecked(old(Stage()), keys)
    {
      if keys.Moving() {
        usingMouse := false;
      }
    }

    /** The technician's move of a tick, with the current input. */
    method MoveTechnician()
      requires Valid()
      modifies technician`x
      ensures Valid()
      ensures Stage() == Walked(old(Stage()), keys, mouseX, technician.speed, width)
    {
      technician.Update(keys, mouseX, width, usingMouse);
    }

    /** The hazard loop of a tick, from the last hazard to the first: each one
        falls by its speed; one below the damage line is removed and damages
        the structure by 10 (water) or 15 (rust), and once the structure is down
        to 0 it explodes and the game is over. */
    method LandHazards()
      requires Valid() && gameState == Playing
      modifies this`projectiles, this`pipelineHealth, this`gameState, pipeline`health, pipeline`exploded
      ensures Valid()
      ensures Stage() == Landing(old(Stage()), DamageLine())
    {
      ghost var s0 := Stage();
      LandLoop();
      assert Supplies() == s0.supplies && Countdowns() == s0.countdowns && Progress() == s0.progress;
      assert usingMouse == s0.usingMouse && technician.x == s0.technicianX;
    }

    /** The hazard loop itself. */
    method LandLoop()
      requires Valid() && gameState == Playing
      modifies this`projectiles, this`pipelineHealth, this`gameState, pipeline`health, pipeline`exploded
      ensures Valid()
      ensures projectiles == Remaining(old(projectiles), DamageLine())
      ensures pipelineHealth == Floored(old(pipelineHealth), Impact(old(projectiles), DamageLine()))
      ensures gameState == (if pipelineHealth == 0 then GameOver else Playing)
      ensures pipeline.exploded == (pipelineHealth == 0 || old(pipeline.exploded))
    {
      ghost var ps0, h0, e0 := projectiles, pipelineHealth, pipeline.exploded;
      var n := |projectiles|;
      assert ps0[..n] == ps0 && ps0[n..] == [];
      while n > 0
        invariant 0 <= n <= |ps0|
        invariant projectiles == ps0[..n] + Remaining(ps0[n..], DamageLine())
        invariant pipelineHealth == Floored(h0, Impact(ps0[n..], DamageLine()))
        invariant 0 <= pipelineHealth <= h0 && pipeline.health == pipelineHealth
        invariant gameState == (if pipelineHealth == 0 then GameOver else Playing)
        invariant pipelineHealth == 0 ==> pipeline.exploded
        invariant pipelineHealth > 0 ==> pipeline.exploded == e0
      {
        LandHazardAt(n - 1, ps0, h0, e0);
        n := n - 1;
      }
      assert ps0[..0] == [] && ps0[0..] == ps0;
    }

    /** One step of the hazard loop, at index i. */
    method LandHazardAt(i: int, ghost ps0: seq<Projectile>, ghost h0: int, ghost e0: bool)
      requires 0 <= i < |ps0|
      requires projectiles == ps0[..i + 1] + Remaining(ps0[i + 1..], DamageLine())
      requires pipelineHealth == Floored(h0, Impact(ps0[i + 1..], DamageLine()))
      requires 0 <= pipelineHealth <= h0 && pipeline.health == pipelineHealth
      requires gameState == (if pipelineHealth == 0 then GameOver else Playing)
      requires pipelineHealth == 0 ==> pipeline.exploded
      requires pipelineHealth > 0 ==> pipeline.exploded == e0
      modifies this`projectiles, this`pipelineHealth, this`gameState, pipeline`health, pipeline`exploded
      ensures projectiles == ps0[..i] + Remaining(ps0[i..], DamageLine())
      ensures pipelineHealth == Floored(h0, Impact(ps0[i..], DamageLine()))
      ensures 0 <= pipelineHealth <= h0 && pipeline.health == pipelineHealth
      ensures gameState == (if pipelineHealth == 0 then GameOver else Playing)
      ensures pipelineHealth == 0 ==> pipeline.exploded
      ensures pipelineHealth > 0 ==> pipeline.exploded == e0
    {
      ghost var rest := Remaining(ps0[i + 1..], DamageLine());
      LandingStep(ps0, i, DamageLine());
      SpliceAt(ps0, i, rest);
      var projectile := Fall(projectiles[i]);
      if projectile.y > DamageLine() {
        FlooredTwice(h0, Impact(ps0[i + 1..], DamageLine()), DamageOf(projectile.kind));
        pipeline.TakeDamage(DamageOf(projectile.kind));
        pipelineHealth := pipeline.health;
        projectiles := projectiles[..i] + projectiles[i + 1..];
        if pipelineHealth <= 0 {
          pipeline.Explode();
          gameState := GameOver;
        }
      } else {
        projectiles := projectiles[..i] + [projectile] + projectiles[i + 1..];
        ConcatAssoc(ps0[..i], [projectile], rest);
      }
    }

    /** The power-up loops of a tick: every power-up falls by its own speed;
        batteries and bullhorns leave below the bottom of the field, survey
        managers, carto pacs and AI bombs 50 further down. */
    method DriftPowerUps()
      requires Valid()
      modifies this`batteries, this`bullhorns, this`surveyManagers, this`cartoPacs, this`aiBombs
      ensures Valid()
      ensures Stage() == old(Stage()).(supplies := Drifted(old(Supplies()), height))
    {
      DriftBatteries();
      DriftBullhorns();
      DriftSurveyManagers();
      DriftCartoPacs();
      DriftAiBombs();
    }

    /** The battery loop: each battery falls, and leaves below the field. */
    method DriftBatteries()
      requires Valid()
      modifies this`batteries
      ensures Valid()
      ensures Stage() == old(Stage()).(supplies :=
        old(Supplies()).(batteries := Drift(old(batteries), BatterySpeed, height)))
    {
      batteries := DriftItems(batteries, BatterySpeed, height);
    }

    /** The bullhorn loop: each bullhorn falls, and leaves below the field. */
    method DriftBullhorns()
      requires Valid()
      modifies this`bullhorns
      ensures Valid()
      ensures Stage() == old(Stage()).(supplies :=
        old(Supplies()).(bullhorns := Drift(old(bullhorns), BullhornSpeed, height)))
    {
      bullhorns := DriftItems(bullhorns, BullhornSpeed, height);
    }

    /** The survey manager loop: each one falls, and leaves 50 below the field. */
    method DriftSurveyManagers()
      requires Valid()
      modifies this`surveyManagers
      ensures Valid()
      ensures Stage() == old(Stage()).(supplies :=
        old(Supplies()).(surveyManagers := Drift(old(surveyManagers), SurveyManagerSpeed, height + 50.0)))
    {
      surveyManagers := DriftItems(surveyManagers, SurveyManagerSpeed, height + 50.0);
    }

    /** The carto pac loop: each one falls, and leaves 50 below the field. */
    method DriftCartoPacs()
      requires Valid()
      modifies this`cartoPacs
      ensures Valid()
      ensures Stage() == old(Stage()).(supplies :=
        old(Supplies()).(cartoPacs := Drift(old(cartoPacs), CartoPacSpeed, height + 50.0)))
    {
      cartoPacs := DriftItems(cartoPacs, CartoPacSpeed, height + 50.0);
    }

    /** The AI bomb loop: each one falls, and leaves 50 below the field. */
    method DriftAiBombs()
      requires Valid()
      modifies this`aiBombs
      ensures Valid()
      ensures Stage() == old(Stage()).(supplies :=
        old(Supplies()).(aiBombs := Drift(old(aiBombs), AiBombSpeed, height + 50.0)))
    {
      aiBombs := DriftItems(aiBombs, AiBombSpeed, height + 50.0);
    }

    /** The spawners of a tick, in order; hazards only while the tick started
        at normal speed (a multiplier of at least 0.5). */
    method Spawn(draws: Draws, speedMultiplier: real)
      requires Valid() && draws.Valid()
      modifies this`projectiles, this`batteries, this`batterySpawnTimer, this`bullhorns, this`bullhornSpawnTimer,
        this`surveyManagers, this`surveyManagerSpawnTimer, this`cartoPacs, this`cartoPacSpawnTimer,
        this`aiBombs, this`aiBombSpawnTimer
      ensures Valid()
      ensures Stage() == old(Stage()).(
        projectiles := old(projectiles)
          + HazardArrival(speedMultiplier, draws, projectileSpawnRate, projectileSpeed, width),
        supplies := Supplied(old(Supplies()), draws, width))
    {
      if speedMultiplier >= 0.5 {
        SpawnProjectile(draws.spawnRoll, draws.kindRoll, draws.projectileX);
      }
      SpawnPowerUps(draws);
    }

    /** The power-up spawners, each on its own timer. */
    method SpawnPowerUps(draws: Draws)
      requires Valid() && draws.Valid()
      modifies this`batteries, this`batterySpawnTimer, this`bullhorns, this`bullhornSpawnTimer,
        this`surveyManagers, this`surveyManagerSpawnTimer, this`cartoPacs, this`cartoPacSpawnTimer,
        this`aiBombs, this`aiBombSpawnTimer
      ensures Valid()
      ensures Stage() == old(Stage()).(supplies := Supplied(old(Supplies()), draws, width))
    {
      SpawnBattery(draws.batteryX, draws.batteryDelay);
      SpawnBullhorn(draws.bullhornX, draws.bullhornDelay);
      SpawnSurveyManager(draws.surveyManagerX);
      SpawnCartoPac(draws.cartoPacX, draws.cartoPacDelay);
      SpawnAiBomb(draws.aiBombX, draws.aiBombDelay);
    }

    /** A hazard appears with probability equal to the spawn rate: a water
        drop (draw below 0.6) at the current speed or a rust monster 30% faster,
        anywhere across the field at least 20 from either edge. */
    method SpawnProjectile(spawnRoll: real, kindRoll: real, xRoll: real)
      requires Valid() && 0.0 <= xRoll < 1.0
      modifies this`projectiles
      ensures Valid()
      ensures Stage() == old(Stage()).(projectiles := old(projectiles)
        + (if spawnRoll < projectileSpawnRate then [NewHazard(kindRoll, SpawnX(xRoll, width), projectileSpeed)] else []))
      ensures spawnRoll < projectileSpawnRate ==>
        && |projectiles| == |old(projectiles)| + 1
        && var p := projectiles[|old(projectiles)|];
        && p.y == SpawnY && 20.0 <= p.x <= width - 20.0
        && p.kind == (if kindRoll < 0.6 then Water else Rust)
        && p.speed == (if p.kind == Water then projectileSpeed else projectileSpeed * 1.3)
    {
      if spawnRoll < projectileSpawnRate {
        var kind := Water;
        var speed := projectileSpeed;
        if kindRoll >= 0.6 {
          kind := Rust;
          speed := projectileSpeed * 1.3;
        }
        var x := SpawnX(xRoll, width);
        projectiles := projectiles + [Projectile(x, SpawnY, kind, speed)];
      }
    }

    /** A battery appears once its timer has run out, and the timer restarts
        somewhere in [1125, 1575) ticks. */
    method SpawnBattery(xRoll: real, delayRoll: real)
      requires Valid() && 0.0 <= xRoll < 1.0 && 0.0 <= delayRoll < 1.0
      modifies this`batteries, this`batterySpawnTimer
      ensures Valid()
      ensures Stage() == old(Stage()).(supplies := old(Supplies()).(
        batteries := old(batteries) + Arrival(old(batterySpawnTimer) <= 0.0, SpawnX(xRoll, width)),
        batteryTimer := Rearmed(old(batterySpawnTimer), 1125.0 + delayRoll * 450.0)))
      ensures old(batterySpawnTimer) <= 0.0 ==> 1125.0 <= batterySpawnTimer < 1575.0
    {
      if batterySpawnTimer <= 0.0 {
        var x := SpawnX(xRoll, width);
        batteries := batteries + [Item(x, SpawnY)];
        batterySpawnTimer := 1125.0 + delayRoll * 450.0;
      }
    }

    /** A bullhorn appears once its timer has run out; the timer restarts in
        [2700, 4050) ticks. */
    method SpawnBullhorn(xRoll: real, delayRoll: real)
      requires Valid() && 0.0 <= xRoll < 1.0 && 0.0 <= delayRoll < 1.0
      modifies this`bullhorns, this`bullhornSpawnTimer
      ensures Valid()
      ensures Stage() == old(Stage()).(supplies := old(Supplies()).(
        bullhorns := old(bullhorns) + Arrival(old(bullhornSpawnTimer) <= 0.0, SpawnX(xRoll, width)),
        bullhornTimer := Rearmed(old(bullhornSpawnTimer), 2700.0 + delayRoll * 1350.0)))
      ensures old(bullhornSpawnTimer) <= 0.0 ==> 2700.0 <= bullhornSpawnTimer < 4050.0
    {
      if bullhornSpawnTimer <= 0.0 {
        var x := SpawnX(xRoll, width);
        bullhorns := bullhorns + [Item(x, SpawnY)];
        bullhornSpawnTimer := 2700.0 + delayRoll * 1350.0;
      }
    }

    /** A survey manager appears once its timer has run out; the timer restarts
        at 1350 ticks. */
    method SpawnSurveyManager(xRoll: real)
      requires Valid() && 0.0 <= xRoll < 1.0
      modifies this`surveyManagers, this`surveyManagerSpawnTimer
      ensures Valid()
      ensures Stage() == old(Stage()).(supplies := old(Supplies()).(
        surveyManagers := old(surveyManagers) + Arrival(old(surveyManagerSpawnTimer) <= 0, SpawnX(xRoll, width)),
        surveyManagerTimer := if old(surveyManagerSpawnTimer) <= 0 then 1350 else old(surveyManagerSpawnTimer)))
    {
      if surveyManagerSpawnTimer <= 0 {
        var x := SpawnX(xRoll, width);
        surveyManagers := surveyManagers + [Item(x, SpawnY)];
        surveyManagerSpawnTimer := 1350;
      }
    }

    /** A carto pac appears once its timer has run out; the timer restarts in
        [2025, 2700) ticks. */
    method SpawnCartoPac(xRoll: real, delayRoll: real)
      requires Valid() && 0.0 <= xRoll < 1.0 && 0.0 <= delayRoll < 1.0
      modifies this`cartoPacs, this`cartoPacSpawnTimer
      ensures Valid()
      ensures Stage() == old(Stage()).(supplies := old(Supplies()).(
        cartoPacs := old(cartoPacs) + Arrival(old(cartoPacSpawnTimer) <= 0.0, SpawnX(xRoll, width)),
        cartoPacTimer := Rearmed(old(cartoPacSpawnTimer), 2025.0 + delayRoll * 675.0)))
      ensures old(cartoPacSpawnTimer) <= 0.0 ==> 2025.0 <= cartoPacSpawnTimer < 2700.0
    {
      if cartoPacSpawnTimer <= 0.0 {
        var x := SpawnX(xRoll, width);
        cartoPacs := cartoPacs + [Item(x, SpawnY)];
        cartoPacSpawnTimer := 2025.0 + delayRoll * 675.0;
      }
    }

    /** An AI bomb appears once its timer has run out; the timer restarts in
        [5400, 7200) ticks. */
    method SpawnAiBomb(xRoll: real, delayRoll: real)
      requires Valid() && 0.0 <= xRoll < 1.0 && 0.0 <= delayRoll < 1.0
      modifies this`aiBombs, this`aiBombSpawnTimer
      ensures Valid()
      ensures Stage() == old(Stage()).(supplies := old(Supplies()).(
        aiBombs := old(aiBombs) + Arrival(old(aiBombSpawnTimer) <= 0.0, SpawnX(xRoll, width)),
        aiBombTimer := Rearmed(old(aiBombSpawnTimer), 5400.0 + delayRoll * 1800.0)))
      ensures old(aiBombSpawnTimer) <= 0.0 ==> 5400.0 <= aiBombSpawnTimer < 7200.0
    {
      if aiBombSpawnTimer <= 0.0 {
        var x := SpawnX(xRoll, width);
        aiBombs := aiBombs + [Item(x, SpawnY)];
        aiBombSpawnTimer := 5400.0 + delayRoll * 1800.0;
      }
    }

    /** The zap cooldown and the spawn timers each count down by one while positive. */
    method TickCountdowns()
      requires Valid()
      modifies this`zapCooldown, this`batterySpawnTimer, this`bullhornSpawnTimer,
        this`surveyManagerSpawnTimer, this`cartoPacSpawnTimer, this`aiBombSpawnTimer
      ensures Valid()
      ensures zapCooldown == Dec(old(zapCooldown))
      ensures Supplies() == CountedDown(old(Supplies()))
    {
      if zapCooldown > 0 {
        zapCooldown := zapCooldown - 1;
      }
      TickSpawnTimers();
    }

    /** The spawn timers count down by one while positive. */
    method TickSpawnTimers()
      modifies this`batterySpawnTimer, this`bullhornSpawnTimer, this`surveyManagerSpawnTimer,
        this`cartoPacSpawnTimer, this`aiBombSpawnTimer
      ensures Supplies() == CountedDown(old(Supplies()))
    {
      if batterySpawnTimer > 0.0 { batterySpawnTimer := batterySpawnTimer - 1.0; }
      if bullhornSpawnTimer > 0.0 { bullhornSpawnTimer := bullhornSpawnTimer - 1.0; }
      if surveyManagerSpawnTimer > 0 { surveyManagerSpawnTimer := surveyManagerSpawnTimer - 1; }
      if cartoPacSpawnTimer > 0.0 { cartoPacSpawnTimer := cartoPacSpawnTimer - 1.0; }
      if aiBombSpawnTimer > 0.0 { aiBombSpawnTimer := aiBombSpawnTimer - 1.0; }
    }

    /** The buff timers count down by one while positive; the slowdown ending
        restores normal speed, and the range boost ending restores the base range. */
    method TickBuffs()
      requires Valid()
      modifies this`duplicateTechnicianTimer, this`aiBombSlowdownTimer, this`gameSpeedMultiplier,
        this`rangeBoostTimer, this`zapRange
      ensures Valid()
      ensures Stage() == old(Stage()).(countdowns := Buffed(old(Countdowns()), baseZapRange))
    {
      if duplicateTechnicianTimer > 0 {
        duplicateTechnicianTimer := duplicateTechnicianTimer - 1;
      }
      TickSlowdown();
      TickRangeBoost();
    }

    /** The AI bomb slowdown counts down; when it runs out the game is back to
        normal speed, so the game runs slowed exactly while the timer runs. */
    method TickSlowdown()
      requires SlowdownOk(aiBombSlowdownTimer, gameSpeedMultiplier)
      modifies this`aiBombSlowdownTimer, this`gameSpeedMultiplier
      ensures SlowdownOk(aiBombSlowdownTimer, gameSpeedMultiplier)
      ensures Stage() == old(Stage()).(countdowns := old(Countdowns()).(
        aiBombSlowdownTimer := Dec(old(aiBombSlowdownTimer)),
        gameSpeedMultiplier := if old(aiBombSlowdownTimer) == 1 then 1.0 else old(gameSpeedMultiplier)))
    {
      if aiBombSlowdownTimer > 0 {
        aiBombSlowdownTimer := aiBombSlowdownTimer - 1;
        if aiBombSlowdownTimer == 0 {
          gameSpeedMultiplier := 1.0;
        }
      }
    }

    /** The range boost counts down; when it runs out the range is back to its
        base, so the range is doubled exactly while the timer runs. */
    method TickRangeBoost()
      requires BoostOk(zapRange, baseZapRange, rangeBoostTimer)
      modifies this`rangeBoostTimer, this`zapRange
      ensures BoostOk(zapRange, baseZapRange, rangeBoostTimer)
      ensures Stage() == old(Stage()).(countdowns := old(Countdowns()).(
        rangeBoostTimer := Dec(old(rangeBoostTimer)),
        zapRange := if old(rangeBoostTimer) == 1 then baseZapRange else old(zapRange)))
    {
      if rangeBoostTimer > 0 {
        rangeBoostTimer := rangeBoostTimer - 1;
        if rangeBoostTimer == 0 {
          zapRange := baseZapRange;
        }
      }
    }

    /** The level clock: a tick takes a sixtieth of a second, scaled by the
        speed multiplier; when the clock runs out the next level starts. */
    method TickClock(speedMultiplier: real)
      requires Valid() && speedMultiplier > 0.0
      modifies this`timeLeft, this`level, this`projectileSpeed, this`projectileSpawnRate,
        this`surveyManagerSpawnTimer, this`cartoPacSpawnTimer, pipeline`exploded
      ensures Valid()
      ensures var levelUp := Elapsed(old(timeLeft), speedMultiplier) <= 0.0;
        Stage() == old(Stage()).(
          progress := Clocked(old(Progress()), speedMultiplier),
          supplies := if levelUp then DueAtOnce(old(Supplies())) else old(Supplies()),
          exploded := !levelUp && old(pipeline.exploded))
    {
      if timeLeft > 0.0 {
        timeLeft := timeLeft - (1.0 / 60.0) * speedMultiplier;
        if timeLeft <= 0.0 {
          NextLevel();
        }
      }
    }
  }
}
