// The End's dragon fight: the per-tick state machine of `tick()`, with the
// world's answers (players in range, dragons and crystals found, what the
// unseen respawn stages do) given as an `Engine` record.
module DragonFight {
  import opened Common
  import opened JavaLang

  /** The stages of the unseen `DragonSpawnManager`. */
  datatype RespawnStage = Start | PreparingToSummonPillars | SummoningPillars | SummoningDragon | End

  /**
   * What one `process` call of the current respawn stage does to the
   * manager: nothing, or a `setRespawnState` call. That call resets the
   * stage's tick count; `END` ends the respawn instead of being stored,
   * marks the dragon alive and creates a new one.
   */
  datatype RespawnChange =
    | Stay                              // the stage keeps running
    | SetState(stage: RespawnStage)     // `setRespawnState(stage)`

  /** The fields of the fight manager that `tick()` reads or writes. */
  datatype DragonFields = DragonFields(
    bossVisible: bool,
    playersPresent: bool,          // the boss bar's player list is non-empty
    ticksSinceDragonSeen: int,
    aliveCrystals: int,
    ticksSinceCrystalsScanned: int,
    ticksSinceLastPlayerScan: int,
    dragonKilled: bool,
    previouslyKilled: bool,
    dragonUniqueId: Option<nat>,
    scanForLegacyFight: bool,
    respawnState: Option<RespawnStage>,
    respawnStateTicks: int,
    crystalsPresent: bool)         // `crystals != null`

  /**
   * The world's answers during one tick. Each is a free input, tied neither
   * to the fight's fields nor to the other answers: `aliveDragonsLater` may
   * name the dragon the legacy scan just forgot, and `respawnRestarts` need
   * not agree with the crystals. The lemmas hold for every such answer and
   * say nothing about which answers the world can give.
   */
  datatype Engine = Engine(
    playersAfterUpdate: bool,          // `updateplayers()` leaves a non-empty player list
    hasDragonBeenKilled: bool,         // the legacy scan finds an exit portal
    aliveDragonsAtScan: seq<nat>,      // live dragons seen by the legacy scan
    aliveDragonsLater: seq<nat>,       // live dragons seen when the dragon is looked for
    createdDragonId: nat,              // the dragon a new spawn creates
    respawnRestarts: bool,             // `respawnDragon()` finds the four crystals and restarts
    processChange: RespawnChange,      // what the current stage's `process` does
    respawnedDragonId: nat,            // the dragon `setRespawnState(END)` creates
    aliveCrystalsFound: int)           // `findAliveCrystals()`

  // The phases of one tick, as closed forms.

  /** The boss bar, then the player scan every 20 ticks. */
  function PlayerScan(f: DragonFields, e: Engine): DragonFields {
    var g := f.(bossVisible := !f.dragonKilled);
    var c := Wrap32(g.ticksSinceLastPlayerScan + 1);
    if c >= 20 then g.(ticksSinceLastPlayerScan := 0, playersPresent := e.playersAfterUpdate)
    else g.(ticksSinceLastPlayerScan := c)
  }

  /**
   * The legacy scan: the portal decides `previouslyKilled`; the dragon counts
   * as killed only when there is a portal and no live dragon; a live dragon
   * is adopted when there is a portal and removed when there is none.
   */
  function LegacyScan(f: DragonFields, e: Engine): DragonFields {
    var killed := e.hasDragonBeenKilled;
    var alive := e.aliveDragonsAtScan;
    f.(scanForLegacyFight := false,
       previouslyKilled := killed,
       dragonKilled := killed && |alive| == 0,
       dragonUniqueId := if |alive| == 0 then f.dragonUniqueId else if killed then Some(alive[0]) else None)
  }

  /**
   * One step of a running respawn. Without crystals the stage is dropped and
   * `respawnDragon()` may restart it; the tick counter is advanced as the
   * call's argument is evaluated, and a stage that is still absent then
   * throws when `process` is called on it.
   */
  function RespawnStep(f: DragonFields, e: Engine): (DragonFields, Outcome)
    requires f.respawnState.Some?
  {
    var g := if f.crystalsPresent then f
             else if e.respawnRestarts then f.(respawnState := Some(Start), respawnStateTicks := 0, crystalsPresent := true)
             else f.(respawnState := None);
    var h := g.(respawnStateTicks := Wrap32(g.respawnStateTicks + 1));
    if g.respawnState.None? then (h, Fail(NullThrown))
    else match e.processChange
      case Stay => (h, Pass)
      case SetState(s) => (SetRespawnState(h, s, e.respawnedDragonId), Pass)
  }

  /** `setRespawnState(stage)` while a respawn runs; `dragonId` is the dragon that `END` creates. */
  function SetRespawnState(f: DragonFields, stage: RespawnStage, dragonId: nat): DragonFields {
    if stage == End then
      f.(respawnStateTicks := 0, respawnState := None, dragonKilled := false, dragonUniqueId := Some(dragonId))
    else f.(respawnStateTicks := 0, respawnState := Some(stage))
  }

  /** Whether the current stage's `process` ends the respawn this tick. */
  predicate Finishes(e: Engine) {
    e.processChange == SetState(End)
  }

  /** `++x >= limit` on an `int` field: the incremented value, or 0 once it reaches the limit. */
  function Tick(x: int, limit: int): int {
    if Wrap32(x + 1) >= limit then 0 else Wrap32(x + 1)
  }

  /**
   * Looking after a live dragon: it is looked for when its id is unknown or
   * it has not been seen for 1200 ticks; the crystals are counted every 100 ticks.
   */
  function DragonCheck(f: DragonFields, e: Engine): DragonFields {
    var search := f.dragonUniqueId.None? || Wrap32(f.ticksSinceDragonSeen + 1) >= 1200;
    var found := if |e.aliveDragonsLater| == 0 then e.createdDragonId else e.aliveDragonsLater[0];
    var g := if search then f.(dragonUniqueId := Some(found), ticksSinceDragonSeen := 0)
             else f.(ticksSinceDragonSeen := Wrap32(f.ticksSinceDragonSeen + 1));
    var crystalsDue := Wrap32(g.ticksSinceCrystalsScanned + 1) >= 100;
    g.(ticksSinceCrystalsScanned := Tick(g.ticksSinceCrystalsScanned, 100),
       aliveCrystals := if crystalsDue then e.aliveCrystalsFound else g.aliveCrystals)
  }

  /** The legacy scan, when one is pending; it touches neither the boss bar, the player scan nor a respawn. */
  function LegacyPhase(a: DragonFields, e: Engine): (b: DragonFields)
    ensures !b.scanForLegacyFight
    ensures b.(dragonKilled := a.dragonKilled, previouslyKilled := a.previouslyKilled,
               dragonUniqueId := a.dragonUniqueId, scanForLegacyFight := a.scanForLegacyFight) == a
  {
    if a.scanForLegacyFight then LegacyScan(a, e) else a.(scanForLegacyFight := false)
  }

  /**
   * A respawn step, when a respawn runs; it touches only the respawn fields,
   * and the dragon's fields when the respawn ends.
   */
  function RespawnPhase(b: DragonFields, e: Engine): (r: (DragonFields, Outcome))
    ensures r.1.Fail? ==> b.respawnState.Some? && !b.crystalsPresent && !e.respawnRestarts
    ensures r.0.(respawnState := b.respawnState, respawnStateTicks := b.respawnStateTicks,
                 crystalsPresent := b.crystalsPresent, dragonKilled := b.dragonKilled,
                 dragonUniqueId := b.dragonUniqueId) == b
    ensures !Finishes(e) ==> r.0.dragonKilled == b.dragonKilled && r.0.dragonUniqueId == b.dragonUniqueId
  {
    if b.respawnState.Some? then RespawnStep(b, e) else (b, Pass)
  }

  /** Looking after the dragon, when it is alive; it touches only the dragon and crystal fields. */
  function DragonPhase(c: DragonFields, e: Engine): (d: DragonFields)
    ensures d.(ticksSinceDragonSeen := c.ticksSinceDragonSeen, aliveCrystals := c.aliveCrystals,
               ticksSinceCrystalsScanned := c.ticksSinceCrystalsScanned, dragonUniqueId := c.dragonUniqueId) == c
  {
    if c.dragonKilled then c else DragonCheck(c, e)
  }

  /** What a tick that sees players does after the player scan. */
  function WithPlayers(a: DragonFields, e: Engine): (r: (DragonFields, Outcome))
    ensures r.0.bossVisible == a.bossVisible && r.0.playersPresent == a.playersPresent
    ensures r.0.ticksSinceLastPlayerScan == a.ticksSinceLastPlayerScan
    ensures !r.0.scanForLegacyFight
  {
    var r := RespawnPhase(LegacyPhase(a, e), e);
    if r.1.Fail? then r else (DragonPhase(r.0, e), Pass)
  }

  /** The whole of `tick()`: the new fields and how the call ends. */
  function AfterTick(f: DragonFields, e: Engine): (DragonFields, Outcome) {
    var a := PlayerScan(f, e);
    if !a.playersPresent then (a, Pass) else WithPlayers(a, e)
  }

  /** The counters' ranges that the manager keeps. */
  predicate CountersInRange(f: DragonFields) {
    && 0 <= f.ticksSinceLastPlayerScan < 20
    && 0 <= f.ticksSinceDragonSeen < 1200
    && 0 <= f.ticksSinceCrystalsScanned < 100
  }

  class DragonFightManager {
    var bossVisible: bool
    var playersPresent: bool
    var ticksSinceDragonSeen: int
    var aliveCrystals: int
    var ticksSinceCrystalsScanned: int
    var ticksSinceLastPlayerScan: int
    var dragonKilled: bool
    var previouslyKilled: bool
    var dragonUniqueId: Option<nat>
    var scanForLegacyFight: bool
    var respawnState: Option<RespawnStage>
    var respawnStateTicks: int
    var crystalsPresent: bool

    function Fields(): DragonFields
      reads this
    {
      DragonFields(bossVisible, playersPresent, ticksSinceDragonSeen, aliveCrystals, ticksSinceCrystalsScanned,
                   ticksSinceLastPlayerScan, dragonKilled, previouslyKilled, dragonUniqueId, scanForLegacyFight,
                   respawnState, respawnStateTicks, crystalsPresent)
    }

    /** `tick()`. */
    method Tick(e: Engine) returns (outcome: Outcome)
      modifies this
      ensures Fields() == AfterTick(old(Fields()), e).0
      ensures outcome == AfterTick(old(Fields()), e).1
    {
      ScanPlayers(e);
      outcome := Pass;
      if playersPresent {
        outcome := HandlePlayers(e);
      }
    }

    method ScanPlayers(e: Engine)
      modifies this
      ensures Fields() == PlayerScan(old(Fields()), e)
    {
      bossVisible := !dragonKilled;
      ticksSinceLastPlayerScan := Wrap32(ticksSinceLastPlayerScan + 1);
      if ticksSinceLastPlayerScan >= 20 {
        playersPresent := e.playersAfterUpdate;
        ticksSinceLastPlayerScan := 0;
      }
    }

    method HandlePlayers(e: Engine) returns (outcome: Outcome)
      modifies this
      ensures Fields() == WithPlayers(old(Fields()), e).0
      ensures outcome == WithPlayers(old(Fields()), e).1
    {
      if scanForLegacyFight {
        ScanLegacyFight(e);
      }
      outcome := Pass;
      if respawnState.Some? {
        outcome := ProcessRespawn(e);
        if outcome.Fail? {
          return;
        }
      }
      if !dragonKilled {
        LookAfterDragon(e);
      }
    }

    method ScanLegacyFight(e: Engine)
      modifies this
      ensures Fields() == LegacyScan(old(Fields()), e)
    {
      scanForLegacyFight := false;
      var flag := e.hasDragonBeenKilled;
      if flag {
        previouslyKilled := true;
      } else {
        previouslyKilled := false;
      }
      var list := e.aliveDragonsAtScan;
      if |list| == 0 {
        dragonKilled := true;
      } else {
        dragonUniqueId := Some(list[0]);
        dragonKilled := false;
        if !flag {
          dragonUniqueId := None;
        }
      }
      if !previouslyKilled && dragonKilled {
        dragonKilled := false;
      }
    }

    method ProcessRespawn(e: Engine) returns (outcome: Outcome)
      requires respawnState.Some?
      modifies this
      ensures Fields() == RespawnStep(old(Fields()), e).0
      ensures outcome == RespawnStep(old(Fields()), e).1
    {
      if !crystalsPresent {
        respawnState := None;
        if e.respawnRestarts {
          respawnState := Some(Start);
          respawnStateTicks := 0;
          crystalsPresent := true;
        }
      }
      var stage := respawnState;
      respawnStateTicks := Wrap32(respawnStateTicks + 1);
      if stage.None? {
        return Fail(NullThrown);
      }
      if e.processChange.SetState? {
        respawnStateTicks := 0;
        if e.processChange.stage == End {
          respawnState := None;
          dragonKilled := false;
          dragonUniqueId := Some(e.respawnedDragonId);
        } else {
          respawnState := Some(e.processChange.stage);
        }
      }
      outcome := Pass;
    }

    method LookAfterDragon(e: Engine)
      modifies this
      ensures Fields() == DragonCheck(old(Fields()), e)
    {
      var search := dragonUniqueId.None?;
      if !search {
        ticksSinceDragonSeen := Wrap32(ticksSinceDragonSeen + 1);
        search := ticksSinceDragonSeen >= 1200;
      }
      if search {
        var list1 := e.aliveDragonsLater;
        if |list1| == 0 {
          dragonUniqueId := Some(e.createdDragonId);
        } else {
          dragonUniqueId := Some(list1[0]);
        }
        ticksSinceDragonSeen := 0;
      }
      ticksSinceCrystalsScanned := Wrap32(ticksSinceCrystalsScanned + 1);
      if ticksSinceCrystalsScanned >= 100 {
        aliveCrystals := e.aliveCrystalsFound;
        ticksSinceCrystalsScanned := 0;
      }
    }
  }

  // Properties of a tick.

  /** The boss bar is shown exactly when the dragon was not killed as the tick began. */
  lemma BossBarShowsLiveDragon(f: DragonFields, e: Engine)
    ensures AfterTick(f, e).0.bossVisible == !f.dragonKilled
  {
  }

  /** The player-scan counter counts up every tick and wraps to 0 on reaching 20, so it stays in [0, 19]. */
  lemma PlayerScanCounterCycles(f: DragonFields, e: Engine)
    requires 0 <= f.ticksSinceLastPlayerScan < 20
    ensures AfterTick(f, e).0.ticksSinceLastPlayerScan ==
      (if f.ticksSinceLastPlayerScan == 19 then 0 else f.ticksSinceLastPlayerScan + 1)
    ensures AfterTick(f, e).0.ticksSinceLastPlayerScan == 0 ==> AfterTick(f, e).0.playersPresent == e.playersAfterUpdate
  {
  }

  /** With no players, the tick touches only the boss bar and the player scan. */
  lemma NoPlayersLeavesFightAlone(f: DragonFields, e: Engine)
    requires !AfterTick(f, e).0.playersPresent
    ensures AfterTick(f, e) == (PlayerScan(f, e), Pass)
    ensures var r := AfterTick(f, e).0;
      r == f.(bossVisible := r.bossVisible, playersPresent := r.playersPresent,
              ticksSinceLastPlayerScan := r.ticksSinceLastPlayerScan)
  {
  }

  /** A tick that sees players never leaves the legacy scan pending. */
  lemma PlayersEndLegacyScan(f: DragonFields, e: Engine)
    requires AfterTick(f, e).0.playersPresent
    ensures !AfterTick(f, e).0.scanForLegacyFight
  {
  }

  /** After a legacy scan, a killed dragon was killed before, and `previouslyKilled` is what the portal showed. */
  lemma LegacyScanKilledMeansPreviouslyKilled(f: DragonFields, e: Engine)
    ensures LegacyScan(f, e).dragonKilled ==> LegacyScan(f, e).previouslyKilled
    ensures LegacyScan(f, e).previouslyKilled == e.hasDragonBeenKilled
    ensures !LegacyScan(f, e).scanForLegacyFight
  {
  }

  /** After a legacy scan, a live dragon found without a portal is forgotten and the dragon is not counted killed. */
  lemma LegacyScanDropsDragonWithoutPortal(f: DragonFields, e: Engine)
    requires |e.aliveDragonsAtScan| > 0 && !e.hasDragonBeenKilled
    ensures LegacyScan(f, e).dragonUniqueId.None?
    ensures !LegacyScan(f, e).dragonKilled
  {
  }

  /**
   * The legacy scan runs inside a tick: in the same tick the forgotten dragon
   * is replaced, by the dragon a finishing respawn creates, or else by
   * another live dragon or a newly created one, when its counter starts again.
   */
  lemma DroppedDragonIsReplacedInSameTick(f: DragonFields, e: Engine)
    requires PlayerScan(f, e).playersPresent && f.scanForLegacyFight
    requires |e.aliveDragonsAtScan| > 0 && !e.hasDragonBeenKilled
    requires f.respawnState.None? || f.crystalsPresent || e.respawnRestarts
    ensures AfterTick(f, e).1 == Pass
    ensures var respawned := f.respawnState.Some? && Finishes(e);
      var seenDue := Wrap32(f.ticksSinceDragonSeen + 1) >= 1200;
      (respawned && !seenDue ==> AfterTick(f, e).0.dragonUniqueId == Some(e.respawnedDragonId))
      && (!respawned || seenDue ==>
            AfterTick(f, e).0.dragonUniqueId ==
              Some(if |e.aliveDragonsLater| == 0 then e.createdDragonId else e.aliveDragonsLater[0])
            && AfterTick(f, e).0.ticksSinceDragonSeen == 0)
  {
    var b := LegacyScan(PlayerScan(f, e), e);
    assert !b.dragonKilled && b.dragonUniqueId.None?;
    if b.respawnState.Some? {
      var c := RespawnStep(b, e).0;
      assert !c.dragonKilled;
      assert !Finishes(e) ==> c.dragonUniqueId == b.dragonUniqueId;
    }
  }

  /**
   * A respawn whose stage calls `setRespawnState(END)` ends: no stage is left,
   * the dragon counts as alive and is the one just created.
   */
  lemma FinishedRespawnBringsBackDragon(f: DragonFields, e: Engine)
    requires f.respawnState.Some? && (f.crystalsPresent || e.respawnRestarts) && Finishes(e)
    ensures var (g, o) := RespawnStep(f, e);
      o == Pass && g.respawnState.None? && g.respawnStateTicks == 0
      && !g.dragonKilled && g.dragonUniqueId == Some(e.respawnedDragonId)
  {
  }

  /** Any other stage change stores the new stage, restarts its tick count and leaves the dragon alone. */
  lemma OtherStageChangeKeepsDragon(f: DragonFields, e: Engine, s: RespawnStage)
    requires f.respawnState.Some? && (f.crystalsPresent || e.respawnRestarts)
    requires e.processChange == SetState(s) && s != End
    ensures var (g, o) := RespawnStep(f, e);
      o == Pass && g.respawnState == Some(s) && g.respawnStateTicks == 0
      && g.dragonKilled == f.dragonKilled && g.dragonUniqueId == f.dragonUniqueId
  {
  }

  /** A respawn step without crystals that does not restart clears the stage, and calling it then throws. */
  lemma RespawnWithoutCrystalsClearsStage(f: DragonFields, e: Engine)
    requires f.respawnState.Some? && !f.crystalsPresent && !e.respawnRestarts
    ensures RespawnStep(f, e).0.respawnState.None?
    ensures RespawnStep(f, e).1 == Fail(NullThrown)
  {
  }

  /** A tick throws exactly when it sees players while a respawn has lost its crystals and cannot restart. */
  lemma TickThrowsIff(f: DragonFields, e: Engine)
    ensures AfterTick(f, e).1.Fail? <==>
      PlayerScan(f, e).playersPresent && f.respawnState.Some? && !f.crystalsPresent && !e.respawnRestarts
    ensures AfterTick(f, e).1.Fail? ==> AfterTick(f, e).1 == Fail(NullThrown) && AfterTick(f, e).0.respawnState.None?
  {
  }

  /**
   * Looking after a live dragon: the dragon-seen counter restarts when the id
   * is unknown or it reaches 1200, the crystal counter when it reaches 100,
   * and the dragon is then known.
   */
  lemma DragonCheckCounters(f: DragonFields, e: Engine)
    requires 0 <= f.ticksSinceDragonSeen < 1200 && 0 <= f.ticksSinceCrystalsScanned < 100
    ensures DragonCheck(f, e).ticksSinceDragonSeen ==
      (if f.dragonUniqueId.None? || f.ticksSinceDragonSeen == 1199 then 0 else f.ticksSinceDragonSeen + 1)
    ensures DragonCheck(f, e).ticksSinceCrystalsScanned ==
      (if f.ticksSinceCrystalsScanned == 99 then 0 else f.ticksSinceCrystalsScanned + 1)
    ensures DragonCheck(f, e).dragonUniqueId.Some?
    ensures f.dragonUniqueId.Some? && f.ticksSinceDragonSeen + 1 < 1200 ==>
      DragonCheck(f, e).dragonUniqueId == f.dragonUniqueId
    ensures DragonCheck(f, e).aliveCrystals ==
      (if f.ticksSinceCrystalsScanned == 99 then e.aliveCrystalsFound else f.aliveCrystals)
  {
  }

  /** Every tick keeps the three counters in their ranges. */
  lemma TickKeepsCountersInRange(f: DragonFields, e: Engine)
    requires CountersInRange(f)
    ensures CountersInRange(AfterTick(f, e).0)
  {
    var a := PlayerScan(f, e);
    if a.playersPresent {
      var b := LegacyPhase(a, e);
      assert CountersInRange(b);
      var r := RespawnPhase(b, e);
      assert CountersInRange(r.0);
      if r.1.Pass? && !r.0.dragonKilled {
        DragonCheckCounters(r.0, e);
      }
    }
  }
}
