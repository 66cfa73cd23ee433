// A fishing hook: who shot it, what it has hooked, and what reeling it in
// (`handleHookRetraction`) returns and leaves behind in the world.
module FishHook {
  import opened Common

  /** A projectile source; `PlayerSource` is a player entity, which in Sponge is always a projectile source. */
  datatype ProjectileSource = PlayerSource(player: nat) | OtherSource(id: nat) | Unknown

  /** The entity on the hook, and whether it is a dropped item. */
  datatype HookedEntity = HookedEntity(id: nat, isItem: bool)

  datatype ItemType = Fish | CookedFish | OtherItem(id: nat)
  datatype ItemStack = ItemStack(item: ItemType, quantity: nat)

  /** An item transaction of the stop event: listeners may replace its final stack or invalidate it. */
  datatype Transaction = Transaction(original: ItemStack, final: ItemStack, valid: bool)

  /** How the fishing stop event comes back from its listeners. */
  datatype StopEvent = StopEvent(cancelled: bool, transactions: seq<Transaction>)

  /** What the retraction does to the world, in order. */
  datatype WorldEvent =
    | PulledIn(entity: nat)          // `bringInHookedEntity()`
    | HookStatus(status: int)        // `setEntityState(this, 31)`
    | SpawnedItem(stack: ItemStack)
    | SpawnedXpOrb(player: nat)
    | FishCaught(player: nat)        // the angler's FISH_CAUGHT statistic

  const PULL_STATUS: int := 31

  /** The hook's fields, with the cause stack and the world's event log beside them. */
  datatype HookFields = HookFields(
    angler: Option<nat>,
    caughtEntity: Option<HookedEntity>,
    projectileSource: Option<ProjectileSource>,
    ticksCatchable: int,
    inGround: bool,
    dead: bool,
    causeStack: seq<nat>,
    events: seq<WorldEvent>)

  // Shooter and hooked entity.

  /** `getShooter`: the explicit source, else the angler, else UNKNOWN. */
  function ShooterOf(h: HookFields): ProjectileSource {
    if h.projectileSource.Some? then h.projectileSource.value
    else if h.angler.Some? then PlayerSource(h.angler.value)
    else Unknown
  }

  /** `setShooter`: a player becomes the angler, anything else clears it; the source is kept as given, even null. */
  function WithShooter(h: HookFields, shooter: Option<ProjectileSource>): HookFields {
    var angler := if shooter.Some? && shooter.value.PlayerSource? then Some(shooter.value.player) else None;
    h.(angler := angler, projectileSource := shooter)
  }

  /** The hook-entity step of the engine: a cancelled hook event leaves nothing on the hook. */
  function AfterHookEvent(h: HookFields, cancelled: bool): HookFields {
    if cancelled then h.(caughtEntity := None) else h
  }

  // Retraction.

  /** The loot rolled on retraction, each stack as an unchanged transaction; none before a fish bites. */
  function RolledLoot(ticksCatchable: int, loot: seq<ItemStack>): seq<Transaction> {
    if ticksCatchable > 0 then seq(|loot|, k requires 0 <= k < |loot| => Transaction(loot[k], loot[k], true))
    else []
  }

  predicate IsFish(s: ItemStack) {
    s.item == Fish || s.item == CookedFish
  }

  /** What handing out the transactions does: an item and an orb per valid one, and the statistic for a fish. */
  function CatchEvents(player: nat, ts: seq<Transaction>): seq<WorldEvent>
    decreases |ts|
  {
    if |ts| == 0 then []
    else
      var t := ts[|ts| - 1];
      CatchEvents(player, ts[..|ts| - 1]) +
        CatchOf(player, t)
  }

  /** The events one transaction gives. */
  function CatchOf(player: nat, t: Transaction): seq<WorldEvent> {
    if !t.valid then []
    else [SpawnedItem(t.final), SpawnedXpOrb(player)] + (if IsFish(t.final) then [FishCaught(player)] else [])
  }

  lemma CatchEventsStep(player: nat, ts: seq<Transaction>, k: nat)
    requires k < |ts|
    ensures CatchEvents(player, ts[..k + 1]) == CatchEvents(player, ts[..k]) + CatchOf(player, ts[k])
  {
    assert ts[..k + 1][..k] == ts[..k];
  }

  function Max(a: int, b: int): int {
    if a >= b then a else b
  }

  /** The result of a retraction that was not cancelled. */
  function RetractionCode(hooked: Option<HookedEntity>, anyLoot: bool, inGround: bool): int {
    var pulled := if hooked.Some? then (if hooked.value.isItem then 3 else 5) else 0;
    var caught := if anyLoot then Max(pulled, 1) else pulled;
    if inGround then 2 else caught
  }

  /**
   * `handleHookRetraction`: on the server with an angler, the angler is
   * pushed as the cause and the stop event is posted with the rolled loot; a
   * cancelled event returns -1 at once. Otherwise the hooked entity is pulled
   * in, the surviving transactions are handed out (and only then is the cause
   * popped), and the hook dies.
   */
  function Retraction(h: HookFields, isRemote: bool, loot: seq<ItemStack>, fire: seq<Transaction> -> StopEvent)
    : (HookFields, int)
  {
    if isRemote || h.angler.None? then (h, 0)
    else
      var player := h.angler.value;
      var event := fire(RolledLoot(h.ticksCatchable, loot));
      if event.cancelled then (h.(causeStack := h.causeStack + [player]), -1)
      else
        var ts := event.transactions;
        var pulled := if h.caughtEntity.Some? then [PulledIn(h.caughtEntity.value.id), HookStatus(PULL_STATUS)] else [];
        (h.(causeStack := if |ts| > 0 then h.causeStack else h.causeStack + [player],
            events := h.events + pulled + CatchEvents(player, ts),
            dead := true),
         RetractionCode(h.caughtEntity, |ts| > 0, h.inGround))
  }

  class EntityFishHook {
    var angler: Option<nat>
    var caughtEntity: Option<HookedEntity>
    var projectileSource: Option<ProjectileSource>
    var ticksCatchable: int
    var inGround: bool
    var dead: bool
    var causeStack: seq<nat>
    var events: seq<WorldEvent>

    function Fields(): HookFields
      reads this
    {
      HookFields(angler, caughtEntity, projectileSource, ticksCatchable, inGround, dead, causeStack, events)
    }

    function GetShooter(): ProjectileSource
      reads this
    {
      ShooterOf(Fields())
    }

    method SetShooter(shooter: Option<ProjectileSource>)
      modifies this
      ensures Fields() == WithShooter(old(Fields()), shooter)
      ensures GetShooter() == (if shooter.Some? then shooter.value else Unknown)
    {
      if shooter.Some? && shooter.value.PlayerSource? {
        angler := Some(shooter.value.player);
      } else {
        angler := None;
      }
      projectileSource := shooter;
      ShooterRoundTrip(old(Fields()), shooter);
    }

    function GetHookedEntity(): Option<HookedEntity>
      reads this
    {
      caughtEntity
    }

    method SetHookedEntity(entity: Option<HookedEntity>)
      modifies this
      ensures Fields() == old(Fields()).(caughtEntity := entity)
      ensures GetHookedEntity() == entity
    {
      caughtEntity := entity;
    }

    /** The injection at the head of the engine's hook-entity step. */
    method OnSetHookedEntity(cancelled: bool)
      modifies this
      ensures Fields() == AfterHookEvent(old(Fields()), cancelled)
    {
      if cancelled {
        caughtEntity := None;
      }
    }

    /** The loop over the event's transactions: each valid final stack is spawned with an orb, and a fish is counted. */
    method HandOutCatch(player: nat, transactions: seq<Transaction>)
      modifies this
      ensures Fields() == old(Fields()).(events := old(events) + CatchEvents(player, transactions))
    {
      var spawned: seq<WorldEvent> := [];
      for k := 0 to |transactions|
        invariant spawned == CatchEvents(player, transactions[..k])
        invariant Fields() == old(Fields())
      {
        CatchEventsStep(player, transactions, k);
        var t := transactions[k];
        if !t.valid {
          continue;
        }
        spawned := spawned + [SpawnedItem(t.final), SpawnedXpOrb(player)];
        if IsFish(t.final) {
          spawned := spawned + [FishCaught(player)];
        }
      }
      assert transactions[..|transactions|] == transactions;
      events := events + spawned;
    }

    method HandleHookRetraction(isRemote: bool, loot: seq<ItemStack>, fire: seq<Transaction> -> StopEvent)
      returns (code: int)
      modifies this
      ensures Fields() == Retraction(old(Fields()), isRemote, loot, fire).0
      ensures code == Retraction(old(Fields()), isRemote, loot, fire).1
    {
      if isRemote || angler.None? {
        return 0;
      }
      var player := angler.value;
      var i := 0;
      var transactions := RolledLoot(ticksCatchable, loot);
      causeStack := causeStack + [player];
      var event := fire(transactions);
      if event.cancelled {
        return -1;
      }
      if caughtEntity.Some? {
        events := events + [PulledIn(caughtEntity.value.id), HookStatus(PULL_STATUS)];
        i := if caughtEntity.value.isItem then 3 else 5;
      }
      transactions := event.transactions;
      if |transactions| > 0 {
        HandOutCatch(player, transactions);
        causeStack := causeStack[..|causeStack| - 1];
        i := Max(i, 1);
      }
      if inGround {
        i := 2;
      }
      dead := true;
      return i;
    }
  }

  // Properties.

  /** `setShooter` then `getShooter` gives the shooter back (UNKNOWN for null), and the angler is set exactly for a player. */
  lemma ShooterRoundTrip(h: HookFields, shooter: Option<ProjectileSource>)
    ensures ShooterOf(WithShooter(h, shooter)) == (if shooter.Some? then shooter.value else Unknown)
    ensures forall p: nat :: WithShooter(h, shooter).angler == Some(p) <==> shooter == Some(PlayerSource(p))
    ensures WithShooter(h, shooter).(angler := h.angler, projectileSource := h.projectileSource) == h
  {
  }

  /** The explicit source wins; failing it the angler is the shooter; with neither it is UNKNOWN. */
  lemma ShooterFallsBack(h: HookFields)
    ensures h.projectileSource.Some? ==> ShooterOf(h) == h.projectileSource.value
    ensures h.projectileSource.None? && h.angler.Some? ==> ShooterOf(h) == PlayerSource(h.angler.value)
    ensures h.projectileSource.None? && h.angler.None? ==> ShooterOf(h) == Unknown
  {
  }

  /** A cancelled hook event empties the hook; otherwise nothing changes. */
  lemma HookEventCancels(h: HookFields, cancelled: bool)
    ensures AfterHookEvent(h, cancelled).caughtEntity == (if cancelled then None else h.caughtEntity)
    ensures AfterHookEvent(h, cancelled).(caughtEntity := h.caughtEntity) == h
  {
  }

  /** Loot exists only once a fish bites, and it is then the rolled stacks unchanged, in order. */
  lemma LootOnlyWhenCatchable(ticksCatchable: int, loot: seq<ItemStack>)
    ensures ticksCatchable <= 0 ==> RolledLoot(ticksCatchable, loot) == []
    ensures ticksCatchable > 0 ==> |RolledLoot(ticksCatchable, loot)| == |loot|
    ensures ticksCatchable > 0 ==> forall k :: 0 <= k < |loot| ==>
      RolledLoot(ticksCatchable, loot)[k] == Transaction(loot[k], loot[k], true)
  {
  }

  /** On the client, or with no angler, reeling in does nothing and returns 0. */
  lemma RetractionWithoutAnglerIsIdle(h: HookFields, isRemote: bool, loot: seq<ItemStack>, fire: seq<Transaction> -> StopEvent)
    requires isRemote || h.angler.None?
    ensures Retraction(h, isRemote, loot, fire) == (h, 0)
  {
  }

  /** A cancelled stop event returns -1 and leaves the hook alive and the world untouched, with the angler's cause left pushed. */
  lemma CancelledRetractionKeepsHook(h: HookFields, isRemote: bool, loot: seq<ItemStack>, fire: seq<Transaction> -> StopEvent)
    requires !isRemote && h.angler.Some?
    requires fire(RolledLoot(h.ticksCatchable, loot)).cancelled
    ensures Retraction(h, isRemote, loot, fire).1 == -1
    ensures Retraction(h, isRemote, loot, fire).0.dead == h.dead
    ensures Retraction(h, isRemote, loot, fire).0.events == h.events
    ensures Retraction(h, isRemote, loot, fire).0.causeStack == h.causeStack + [h.angler.value]
  {
  }

  /**
   * An uncancelled retraction kills the hook. Its result is 2 in the ground;
   * otherwise 3 for a hooked item, 5 for another hooked entity, and with
   * nothing hooked 1 if any transaction survived the event, else 0.
   */
  lemma RetractionCodes(h: HookFields, isRemote: bool, loot: seq<ItemStack>, fire: seq<Transaction> -> StopEvent)
    requires !isRemote && h.angler.Some?
    requires !fire(RolledLoot(h.ticksCatchable, loot)).cancelled
    ensures Retraction(h, isRemote, loot, fire).0.dead
    ensures var code := Retraction(h, isRemote, loot, fire).1;
      var ts := fire(RolledLoot(h.ticksCatchable, loot)).transactions;
      && (h.inGround ==> code == 2)
      && (!h.inGround && h.caughtEntity.Some? ==> code == (if h.caughtEntity.value.isItem then 3 else 5))
      && (!h.inGround && h.caughtEntity.None? ==> code == (if |ts| > 0 then 1 else 0))
      && (|ts| > 0 ==> code >= 1)
  {
  }

  /** The angler's cause is popped only when some transaction was handed out. */
  lemma CausePoppedOnlyWithLoot(h: HookFields, isRemote: bool, loot: seq<ItemStack>, fire: seq<Transaction> -> StopEvent)
    requires !isRemote && h.angler.Some?
    requires !fire(RolledLoot(h.ticksCatchable, loot)).cancelled
    ensures var ts := fire(RolledLoot(h.ticksCatchable, loot)).transactions;
      Retraction(h, isRemote, loot, fire).0.causeStack == (if |ts| > 0 then h.causeStack else h.causeStack + [h.angler.value])
  {
  }

  /** Exactly the final stacks of the valid transactions are spawned as items. */
  lemma {:induction false} SpawnsOnlyValidFinals(player: nat, ts: seq<Transaction>, s: ItemStack)
    ensures SpawnedItem(s) in CatchEvents(player, ts) <==> exists t :: t in ts && t.valid && t.final == s
    decreases |ts|
  {
    if |ts| > 0 {
      var init := ts[..|ts| - 1];
      var t := ts[|ts| - 1];
      assert ts == init + [t];
      SpawnsOnlyValidFinals(player, init, s);
      if exists u :: u in ts && u.valid && u.final == s {
        var u :| u in ts && u.valid && u.final == s;
        if u != t {
          assert u in init;
        }
      }
    }
  }

  /** One orb per valid transaction, whatever its stack. */
  lemma {:induction false} OneOrbPerValidTransaction(player: nat, ts: seq<Transaction>)
    ensures OrbCount(CatchEvents(player, ts)) == ValidCount(ts)
    decreases |ts|
  {
    if |ts| > 0 {
      var init := ts[..|ts| - 1];
      var t := ts[|ts| - 1];
      var tail := CatchOf(player, t);
      assert CatchEvents(player, ts) == CatchEvents(player, init) + tail;
      OneOrbPerValidTransaction(player, init);
      OrbCountAppend(CatchEvents(player, init), tail);
      if t.valid {
        var fish := if IsFish(t.final) then [FishCaught(player)] else [];
        assert tail == [SpawnedItem(t.final), SpawnedXpOrb(player)] + fish;
        OrbCountAppend([SpawnedItem(t.final), SpawnedXpOrb(player)], fish);
        assert OrbCount(fish) == 0 by {
          if IsFish(t.final) {
            assert fish[..0] == [];
          }
        }
        assert [SpawnedItem(t.final), SpawnedXpOrb(player)][..1] == [SpawnedItem(t.final)];
        assert [SpawnedItem(t.final)][..0] == [];
      }
    }
  }

  function OrbCount(es: seq<WorldEvent>): nat
    decreases |es|
  {
    if |es| == 0 then 0 else OrbCount(es[..|es| - 1]) + (if es[|es| - 1].SpawnedXpOrb? then 1 else 0)
  }

  function ValidCount(ts: seq<Transaction>): nat
    decreases |ts|
  {
    if |ts| == 0 then 0 else ValidCount(ts[..|ts| - 1]) + (if ts[|ts| - 1].valid then 1 else 0)
  }

  lemma {:induction false} OrbCountAppend(a: seq<WorldEvent>, b: seq<WorldEvent>)
    ensures OrbCount(a + b) == OrbCount(a) + OrbCount(b)
    decreases |b|
  {
    if |b| > 0 {
      assert (a + b)[..|a + b| - 1] == a + b[..|b| - 1];
      OrbCountAppend(a, b[..|b| - 1]);
    } else {
      assert a + b == a;
    }
  }
}
