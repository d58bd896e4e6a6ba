/** The current player controller (Assets/_Scripts/PlayerController.cs):
    each frame of the owning client looks, jumps, switches weapon, works the
    weapon gate and checks for a fall; RPC_TakeDamage lowers health. The gun
    whose fields the gate reads is the one found by the name "Rifle1"
    (gunParams), while a shot uses whichever item is equipped; the model keeps
    the two apart. Movement smoothing, physics, networking and UI are left to
    the engine. */
module PlayerController {

  import opened Wrappers
  import opened Gun
  import opened Loadout
  import opened Look
  import opened FireGate
  import opened PlayerInput

  const MaxHealth: real := 100.0

  /** Below this height the player has fallen out of the level. */
  const FallDeathHeight: real := -10.0

  /** The slot the mouse wheel selects: the next slot going up and the
      previous one going down, wrapping around at both ends. */
  function ScrollTarget(itemIndex: int, count: int, scroll: real): (r: Option<int>)
    requires count >= 1
    ensures r.None? <==> scroll == 0.0
    ensures 0 <= itemIndex < count && r.Some? ==> 0 <= r.value < count
    ensures 0 <= itemIndex < count && scroll > 0.0 ==> r == Some((itemIndex + 1) % count)
    ensures 0 <= itemIndex < count && scroll < 0.0 ==> r == Some((itemIndex + count - 1) % count)
  {
    WrapsAround(itemIndex + 1, count);
    WrapsAround(itemIndex + count - 1, count);
    if scroll > 0.0 then Some(if itemIndex >= count - 1 then 0 else itemIndex + 1)
    else if scroll < 0.0 then Some(if itemIndex <= 0 then count - 1 else itemIndex - 1)
    else None
  }

  /** Going one past either end of the slots wraps to the other end. */
  lemma WrapsAround(x: int, count: int)
    requires count >= 1
    ensures 0 <= x < count ==> x % count == x
    ensures x == count ==> x % count == 0
    ensures 0 <= x - count < count ==> x % count == x - count
  {
  }

  /** HandleWeaponSwitch: the lowest pressed number key equips its slot, then
      the mouse wheel moves from whatever slot is equipped by then. */
  function AfterSwitch(s: Selection, keysDown: seq<bool>, scroll: real): (r: Selection)
    requires Consistent(s) && |keysDown| == |s.active|
    ensures Consistent(r) && |r.active| == |s.active|
    ensures OnlyRecordedShown(s) ==> OnlyRecordedShown(r)
    ensures FirstPressed(keysDown).None? && scroll == 0.0 ==> r == s
    ensures FirstPressed(keysDown).Some? && scroll == 0.0 ==> r.itemIndex == FirstPressed(keysDown).value
  {
    var keyed := match FirstPressed(keysDown)
      case Some(k) => Equip(s, k)
      case None => s;
    match ScrollTarget(keyed.itemIndex, |keyed.active|, scroll)
    case Some(k) => Equip(keyed, k)
    case None => keyed
  }

  /** Damage kills once health is at or below zero. */
  predicate DeadAt(health: real)
  {
    health <= 0.0
  }

  class PlayerController {
    /** Whether this copy belongs to the local client (PhotonView.IsMine). */
    const isMine: bool
    const mouseSensitivity: real
    /** The gun found by the name "Rifle1", whose fields the gate reads. */
    const gunParams: SingleShotGun
    /** The item slots; every item is a single-shot gun. */
    const items: seq<SingleShotGun>
    /** Whether each slot's item game object is active. */
    const active: array<bool>
    var itemIndex: int
    var previousItemIndex: int
    var verticalLookRotation: real
    var grounded: bool
    var currentHealth: real
    /** A Reload coroutine has been started and not yet resumed. */
    var reloadRunning: bool

    ghost function CurrentSelection(): Selection
      reads this, active
    {
      Selection(active[..], itemIndex, previousItemIndex)
    }

    ghost predicate Valid()
      reads this, active, gunParams
    {
      && |items| == active.Length
      && Consistent(CurrentSelection())
      && gunParams.fireRate > 0.0
      && reloadRunning == gunParams.isReloading
    }

    /** A freshly spawned controller, before Start; initiallyActive are the
        items' active flags as the scene has them. */
    constructor (isMine: bool, mouseSensitivity: real, gunParams: SingleShotGun,
                 items: seq<SingleShotGun>, initiallyActive: seq<bool>)
      requires |items| >= 1 && |initiallyActive| == |items|
      requires gunParams.fireRate > 0.0 && !gunParams.isReloading
      ensures Valid() && fresh(active)
      ensures this.isMine == isMine && this.mouseSensitivity == mouseSensitivity
      ensures this.gunParams == gunParams && this.items == items
      ensures CurrentSelection() == Selection(initiallyActive, 0, -1)
      ensures verticalLookRotation == 0.0 && grounded && currentHealth == MaxHealth && !reloadRunning
    {
      this.isMine := isMine;
      this.mouseSensitivity := mouseSensitivity;
      this.gunParams := gunParams;
      this.items := items;
      this.active := new bool[|items|](i requires 0 <= i < |items| => initiallyActive[i]);
      itemIndex := 0;
      previousItemIndex := -1;
      verticalLookRotation := 0.0;
      grounded := true;
      currentHealth := MaxHealth;
      reloadRunning := false;
    }

    /** The owner equips slot 0; a remote copy only discards its camera,
        rigidbody and UI, which are not modelled. */
    method Start()
      requires Valid()
      modifies this`itemIndex, this`previousItemIndex, active
      ensures Valid()
      ensures CurrentSelection() == if isMine then Equip(old(CurrentSelection()), 0) else old(CurrentSelection())
    {
      if isMine {
        EquipItem(0);
      }
    }

    /** One frame. A remote copy does nothing; the owner looks, may jump,
        switches weapon, works the weapon gate and dies if it fell, whatever
        the gate did. */
    method Update(input: TickInput) returns (events: TickEvents)
      requires Valid() && |input.numberKeysDown| == active.Length
      modifies this`verticalLookRotation, this`itemIndex, this`previousItemIndex, this`reloadRunning
      modifies active, gunParams`isReloading, gunParams`nextFire, items`currentAmmo
      ensures Valid()
      ensures !isMine ==> events == Quiet && unchanged(this, active, gunParams) && unchanged(items)
      ensures isMine ==>
        && verticalLookRotation == Pitch(old(verticalLookRotation), input.mouseY, mouseSensitivity)
        && events.jumpRequested == (input.spaceDown && grounded)
        && CurrentSelection() == AfterSwitch(old(CurrentSelection()), input.numberKeysDown, input.scroll)
        && events.action == Decide(old(gunParams.State()), input.fireHeld, input.time)
        && events.died == (input.positionY < FallDeathHeight)
      ensures gunParams.fireRate == old(gunParams.fireRate) && gunParams.maxAmmo == old(gunParams.maxAmmo)
      ensures gunParams.isReloading == (old(gunParams.isReloading) || events.action == StartReload)
      ensures gunParams.nextFire ==
        if events.action == Fire then input.time + Interval(old(gunParams.State())) else old(gunParams.nextFire)
      ensures isMine && items[itemIndex] == gunParams ==>
        gunParams.State() == Step(old(gunParams.State()), Frame(input.fireHeld, input.time))
      ensures events.shot == if events.action == Fire then Some(EffectsOf(input.ray, items[itemIndex].damage)) else None
      ensures var fired := items[itemIndex];
        fired.currentAmmo == old(fired.currentAmmo) - (if events.action == Fire then 1 else 0)
      ensures forall j :: 0 <= j < |items| && items[j] != items[itemIndex] ==>
        items[j].currentAmmo == old(items[j].currentAmmo)
      ensures forall j :: 0 <= j < |items| ==>
        items[j].fireRate == old(items[j].fireRate) && items[j].maxAmmo == old(items[j].maxAmmo)
    {
      if !isMine {
        return Quiet;
      }
      HandleLook(input.mouseY);
      var jump := HandleJump(input.spaceDown);
      HandleWeaponSwitch(input.numberKeysDown, input.scroll);
      var action, shot := HandleWeaponUse(input.fireHeld, input.time, input.reloadKeyDown, input.ray);
      var died := input.positionY < FallDeathHeight;
      events := TickEvents(jump, action, shot, died);
    }

    method HandleLook(mouseY: real)
      modifies this`verticalLookRotation
      ensures verticalLookRotation == Pitch(old(verticalLookRotation), mouseY, mouseSensitivity)
    {
      verticalLookRotation := verticalLookRotation + mouseY * mouseSensitivity;
      verticalLookRotation := Clamp(verticalLookRotation, MinPitch, MaxPitch);
    }

    /** A jump force is asked for only on the frame Space goes down while grounded. */
    method HandleJump(spaceDown: bool) returns (jumpRequested: bool)
      ensures jumpRequested <==> spaceDown && grounded
    {
      jumpRequested := false;
      if spaceDown && grounded {
        jumpRequested := true;
      }
    }

    method HandleWeaponSwitch(keysDown: seq<bool>, scroll: real)
      requires Valid() && |keysDown| == active.Length
      modifies this`itemIndex, this`previousItemIndex, active
      ensures Valid()
      ensures CurrentSelection() == AfterSwitch(old(CurrentSelection()), keysDown, scroll)
    {
      var i := 0;
      while i < active.Length
        invariant 0 <= i <= active.Length
        invariant Valid()
        invariant CurrentSelection() == old(CurrentSelection())
        invariant forall j :: 0 <= j < i ==> !keysDown[j]
      {
        if keysDown[i] {
          EquipItem(i);
          break;
        }
        i := i + 1;
      }
      var target := ScrollTarget(itemIndex, active.Length, scroll);
      if target.Some? {
        EquipItem(target.value);
      }
    }

    /** The weapon gate. The R key calls Reload without StartCoroutine, which
        only creates the iterator: it changes nothing. */
    method HandleWeaponUse(fireHeld: bool, time: real, reloadKeyDown: bool, ray: RayHit)
      returns (action: GateAction, shot: Option<ShotEffects>)
      requires Valid() && 0 <= itemIndex < |items|
      modifies this`reloadRunning, gunParams`isReloading, gunParams`nextFire, (items[itemIndex] as SingleShotGun)`currentAmmo
      ensures Valid()
      ensures action == Decide(old(gunParams.State()), fireHeld, time)
      ensures gunParams.isReloading == (old(gunParams.isReloading) || action == StartReload)
      ensures gunParams.nextFire == if action == Fire then time + Interval(old(gunParams.State())) else old(gunParams.nextFire)
      ensures items[itemIndex].currentAmmo == old(items[itemIndex].currentAmmo) - (if action == Fire then 1 else 0)
      ensures shot == if action == Fire then Some(EffectsOf(ray, items[itemIndex].damage)) else None
      ensures items[itemIndex] == gunParams ==> gunParams.State() == Step(old(gunParams.State()), Frame(fireHeld, time))
    {
      if gunParams.isReloading {
        return Busy, None;
      }
      if gunParams.currentAmmo <= 0 {
        BeginReload();
        return StartReload, None;
      }
      action, shot := Idle, None;
      if fireHeld && time > gunParams.nextFire {
        gunParams.nextFire := time + 1.0 / gunParams.fireRate;
        var effects := items[itemIndex].Use(ray);
        action, shot := Fire, Some(effects);
      }
    }

    method EquipItem(index: int)
      requires Valid() && 0 <= index < active.Length
      modifies this`itemIndex, this`previousItemIndex, active
      ensures Valid()
      ensures CurrentSelection() == Equip(old(CurrentSelection()), index)
    {
      if index == previousItemIndex {
        return;
      }
      itemIndex := index;
      active[itemIndex] := true;
      if previousItemIndex != -1 {
        active[previousItemIndex] := false;
      }
      previousItemIndex := itemIndex;
    }

    /** SetGroundedState only overwrites the flag. */
    method SetGroundedState(isGrounded: bool)
      modifies this`grounded
      ensures grounded == isGrounded
    {
      grounded := isGrounded;
    }

    /** Damage reaches every copy; only the owner's health drops, by exactly
        the damage, and it dies at or below zero. */
    method RPC_TakeDamage(damage: real) returns (died: bool)
      modifies this`currentHealth
      ensures currentHealth == if isMine then old(currentHealth) - damage else old(currentHealth)
      ensures died <==> isMine && DeadAt(currentHealth)
    {
      if !isMine {
        return false;
      }
      currentHealth := currentHealth - damage;
      died := currentHealth <= 0.0;
    }

    /** The part of the Reload coroutine that runs inside StartCoroutine. */
    method BeginReload()
      modifies this`reloadRunning, gunParams`isReloading
      ensures reloadRunning && gunParams.isReloading
    {
      gunParams.isReloading := true;
      reloadRunning := true;
    }

    /** The rest of the Reload coroutine, when the engine resumes it after the wait. */
    method CompleteReload()
      requires Valid() && reloadRunning
      modifies this`reloadRunning, gunParams`currentAmmo, gunParams`isReloading
      ensures Valid() && !reloadRunning
      ensures gunParams.currentAmmo == gunParams.maxAmmo && !gunParams.isReloading
      ensures gunParams.State() == Step(old(gunParams.State()), ReloadDone)
    {
      gunParams.currentAmmo := gunParams.maxAmmo;
      gunParams.isReloading := false;
      reloadRunning := false;
    }
  }

  /** The gate reads the ammunition of the gun named "Rifle1" but fires the
      equipped item. With the rifle in slot 0 and a second gun holding one
      round in slot 1, pressing key 2 and firing on two frames fires both
      times, and the second gun's magazine ends at -1. */
  method GateReadsRifleAmmo() returns (ammo: int)
    ensures ammo == -1
  {
    var rifle := new SingleShotGun(1.0, DefaultMaxAmmo, DefaultReloadTime, 10.0);
    rifle.Start();
    var second := new SingleShotGun(1.0, 1, DefaultReloadTime, 10.0);
    second.Start();
    var player := new PlayerController(true, 1.0, rifle, [rifle, second], [false, false]);
    player.Start();
    var frame := TickInput(0.0, false, [false, true], 0.0, true, false, 2.0, 0.0, Miss);
    var events := player.Update(frame);
    events := player.Update(frame.(numberKeysDown := [false, false], time := 4.0));
    ammo := second.currentAmmo;
  }
}
