/** The older player controller (Assets/Scripts/PlayerController.cs). It has
    the same fields as the current one, but weapon switching, the weapon gate
    and the fall check are written inline in Update, with early returns.
    It differs from the current controller in three places: scrolling up
    wraps to slot 0 one slot early; a frame that finds the gun reloading or
    empty returns before the fall check; and damage kills only below zero
    health, not at zero. */
module LegacyPlayerController {

  import opened Wrappers
  import opened Gun
  import opened Loadout
  import opened Look
  import opened FireGate
  import opened PlayerInput
  import Current = PlayerController

  /** The slot the mouse wheel selects, as this controller computes it:
      going up wraps to slot 0 from the last two slots, so scrolling up never
      reaches the last slot; going down wraps from slot 0 to the last. */
  function ScrollTarget(itemIndex: int, count: int, scroll: real): (r: Option<int>)
    requires count >= 1
    ensures r.None? <==> scroll == 0.0
    ensures 0 <= itemIndex < count && r.Some? ==> 0 <= r.value < count
    ensures scroll > 0.0 && count >= 2 ==> r.value != count - 1
    ensures 0 <= itemIndex < count - 2 && scroll > 0.0 ==> r == Some(itemIndex + 1)
    ensures count - 2 <= itemIndex < count && scroll > 0.0 ==> r == Some(0)
    ensures 0 <= itemIndex < count && scroll < 0.0 ==> r == Some((itemIndex + count - 1) % count)
  {
    Current.WrapsAround(itemIndex + count - 1, count);
    if scroll > 0.0 then Some(if itemIndex >= count - 2 then 0 else itemIndex + 1)
    else if scroll < 0.0 then Some(if itemIndex <= 0 then count - 1 else itemIndex - 1)
    else None
  }

  /** From the next-to-last slot, scrolling up here goes back to slot 0,
      where the current controller goes on to the last slot. */
  lemma ScrollUpSkipsLastSlot(count: int)
    requires count >= 2
    ensures ScrollTarget(count - 2, count, 1.0) == Some(0)
    ensures Current.ScrollTarget(count - 2, count, 1.0) == Some(count - 1)
  {
  }

  /** Scrolling down, the two controllers agree. */
  lemma ScrollDownAgrees(itemIndex: int, count: int, scroll: real)
    requires count >= 1 && scroll < 0.0
    ensures ScrollTarget(itemIndex, count, scroll) == Current.ScrollTarget(itemIndex, count, scroll)
  {
  }

  /** The slot loop and the mouse wheel, as written inline in Update. */
  function AfterSwitch(s: Selection, keysDown: seq<bool>, scroll: real): (r: Selection)
    requires Consistent(s) && |keysDown| == |s.active|
    ensures Consistent(r) && |r.active| == |s.active|
    ensures OnlyRecordedShown(s) ==> OnlyRecordedShown(r)
    ensures FirstPressed(keysDown).None? && scroll == 0.0 ==> r == s
    ensures FirstPressed(keysDown).Some? && scroll == 0.0 ==> r.itemIndex == FirstPressed(keysDown).value
  {
    var keyed := match FirstPressed(keysDown)
      case Some(k) => Equip(s, k)
      case None => s;
    match ScrollTarget(keyed.itemIndex, |keyed.active|, scroll)
    case Some(k) => Equip(keyed, k)
    case None => keyed
  }

  /** Damage kills only once health is below zero. */
  predicate DeadAt(health: real)
  {
    health < 0.0
  }

  /** The two controllers disagree about death from damage exactly when the
      damage leaves health at zero. */
  lemma DeathThresholdsDifferAtZero(health: real)
    ensures Current.DeadAt(health) != DeadAt(health) <==> health == 0.0
  {
  }

  class PlayerController {
    const isMine: bool
    const mouseSensitivity: real
    /** The gun found by the name "Rifle1" (parametr in this controller). */
    const gunParams: SingleShotGun
    const items: seq<SingleShotGun>
    const active: array<bool>
    var itemIndex: int
    var previousItemIndex: int
    var verticalLookRotation: real
    /** The grounded flag (spelled grouned in this controller). */
    var grounded: bool
    var currentHealth: real
    var reloadRunning: bool

    ghost function CurrentSelection(): Selection
      reads this, active
    {
      Selection(active[..], itemIndex, previousItemIndex)
    }

    ghost predicate Valid()
      reads this, active, gunParams
    {
      && |items| == active.Length
      && Consistent(CurrentSelection())
      && gunParams.fireRate > 0.0
      && reloadRunning == gunParams.isReloading
    }

    constructor (isMine: bool, mouseSensitivity: real, gunParams: SingleShotGun,
                 items: seq<SingleShotGun>, initiallyActive: seq<bool>)
      requires |items| >= 1 && |initiallyActive| == |items|
      requires gunParams.fireRate > 0.0 && !gunParams.isReloading
      ensures Valid() && fresh(active)
      ensures this.isMine == isMine && this.mouseSensitivity == mouseSensitivity
      ensures this.gunParams == gunParams && this.items == items
      ensures CurrentSelection() == Selection(initiallyActive, 0, -1)
      ensures verticalLookRotation == 0.0 && grounded && currentHealth == Current.MaxHealth && !reloadRunning
    {
      this.isMine := isMine;
      this.mouseSensitivity := mouseSensitivity;
      this.gunParams := gunParams;
      this.items := items;
      this.active := new bool[|items|](i requires 0 <= i < |items| => initiallyActive[i]);
      itemIndex := 0;
      previousItemIndex := -1;
      verticalLookRotation := 0.0;
      grounded := true;
      currentHealth := Current.MaxHealth;
      reloadRunning := false;
    }

    method Start()
      requires Valid()
      modifies this`itemIndex, this`previousItemIndex, active
      ensures Valid()
      ensures CurrentSelection() == if isMine then Equip(old(CurrentSelection()), 0) else old(CurrentSelection())
    {
      if isMine {
        EquipItem(0);
      }
    }

    /** One frame. In the source the slot loop, the mouse wheel and the
        weapon gate are written out here; they are the two blocks SwitchWeapon
        and UseWeapon below. A frame that finds the gun reloading or empty
        returns from the gate block, so it skips the R key and the fall
        check: such a frame never dies. */
    method Update(input: TickInput) returns (events: TickEvents)
      requires Valid() && |input.numberKeysDown| == active.Length
      modifies this`verticalLookRotation, this`itemIndex, this`previousItemIndex, this`reloadRunning
      modifies active, gunParams`isReloading, gunParams`nextFire, items`currentAmmo
      ensures Valid()
      ensures !isMine ==> events == Quiet && unchanged(this, active, gunParams) && unchanged(items)
      ensures isMine ==>
        && verticalLookRotation == Pitch(old(verticalLookRotation), input.mouseY, mouseSensitivity)
        && events.jumpRequested == (input.spaceDown && grounded)
        && CurrentSelection() == AfterSwitch(old(CurrentSelection()), input.numberKeysDown, input.scroll)
        && events.action == Decide(old(gunParams.State()), input.fireHeld, input.time)
        && events.died == (input.positionY < Current.FallDeathHeight && events.action in {Fire, Idle})
      ensures gunParams.fireRate == old(gunParams.fireRate) && gunParams.maxAmmo == old(gunParams.maxAmmo)
      ensures gunParams.isReloading == (old(gunParams.isReloading) || events.action == StartReload)
      ensures gunParams.nextFire ==
        if events.action == Fire then input.time + Interval(old(gunParams.State())) else old(gunParams.nextFire)
      ensures isMine && items[itemIndex] == gunParams ==>
        gunParams.State() == Step(old(gunParams.State()), Frame(input.fireHeld, input.time))
      ensures events.shot == if events.action == Fire then Some(EffectsOf(input.ray, items[itemIndex].damage)) else None
      ensures var fired := items[itemIndex];
        fired.currentAmmo == old(fired.currentAmmo) - (if events.action == Fire then 1 else 0)
      ensures forall j :: 0 <= j < |items| && items[j] != items[itemIndex] ==>
        items[j].currentAmmo == old(items[j].currentAmmo)
      ensures forall j :: 0 <= j < |items| ==>
        items[j].fireRate == old(items[j].fireRate) && items[j].maxAmmo == old(items[j].maxAmmo)
    {
      if !isMine {
        return Quiet;
      }
      Look(input.mouseY);
      var jump := Jump(input.spaceDown);
      SwitchWeapon(input.numberKeysDown, input.scroll);
      var action, shot := UseWeapon(input.fireHeld, input.time, input.reloadKeyDown, input.ray);
      events := TickEvents(jump, action, shot, false);
      if action == Busy || action == StartReload {
        return;
      }
      if input.positionY < Current.FallDeathHeight {
        events := events.(died := true);
      }
    }

    /** The slot loop and the mouse wheel of Update. */
    method SwitchWeapon(keysDown: seq<bool>, scroll: real)
      requires Valid() && |keysDown| == active.Length
      modifies this`itemIndex, this`previousItemIndex, active
      ensures Valid()
      ensures CurrentSelection() == AfterSwitch(old(CurrentSelection()), keysDown, scroll)
    {
      var i := 0;
      while i < active.Length
        invariant 0 <= i <= active.Length
        invariant Valid()
        invariant CurrentSelection() == old(CurrentSelection())
        invariant forall j :: 0 <= j < i ==> !keysDown[j]
      {
        if keysDown[i] {
          EquipItem(i);
          break;
        }
        i := i + 1;
      }
      if scroll > 0.0 {
        if itemIndex >= active.Length - 2 {
          EquipItem(0);
        } else {
          EquipItem(itemIndex + 1);
        }
      } else if scroll < 0.0 {
        if itemIndex <= 0 {
          EquipItem(active.Length - 1);
        } else {
          EquipItem(itemIndex - 1);
        }
      }
    }

    /** The weapon gate of Update, up to the fall check. The R key calls
        Reload without StartCoroutine: the iterator is never run. */
    method UseWeapon(fireHeld: bool, time: real, reloadKeyDown: bool, ray: RayHit)
      returns (action: GateAction, shot: Option<ShotEffects>)
      requires Valid() && 0 <= itemIndex < |items|
      modifies this`reloadRunning, gunParams`isReloading, gunParams`nextFire, (items[itemIndex] as SingleShotGun)`currentAmmo
      ensures Valid()
      ensures action == Decide(old(gunParams.State()), fireHeld, time)
      ensures gunParams.isReloading == (old(gunParams.isReloading) || action == StartReload)
      ensures gunParams.nextFire == if action == Fire then time + Interval(old(gunParams.State())) else old(gunParams.nextFire)
      ensures items[itemIndex].currentAmmo == old(items[itemIndex].currentAmmo) - (if action == Fire then 1 else 0)
      ensures shot == if action == Fire then Some(EffectsOf(ray, items[itemIndex].damage)) else None
      ensures items[itemIndex] == gunParams ==> gunParams.State() == Step(old(gunParams.State()), Frame(fireHeld, time))
    {
      if gunParams.isReloading {
        return Busy, None;
      }
      if gunParams.currentAmmo <= 0 {
        BeginReload();
        return StartReload, None;
      }
      action, shot := Idle, None;
      if fireHeld && time > gunParams.nextFire {
        gunParams.nextFire := time + 1.0 / gunParams.fireRate;
        var effects := items[itemIndex].Use(ray);
        action, shot := Fire, Some(effects);
      }
    }

    method Look(mouseY: real)
      modifies this`verticalLookRotation
      ensures verticalLookRotation == Pitch(old(verticalLookRotation), mouseY, mouseSensitivity)
    {
      verticalLookRotation := verticalLookRotation + mouseY * mouseSensitivity;
      verticalLookRotation := Clamp(verticalLookRotation, MinPitch, MaxPitch);
    }

    method Jump(spaceDown: bool) returns (jumpRequested: bool)
      ensures jumpRequested <==> spaceDown && grounded
    {
      jumpRequested := false;
      if spaceDown && grounded {
        jumpRequested := true;
      }
    }

    method EquipItem(index: int)
      requires Valid() && 0 <= index < active.Length
      modifies this`itemIndex, this`previousItemIndex, active
      ensures Valid()
      ensures CurrentSelection() == Equip(old(CurrentSelection()), index)
    {
      if index == previousItemIndex {
        return;
      }
      itemIndex := index;
      active[itemIndex] := true;
      if previousItemIndex != -1 {
        active[previousItemIndex] := false;
      }
      previousItemIndex := itemIndex;
    }

    method SetGroundedState(isGrounded: bool)
      modifies this`grounded
      ensures grounded == isGrounded
    {
      grounded := isGrounded;
    }

    /** Only the owner's health drops, by exactly the damage; it dies only
        below zero. */
    method RPC_TakeDamage(damage: real) returns (died: bool)
      modifies this`currentHealth
      ensures currentHealth == if isMine then old(currentHealth) - damage else old(currentHealth)
      ensures died <==> isMine && DeadAt(currentHealth)
    {
      if !isMine {
        return false;
      }
      currentHealth := currentHealth - damage;
      died := currentHealth < 0.0;
    }

    method BeginReload()
      modifies this`reloadRunning, gunParams`isReloading
      ensures reloadRunning && gunParams.isReloading
    {
      gunParams.isReloading := true;
      reloadRunning := true;
    }

    method CompleteReload()
      requires Valid() && reloadRunning
      modifies this`reloadRunning, gunParams`currentAmmo, gunParams`isReloading
      ensures Valid() && !reloadRunning
      ensures gunParams.currentAmmo == gunParams.maxAmmo && !gunParams.isReloading
      ensures gunParams.State() == Step(old(gunParams.State()), ReloadDone)
    {
      gunParams.currentAmmo := gunParams.maxAmmo;
      gunParams.isReloading := false;
      reloadRunning := false;
    }
  }
}
