# Player loadout, weapon gate, look and ground-flag logic of Capsule Shooter 3D

This project models the small piece of sequential logic inside the game's two
first-person player controllers and their helpers:

- **Loadout selection.** Each item slot has an "active" flag (the item's game
  object being shown). The controller keeps the equipped slot `itemIndex` and
  `previousItemIndex`, the slot the last `EquipItem` recorded (-1 before the
  first). Number keys pick the lowest pressed slot. The mouse wheel moves to
  the next or previous slot and wraps around.
- **Weapon gate.** A frame does nothing while the gun reloads. An empty
  magazine starts the `Reload` coroutine. Otherwise a held fire button fires
  once the time has passed `nextFire`, and `nextFire` then moves `1 / fireRate`
  past the current time. The coroutine is modelled as two steps. Its first
  part runs inside `StartCoroutine` and sets `isReloading`. When the engine
  resumes it, it refills the magazine and clears `isReloading`. Pressing R
  calls `Reload()` without `StartCoroutine`, which only creates the iterator,
  so it has no effect.
- **The single-shot gun.** Every shot spends one round, whatever the ray hits.
  Damage and the impact broadcast need a hit.
- **Health.** Damage lowers the owner's health and can kill.
- **Pitch.** The vertical look rotation accumulates the mouse delta and is
  clamped to [-90, 90].
- **Ground flag.** The ground-check volume's six trigger and collision
  callbacks set or clear a grounded flag.

Each engine call becomes an input or an output. Inputs are key presses, the
wheel sign, the clock, the mouse delta, the player's height, the shot's
raycast outcome and "the other collider is the player itself". Outputs are
"jump force requested", "player died" and the shot's effects.

The current controller (`Assets/_Scripts/PlayerController.cs`) is the class
`PlayerController.PlayerController`. The older one (`Assets/Scripts/PlayerController.cs`)
is `LegacyPlayerController.PlayerController`. They share the pure
specifications in the modules `Loadout`, `Look` and `FireGate`. The gun is
`Gun.SingleShotGun`. The ground check is `GroundCheck.PlayerGroundCheck`.

The gate reads the fields of the gun that the controller finds by the name
"Rifle1" (`gunParams`). A shot, though, uses whichever item is equipped
(`items[itemIndex].Use()`). The classes keep the two apart, and every
controller contract says which gun it speaks about. When the equipped item is
the gated gun, one frame of the controller is exactly `FireGate.Step`. The
trace lemmas about `Step` then apply: shots are more than `1 / fireRate`
apart, and the magazine stays within `[0, maxAmmo]`.

The current ground check calls `SetGroundedState` on the parent
`PlayerMovementD` component, not on `PlayerController`. Nothing in the modelled
files ever clears the current controller's own `grounded` flag, which starts
true.

## Model

| member | source | states |
|---|---|---|
| `GroundCheck.Next` | Assets/_Scripts/PlayerGroundCheck.cs:14-58 | enter callbacks set the flag even for the player's own object; exit and stay callbacks from the player's own object leave it; exit from anything else clears it, stay sets it |
| `GroundCheck.ReplaySnoc` | Assets/_Scripts/PlayerGroundCheck.cs:14-58 | a run of callbacks is processed one at a time, in order, each on the flag the previous ones left |
| `GroundCheck.SelfContactsIgnored` | Assets/_Scripts/PlayerGroundCheck.cs:19-35 | any run of exit and stay callbacks from the player's own object leaves the flag as it was |
| `GroundCheck.LastWriteWins` | Assets/_Scripts/PlayerGroundCheck.cs:14-58 | the last callback that writes decides the flag whatever came before, so there is no contact counting: leaving one of two touched objects reports airborne |
| `GroundCheck.KindIrrelevant` | Assets/_Scripts/PlayerGroundCheck.cs:14-58 | trigger and collision callbacks of the same phase have identical effects on any run |
| `GroundCheck.PlayerGroundCheck.constructor` | Assets/_Scripts/PlayerGroundCheck.cs:9-12 | the ground volume is bound to the parent movement component that all its callbacks write through |
| `GroundCheck.PlayerGroundCheck.OnTriggerEnter` | Assets/_Scripts/PlayerGroundCheck.cs:14-17 | sets the flag whatever the other object is; changes nothing else |
| `GroundCheck.PlayerGroundCheck.OnTriggerExit` | Assets/_Scripts/PlayerGroundCheck.cs:19-26 | clears the flag unless the other object is the player's own; changes nothing else |
| `GroundCheck.PlayerGroundCheck.OnTriggerStay` | Assets/_Scripts/PlayerGroundCheck.cs:28-35 | sets the flag unless the other object is the player's own; changes nothing else |
| `GroundCheck.PlayerGroundCheck.OnCollisionEnter` | Assets/_Scripts/PlayerGroundCheck.cs:37-40 | as OnTriggerEnter |
| `GroundCheck.PlayerGroundCheck.OnCollisionExit` | Assets/_Scripts/PlayerGroundCheck.cs:42-49 | as OnTriggerExit |
| `GroundCheck.PlayerGroundCheck.OnCollisionStay` | Assets/_Scripts/PlayerGroundCheck.cs:51-58 | as OnTriggerStay |
| `Gun.EffectsOf` | Assets/_Scripts/SingleShotGun.cs:46-52 | the impact broadcast happens exactly on a hit; damage, of the gun's amount, is sent exactly when the hit object is damageable |
| `Gun.SingleShotGun.constructor` | Assets/_Scripts/SingleShotGun.cs:11-20 | the serialized fields hold the given values; nextFire and currentAmmo start at 0 and isReloading false |
| `Gun.SingleShotGun.WithDefaults` | Assets/_Scripts/SingleShotGun.cs:17-20 | the magazine holds 15 rounds and the reload takes 4 seconds by default; isReloading starts false |
| `Gun.SingleShotGun.Start` | Assets/_Scripts/SingleShotGun.cs:28-31 | fills the magazine to maxAmmo and changes nothing else |
| `Gun.SingleShotGun.Use` | Assets/_Scripts/SingleShotGun.cs:33-36 | one use is one shot: exactly one round fewer, and the shot's effects |
| `Gun.SingleShotGun.Shoot` | Assets/_Scripts/SingleShotGun.cs:39-53 | spends one round whether or not the ray hits and without checking the magazine; only currentAmmo changes |
| `Loadout.Equip` | Assets/_Scripts/PlayerController.cs:162-174 | equipping the recorded slot changes nothing; otherwise the slot is shown and recorded in both indices, the previously recorded slot is hidden, every other slot keeps its flag, the first equip hides nothing, and "exactly the recorded slot is shown" is preserved, so at most one slot is shown |
| `Loadout.FirstPressed` | Assets/_Scripts/PlayerController.cs:129-136 | the slot loop picks the lowest slot whose key went down, and none exactly when no key did |
| `Look.Clamp` | Assets/_Scripts/PlayerController.cs:104 | the result lies in the interval, equals the input inside it, and is the point of the interval nearest to the input |
| `Look.Pitch` | Assets/_Scripts/PlayerController.cs:103-104 | the vertical look rotation stays in [-90, 90] for any delta and sensitivity, and is the plain sum when that is in range |
| `FireGate.Decide` | Assets/_Scripts/PlayerController.cs:145-157 | busy exactly while reloading; a reload starts exactly when not reloading and the magazine is at or below 0; a shot exactly when the magazine has rounds, fire is held and the time is past nextFire |
| `FireGate.Step` | Assets/_Scripts/PlayerController.cs:145-157 | with the gated gun equipped, a frame that fires moves nextFire to the time plus 1 / fireRate and spends a round; no other frame moves nextFire; a frame while reloading changes nothing; a resumed reload refills and clears isReloading; the magazine stays within [0, maxAmmo] |
| `FireGate.Run` | Assets/_Scripts/PlayerController.cs:143-160 | a run of frames and reload completions keeps fireRate and maxAmmo |
| `FireGate.ShotsSpaced` | Assets/_Scripts/PlayerController.cs:153-155 | consecutive shots are more than 1 / fireRate apart and the first comes after the starting nextFire, for any frame times |
| `FireGate.ShotsSpendAmmo` | Assets/_Scripts/SingleShotGun.cs:33-44 | without a reload completing, the magazine ends exactly as many rounds lower as shots were fired |
| `FireGate.AmmoStaysInRange` | Assets/_Scripts/PlayerController.cs:147-151 | when the fired gun is the gated one, its magazine never drops below 0 nor exceeds maxAmmo |
| `FireGate.ShotsBoundedByMagazine` | Assets/_Scripts/PlayerController.cs:147-156 | without a reload completing, no more shots are fired than the rounds in the magazine |
| `PlayerController.ScrollTarget` | Assets/_Scripts/PlayerController.cs:138-140 | wheel up selects the next slot modulo the slot count, wheel down the previous one, no wheel nothing; the result is a valid slot |
| `PlayerController.AfterSwitch` | Assets/_Scripts/PlayerController.cs:127-141 | the weapon switch keeps the indices consistent and "exactly the recorded slot is shown"; with no key and no wheel nothing changes; a pressed key alone equips the lowest pressed slot |
| `PlayerController.GateReadsRifleAmmo` | Assets/_Scripts/PlayerController.cs:145-156 | a second gun with one round, equipped in slot 1 while the gate reads the rifle's full magazine, fires twice and ends at -1 rounds |
| `PlayerController.PlayerController.constructor` | Assets/_Scripts/PlayerController.cs:21-39 | full health (100), slot 0 and no recorded slot (-1), pitch 0, grounded, no reload running |
| `PlayerController.PlayerController.Start` | Assets/_Scripts/PlayerController.cs:56-68 | the owner equips slot 0; a remote copy changes no selection state |
| `PlayerController.PlayerController.Update` | Assets/_Scripts/PlayerController.cs:70-91 | a remote copy changes nothing; the owner's frame clamps the pitch, asks for a jump exactly on Space while grounded, switches weapon as AfterSwitch, gates the weapon as Decide on the rifle, reports the shot's effects exactly on a frame that fires, and dies whenever it is below -10, whatever the gate did; of the items only the equipped one's magazine can change, by one round per shot |
| `PlayerController.PlayerController.HandleLook` | Assets/_Scripts/PlayerController.cs:100-106 | the vertical look rotation becomes Pitch of the old one |
| `PlayerController.PlayerController.HandleJump` | Assets/_Scripts/PlayerController.cs:119-125 | a jump force is asked for exactly when Space went down this frame and the player is grounded |
| `PlayerController.PlayerController.HandleWeaponSwitch` | Assets/_Scripts/PlayerController.cs:127-141 | the slot loop stops at the first pressed key; the new selection is AfterSwitch of the old |
| `PlayerController.PlayerController.HandleWeaponUse` | Assets/_Scripts/PlayerController.cs:143-160 | the action is Decide on the rifle; a reload start sets isReloading; a shot moves the rifle's nextFire and spends a round of the equipped item; the R key changes nothing; with the rifle equipped this is Step |
| `PlayerController.PlayerController.EquipItem` | Assets/_Scripts/PlayerController.cs:162-181 | the selection becomes Equip of the old one; nothing else changes |
| `PlayerController.PlayerController.SetGroundedState` | Assets/_Scripts/PlayerController.cs:191-194 | overwrites the grounded flag and nothing else |
| `PlayerController.PlayerController.RPC_TakeDamage` | Assets/_Scripts/PlayerController.cs:201-210 | only the owner's health drops, by exactly the damage, and it dies exactly when health is at or below 0 |
| `PlayerController.PlayerController.BeginReload` | Assets/_Scripts/PlayerController.cs:217-220 | the reload is running and the rifle is reloading |
| `PlayerController.PlayerController.CompleteReload` | Assets/_Scripts/PlayerController.cs:222-227 | the rifle's magazine is refilled to maxAmmo and it no longer reloads |
| `LegacyPlayerController.ScrollTarget` | Assets/Scripts/PlayerController.cs:77-98 | no wheel selects nothing; wheel up moves to the next slot below the last two slots and wraps to slot 0 from either of the last two, so with two or more slots it never selects the last one; wheel down is the previous slot modulo the count; the result is a valid slot |
| `LegacyPlayerController.ScrollUpSkipsLastSlot` | Assets/Scripts/PlayerController.cs:77-87 | from the next-to-last slot, wheel up goes to slot 0 here and to the last slot in the current controller |
| `LegacyPlayerController.ScrollDownAgrees` | Assets/Scripts/PlayerController.cs:88-98 | wheel down selects the same slot in both controllers |
| `LegacyPlayerController.AfterSwitch` | Assets/Scripts/PlayerController.cs:69-98 | as PlayerController.AfterSwitch, with this controller's wheel |
| `LegacyPlayerController.DeathThresholdsDifferAtZero` | Assets/Scripts/PlayerController.cs:214-219 | the two controllers disagree about death from damage exactly when health ends at 0, which only the current one treats as dead |
| `LegacyPlayerController.PlayerController.constructor` | Assets/Scripts/PlayerController.cs:20-32 | full health (100), slot 0 and no recorded slot (-1), pitch 0, grounded, no reload running |
| `LegacyPlayerController.PlayerController.Start` | Assets/Scripts/PlayerController.cs:46-58 | the owner equips slot 0; a remote copy changes no selection state |
| `LegacyPlayerController.PlayerController.Update` | Assets/Scripts/PlayerController.cs:60-134 | as the current Update (including the shot's effects and only the equipped item's magazine changing), except that it switches weapon as this controller's AfterSwitch, whose wheel wraps up to slot 0 from the next-to-last slot, and that a frame that finds the rifle reloading or empty returns before the fall check, so it never dies |
| `LegacyPlayerController.PlayerController.SwitchWeapon` | Assets/Scripts/PlayerController.cs:69-98 | the slot loop stops at the first pressed key; the new selection is this controller's AfterSwitch of the old |
| `LegacyPlayerController.PlayerController.UseWeapon` | Assets/Scripts/PlayerController.cs:100-126 | as HandleWeaponUse of the current controller |
| `LegacyPlayerController.PlayerController.Look` | Assets/Scripts/PlayerController.cs:136-142 | the vertical look rotation becomes Pitch of the old one |
| `LegacyPlayerController.PlayerController.Jump` | Assets/Scripts/PlayerController.cs:150-156 | a jump force is asked for exactly when Space went down this frame and the grounded flag holds |
| `LegacyPlayerController.PlayerController.EquipItem` | Assets/Scripts/PlayerController.cs:158-177 | the selection becomes Equip of the old one; nothing else changes |
| `LegacyPlayerController.PlayerController.SetGroundedState` | Assets/Scripts/PlayerController.cs:187-190 | overwrites the grounded flag and nothing else |
| `LegacyPlayerController.PlayerController.RPC_TakeDamage` | Assets/Scripts/PlayerController.cs:207-220 | only the owner's health drops, by exactly the damage, and it dies only when health is below 0 |
| `LegacyPlayerController.PlayerController.BeginReload` | Assets/Scripts/PlayerController.cs:227-230 | the reload is running and the rifle is reloading |
| `LegacyPlayerController.PlayerController.CompleteReload` | Assets/Scripts/PlayerController.cs:232-235 | the rifle's magazine is refilled to maxAmmo and it no longer reloads |

The parent movement component, `GroundCheck.PlayerMovementD`, models two places in Assets/Other resources/tempScrs/PlayerMovementD.cs. Its constructor gives the serialized grounded flag (line 36) its starting value. Its `SetGroundedState` (lines 170-173) overwrites that flag with the given value and changes nothing else.

## Left out

- Movement is not modelled: `Vector3.SmoothDamp`, `Rigidbody.MovePosition` and `AddForce` are engine physics. A jump is only the output event "jump force requested".
- Body yaw (`transform.Rotate` by the mouse's horizontal delta) and writing the camera holder's angles are transform updates and are not modelled.
- Networking is not modelled: `SetCustomProperties` after `EquipItem`, `OnPlayerPropertiesUpdate`, the `TakeDamage` RPC broadcast, `RPC_Shoot`'s impact decal and `Destroy` of a remote copy's camera, rigidbody and UI. `PhotonView.IsMine` is the constant `isMine`, and `RPC_TakeDamage` is modelled as it runs on each copy.
- A remote client can drive `EquipItem` with any index through `OnPlayerPropertiesUpdate`. That path is not modelled, so `EquipItem` requires a valid slot.
- Audio, the muzzle flash, the animator's `isReloading` parameter, `Debug.Log` and the health bar's `fillAmount` are output with no effect on the modelled state.
- The camera raycast is the input `RayHit`. `GameObject.Find("Rifle1")` is the constructor argument `gunParams`; the player manager lookup is dropped, and its `Die` is the output event `died`.
- The reload wait (`WaitForSeconds(reloadTime)`) is not modelled. The engine resuming the coroutine is the separate step `CompleteReload`.
- FireGate.Step: a reload completion that arrives while no reload runs leaves the gun unchanged. This never happens in the controllers, where `CompleteReload` requires a running reload.
- Floats are `real`s, with no rounding, infinities or NaN. `fireRate` must be positive: with the field's default of 0, `1f / fireRate` would set `nextFire` to +infinity in the source, and the gun would never fire again.
- `currentAmmo` is an unbounded integer, so the 32-bit wrap-around below `int.MinValue` is not modelled.
- Number keys are a per-slot input, where slot i stands for the key named i + 1. Unity's refusal of key names such as "10" for a tenth slot is not modelled.
- Each controller's gated gun (the one found by the name "Rifle1") is assumed to be used by that controller alone and to be idle when the controller spawns. `GameObject.Find` searches the whole scene (Assets/_Scripts/PlayerController.cs:53), so several players could share one rifle; a reload started by one controller would then be seen by the others, which the model does not capture.
- Both controllers require at least one item slot. With none, the source's `EquipItem(0)` in `Start` and the wheel branches index outside the array.
- Every item is modelled as a `SingleShotGun`, the only `Item` subclass among the modelled files. `Item` itself has no logic.
- LegacyPlayerController.PlayerController.Update: the source writes the slot loop, the wheel and the weapon gate out in `Update`. The model moves them into `SwitchWeapon` and `UseWeapon`, with the same statements. `Update` keeps the gate's early return before the fall check. The split keeps each method's proof small.
- The parent component `PlayerMovementD` is modelled only by its `SetGroundedState`, which overwrites its flag. Its movement integration is not part of this model, and neither are the other character controllers, the scoreboard, the player list, name persistence, the billboard or the gun-switching sync component, which are UI, persistence and engine glue.
- The ground volume's enter callbacks set the flag even for the player's own object (Assets/_Scripts/PlayerGroundCheck.cs:14-17, 37-40).

## Findings

| source | as written | input that shows it | evidently intended | confidence | as-written member | corrected member |
|---|---|---|---|---|---|---|
| Assets/Scripts/PlayerController.cs:79 | scrolling up wraps to slot 0 when `itemIndex >= items.Length - 2` | three items with slot 1 equipped: wheel up selects slot 0, so slot 2 is never reached by scrolling up | wrap only from the last slot (`items.Length - 1`), as the current controller does | high; not executed | `LegacyPlayerController.ScrollUpSkipsLastSlot` | `PlayerController.ScrollTarget` |
| Assets/_Scripts/PlayerController.cs:145-156 | the gate reads the ammunition of the gun named "Rifle1" but fires `items[itemIndex]` | the rifle (15 rounds) in slot 0 and a second gun with a one-round magazine in slot 1; key 2, then fire held at times 2 and 4: the second gun ends at -1 rounds | the gate reads the magazine of the gun it fires, so no magazine goes below 0 | medium; not executed | `PlayerController.GateReadsRifleAmmo` | `FireGate.AmmoStaysInRange` |

The first row's corrected definition is the current controller's wheel. The second row's corrected behaviour is the trace model `FireGate.Step`, in which the fired gun is the gated one. Both controller classes model the code as written.
