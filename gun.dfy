/** The single-shot rifle (Assets/_Scripts/SingleShotGun.cs): its ammunition,
    fire-rate and reload fields, which the player controller reads and writes,
    and one shot, which spends a round and reports what the raycast hit. The
    camera ray, audio, muzzle flash and bullet-impact decals are engine I/O:
    the ray's outcome is an input and the impact broadcast an output. */
module Gun {

  import opened Wrappers

  /** Default of the serialized maxAmmo field. */
  const DefaultMaxAmmo: int := 15

  /** Default of the serialized reloadTime field, in seconds. */
  const DefaultReloadTime: real := 4.0

  /** The fields of a gun as one value. */
  datatype GunState = GunState(
    fireRate: real,
    nextFire: real,
    maxAmmo: int,
    currentAmmo: int,
    reloadTime: real,
    isReloading: bool)

  /** What the raycast of one shot reports: nothing, or an object that may or
      may not carry an IDamageable component. */
  datatype RayHit = Miss | Hit(damageable: bool)

  /** The observable effects of one shot besides the spent round: the damage
      sent to the hit object's IDamageable, and whether the bullet-impact RPC
      is broadcast to every client. */
  datatype ShotEffects = ShotEffects(damageSent: Option<real>, impactBroadcast: bool)

  /** The effects of a shot whose ray reported `ray`, for a gun dealing `damage`. */
  function EffectsOf(ray: RayHit, damage: real): (e: ShotEffects)
    ensures e.impactBroadcast <==> ray.Hit?
    ensures e.damageSent.Some? <==> ray.Hit? && ray.damageable
    ensures e.damageSent.Some? ==> e.damageSent.value == damage
  {
    match ray
    case Miss => ShotEffects(None, false)
    case Hit(damageable) => ShotEffects(if damageable then Some(damage) else None, true)
  }

  class SingleShotGun {
    var fireRate: real
    var nextFire: real
    var maxAmmo: int
    var currentAmmo: int
    var reloadTime: real
    var isReloading: bool
    /** The damage of the gun's item info. */
    const damage: real

    function State(): (g: GunState)
      reads this
      ensures g.currentAmmo == currentAmmo && g.isReloading == isReloading && g.nextFire == nextFire
    {
      GunState(fireRate, nextFire, maxAmmo, currentAmmo, reloadTime, isReloading)
    }

    /** A gun whose serialized fields hold the given values; the others keep
        their field defaults until Start runs. */
    constructor (fireRate: real, maxAmmo: int, reloadTime: real, damage: real)
      ensures State() == GunState(fireRate, 0.0, maxAmmo, 0, reloadTime, false)
      ensures this.damage == damage
    {
      this.fireRate := fireRate;
      this.nextFire := 0.0;
      this.maxAmmo := maxAmmo;
      this.currentAmmo := 0;
      this.reloadTime := reloadTime;
      this.isReloading := false;
      this.damage := damage;
    }

    /** A gun that keeps the field defaults for the magazine and the reload time. */
    constructor WithDefaults(fireRate: real, damage: real)
      ensures State() == GunState(fireRate, 0.0, DefaultMaxAmmo, 0, DefaultReloadTime, false)
      ensures this.damage == damage
    {
      this.fireRate := fireRate;
      this.nextFire := 0.0;
      this.maxAmmo := DefaultMaxAmmo;
      this.currentAmmo := 0;
      this.reloadTime := DefaultReloadTime;
      this.isReloading := false;
      this.damage := damage;
    }

    /** Start fills the magazine. */
    method Start()
      modifies this`currentAmmo
      ensures currentAmmo == maxAmmo
    {
      currentAmmo := maxAmmo;
    }

    /** Using the gun is exactly one shot. */
    method Use(ray: RayHit) returns (effects: ShotEffects)
      modifies this`currentAmmo
      ensures currentAmmo == old(currentAmmo) - 1
      ensures effects == EffectsOf(ray, damage)
    {
      effects := Shoot(ray);
    }

    /** One shot spends a round whatever the ray hits, and does not look at
        the magazine first; damage and the impact broadcast need a hit. */
    method Shoot(ray: RayHit) returns (effects: ShotEffects)
      modifies this`currentAmmo
      ensures currentAmmo == old(currentAmmo) - 1
      ensures effects == EffectsOf(ray, damage)
    {
      currentAmmo := currentAmmo - 1;
      match ray {
        case Miss =>
          effects := ShotEffects(None, false);
        case Hit(damageable) =>
          var sent := if damageable then Some(damage) else None;
          effects := ShotEffects(sent, true);
      }
    }
  }
}
