/** The per-frame weapon gate of both player controllers: while the gun
    reloads nothing happens; an empty magazine starts the Reload coroutine
    instead of firing; otherwise a held fire button fires once the time has
    passed nextFire, which then moves 1 / fireRate past the current time.
    The coroutine is two steps: its first part runs inside StartCoroutine and
    sets isReloading; after the wait the engine resumes it to refill the
    magazine and clear isReloading. The wait itself is not modelled. */
module FireGate {

  import opened Gun

  datatype GateAction =
    | Busy         // the gun is reloading: the gate returns at once
    | StartReload  // the magazine is empty: the Reload coroutine starts
    | Fire         // the equipped item is used and nextFire moves on
    | Idle         // nothing to do this frame

  /** What the gate decides for a gun in state g, with the fire button held
      or not, at time `time`. */
  function Decide(g: GunState, fireHeld: bool, time: real): (a: GateAction)
    ensures a == Busy <==> g.isReloading
    ensures a == StartReload <==> !g.isReloading && g.currentAmmo <= 0
    ensures a == Fire <==> !g.isReloading && g.currentAmmo > 0 && fireHeld && time > g.nextFire
  {
    if g.isReloading then Busy
    else if g.currentAmmo <= 0 then StartReload
    else if fireHeld && time > g.nextFire then Fire
    else Idle
  }

  /** The shortest spacing between two shots. */
  function Interval(g: GunState): real
    requires g.fireRate > 0.0
  {
    1.0 / g.fireRate
  }

  /** An event the gated gun sees: one frame of the controller, or the
      engine resuming the Reload coroutine after its wait. */
  datatype GunEvent = Frame(fireHeld: bool, time: real) | ReloadDone

  predicate Fires(g: GunState, e: GunEvent)
  {
    e.Frame? && Decide(g, e.fireHeld, e.time) == Fire
  }

  /** The gun after one event, when the equipped item is the gun the gate
      reads, so that a shot spends one of its rounds. A coroutine only
      resumes while one runs, that is while isReloading holds; a ReloadDone
      at any other time leaves the gun as it is. */
  function Step(g: GunState, e: GunEvent): (r: GunState)
    requires g.fireRate > 0.0
    ensures r.fireRate == g.fireRate && r.maxAmmo == g.maxAmmo && r.reloadTime == g.reloadTime
    ensures Fires(g, e) ==> r.nextFire == e.time + Interval(g) && r.currentAmmo == g.currentAmmo - 1
    ensures !Fires(g, e) ==> r.nextFire == g.nextFire
    ensures e.Frame? && !Fires(g, e) ==> r.currentAmmo == g.currentAmmo
    ensures e.Frame? && g.isReloading ==> r == g
    ensures e.Frame? ==> (r.isReloading <==> g.isReloading || g.currentAmmo <= 0)
    ensures e == ReloadDone && g.isReloading ==> r.currentAmmo == g.maxAmmo && !r.isReloading
    ensures 0 <= g.currentAmmo <= g.maxAmmo ==> 0 <= r.currentAmmo <= r.maxAmmo
  {
    match e
    case ReloadDone =>
      if g.isReloading then g.(currentAmmo := g.maxAmmo, isReloading := false) else g
    case Frame(fireHeld, time) =>
      match Decide(g, fireHeld, time)
      case Busy => g
      case StartReload => g.(isReloading := true)
      case Fire => g.(nextFire := time + Interval(g), currentAmmo := g.currentAmmo - 1)
      case Idle => g
  }

  /** The gun after a run of events. */
  function Run(g: GunState, events: seq<GunEvent>): (r: GunState)
    requires g.fireRate > 0.0
    ensures r.fireRate == g.fireRate && r.maxAmmo == g.maxAmmo
    decreases |events|
  {
    if events == [] then g else Run(Step(g, events[0]), events[1..])
  }

  /** The times of the shots fired during a run of events. */
  function Shots(g: GunState, events: seq<GunEvent>): seq<real>
    requires g.fireRate > 0.0
    decreases |events|
  {
    if events == [] then []
    else
      var first := if Fires(g, events[0]) then [events[0].time] else [];
      first + Shots(Step(g, events[0]), events[1..])
  }

  /** Shots are spaced by more than 1 / fireRate, and the first one comes
      after the deadline the gun started with, whatever the frame times. */
  lemma {:induction false} ShotsSpaced(g: GunState, events: seq<GunEvent>)
    requires g.fireRate > 0.0
    ensures var t := Shots(g, events);
      && (|t| > 0 ==> t[0] > g.nextFire)
      && forall i :: 0 <= i < |t| - 1 ==> t[i + 1] > t[i] + Interval(g)
    decreases |events|
  {
    if events != [] {
      var next := Step(g, events[0]);
      var rest := Shots(next, events[1..]);
      ShotsSpaced(next, events[1..]);
      assert Interval(next) == Interval(g);
      var t := Shots(g, events);
      if Fires(g, events[0]) {
        assert t == [events[0].time] + rest;
        forall i | 0 <= i < |t| - 1
          ensures t[i + 1] > t[i] + Interval(g)
        {
          if i > 0 {
            assert t[i + 1] == rest[i] && t[i] == rest[i - 1];
          }
        }
      } else {
        assert t == rest;
      }
    }
  }

  /** Between reload completions every shot spends one round: a run without
      ReloadDone ends with as many rounds fewer as it fired shots. */
  lemma {:induction false} ShotsSpendAmmo(g: GunState, events: seq<GunEvent>)
    requires g.fireRate > 0.0
    requires forall i :: 0 <= i < |events| ==> events[i].Frame?
    ensures Run(g, events).currentAmmo == g.currentAmmo - |Shots(g, events)|
    decreases |events|
  {
    if events != [] {
      ShotsSpendAmmo(Step(g, events[0]), events[1..]);
    }
  }

  /** When the fired gun is the gated one, its magazine never goes negative
      nor above its capacity. */
  lemma {:induction false} AmmoStaysInRange(g: GunState, events: seq<GunEvent>)
    requires g.fireRate > 0.0
    requires 0 <= g.currentAmmo <= g.maxAmmo
    ensures 0 <= Run(g, events).currentAmmo <= g.maxAmmo
    decreases |events|
  {
    if events != [] {
      AmmoStaysInRange(Step(g, events[0]), events[1..]);
    }
  }

  /** So a run that reloads nowhere fires at most the rounds it started with. */
  lemma ShotsBoundedByMagazine(g: GunState, events: seq<GunEvent>)
    requires g.fireRate > 0.0
    requires 0 <= g.currentAmmo <= g.maxAmmo
    requires forall i :: 0 <= i < |events| ==> events[i].Frame?
    ensures |Shots(g, events)| <= g.currentAmmo
  {
    ShotsSpendAmmo(g, events);
    AmmoStaysInRange(g, events);
  }
}
