/** The ground probe (Assets/_Scripts/PlayerGroundCheck.cs): a child volume
    whose six trigger and collision callbacks write the grounded flag of the
    parent movement component through SetGroundedState. Enter callbacks set
    the flag whatever they touched; exit and stay callbacks ignore the
    player's own object. Nothing counts contacts, so the last callback that
    writes decides the flag. */
module GroundCheck {

  datatype ContactKind = Trigger | Collision

  datatype ContactPhase = Enter | Exit | Stay

  /** One engine callback; otherIsPlayer says that the other collider's game
      object is the player's own object. */
  datatype ContactEvent = ContactEvent(kind: ContactKind, phase: ContactPhase, otherIsPlayer: bool)

  /** The callbacks that reach SetGroundedState. */
  predicate Writes(e: ContactEvent)
  {
    e.phase == Enter || !e.otherIsPlayer
  }

  /** The grounded flag after callback `e`. */
  function Next(grounded: bool, e: ContactEvent): (r: bool)
    ensures e.phase == Enter ==> r
    ensures !Writes(e) ==> r == grounded
    ensures Writes(e) ==> (r <==> e.phase != Exit)
  {
    match e.phase
    case Enter => true
    case Exit => if e.otherIsPlayer then grounded else false
    case Stay => if e.otherIsPlayer then grounded else true
  }

  /** The flag after a run of callbacks, in order. */
  function Replay(grounded: bool, events: seq<ContactEvent>): bool
    decreases |events|
  {
    if events == [] then grounded else Replay(Next(grounded, events[0]), events[1..])
  }

  /** Replaying one more callback applies it to the replayed flag. */
  lemma {:induction false} ReplaySnoc(grounded: bool, events: seq<ContactEvent>, e: ContactEvent)
    ensures Replay(grounded, events + [e]) == Next(Replay(grounded, events), e)
    decreases |events|
  {
    if events != [] {
      assert (events + [e])[1..] == events[1..] + [e];
      ReplaySnoc(Next(grounded, events[0]), events[1..], e);
    }
  }

  /** Exit and stay callbacks from the player's own object never change the flag. */
  lemma {:induction false} SelfContactsIgnored(grounded: bool, events: seq<ContactEvent>)
    requires forall i :: 0 <= i < |events| ==> !Writes(events[i])
    ensures Replay(grounded, events) == grounded
    decreases |events|
  {
    if events != [] {
      SelfContactsIgnored(grounded, events[1..]);
    }
  }

  /** The last callback that writes decides the flag, whatever came before it:
      after entering two objects and leaving one, the player is airborne. */
  lemma {:induction false} LastWriteWins(grounded: bool, events: seq<ContactEvent>, k: nat)
    requires k < |events| && Writes(events[k])
    requires forall j :: k < j < |events| ==> !Writes(events[j])
    ensures Replay(grounded, events) == (events[k].phase != Exit)
    decreases k
  {
    if k == 0 {
      SelfContactsIgnored(Next(grounded, events[0]), events[1..]);
    } else {
      LastWriteWins(Next(grounded, events[0]), events[1..], k - 1);
    }
  }

  function OtherKind(kind: ContactKind): ContactKind
  {
    match kind
    case Trigger => Collision
    case Collision => Trigger
  }

  /** The same callbacks with every trigger turned into a collision and back. */
  function SwapKinds(events: seq<ContactEvent>): (r: seq<ContactEvent>)
    ensures |r| == |events|
    ensures forall i :: 0 <= i < |events| ==>
      r[i].phase == events[i].phase && r[i].otherIsPlayer == events[i].otherIsPlayer
  {
    seq(|events|, i requires 0 <= i < |events| => events[i].(kind := OtherKind(events[i].kind)))
  }

  /** Trigger and collision callbacks of the same phase act alike. */
  lemma {:induction false} KindIrrelevant(grounded: bool, events: seq<ContactEvent>)
    ensures Replay(grounded, SwapKinds(events)) == Replay(grounded, events)
    decreases |events|
  {
    if events != [] {
      var swapped := SwapKinds(events);
      assert SwapKinds(events[1..]) == swapped[1..];
      KindIrrelevant(Next(grounded, events[0]), events[1..]);
    }
  }

  /** The parent movement component; SetGroundedState only overwrites its flag. */
  class PlayerMovementD {
    var isGrounded: bool

    constructor (isGrounded: bool)
      ensures this.isGrounded == isGrounded
    {
      this.isGrounded := isGrounded;
    }

    method SetGroundedState(grounded: bool)
      modifies this`isGrounded
      ensures isGrounded == grounded
    {
      isGrounded := grounded;
    }
  }

  class PlayerGroundCheck {
    const playerMovementD: PlayerMovementD

    constructor (parent: PlayerMovementD)
      ensures playerMovementD == parent
    {
      playerMovementD := parent;
    }

    method OnTriggerEnter(otherIsPlayer: bool)
      modifies playerMovementD`isGrounded
      ensures playerMovementD.isGrounded
      ensures playerMovementD.isGrounded == Next(old(playerMovementD.isGrounded), ContactEvent(Trigger, Enter, otherIsPlayer))
    {
      playerMovementD.SetGroundedState(true);
    }

    method OnTriggerExit(otherIsPlayer: bool)
      modifies playerMovementD`isGrounded
      ensures playerMovementD.isGrounded == (otherIsPlayer && old(playerMovementD.isGrounded))
      ensures playerMovementD.isGrounded == Next(old(playerMovementD.isGrounded), ContactEvent(Trigger, Exit, otherIsPlayer))
    {
      if otherIsPlayer {
        return;
      }
      playerMovementD.SetGroundedState(false);
    }

    method OnTriggerStay(otherIsPlayer: bool)
      modifies playerMovementD`isGrounded
      ensures playerMovementD.isGrounded == (!otherIsPlayer || old(playerMovementD.isGrounded))
      ensures playerMovementD.isGrounded == Next(old(playerMovementD.isGrounded), ContactEvent(Trigger, Stay, otherIsPlayer))
    {
      if otherIsPlayer {
        return;
      }
      playerMovementD.SetGroundedState(true);
    }

    method OnCollisionEnter(otherIsPlayer: bool)
      modifies playerMovementD`isGrounded
      ensures playerMovementD.isGrounded
      ensures playerMovementD.isGrounded == Next(old(playerMovementD.isGrounded), ContactEvent(Collision, Enter, otherIsPlayer))
    {
      playerMovementD.SetGroundedState(true);
    }

    method OnCollisionExit(otherIsPlayer: bool)
      modifies playerMovementD`isGrounded
      ensures playerMovementD.isGrounded == (otherIsPlayer && old(playerMovementD.isGrounded))
      ensures playerMovementD.isGrounded == Next(old(playerMovementD.isGrounded), ContactEvent(Collision, Exit, otherIsPlayer))
    {
      if otherIsPlayer {
        return;
      }
      playerMovementD.SetGroundedState(false);
    }

    method OnCollisionStay(otherIsPlayer: bool)
      modifies playerMovementD`isGrounded
      ensures playerMovementD.isGrounded == (!otherIsPlayer || old(playerMovementD.isGrounded))
      ensures playerMovementD.isGrounded == Next(old(playerMovementD.isGrounded), ContactEvent(Collision, Stay, otherIsPlayer))
    {
      if otherIsPlayer {
        return;
      }
      playerMovementD.SetGroundedState(true);
    }
  }
}
