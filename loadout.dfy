/** Loadout selection shared by both player controllers
    (Assets/_Scripts/PlayerController.cs and Assets/Scripts/PlayerController.cs):
    one "shown" flag per item slot (the item's game object being active), the
    equipped slot itemIndex and previousItemIndex, the slot the last EquipItem
    recorded (-1 before the first). */
module Loadout {

  import opened Wrappers

  datatype Selection = Selection(active: seq<bool>, itemIndex: int, previousItemIndex: int)

  /** The indices a controller keeps: itemIndex starts at 0 and previousItemIndex
      at -1, and every EquipItem sets both to the slot it equips. */
  ghost predicate Consistent(s: Selection)
  {
    && |s.active| >= 1
    && -1 <= s.previousItemIndex < |s.active|
    && s.itemIndex == (if s.previousItemIndex == -1 then 0 else s.previousItemIndex)
  }

  /** Exactly the recorded slot is shown; before the first EquipItem, none is. */
  ghost predicate OnlyRecordedShown(s: Selection)
  {
    forall j :: 0 <= j < |s.active| ==> (s.active[j] <==> j == s.previousItemIndex)
  }

  ghost predicate AtMostOneActive(active: seq<bool>)
  {
    forall i, j :: 0 <= i < |active| && 0 <= j < |active| && active[i] && active[j] ==> i == j
  }

  /** EquipItem(k): nothing happens when k is the recorded slot; otherwise slot
      k is shown, the recorded slot (if any) is hidden and k is recorded. */
  function Equip(s: Selection, k: int): (r: Selection)
    requires 0 <= k < |s.active| && -1 <= s.previousItemIndex < |s.active|
    ensures |r.active| == |s.active|
    ensures k == s.previousItemIndex ==> r == s
    ensures k != s.previousItemIndex ==>
      && r.itemIndex == k && r.previousItemIndex == k && r.active[k]
      && (s.previousItemIndex != -1 ==> !r.active[s.previousItemIndex])
      && (forall j :: 0 <= j < |s.active| && j != k && j != s.previousItemIndex ==> r.active[j] == s.active[j])
    ensures s.previousItemIndex == -1 ==> r.active == s.active[k := true]
    ensures Consistent(s) ==> Consistent(r) && r.itemIndex == r.previousItemIndex == k
    ensures OnlyRecordedShown(s) ==> OnlyRecordedShown(r) && AtMostOneActive(r.active) && r.active[k]
  {
    if k == s.previousItemIndex then s
    else
      var shown := s.active[k := true];
      var hidden := if s.previousItemIndex != -1 then shown[s.previousItemIndex := false] else shown;
      Selection(hidden, k, k)
  }

  /** The lowest slot whose number key went down this frame: the slot loop
      equips the first match and breaks. Key i stands for the key named i + 1. */
  function FirstPressed(keysDown: seq<bool>): (r: Option<nat>)
    ensures r.Some? ==> r.value < |keysDown| && keysDown[r.value]
    ensures r.Some? ==> forall j :: 0 <= j < r.value ==> !keysDown[j]
    ensures r.None? <==> forall j :: 0 <= j < |keysDown| ==> !keysDown[j]
    decreases |keysDown|
  {
    if keysDown == [] then None
    else if keysDown[0] then Some(0)
    else match FirstPressed(keysDown[1..])
      case None => None
      case Some(i) => Some(i + 1)
  }
}
