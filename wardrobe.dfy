/** The inline wardrobe manager. Its content is a cascade of early returns: a loading line;
    else the equipped accessories (glasses, then hat) if any slot is filled; else, for a
    non-empty owned list, the first glasses and the first hat it holds; else two mint
    buttons. */
module Wardrobe {
  import opened Common
  import opened EquippedQuery
  import opened WardrobeActions

  /** The position of the first owned accessory of the given type, or `|owned|`. */
  function FirstIndexOfType(owned: seq<Accessory>, accessoryType: string): (i: nat)
    ensures i <= |owned|
    ensures i < |owned| ==> owned[i].accessoryType == accessoryType
    ensures forall j :: 0 <= j < i ==> owned[j].accessoryType != accessoryType
  {
    if owned == [] then 0
    else if owned[0].accessoryType == accessoryType then 0
    else 1 + FirstIndexOfType(owned[1..], accessoryType)
  }

  /** `owned.find(acc => acc.accessory_type === accessoryType)` */
  function FindOfType(owned: seq<Accessory>, accessoryType: string): (r: Option<Accessory>)
    ensures r.None? <==> forall i :: 0 <= i < |owned| ==> owned[i].accessoryType != accessoryType
    ensures r.Some? ==> exists i :: 0 <= i < |owned| && owned[i] == r.value
                                 && owned[i].accessoryType == accessoryType
                                 && forall j :: 0 <= j < i ==> owned[j].accessoryType != accessoryType
  {
    var i := FirstIndexOfType(owned, accessoryType);
    if i < |owned| then Some(owned[i]) else None
  }

  /** `hasGlasses || hasHat` */
  predicate HasAnyAccessory(eq: Option<Equipped>) {
    eq.Some? && (eq.value.glasses.Some? || eq.value.hat.Some?)
  }

  datatype View =
    | LoadingWardrobe
    | EquippedRows(rows: seq<Item>)
    | InventoryRows(rows: seq<Item>)
    | MintRow(buttons: seq<Button>)

  /** A row for an occupied slot: its Unequip names the slot literally. */
  function SlotRow(petId: string, slot: string, a: Option<Accessory>, disabled: bool): (r: seq<Item>)
    ensures |r| <= 1 && (r == [] <==> a.None?)
    ensures forall it :: it in r ==> it.accessory == a.value && it.button == Button(Unequip(petId, slot), disabled)
  {
    if a.Some? then [Item(a.value, Button(Unequip(petId, slot), disabled))] else []
  }

  /** A row for an accessory found in the inventory: its Equip names the object id. */
  function PickRow(petId: string, a: Option<Accessory>, disabled: bool): (r: seq<Item>)
    ensures |r| <= 1 && (r == [] <==> a.None?)
    ensures forall it :: it in r ==> it.accessory == a.value && it.button == Button(Equip(petId, a.value.id), disabled)
  {
    if a.Some? then [Item(a.value, Button(Equip(petId, a.value.id), disabled))] else []
  }

  /** `WardrobeManager.renderContent` */
  function RenderContent(
    petId: string, owned: Option<seq<Accessory>>, eq: Option<Equipped>,
    isLoading: bool, isAnyActionPending: bool, m: WardrobeMutations): (v: View)
    // the four views, in priority order
    ensures v.LoadingWardrobe? <==> isLoading
    ensures v.EquippedRows? <==> !isLoading && HasAnyAccessory(eq)
    ensures v.InventoryRows? <==> !isLoading && !HasAnyAccessory(eq) && owned.Some? && |owned.value| > 0
    ensures v.MintRow? <==> !isLoading && !HasAnyAccessory(eq) && (owned.None? || owned.value == [])
    // equipped: one row per filled slot, glasses first, each unequipping its slot by name
    ensures v.EquippedRows? ==>
      && |v.rows| == (if eq.value.glasses.Some? then 1 else 0) + (if eq.value.hat.Some? then 1 else 0)
      && (eq.value.glasses.Some? ==> v.rows[0] == Item(eq.value.glasses.value, Button(Unequip(petId, "glasses"), WardrobeLocked(isAnyActionPending, m))))
      && (eq.value.hat.Some? ==> v.rows[|v.rows| - 1] == Item(eq.value.hat.value, Button(Unequip(petId, "hat"), WardrobeLocked(isAnyActionPending, m))))
    // inventory: the first glasses and the first hat by list order, nothing else
    ensures v.InventoryRows? ==>
      && |v.rows| == (if FindOfType(owned.value, "glasses").Some? then 1 else 0) + (if FindOfType(owned.value, "hat").Some? then 1 else 0)
      && (forall it :: it in v.rows ==> it.accessory in owned.value && it.button == Button(Equip(petId, it.accessory.id), WardrobeLocked(isAnyActionPending, m)))
      && (FindOfType(owned.value, "glasses").Some? ==> v.rows[0].accessory == FindOfType(owned.value, "glasses").value)
      && (FindOfType(owned.value, "hat").Some? ==> v.rows[|v.rows| - 1].accessory == FindOfType(owned.value, "hat").value)
      && (v.rows == [] <==> forall a :: a in owned.value ==> a.accessoryType != "glasses" && a.accessoryType != "hat")
    ensures v.MintRow? ==> v.buttons == MintButtons(WardrobeLocked(isAnyActionPending, m))
  {
    if isLoading then LoadingWardrobe
    else
      var disabled := WardrobeLocked(isAnyActionPending, m);
      if HasAnyAccessory(eq) then
        EquippedRows(SlotRow(petId, "glasses", eq.value.glasses, disabled) + SlotRow(petId, "hat", eq.value.hat, disabled))
      else if owned.Some? && |owned.value| > 0 then
        var glasses := FindOfType(owned.value, "glasses");
        var hat := FindOfType(owned.value, "hat");
        InventoryRows(PickRow(petId, glasses, disabled) + PickRow(petId, hat, disabled))
      else
        MintRow(MintButtons(disabled))
  }
}
