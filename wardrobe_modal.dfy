/** The wardrobe dialog: an "Equipped" section (hat, then glasses), an "Inventory" section
    holding every owned accessory whose slot is free, and two mint buttons; a spinner
    instead while either query loads. */
module WardrobeModal {
  import opened Common
  import opened EquippedQuery
  import opened WardrobeActions

  /** `(type === 'hat' && equipped?.hat) || (type === 'glasses' && equipped?.glasses)` */
  predicate SlotOccupied(eq: Option<Equipped>, accessoryType: string) {
    eq.Some? && ((accessoryType == "hat" && eq.value.hat.Some?) || (accessoryType == "glasses" && eq.value.glasses.Some?))
  }

  /** The `filter` over the owned list: every accessory whose slot is free, each as often
      as it is owned, in the owned order. */
  function KeepUnoccupied(s: seq<Accessory>, eq: Option<Equipped>): (r: seq<Accessory>)
    ensures forall a :: a in r <==> a in s && !SlotOccupied(eq, a.accessoryType)
    ensures forall a :: multiset(r)[a] == if SlotOccupied(eq, a.accessoryType) then 0 else multiset(s)[a]
    ensures IsSubsequence(r, s)
  {
    if s == [] then []
    else
      var rest := KeepUnoccupied(s[1..], eq);
      assert s == [s[0]] + s[1..];
      if SlotOccupied(eq, s[0].accessoryType) then
        assert rest != [] ==> rest[0] in rest && rest[0] != s[0];
        rest
      else
        assert ([s[0]] + rest)[1..] == rest;
        [s[0]] + rest
  }

  /** `ownedAccessories?.filter(...) ?? []` */
  function Unequipped(owned: Option<seq<Accessory>>, eq: Option<Equipped>): (r: seq<Accessory>)
    ensures owned.None? ==> r == []
  {
    match owned
    case None => []
    case Some(s) => KeepUnoccupied(s, eq)
  }

  datatype Content =
    | Spinner
    | Sections(equipped: seq<Item>, noneEquippedNotice: bool, inventory: seq<Item>, emptyInventoryNotice: bool, mint: seq<Button>)

  /** An equipped row: its Unequip names the accessory's own type. */
  function UnequipItem(petId: string, a: Accessory, disabled: bool): Item {
    Item(a, Button(Unequip(petId, a.accessoryType), disabled))
  }

  /** An inventory row: its Equip names the accessory's object id. */
  function EquipItem(petId: string, a: Accessory, disabled: bool): Item {
    Item(a, Button(Equip(petId, a.id), disabled))
  }

  /** The Equipped section: the hat row, then the glasses row, each present when its slot
      is filled. */
  function EquippedItems(petId: string, eq: Option<Equipped>, disabled: bool): (r: seq<Item>)
    ensures |r| == if eq.None? then 0 else (if eq.value.hat.Some? then 1 else 0) + (if eq.value.glasses.Some? then 1 else 0)
    ensures r == [] <==> eq.None? || (eq.value.hat.None? && eq.value.glasses.None?)
    ensures eq.Some? && eq.value.hat.Some? ==> r[0].accessory == eq.value.hat.value
    ensures eq.Some? && eq.value.glasses.Some? ==> r[|r| - 1].accessory == eq.value.glasses.value
    ensures forall it :: it in r ==> it == UnequipItem(petId, it.accessory, disabled)
  {
    if eq.None? then []
    else
      (if eq.value.hat.Some? then [UnequipItem(petId, eq.value.hat.value, disabled)] else [])
      + (if eq.value.glasses.Some? then [UnequipItem(petId, eq.value.glasses.value, disabled)] else [])
  }

  /** The Inventory section: one Equip row per unequipped accessory, in order. */
  function InventoryItems(petId: string, s: seq<Accessory>, disabled: bool): seq<Item> {
    seq(|s|, i requires 0 <= i < |s| => EquipItem(petId, s[i], disabled))
  }

  /** `renderContent` */
  function RenderContent(
    petId: string, owned: Option<seq<Accessory>>, eq: Option<Equipped>,
    isLoading: bool, isAnyActionPending: bool, m: WardrobeMutations): (c: Content)
    ensures c.Spinner? <==> isLoading
    // the Equipped section: hat before glasses, the notice exactly when both slots are empty
    ensures c.Sections? ==> |c.equipped| == if eq.None? then 0 else (if eq.value.hat.Some? then 1 else 0) + (if eq.value.glasses.Some? then 1 else 0)
    ensures c.Sections? ==> (c.noneEquippedNotice <==> c.equipped == [])
    ensures c.Sections? ==> (c.equipped == [] <==> eq.None? || (eq.value.hat.None? && eq.value.glasses.None?))
    ensures c.Sections? && eq.Some? && eq.value.hat.Some? ==> c.equipped[0].accessory == eq.value.hat.value
    ensures c.Sections? && eq.Some? && eq.value.glasses.Some? ==> c.equipped[|c.equipped| - 1].accessory == eq.value.glasses.value
    ensures c.Sections? ==> forall it :: it in c.equipped ==> it.button.command == Unequip(petId, it.accessory.accessoryType)
    // the Inventory section: the unequipped list, in order, each with its own Equip
    ensures c.Sections? ==> |c.inventory| == |Unequipped(owned, eq)|
    ensures c.Sections? ==> forall i :: 0 <= i < |c.inventory| ==>
      c.inventory[i].accessory == Unequipped(owned, eq)[i] && c.inventory[i].button.command == Equip(petId, c.inventory[i].accessory.id)
    ensures c.Sections? ==> (c.emptyInventoryNotice <==> c.inventory == [])
    ensures c.Sections? ==> |c.mint| == 2 && c.mint[0].command == Mint("glasses") && c.mint[1].command == Mint("hat")
    // every button is locked by an outer action or any wardrobe mutation
    ensures c.Sections? ==>
      && (forall it :: it in c.equipped ==> it.button.disabled == WardrobeLocked(isAnyActionPending, m))
      && (forall it :: it in c.inventory ==> it.button.disabled == WardrobeLocked(isAnyActionPending, m))
      && (forall b :: b in c.mint ==> b.disabled == WardrobeLocked(isAnyActionPending, m))
  {
    if isLoading then Spinner
    else
      var disabled := WardrobeLocked(isAnyActionPending, m);
      var equipped := EquippedItems(petId, eq, disabled);
      var inventory := InventoryItems(petId, Unequipped(owned, eq), disabled);
      Sections(equipped, equipped == [], inventory, |inventory| == 0, MintButtons(disabled))
  }

  /** The inventory never offers an accessory for a slot that is taken, and offers every
      owned accessory whose slot is free. */
  lemma InventoryIsExactlyTheFreeSlots(owned: seq<Accessory>, eq: Option<Equipped>, a: Accessory)
    ensures a in Unequipped(Some(owned), eq) <==> a in owned && !SlotOccupied(eq, a.accessoryType)
    ensures IsSubsequence(Unequipped(Some(owned), eq), owned)
  {
  }
}
