/** What the two wardrobe views share: the three accessory transactions a button can submit,
    the pending flags of those transactions, and the rule that disables every wardrobe
    button. */
module WardrobeActions {
  import opened EquippedQuery

  datatype Command =
    | Equip(petId: string, accessoryId: string)
    | Unequip(petId: string, accessoryType: string)
    | Mint(accessoryType: string)

  datatype Button = Button(command: Command, disabled: bool)

  /** An accessory row: the accessory shown and its one button. */
  datatype Item = Item(accessory: Accessory, button: Button)

  /** The `isPending` flags of the mint, equip and unequip mutations. */
  datatype WardrobeMutations = WardrobeMutations(minting: bool, equipping: bool, unequipping: bool)

  predicate IsProcessingWardrobe(m: WardrobeMutations) {
    m.minting || m.equipping || m.unequipping
  }

  /** `isAnyActionPending || isProcessingWardrobe`, the `disabled` of every wardrobe button. */
  predicate WardrobeLocked(isAnyActionPending: bool, m: WardrobeMutations) {
    isAnyActionPending || IsProcessingWardrobe(m)
  }

  /** The two mint buttons, glasses first. */
  function MintButtons(disabled: bool): seq<Button> {
    [Button(Mint("glasses"), disabled), Button(Mint("hat"), disabled)]
  }
}
