/** The query that finds which accessories a pet wears. The pet's dynamic fields are searched
    for the two slot keys; each slot found is fetched and unwrapped, and a slot that is
    missing anywhere along the way is `null`. The two ledger calls are inputs: `fields` is
    the page `getDynamicFields` returns for the pet, and `fetch` stands for
    `getDynamicFieldObject` followed by `getSuiObjectFields`. */
module EquippedQuery {
  import opened Common

  /** An accessory object (`PetAccessoryStruct`). */
  datatype Accessory = Accessory(id: string, name: string, imageUrl: string, accessoryType: string)

  /** `EquippedAccessories`: the two slots, each an accessory or `null`. */
  datatype Equipped = Equipped(glasses: Option<Accessory>, hat: Option<Accessory>)

  /** The name of a dynamic field: a Move type tag and a value. */
  datatype FieldName = FieldName(nameType: string, value: string)

  datatype DynamicField = DynamicField(name: FieldName)

  /** What `getSuiObjectFields` yields for a slot: possibly nothing, possibly a wrapper
      without `value`, possibly a value without `fields`. */
  datatype Wrapped = Wrapped(value: Option<WrappedValue>)
  datatype WrappedValue = WrappedValue(fields: Option<Accessory>)

  const StringType: string := "0x1::string::String"
  const GlassesKey: string := "equipped_glasses"
  const HatKey: string := "equipped_hat"

  /** The `find` predicate: a string-typed name whose value is `key`. */
  predicate IsSlotField(f: DynamicField, key: string) {
    f.name.nameType == StringType && f.name.value == key
  }

  /** `!petId`, and its negation the query's `enabled: !!petId`: both a missing id and the
      empty string are falsy. */
  predicate HasPetId(petId: Option<string>) {
    petId.Some? && petId.value != ""
  }

  /** The position of the first field that names the slot, or `|fields|` when none does. */
  function FirstSlotIndex(fields: seq<DynamicField>, key: string): (i: nat)
    ensures i <= |fields|
    ensures i < |fields| ==> IsSlotField(fields[i], key)
    ensures forall j :: 0 <= j < i ==> !IsSlotField(fields[j], key)
  {
    if fields == [] then 0
    else if IsSlotField(fields[0], key) then 0
    else 1 + FirstSlotIndex(fields[1..], key)
  }

  /** `fields.find(...)`: the first field that names the slot. */
  function FindSlotField(fields: seq<DynamicField>, key: string): (r: Option<DynamicField>)
    ensures r.None? <==> forall i :: 0 <= i < |fields| ==> !IsSlotField(fields[i], key)
    ensures r.Some? ==> exists i :: 0 <= i < |fields| && fields[i] == r.value
                                 && IsSlotField(fields[i], key)
                                 && forall j :: 0 <= j < i ==> !IsSlotField(fields[j], key)
  {
    var i := FirstSlotIndex(fields, key);
    if i < |fields| then Some(fields[i]) else None
  }

  /** `wrapped && wrapped.value && wrapped.value.fields` */
  function Unwrap(w: Option<Wrapped>): (r: Option<Accessory>)
    ensures r.Some? <==> w.Some? && w.value.value.Some? && w.value.value.value.fields.Some?
    ensures r.Some? ==> r.value == w.value.value.value.fields.value
  {
    match w
    case None => None
    case Some(Wrapped(None)) => None
    case Some(Wrapped(Some(WrappedValue(f)))) => f
  }

  /** The value one slot ends with. */
  function ResolveSlot(fields: seq<DynamicField>, key: string, fetch: FieldName -> Option<Wrapped>): Option<Accessory> {
    match FindSlotField(fields, key)
    case None => None
    case Some(f) => Unwrap(fetch(f.name))
  }

  /** `queryFn`. Both slots start as `null` and are overwritten only when their field is
      found and the fetched object carries `value.fields`. */
  method QueryEquipped(petId: Option<string>, fields: seq<DynamicField>, fetch: FieldName -> Option<Wrapped>)
    returns (r: Equipped)
    ensures !HasPetId(petId) ==> r == Equipped(None, None)
    ensures HasPetId(petId) ==> r.glasses == ResolveSlot(fields, GlassesKey, fetch)
    ensures HasPetId(petId) ==> r.hat == ResolveSlot(fields, HatKey, fetch)
  {
    if !HasPetId(petId) {
      return Equipped(None, None);
    }
    var glassesField := FindSlotField(fields, GlassesKey);
    var hatField := FindSlotField(fields, HatKey);
    var glasses: Option<Accessory> := None;
    var hat: Option<Accessory> := None;
    if glassesField.Some? {
      var wrapped := fetch(glassesField.value.name);
      if wrapped.Some? && wrapped.value.value.Some? && wrapped.value.value.value.fields.Some? {
        glasses := wrapped.value.value.value.fields;
      }
    }
    if hatField.Some? {
      var wrapped := fetch(hatField.value.name);
      if wrapped.Some? && wrapped.value.value.Some? && wrapped.value.value.value.fields.Some? {
        hat := wrapped.value.value.value.fields;
      }
    }
    r := Equipped(glasses, hat);
  }

  /** A slot is `null` when no field names it; otherwise it is what the first field naming
      it unwraps to, which is `null` again when the fetched object lacks `value.fields`. */
  lemma ResolveSlotCases(fields: seq<DynamicField>, key: string, fetch: FieldName -> Option<Wrapped>)
    ensures (forall i :: 0 <= i < |fields| ==> !IsSlotField(fields[i], key)) ==> ResolveSlot(fields, key, fetch).None?
    ensures forall i :: 0 <= i < |fields| && IsSlotField(fields[i], key) && (forall j :: 0 <= j < i ==> !IsSlotField(fields[j], key)) ==>
      ResolveSlot(fields, key, fetch) == Unwrap(fetch(fields[i].name))
    ensures ResolveSlot(fields, key, fetch).Some? ==>
      exists i :: 0 <= i < |fields| && IsSlotField(fields[i], key) && Unwrap(fetch(fields[i].name)) == ResolveSlot(fields, key, fetch)
  {
    var k := FirstSlotIndex(fields, key);
    forall i | 0 <= i < |fields| && IsSlotField(fields[i], key) && (forall j :: 0 <= j < i ==> !IsSlotField(fields[j], key))
      ensures ResolveSlot(fields, key, fetch) == Unwrap(fetch(fields[i].name))
    {
      assert k == i;
    }
  }

  /** A field with the slot's value but another name type is ignored wherever it stands. */
  lemma {:induction false} OtherNameTypeIgnored(fields: seq<DynamicField>, k: nat, f: DynamicField, key: string, fetch: FieldName -> Option<Wrapped>)
    requires k <= |fields|
    requires f.name.value == key && f.name.nameType != StringType
    ensures ResolveSlot(fields[..k] + [f] + fields[k..], key, fetch) == ResolveSlot(fields, key, fetch)
    ensures FindSlotField(fields[..k] + [f] + fields[k..], key) == FindSlotField(fields, key)
    decreases k
  {
    var g := fields[..k] + [f] + fields[k..];
    if k == 0 {
      assert g == [f] + fields;
      assert g[1..] == fields;
    } else {
      assert g[0] == fields[0];
      assert g[1..] == fields[1..][..k - 1] + [f] + fields[1..][k - 1..];
      OtherNameTypeIgnored(fields[1..], k - 1, f, key, fetch);
    }
  }

  /** Fields that name the hat slot do not change which field the glasses slot uses. */
  lemma {:induction false} SlotSearchIgnoresOtherKeys(fields: seq<DynamicField>, k: nat, f: DynamicField, key: string)
    requires k <= |fields|
    requires f.name.value != key
    ensures FindSlotField(fields[..k] + [f] + fields[k..], key) == FindSlotField(fields, key)
    decreases k
  {
    var g := fields[..k] + [f] + fields[k..];
    if k == 0 {
      assert g == [f] + fields;
      assert g[1..] == fields;
    } else {
      assert g[0] == fields[0];
      assert g[1..] == fields[1..][..k - 1] + [f] + fields[1..][k - 1..];
      SlotSearchIgnoresOtherKeys(fields[1..], k - 1, f, key);
    }
  }

  /** The slots are resolved independently: a slot depends only on what is fetched for
      names carrying its own key, so a missing or malformed hat leaves the glasses as they
      are (take `key := GlassesKey`), and the other way round. */
  lemma SlotsIndependent(fields: seq<DynamicField>, key: string, fetch1: FieldName -> Option<Wrapped>, fetch2: FieldName -> Option<Wrapped>)
    requires forall n: FieldName :: n.value == key ==> fetch1(n) == fetch2(n)
    ensures ResolveSlot(fields, key, fetch1) == ResolveSlot(fields, key, fetch2)
  {
    match FindSlotField(fields, key)
    case None =>
    case Some(g) =>
      assert g.name.value == key;
  }
}
