/** Where a harvested item goes: the inventory, the chest preferred for the
    item's kind, the default chest, and the inventory once more. */
module Router {
  import opened Wrappers
  import opened Items

  /** The chest manager's answers: the chest preferred for each object index
      (an index without an entry gets null) and the default chest. A chest is
      named by its position in the chest list; a position outside the list
      also stands for null. */
  datatype ChestLookup = ChestLookup(preferred: map<int, nat>, default: Option<nat>)

  function GetChest(lookup: ChestLookup, index: int): Option<nat>
  {
    if index in lookup.preferred then Some(lookup.preferred[index]) else None
  }

  datatype Destination = Inventory | ChestAt(id: nat)

  function ChestStep(c: Option<nat>): seq<Destination>
  {
    if c.Some? then [ChestAt(c.value)] else []
  }

  /** The destinations tried for an item, in the order they are tried. */
  function Attempts(bypass: bool, lookup: ChestLookup, item: Item): seq<Destination>
  {
    (if bypass then [] else [Inventory])
    + ChestStep(GetChest(lookup, item.index))
    + ChestStep(lookup.default)
    + [Inventory]
  }

  /** Whether a destination takes the item: the inventory when it has room; a
      chest when the position holds a chest (not null, not another object)
      that has room. */
  predicate Accepts(s: Stores, d: Destination)
  {
    match d
    case Inventory => HasRoom(s.inventory)
    case ChestAt(id) => id < |s.chests| && s.chests[id].Chest? && HasRoom(s.chests[id].store)
  }

  function PlaceAt(s: Stores, d: Destination, item: Item): Stores
    requires Accepts(s, d)
  {
    match d
    case Inventory => s.(inventory := Put(s.inventory, item))
    case ChestAt(id) => s.(chests := PutInChest(s.chests, id, item))
  }

  /** The first destination of `ds` that takes an item, if any. */
  function FirstAccepting(s: Stores, ds: seq<Destination>): (r: Option<Destination>)
    ensures r.None? <==> forall d :: d in ds ==> !Accepts(s, d)
    ensures r.Some? ==> Accepts(s, r.value)
    ensures r.Some? ==> exists k :: 0 <= k < |ds| && ds[k] == r.value && forall j :: 0 <= j < k ==> !Accepts(s, ds[j])
  {
    if ds == [] then None
    else if Accepts(s, ds[0]) then Some(ds[0])
    else
      var r := FirstAccepting(s, ds[1..]);
      assert forall d :: d in ds ==> d == ds[0] || d in ds[1..];
      if r.Some? then
        var k :| 0 <= k < |ds[1..]| && ds[1..][k] == r.value && forall j :: 0 <= j < k ==> !Accepts(s, ds[1..][j]);
        assert ds[k + 1] == r.value;
        r
      else r
  }

  lemma FirstAcceptingCons(s: Stores, d: Destination, ds: seq<Destination>)
    ensures FirstAccepting(s, [d] + ds) == if Accepts(s, d) then Some(d) else FirstAccepting(s, ds)
  {
    assert ([d] + ds)[1..] == ds;
  }

  /** The branches of AddItemToInventory in the order they are written: the
      destination that takes the item, or None when every one refuses it. */
  function FirstTaker(bypass: bool, lookup: ChestLookup, s: Stores, item: Item): Option<Destination>
  {
    var preferred := GetChest(lookup, item.index);
    if !bypass && Accepts(s, Inventory) then Some(Inventory)
    else if preferred.Some? && Accepts(s, ChestAt(preferred.value)) then Some(ChestAt(preferred.value))
    else if lookup.default.Some? && Accepts(s, ChestAt(lookup.default.value)) then Some(ChestAt(lookup.default.value))
    else if Accepts(s, Inventory) then Some(Inventory)
    else None
  }

  lemma AttemptsPickFirstTaker(bypass: bool, lookup: ChestLookup, s: Stores, item: Item)
    ensures FirstAccepting(s, Attempts(bypass, lookup, item)) == FirstTaker(bypass, lookup, s, item)
  {
    var preferred := GetChest(lookup, item.index);
    var tail := ChestStep(lookup.default) + [Inventory];
    var rest := ChestStep(preferred) + tail;
    assert Attempts(bypass, lookup, item) == (if bypass then [] else [Inventory]) + rest;
    if !bypass {
      FirstAcceptingCons(s, Inventory, rest);
    }
    if preferred.Some? {
      FirstAcceptingCons(s, ChestAt(preferred.value), tail);
    }
    if lookup.default.Some? {
      FirstAcceptingCons(s, ChestAt(lookup.default.value), [Inventory]);
    }
    FirstAcceptingCons(s, Inventory, []);
  }

  /** The outcome of routing one item: whether it was placed, and the stores
      afterwards. */
  datatype Routed = Routed(ok: bool, stores: Stores)

  /** AddItemToInventory's decision: the inventory unless bypassed, then the
      preferred chest, then the default chest, then the inventory whatever the
      bypass setting; the first that takes the item gets it. */
  function Route(bypass: bool, lookup: ChestLookup, s: Stores, item: Item): Routed
  {
    var d := FirstTaker(bypass, lookup, s, item);
    if d.Some? then Routed(true, PlaceAt(s, d.value, item)) else Routed(false, s)
  }

  /** Routing succeeds exactly when some destination in the attempt order
      takes the item; the item then goes to the first such destination, and
      on failure nothing changes. */
  lemma RouteTriesInOrder(bypass: bool, lookup: ChestLookup, s: Stores, item: Item)
    ensures var r := Route(bypass, lookup, s, item);
      var first := FirstAccepting(s, Attempts(bypass, lookup, item));
      (r.ok <==> exists d :: d in Attempts(bypass, lookup, item) && Accepts(s, d)) &&
      (r.ok ==> first.Some? && r.stores == PlaceAt(s, first.value, item)) &&
      (!r.ok ==> r.stores == s)
  {
    AttemptsPickFirstTaker(bypass, lookup, s, item);
  }

  /** Routing never loses or duplicates an item: the stores hold exactly one
      more item, the routed one, when routing succeeds, and the same items
      when it fails. No chest appears or disappears. */
  lemma RouteKeepsEveryItem(bypass: bool, lookup: ChestLookup, s: Stores, item: Item)
    ensures var r := Route(bypass, lookup, s, item);
      |r.stores.chests| == |s.chests| &&
      multiset(AllItems(r.stores)) == multiset(AllItems(s)) + (if r.ok then multiset{item} else multiset{})
  {
    var r := Route(bypass, lookup, s, item);
    RouteTriesInOrder(bypass, lookup, s, item);
    if r.ok {
      var d := FirstAccepting(s, Attempts(bypass, lookup, item)).value;
      if d.ChestAt? {
        PutInChestAddsOne(s.chests, d.id, item);
      }
    }
  }
}
