/** Optional values: what a game lookup returns when it may answer null. */
module Wrappers {
  datatype Option<+T> = None | Some(value: T)
}

/** Items and the places the animal sitter puts them: the player's inventory
    and the chests on the farm. */
module Items {

  /** A game object as the sitter handles it: the index of its kind in the
      game's object table (parentSheetIndex), its stack size and its quality. */
  datatype Item = Item(index: int, stack: int, quality: int)

  /** A store with a fixed number of slots; every item put in takes one slot.
      This stands for the game's own capacity test (couldInventoryAcceptThisItem
      for the inventory, Chest.addItem returning null for a chest). */
  datatype Store = Store(capacity: nat, items: seq<Item>)

  predicate HasRoom(s: Store)
  {
    |s.items| < s.capacity
  }

  function Put(s: Store, item: Item): Store
  {
    s.(items := s.items + [item])
  }

  /** What the chest manager may hand back for a position: a chest, or an
      object of some other kind. */
  datatype Container = Chest(store: Store) | OtherObject

  /** The player's inventory and the chests, a chest being named by its
      position in `chests`. */
  datatype Stores = Stores(inventory: Store, chests: seq<Container>)

  function ChestItems(cs: seq<Container>): seq<Item>
  {
    if cs == [] then []
    else (if cs[0].Chest? then cs[0].store.items else []) + ChestItems(cs[1..])
  }

  /** Every item held in the inventory or in one of the chests. */
  function AllItems(s: Stores): seq<Item>
  {
    s.inventory.items + ChestItems(s.chests)
  }

  function PutInChest(cs: seq<Container>, id: nat, item: Item): seq<Container>
    requires id < |cs| && cs[id].Chest?
  {
    cs[id := Chest(Put(cs[id].store, item))]
  }

  /** Putting an item into one chest adds exactly that item to the chests'
      contents taken together. */
  lemma {:induction false} PutInChestAddsOne(cs: seq<Container>, id: nat, item: Item)
    requires id < |cs| && cs[id].Chest?
    ensures |PutInChest(cs, id, item)| == |cs|
    ensures multiset(ChestItems(PutInChest(cs, id, item))) == multiset(ChestItems(cs)) + multiset{item}
  {
    var cs' := PutInChest(cs, id, item);
    if id == 0 {
      assert cs'[1..] == cs[1..];
    } else {
      PutInChestAddsOne(cs[1..], id - 1, item);
      assert cs'[1..] == PutInChest(cs[1..], id - 1, item);
    }
  }
}
