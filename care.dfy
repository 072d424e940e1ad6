/** The care pass: what the sitter does to each animal it visits. */
module Care {
  import opened Wrappers
  import opened Items
  import opened Router
  import opened Configuration
  import opened Stats

  /** A C# byte. */
  type Byte = x: int | 0 <= x < 256

  const ByteMax: Byte := 255
  const FriendshipMax := 1000

  /** The fields of a farm animal that the sitter reads or writes. */
  datatype Animal = Animal(
    name: string,
    kind: string,
    wasPet: bool,
    age: int,
    ageWhenMature: int,
    fullness: Byte,
    happiness: Byte,
    friendship: int,
    currentProduce: int,
    produceQuality: int)

  /** The game's test for a young animal. */
  predicate IsBaby(a: Animal)
  {
    a.age < a.ageWhenMature
  }

  /** Whether the visit takes the animal's produce: there is some, harvesting
      is on, and the animal is not a pig whose truffles are to be left alone. */
  predicate Harvests(cfg: Settings, a: Animal)
  {
    a.currentProduce > 0 && cfg.harvestEnabled && (a.kind != "Pig" || cfg.takeTrufflesFromPigs)
  }

  function Count(b: bool): nat
  {
    if b then 1 else 0
  }

  /** One visit, or one part of it: the animal afterwards, what it adds to
      the statistics, and the produce item handed to the router (whose answer
      the visit ignores). */
  datatype Visit = Visit(animal: Animal, tasks: Tasks, produce: Option<Item>)

  /** The five care steps of the loop body, in their order: petting, growing
      up, feeding, cheering and befriending. Every guard reads only the field
      its own step writes, so each can be read off the animal as it was. */
  function Cared(cfg: Settings, a: Animal): Visit
  {
    var pet := !a.wasPet && cfg.pettingEnabled;
    var grow := cfg.growUpEnabled && IsBaby(a);
    var feed := cfg.maxFullnessEnabled && a.fullness < ByteMax;
    var cheer := cfg.maxHappinessEnabled && a.happiness < ByteMax;
    var befriend := cfg.maxFriendshipEnabled && a.friendship < FriendshipMax;
    Visit(
      a.(wasPet := if pet then true else a.wasPet,
         age := if grow then a.ageWhenMature + 1 else a.age,
         fullness := if feed then ByteMax else a.fullness,
         happiness := if cheer then ByteMax else a.happiness,
         friendship := if befriend then FriendshipMax else a.friendship),
      Tasks(Count(pet), Count(grow), Count(feed), Count(cheer), Count(befriend), 0, 0, 0, 0),
      None)
  }

  /** An animal part way through the care steps, with the statistics so far. */
  datatype Tending = Tending(animal: Animal, tasks: Tasks)

  /** The care steps one at a time, each bumping its own running counter, in
      the order the loop body takes them. */
  function PetStep(cfg: Settings, t: Tending): Tending
  {
    if NeedsPetting(cfg, t.animal) then
      Tending(t.animal.(wasPet := true), t.tasks.(animalsPet := t.tasks.animalsPet + 1))
    else t
  }

  function GrowStep(cfg: Settings, t: Tending): Tending
  {
    if NeedsGrowing(cfg, t.animal) then
      Tending(t.animal.(age := t.animal.ageWhenMature + 1), t.tasks.(aged := t.tasks.aged + 1))
    else t
  }

  function FeedStep(cfg: Settings, t: Tending): Tending
  {
    if NeedsFeeding(cfg, t.animal) then
      Tending(t.animal.(fullness := ByteMax), t.tasks.(fed := t.tasks.fed + 1))
    else t
  }

  function CheerStep(cfg: Settings, t: Tending): Tending
  {
    if NeedsCheering(cfg, t.animal) then
      Tending(t.animal.(happiness := ByteMax), t.tasks.(maxHappiness := t.tasks.maxHappiness + 1))
    else t
  }

  function BefriendStep(cfg: Settings, t: Tending): Tending
  {
    if NeedsBefriending(cfg, t.animal) then
      Tending(t.animal.(friendship := FriendshipMax), t.tasks.(maxFriendship := t.tasks.maxFriendship + 1))
    else t
  }

  /** Taken in sequence, the care steps leave the animal as Cared says and add
      its counters to the running statistics. */
  lemma StepsAreCared(cfg: Settings, a: Animal, t: Tasks)
    ensures BefriendStep(cfg, CheerStep(cfg, FeedStep(cfg, GrowStep(cfg, PetStep(cfg, Tending(a, t)))))) ==
      Tending(Cared(cfg, a).animal, Plus(t, Cared(cfg, a).tasks))
  {
  }

  /** The item a visit takes from the animal, if it takes one. */
  function ProduceOf(cfg: Settings, a: Animal): Option<Item>
  {
    if Harvests(cfg, a) then Some(Item(a.currentProduce, 1, a.produceQuality)) else None
  }

  /** The harvest step of the loop body: the produce is taken, counted as a
      truffle for a pig and as a product otherwise. */
  function Harvested(cfg: Settings, a: Animal): Visit
  {
    var take := Harvests(cfg, a);
    Visit(
      a.(currentProduce := if take then 0 else a.currentProduce),
      Tasks(0, 0, 0, 0, 0, Count(take && a.kind == "Pig"), Count(take && a.kind != "Pig"), 0, 0),
      ProduceOf(cfg, a))
  }

  /** The body of the per-animal loop: the care steps, then the harvest. */
  function VisitAnimal(cfg: Settings, a: Animal): (v: Visit)
    // the animal's identity is not touched
    ensures v.animal.name == a.name && v.animal.kind == a.kind
    ensures v.animal.ageWhenMature == a.ageWhenMature && v.animal.produceQuality == a.produceQuality
    // target values
    ensures v.animal.wasPet == (a.wasPet || cfg.pettingEnabled)
    ensures v.animal.fullness == if cfg.maxFullnessEnabled then ByteMax else a.fullness
    ensures v.animal.happiness == if cfg.maxHappinessEnabled then ByteMax else a.happiness
    ensures cfg.maxFriendshipEnabled ==> v.animal.friendship >= FriendshipMax
    ensures v.animal.friendship >= a.friendship
    ensures v.animal.friendship != a.friendship ==> v.animal.friendship == FriendshipMax
    ensures !cfg.maxFriendshipEnabled ==> v.animal.friendship == a.friendship
    // maturation is one way and only for the young
    ensures v.animal.age >= a.age
    ensures !IsBaby(a) ==> v.animal.age == a.age
    ensures cfg.growUpEnabled ==> !IsBaby(v.animal)
    ensures v.animal.age != a.age ==> v.animal.age == a.ageWhenMature + 1
    ensures v.animal.currentProduce == if Harvests(cfg, a) then 0 else a.currentProduce
    // each counter moves by one exactly when its field changes
    ensures v.tasks.animalsPet == Count(v.animal.wasPet != a.wasPet)
    ensures v.tasks.aged == Count(v.animal.age != a.age)
    ensures v.tasks.fed == Count(v.animal.fullness != a.fullness)
    ensures v.tasks.maxHappiness == Count(v.animal.happiness != a.happiness)
    ensures v.tasks.maxFriendship == Count(v.animal.friendship != a.friendship)
    ensures v.tasks.trufflesHarvested == Count(v.animal.currentProduce != a.currentProduce && a.kind == "Pig")
    ensures v.tasks.productsHarvested == Count(v.animal.currentProduce != a.currentProduce && a.kind != "Pig")
    ensures v.tasks.numActions == 0 && v.tasks.totalCost == 0
    // the produce is routed exactly when it is taken
    ensures v.produce.Some? <==> v.animal.currentProduce != a.currentProduce
    ensures v.produce.Some? ==> v.produce.value == Item(a.currentProduce, 1, a.produceQuality)
  {
    var c := Cared(cfg, a);
    var h := Harvested(cfg, c.animal);
    Visit(h.animal, c.tasks.(trufflesHarvested := h.tasks.trufflesHarvested,
                             productsHarvested := h.tasks.productsHarvested), h.produce)
  }

  /** Running the care steps and then the harvest step on running
      statistics adds to them what a visit adds. */
  lemma VisitInSteps(cfg: Settings, a: Animal, t: Tasks)
    ensures var c := Cared(cfg, a);
      var h := Harvested(cfg, c.animal);
      var v := VisitAnimal(cfg, a);
      v.animal == h.animal && v.produce == h.produce && Plus(Plus(t, c.tasks), h.tasks) == Plus(t, v.tasks)
  {
  }

  /** A visit to an animal that has just been visited does nothing. */
  lemma RevisitDoesNothing(cfg: Settings, a: Animal)
    ensures var v := VisitAnimal(cfg, a);
      VisitAnimal(cfg, v.animal) == Visit(v.animal, NoTasks(), None)
  {
  }

  /** The state of the care pass after some animals have been visited. */
  datatype Pass = Pass(animals: seq<Animal>, stores: Stores, tasks: Tasks, failed: bool)

  /** The loop over the animals, visiting them in order from fresh
      statistics; `failed` records that some produce could not be routed. */
  function CareAll(cfg: Settings, lookup: ChestLookup, s: Stores, animals: seq<Animal>): (p: Pass)
    ensures |p.animals| == |animals|
    ensures p.tasks.numActions == 0 && p.tasks.totalCost == 0
    ensures |p.stores.chests| == |s.chests|
    decreases |animals|
  {
    if animals == [] then Pass([], s, NoTasks(), false)
    else
      var n := |animals| - 1;
      var p := CareAll(cfg, lookup, s, animals[..n]);
      var v := VisitAnimal(cfg, animals[n]);
      RouteKeepsEveryItem(cfg.bypassInventory, lookup, p.stores, if v.produce.Some? then v.produce.value else Item(0, 0, 0));
      Step(cfg, lookup, p, animals[n])
  }

  /** Each animal is visited on its own: the animal at position i after the
      pass is the visit of the animal at position i before it, whatever the
      other animals are and whatever routing did. */
  lemma {:induction false} CareAllVisitsEach(cfg: Settings, lookup: ChestLookup, s: Stores, animals: seq<Animal>)
    ensures var p := CareAll(cfg, lookup, s, animals);
      forall i :: 0 <= i < |animals| ==> p.animals[i] == VisitAnimal(cfg, animals[i]).animal
    decreases |animals|
  {
    if animals != [] {
      CareAllVisitsEach(cfg, lookup, s, animals[..|animals| - 1]);
    }
  }

  /** The guards that each bump one counter. */
  datatype Guard = Petting | Growing | Feeding | Cheering | Befriending | Truffle | Product

  predicate Holds(cfg: Settings, g: Guard, a: Animal)
  {
    match g
    case Petting => NeedsPetting(cfg, a)
    case Growing => NeedsGrowing(cfg, a)
    case Feeding => NeedsFeeding(cfg, a)
    case Cheering => NeedsCheering(cfg, a)
    case Befriending => NeedsBefriending(cfg, a)
    case Truffle => GivesTruffle(cfg, a)
    case Product => GivesProduct(cfg, a)
  }

  /** The number of animals of `xs` for which guard `g` holds. */
  function CountIf(cfg: Settings, g: Guard, xs: seq<Animal>): nat
    decreases |xs|
  {
    if xs == [] then 0 else CountIf(cfg, g, xs[..|xs| - 1]) + Count(Holds(cfg, g, xs[|xs| - 1]))
  }

  predicate NeedsPetting(cfg: Settings, a: Animal) { !a.wasPet && cfg.pettingEnabled }
  predicate NeedsGrowing(cfg: Settings, a: Animal) { cfg.growUpEnabled && IsBaby(a) }
  predicate NeedsFeeding(cfg: Settings, a: Animal) { cfg.maxFullnessEnabled && a.fullness < ByteMax }
  predicate NeedsCheering(cfg: Settings, a: Animal) { cfg.maxHappinessEnabled && a.happiness < ByteMax }
  predicate NeedsBefriending(cfg: Settings, a: Animal) { cfg.maxFriendshipEnabled && a.friendship < FriendshipMax }
  predicate GivesTruffle(cfg: Settings, a: Animal) { Harvests(cfg, a) && a.kind == "Pig" }
  predicate GivesProduct(cfg: Settings, a: Animal) { Harvests(cfg, a) && a.kind != "Pig" }

  /** Each counter of the pass counts the animals whose guard held when the
      pass began. */
  lemma {:induction false} CareAllCounts(cfg: Settings, lookup: ChestLookup, s: Stores, animals: seq<Animal>)
    ensures var t := CareAll(cfg, lookup, s, animals).tasks;
      t.animalsPet == CountIf(cfg, Petting, animals) &&
      t.aged == CountIf(cfg, Growing, animals) &&
      t.fed == CountIf(cfg, Feeding, animals) &&
      t.maxHappiness == CountIf(cfg, Cheering, animals) &&
      t.maxFriendship == CountIf(cfg, Befriending, animals) &&
      t.trufflesHarvested == CountIf(cfg, Truffle, animals) &&
      t.productsHarvested == CountIf(cfg, Product, animals)
    decreases |animals|
  {
    if animals != [] {
      var n := |animals| - 1;
      CareAllCounts(cfg, lookup, s, animals[..n]);
      VisitCounts(cfg, animals[n]);
    }
  }

  /** A visit's counters are its guards, evaluated on the animal as found. */
  lemma VisitCounts(cfg: Settings, a: Animal)
    ensures VisitAnimal(cfg, a).tasks ==
      Tasks(Count(NeedsPetting(cfg, a)), Count(NeedsGrowing(cfg, a)), Count(NeedsFeeding(cfg, a)),
            Count(NeedsCheering(cfg, a)), Count(NeedsBefriending(cfg, a)),
            Count(GivesTruffle(cfg, a)), Count(GivesProduct(cfg, a)), 0, 0)
  {
  }

  /** Where a visit's produce goes, if it took any. */
  function RouteProduce(cfg: Settings, lookup: ChestLookup, s: Stores, produce: Option<Item>): Routed
  {
    if produce.Some? then Route(cfg.bypassInventory, lookup, s, produce.value) else Routed(true, s)
  }

  /** One step of the pass: visiting one more animal. */
  function Step(cfg: Settings, lookup: ChestLookup, p: Pass, a: Animal): Pass
  {
    var v := VisitAnimal(cfg, a);
    var r := RouteProduce(cfg, lookup, p.stores, v.produce);
    Pass(p.animals + [v.animal], r.stores, Plus(p.tasks, v.tasks), p.failed || !r.ok)
  }

  lemma CareAllSnoc(cfg: Settings, lookup: ChestLookup, s: Stores, xs: seq<Animal>, a: Animal)
    ensures CareAll(cfg, lookup, s, xs + [a]) == Step(cfg, lookup, CareAll(cfg, lookup, s, xs), a)
  {
    assert (xs + [a])[..|xs|] == xs;
  }

  lemma CareAllExtends(cfg: Settings, lookup: ChestLookup, s: Stores, xs: seq<Animal>, i: nat, q: Pass)
    requires i < |xs| && q == Step(cfg, lookup, CareAll(cfg, lookup, s, xs[..i]), xs[i])
    ensures CareAll(cfg, lookup, s, xs[..i + 1]) == q
  {
    assert xs[..i + 1][..i] == xs[..i];
  }

  lemma StepOverVisited(cfg: Settings, lookup: ChestLookup, p: Pass, a: Animal)
    requires VisitAnimal(cfg, a) == Visit(a, NoTasks(), None)
    ensures Step(cfg, lookup, p, a) == p.(animals := p.animals + [a], tasks := Plus(p.tasks, NoTasks()))
  {
  }

  /** A second pass over animals the first pass has just visited does no
      work, routes nothing and changes no animal. */
  lemma {:induction false} SecondPassDoesNothing(cfg: Settings, lookup: ChestLookup, s: Stores, s': Stores, animals: seq<Animal>)
    ensures var first := CareAll(cfg, lookup, s, animals);
      CareAll(cfg, lookup, s', first.animals) == Pass(first.animals, s', NoTasks(), false)
    decreases |animals|
  {
    if animals != [] {
      var n := |animals| - 1;
      var prefix := CareAll(cfg, lookup, s, animals[..n]);
      var v := VisitAnimal(cfg, animals[n]);
      assert animals[..n] + [animals[n]] == animals;
      CareAllSnoc(cfg, lookup, s, animals[..n], animals[n]);
      var firstAnimals := prefix.animals + [v.animal];
      assert CareAll(cfg, lookup, s, animals).animals == firstAnimals;
      SecondPassDoesNothing(cfg, lookup, s, s', animals[..n]);
      var again := Pass(prefix.animals, s', NoTasks(), false);
      assert CareAll(cfg, lookup, s', prefix.animals) == again;
      CareAllSnoc(cfg, lookup, s', prefix.animals, v.animal);
      assert CareAll(cfg, lookup, s', firstAnimals) == Step(cfg, lookup, again, v.animal);
      RevisitDoesNothing(cfg, animals[n]);
      StepOverVisited(cfg, lookup, again, v.animal);
      assert Plus(NoTasks(), NoTasks()) == NoTasks();
    }
  }
}
