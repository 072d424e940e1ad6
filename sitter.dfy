/** The animal sitter itself: its fields, and the key handler's steps as
    methods that change the game world step by step. */
module Sitter {
  import opened Wrappers
  import opened Items
  import opened Router
  import opened Configuration
  import opened Stats
  import opened Care
  import opened Harvest
  import opened Messages
  import opened Billing

  /** The player as the sitter sees it. Experience is the log of grants. */
  datatype Player = Player(
    money: int,
    professions: set<int>,
    married: bool,
    spouseName: string,
    hasPet: bool,
    catPerson: bool,
    xp: seq<XpGrant>)

  /** The part of the game the key handler reads and writes: the player, the
      inventory and chests, the farm animals, the objects lying on the farm,
      the farm's buildings, the names of the characters, and the reports
      shown so far. */
  datatype World = World(
    player: Player,
    stores: Stores,
    animals: seq<Animal>,
    farmObjects: seq<Placed>,
    buildings: seq<Building>,
    characters: set<string>,
    shown: seq<Report>)

  const NothingToDo := "There's nothing to do for the animals right now."

  /** The world during the truffle scan: the objects before `rest` have been
      scanned into `r`, which holds them as they now are, the stores and the
      experience granted so far. */
  predicate Scanning(w0: World, w: World, r: Scan, rest: seq<Placed>)
  {
    w == w0.(farmObjects := r.objects + rest, stores := r.stores, player := w0.player.(xp := w0.player.xp + r.xp))
  }

  /** The truffle scan once the first `i` objects of `os` are scanned into
      `r`: the world, the picked tiles, the counter and the flag all agree
      with `r`. */
  predicate ScanAt(bypass: bool, lookup: ChestLookup, w0: World, w: World, full: bool,
                   os: seq<Placed>, preps: seq<Prepared>, i: nat, r: Scan,
                   picked: seq<Coord>, harvested: nat, t0: nat, f0: bool)
  {
    |preps| == |os| && i <= |os| &&
    r == Collect(bypass, lookup, w0.stores, os[..i], preps[..i], IsTruffle, TruffleXp()) &&
    Scanning(w0, w, r, os[i..]) &&
    picked == r.picked && harvested == t0 + r.harvested && full == (f0 || r.failed)
  }

  lemma ScanStarts(bypass: bool, lookup: ChestLookup, w0: World, os: seq<Placed>, preps: seq<Prepared>,
                   t0: nat, f0: bool)
    requires os == w0.farmObjects && |preps| == |os|
    ensures ScanAt(bypass, lookup, w0, w0, f0, os, preps, 0,
                   Collect(bypass, lookup, w0.stores, [], [], IsTruffle, TruffleXp()), [], t0, t0, f0)
  {
    assert os[..0] == [] && preps[..0] == [] && os[0..] == os;
  }

  lemma ScanEnds(checker: string, bypass: bool, lookup: ChestLookup, w0: World, w: World, full: bool,
                 os: seq<Placed>, draws: seq<real>, r: Scan, picked: seq<Coord>, harvested: nat, t0: nat, f0: bool)
    requires |draws| == |os|
    requires ScanAt(bypass, lookup, w0, w, full, os, TrufflePreps(checker, w0.player.professions, os, draws),
                    |os|, r, picked, harvested, t0, f0)
    ensures r == TruffleScan(checker, w0.player.professions, bypass, lookup, w0.stores, os, draws)
    ensures Scanning(w0, w, r, []) && picked == r.picked && harvested == t0 + r.harvested && full == (f0 || r.failed)
  {
    var preps := TrufflePreps(checker, w0.player.professions, os, draws);
    assert os[..|os|] == os && preps[..|os|] == preps && os[|os|..] == [];
  }

  /** One coop's scan once the first `i` of its objects `os` are scanned
      into `r`: the objects stay where they are, and the stores, the
      experience, the picked tiles, the counter and the flag agree with `r`. */
  predicate CoopAt(bypass: bool, lookup: ChestLookup, w0: World, w: World, full: bool,
                   os: seq<Placed>, i: nat, r: Scan, picked: seq<Coord>, harvested: nat, h0: nat, f0: bool)
  {
    i <= |os| &&
    r == Collect(bypass, lookup, w0.stores, os[..i], CoopPreps(os)[..i], IsCoopProduct, CoopXp()) &&
    w == w0.(stores := r.stores, player := w0.player.(xp := w0.player.xp + r.xp)) &&
    picked == r.picked && harvested == h0 + r.harvested && full == (f0 || r.failed)
  }

  lemma CoopStarts(bypass: bool, lookup: ChestLookup, w0: World, full: bool, os: seq<Placed>, h0: nat)
    ensures CoopAt(bypass, lookup, w0, w0, full, os, 0,
                   Collect(bypass, lookup, w0.stores, [], [], IsCoopProduct, CoopXp()), [], h0, h0, full)
  {
    assert os[..0] == [] && CoopPreps(os)[..0] == [];
  }

  lemma CoopEnds(bypass: bool, lookup: ChestLookup, w0: World, w: World, full: bool,
                 os: seq<Placed>, r: Scan, picked: seq<Coord>, harvested: nat, h0: nat, f0: bool)
    requires CoopAt(bypass, lookup, w0, w, full, os, |os|, r, picked, harvested, h0, f0)
    ensures r == CoopScan(bypass, lookup, w0.stores, os)
  {
    assert os[..|os|] == os && CoopPreps(os)[..|os|] == CoopPreps(os);
  }

  /** After the `i`-th object is routed (when it is a product) the scan is
      one object on. */
  lemma CoopTaken(bypass: bool, lookup: ChestLookup, w0: World, w: World, w': World, full: bool, full': bool,
                  os: seq<Placed>, i: nat, r: Scan, picked: seq<Coord>, picked': seq<Coord>,
                  harvested: nat, harvested': nat, h0: nat, f0: bool)
    requires i < |os| && CoopAt(bypass, lookup, w0, w, full, os, i, r, picked, harvested, h0, f0)
    requires var routed := Route(bypass, lookup, w.stores, os[i].item);
      var taken := IsCoopProduct(os[i]) && routed.ok;
      w' == (if taken then w.(stores := routed.stores, player := w.player.(xp := w.player.xp + [CoopXp()]))
             else if IsCoopProduct(os[i]) then w.(stores := routed.stores) else w) &&
      picked' == (if taken then picked + [os[i].tile] else picked) &&
      harvested' == (if taken then harvested + 1 else harvested) &&
      full' == (if IsCoopProduct(os[i]) then full || !routed.ok else full)
    ensures CoopAt(bypass, lookup, w0, w', full', os, i + 1,
                   CollectStep(bypass, lookup, r, os[i], Prepared(os[i], false), IsCoopProduct, CoopXp()),
                   picked', harvested', h0, f0)
  {
    assert Grants(1, CoopXp()) == [CoopXp()];
    CollectExtends(bypass, lookup, w0.stores, os, CoopPreps(os), IsCoopProduct, CoopXp(), i,
                   CollectStep(bypass, lookup, r, os[i], Prepared(os[i], false), IsCoopProduct, CoopXp()));
  }

  /** The building loop once the first `j` buildings of `bs` are done into
      `c`: the buildings before `j` are as `c` left them, the rest as they
      were; the stores, the experience, the counter and the flag agree with
      `c`. */
  predicate CoopsAt(bypass: bool, lookup: ChestLookup, w0: World, w: World, full: bool,
                    bs: seq<Building>, j: nat, c: Coops, harvested: nat, h0: nat, f0: bool)
  {
    j <= |bs| &&
    c == CoopsAll(bypass, lookup, w0.stores, bs[..j]) &&
    w == w0.(buildings := c.buildings + bs[j..], stores := c.stores, player := w0.player.(xp := w0.player.xp + c.xp)) &&
    harvested == h0 + c.harvested && full == (f0 || c.failed)
  }

  lemma CoopsStart(bypass: bool, lookup: ChestLookup, w0: World, full: bool, h0: nat)
    ensures CoopsAt(bypass, lookup, w0, w0, full, w0.buildings, 0, CoopsAll(bypass, lookup, w0.stores, []), h0, h0, full)
  {
    assert w0.buildings[..0] == [] && w0.buildings[0..] == w0.buildings;
  }

  lemma CoopsEnd(bypass: bool, lookup: ChestLookup, w0: World, w: World, full: bool,
                 bs: seq<Building>, c: Coops, harvested: nat, h0: nat, f0: bool)
    requires CoopsAt(bypass, lookup, w0, w, full, bs, |bs|, c, harvested, h0, f0)
    ensures c == CoopsAll(bypass, lookup, w0.stores, bs)
    ensures w == w0.(buildings := c.buildings, stores := c.stores, player := w0.player.(xp := w0.player.xp + c.xp))
  {
    assert bs[..|bs|] == bs && bs[|bs|..] == [];
  }

  /** After the `j`-th building, a coop, is scanned and cleared the
      building loop is one building on. */
  lemma CoopDone(bypass: bool, lookup: ChestLookup, w0: World, w: World, w': World, full: bool, full': bool,
                 bs: seq<Building>, j: nat, c: Coops, harvested: nat, harvested': nat, h0: nat, f0: bool)
    requires j < |bs| && bs[j].isCoop && CoopsAt(bypass, lookup, w0, w, full, bs, j, c, harvested, h0, f0)
    requires var sc := CoopScan(bypass, lookup, w.stores, bs[j].objects);
      w' == w.(buildings := w.buildings[j := bs[j].(objects := Without(bs[j].objects, sc.picked))],
               stores := sc.stores, player := w.player.(xp := w.player.xp + sc.xp)) &&
      harvested' == harvested + sc.harvested && full' == (full || sc.failed)
    ensures CoopsAt(bypass, lookup, w0, w', full', bs, j + 1, CoopsStep(bypass, lookup, c, bs[j]), harvested', h0, f0)
  {
    var c' := CoopsStep(bypass, lookup, c, bs[j]);
    CoopScanCounts(bypass, lookup, c.stores, bs[j].objects);
    CoopsAllExtends(bypass, lookup, w0.stores, bs, j, c');
    ReplaceNext(c.buildings, bs[j..], c'.buildings[j]);
    assert bs[j..][1..] == bs[j + 1..];
  }

  /** A building that is not a coop is passed over. */
  lemma OtherDone(bypass: bool, lookup: ChestLookup, w0: World, w: World, full: bool,
                  bs: seq<Building>, j: nat, c: Coops, harvested: nat, h0: nat, f0: bool)
    requires j < |bs| && !bs[j].isCoop && CoopsAt(bypass, lookup, w0, w, full, bs, j, c, harvested, h0, f0)
    ensures CoopsAt(bypass, lookup, w0, w, full, bs, j + 1, CoopsStep(bypass, lookup, c, bs[j]), harvested, h0, f0)
  {
    var c' := CoopsStep(bypass, lookup, c, bs[j]);
    CoopsAllExtends(bypass, lookup, w0.stores, bs, j, c');
    ReplaceNext(c.buildings, bs[j..], bs[j]);
    assert bs[j..][1..] == bs[j + 1..];
  }

  /** The world, the statistics and the full flag's cause after the three
      phases of a run: the care pass, the truffle scan, the coop scan. */
  datatype Gathered = Gathered(world: World, stats: Tasks, failed: bool)

  function Gather(st: Settings, lookup: ChestLookup, w: World, draws: seq<real>): Gathered
    requires |draws| == |w.farmObjects|
  {
    var p := CareAll(st, lookup, w.stores, w.animals);
    var w1 := w.(animals := p.animals, stores := p.stores);
    var r := TruffleScan(st.checker, w1.player.professions, st.bypassInventory, lookup, w1.stores, w1.farmObjects, draws);
    var w2 := w1.(farmObjects := Without(r.objects, r.picked), stores := r.stores,
                  player := w1.player.(xp := w1.player.xp + r.xp));
    var c := CoopsAll(st.bypassInventory, lookup, w2.stores, w2.buildings);
    var w3 := w2.(buildings := c.buildings, stores := c.stores, player := w2.player.(xp := w2.player.xp + c.xp));
    Gathered(w3, p.tasks.(trufflesHarvested := p.tasks.trufflesHarvested + r.harvested,
                          productsHarvested := p.tasks.productsHarvested + c.harvested),
             p.failed || r.failed || c.failed)
  }

  /** The run's counters: the care counters count the animals whose guard
      held; every truffle and coop product taken from the ground earns one
      experience grant, while produce taken from animals earns none. The
      run spends no money, shows nothing and keeps every animal and
      building. */
  lemma GatherCounts(st: Settings, lookup: ChestLookup, w: World, draws: seq<real>)
    requires |draws| == |w.farmObjects|
    ensures var g := Gather(st, lookup, w, draws);
      g.stats.animalsPet == CountIf(st, Petting, w.animals) &&
      g.stats.aged == CountIf(st, Growing, w.animals) &&
      g.stats.fed == CountIf(st, Feeding, w.animals) &&
      g.stats.maxHappiness == CountIf(st, Cheering, w.animals) &&
      g.stats.maxFriendship == CountIf(st, Befriending, w.animals) &&
      g.stats.trufflesHarvested >= CountIf(st, Truffle, w.animals) &&
      g.stats.productsHarvested >= CountIf(st, Product, w.animals) &&
      |g.world.player.xp| == |w.player.xp| + (g.stats.trufflesHarvested - CountIf(st, Truffle, w.animals))
                                           + (g.stats.productsHarvested - CountIf(st, Product, w.animals)) &&
      g.stats.numActions == 0 && g.stats.totalCost == 0 &&
      g.world.player.money == w.player.money && g.world.shown == w.shown &&
      |g.world.animals| == |w.animals| && |g.world.buildings| == |w.buildings|
  {
    var p := CareAll(st, lookup, w.stores, w.animals);
    CareAllCounts(st, lookup, w.stores, w.animals);
    var preps := TrufflePreps(st.checker, w.player.professions, w.farmObjects, draws);
    CollectCounts(st.bypassInventory, lookup, p.stores, w.farmObjects, preps, IsTruffle, TruffleXp());
    var r := TruffleScan(st.checker, w.player.professions, st.bypassInventory, lookup, p.stores, w.farmObjects, draws);
    CoopsAllCounts(st.bypassInventory, lookup, r.stores, w.buildings);
  }

  /** The three phases, one after the other, make up the run. */
  lemma GatherSteps(st: Settings, lookup: ChestLookup, draws: seq<real>,
                    w0: World, w1: World, w2: World, w3: World, t1: Tasks, t2: Tasks, t3: Tasks,
                    f0: bool, f1: bool, f2: bool, f3: bool)
    requires |draws| == |w0.farmObjects|
    requires var p := CareAll(st, lookup, w0.stores, w0.animals);
      w1 == w0.(animals := p.animals, stores := p.stores) && t1 == p.tasks && f1 == (f0 || p.failed)
    requires var r := TruffleScan(st.checker, w1.player.professions, st.bypassInventory, lookup,
                                  w1.stores, w1.farmObjects, draws);
      w2 == w1.(farmObjects := Without(r.objects, r.picked), stores := r.stores,
                player := w1.player.(xp := w1.player.xp + r.xp)) &&
      t2 == t1.(trufflesHarvested := t1.trufflesHarvested + r.harvested) && f2 == (f1 || r.failed)
    requires var c := CoopsAll(st.bypassInventory, lookup, w2.stores, w2.buildings);
      w3 == w2.(buildings := c.buildings, stores := c.stores, player := w2.player.(xp := w2.player.xp + c.xp)) &&
      t3 == t2.(productsHarvested := t2.productsHarvested + c.harvested) && f3 == (f2 || c.failed)
    ensures var g := Gather(st, lookup, w0, draws);
      g.world == w3 && g.stats == t3 && f3 == (f0 || g.failed)
  {
  }

  /** What ShowMessage reads of the sitter and the game. */
  function ContextOf(st: Settings, w: World, totalCost: int, enoughCash: bool, gatheringOnly: bool): Context
  {
    Context(st.checker, w.player.hasPet, w.player.catPerson, w.player.married, st.checker in w.characters,
            st.costPerAnimal, totalCost, enoughCash, gatheringOnly)
  }

  /** The world and the count of days short of pay after the charge and the
      report. */
  datatype Settled = Settled(world: World, shortDays: int)

  /** The end of a run: with actions done and a cost configured the player
      is charged and, with messages on, the report is shown; with no action
      and a cost configured, messages on, the sitter says there was nothing
      to do; otherwise nothing happens. */
  function Settle(st: Settings, w: World, stats: Tasks, actions: int, gatheringOnly: bool, shortDays: int): (r: Settled)
    // only the money and the reports change
    ensures r.world == w.(player := w.player.(money := r.world.player.money), shown := r.world.shown)
    // money moves only on a charged run, and is then floored at zero
    ensures actions > 0 && st.costPerAnimal > 0 ==>
      r.world.player.money == Max(0, w.player.money - actions * st.costPerAnimal)
    ensures !(actions > 0 && st.costPerAnimal > 0) ==> r.world.player.money == w.player.money
    // at most one report, and only with messages on and a cost configured
    ensures w.shown <= r.world.shown && |r.world.shown| <= |w.shown| + 1
    ensures |r.world.shown| == |w.shown| + 1 <==> st.messagesEnabled && st.costPerAnimal > 0 && actions >= 0
    // the count of days short of pay is only ever reset, and only after a paid visit
    ensures r.shortDays == shortDays || r.shortDays == 0
    ensures r.shortDays != shortDays ==> actions > 0 && w.player.money >= actions * st.costPerAnimal
  {
    if actions > 0 && st.costPerAnimal > 0 then
      var b := Charge(actions, st.costPerAnimal, w.player.money);
      var w1 := w.(player := w.player.(money := b.money));
      if st.messagesEnabled then
        var sel := Select(ContextOf(st, w1, b.totalCost, b.enoughCash, gatheringOnly));
        var shown := Report(sel.channel, sel.pieces, stats.(numActions := actions, totalCost := b.totalCost));
        Settled(w1.(shown := w1.shown + [shown]), if sel.resetShortDays then 0 else shortDays)
      else Settled(w1, shortDays)
    else if actions == 0 && st.costPerAnimal > 0 && st.messagesEnabled then
      Settled(w.(shown := w.shown + [Report(Hud, [Literal(NothingToDo)], stats)]), shortDays)
    else Settled(w, shortDays)
  }

  /** The report of a charged run is the one ShowMessage selects, with the
      action count and the total cost filled in; a free or idle run never
      speaks through a character. */
  lemma SettleReports(st: Settings, w: World, stats: Tasks, actions: int, gatheringOnly: bool, shortDays: int)
    requires st.messagesEnabled && st.costPerAnimal > 0 && actions >= 0
    ensures var r := Settle(st, w, stats, actions, gatheringOnly, shortDays);
      var report := r.world.shown[|w.shown|];
      (actions == 0 ==> report == Report(Hud, [Literal(NothingToDo)], stats)) &&
      (actions > 0 ==>
        var total := actions * st.costPerAnimal;
        var sel := Select(ContextOf(st, w, total, w.player.money >= total, gatheringOnly));
        report == Report(sel.channel, sel.pieces, stats.(numActions := actions, totalCost := total)) &&
        r.shortDays == (if sel.resetShortDays then 0 else shortDays))
  {
    if actions > 0 {
      var total := actions * st.costPerAnimal;
      var w1 := w.(player := w.player.(money := Charge(actions, st.costPerAnimal, w.player.money).money));
      assert ContextOf(st, w1, total, w.player.money >= total, gatheringOnly) ==
             ContextOf(st, w, total, w.player.money >= total, gatheringOnly);
    }
  }

  /** ShowMessage's branches as written, building the message piece by
      piece: the channel, the pieces and whether the count of days short of
      pay is reset are those the decision table selects. */
  method ComposeMessage(ctx: Context) returns (channel: Channel, message: seq<Piece>, resetShortDays: bool)
    ensures Selection(channel, message, resetShortDays) == Select(ctx)
  {
    channel, message, resetShortDays := Hud, [], false;
    if Lower(ctx.checker) == "pet" {
      var line := "";
      if ctx.hasPet {
        if ctx.catPerson {
          line := line + "Meow..";
          assert "" + "Meow.." == "Meow..";
        } else {
          line := line + "Woof.";
          assert "" + "Woof." == "Woof.";
        }
      } else {
        line := line + PetNone;
        assert "" + PetNone == PetNone;
      }
      message := [Literal(line)];
    } else if Lower(ctx.checker) == "spouse" {
      if ctx.married {
        message := message + [Filled(Xdialog(1))];
      } else {
        message := message + [Filled(Xdialog(2))];
      }
      if ctx.totalCost > 0 && ctx.costPerAnimal > 0 {
        message := message + [Filled(Xdialog(3))];
      }
    } else if ctx.gatheringOnly {
      message := message + [Filled(Xdialog(4))];
      if ctx.totalCost > 0 && ctx.costPerAnimal > 0 {
        message := message + [Filled(Xdialog(3))];
      }
    } else if ctx.characterFound {
      var portrait := "";
      if ctx.checker == "Shane" {
        portrait := "$8";
      }
      message := message + [Filled(RandomOf("greeting"))];
      message := message + [Filled(Xdialog(5))];
      if ctx.costPerAnimal > 0 {
        if ctx.enoughCash {
          message := message + [Filled(Xdialog(6))];
          resetShortDays := true;
        } else {
          message := message + [Filled(RandomOf("unfinishedmoney"))];
        }
      }
      message := message + [Filled(RandomOf("smalltalk"))];
      message := message + [Literal(portrait + "#$e#")];
      channel := DialogueOf(ctx.checker);
      assert message == Spoken(ctx);
    } else {
      message := message + [Filled(Xdialog(7))];
    }
  }

  /** The world after one truffle is improved and routed is the world of the
      scan one object on. */
  lemma TruffleTaken(bypass: bool, lookup: ChestLookup, w0: World, w: World, w': World, r: Scan,
                     rest: seq<Placed>, obj: Placed, doubled: bool)
    requires |rest| > 0 && Scanning(w0, w, r, rest)
    requires obj.tile == rest[0].tile && IsTruffle(rest[0])
    requires var routed := Route(bypass, lookup, w.stores, obj.item);
      var n := if doubled then 2 else 1;
      w' == w.(farmObjects := w.farmObjects[|r.objects| := obj], stores := routed.stores,
               player := if routed.ok then w.player.(xp := w.player.xp + Grants(n, TruffleXp())) else w.player)
    ensures Scanning(w0, w', CollectStep(bypass, lookup, r, rest[0], Prepared(obj, doubled), IsTruffle, TruffleXp()), rest[1..])
  {
    ReplaceNext(r.objects, rest, obj);
  }

  lemma PlusByFields(t: Tasks, u: Tasks, w: Tasks)
    requires w.animalsPet == t.animalsPet + u.animalsPet && w.aged == t.aged + u.aged
    requires w.fed == t.fed + u.fed && w.maxHappiness == t.maxHappiness + u.maxHappiness
    requires w.maxFriendship == t.maxFriendship + u.maxFriendship
    requires w.trufflesHarvested == t.trufflesHarvested + u.trufflesHarvested
    requires w.productsHarvested == t.productsHarvested + u.productsHarvested
    requires w.numActions == t.numActions && w.totalCost == t.totalCost
    ensures w == Plus(t, u)
  {
  }

  lemma ReplaceNext<T>(done: seq<T>, rest: seq<T>, x: T)
    requires |rest| > 0
    ensures (done + rest)[|done| := x] == (done + [x]) + rest[1..]
  {
  }

  class AnimalSitter {
    var settings: Settings
    /** The chest manager's answers, fixed while the handler runs. */
    var chestManager: ChestLookup
    var inventoryAndChestFull: bool
    var shortDays: int
    var world: World

    constructor (lookup: ChestLookup, w: World)
      ensures settings == Defaults() && chestManager == lookup && world == w
      ensures !inventoryAndChestFull && shortDays == 0
    {
      settings := Defaults();
      chestManager := lookup;
      inventoryAndChestFull := false;
      shortDays := 0;
      world := w;
    }

    /** Copies the configuration into the fields; a negative cost per action
        becomes zero. */
    method ImportConfiguration(config: Config)
      modifies this`settings
      ensures settings == Imported(config)
    {
      var cost := config.costPerAction;
      if config.costPerAction < 0 {
        cost := 0;
      }
      settings := Settings(
        config.pettingEnabled, config.growUpEnabled, config.maxHappinessEnabled,
        config.maxFriendshipEnabled, config.maxFullnessEnabled, config.harvestEnabled,
        config.enableMessages, config.whoChecks, cost, config.takeTrufflesFromPigs,
        config.bypassInventory);
    }

    /** A chest given by the chest manager takes the item when it is a chest
        (not null, not another object) and `addItem` finds room. */
    method PutInChestAt(chest: Option<nat>, item: Item) returns (added: bool)
      modifies this`world
      ensures added <==> chest.Some? && Accepts(old(world.stores), ChestAt(chest.value))
      ensures world == if added then old(world).(stores := PlaceAt(old(world.stores), ChestAt(chest.value), item))
                       else old(world)
    {
      var s := world.stores;
      if chest.Some? && chest.value < |s.chests| && s.chests[chest.value].Chest? {
        if HasRoom(s.chests[chest.value].store) {
          world := world.(stores := s.(chests := PutInChest(s.chests, chest.value, item)));
          return true;
        }
      }
      return false;
    }

    /** Tries the inventory (unless bypassed), the preferred chest, the
        default chest and the inventory again; the first with room gets the
        item. When none has room the sticky full flag is raised. */
    method AddItemToInventory(item: Item) returns (added: bool)
      modifies this`world, this`inventoryAndChestFull
      ensures var r := Route(settings.bypassInventory, chestManager, old(world.stores), item);
        added == r.ok && world == old(world).(stores := r.stores)
      ensures inventoryAndChestFull == (old(inventoryAndChestFull) || !added)
    {
      var s := world.stores;
      if !settings.bypassInventory {
        if HasRoom(s.inventory) {
          world := world.(stores := s.(inventory := Put(s.inventory, item)));
          return true;
        }
      }
      added := PutInChestAt(GetChest(chestManager, item.index), item);
      if added {
        return;
      }
      added := PutInChestAt(chestManager.default, item);
      if added {
        return;
      }
      if HasRoom(s.inventory) {
        world := world.(stores := s.(inventory := Put(s.inventory, item)));
        return true;
      }
      inventoryAndChestFull := true;
      return false;
    }

    /** The guarded care steps of the loop body, one method each: a step
        that applies writes its target value and bumps its counter. */
    method Pet(a0: Animal, stats0: Tasks) returns (a: Animal, stats: Tasks)
      ensures Tending(a, stats) == PetStep(settings, Tending(a0, stats0))
    {
      a, stats := a0, stats0;
      if !a.wasPet && settings.pettingEnabled {
        a := a.(wasPet := true);
        stats := stats.(animalsPet := stats.animalsPet + 1);
      }
    }

    method GrowUp(a0: Animal, stats0: Tasks) returns (a: Animal, stats: Tasks)
      ensures Tending(a, stats) == GrowStep(settings, Tending(a0, stats0))
    {
      a, stats := a0, stats0;
      if settings.growUpEnabled && IsBaby(a) {
        a := a.(age := a.ageWhenMature + 1);
        stats := stats.(aged := stats.aged + 1);
      }
    }

    method Feed(a0: Animal, stats0: Tasks) returns (a: Animal, stats: Tasks)
      ensures Tending(a, stats) == FeedStep(settings, Tending(a0, stats0))
    {
      a, stats := a0, stats0;
      if settings.maxFullnessEnabled && a.fullness < ByteMax {
        a := a.(fullness := ByteMax);
        stats := stats.(fed := stats.fed + 1);
      }
    }

    method Cheer(a0: Animal, stats0: Tasks) returns (a: Animal, stats: Tasks)
      ensures Tending(a, stats) == CheerStep(settings, Tending(a0, stats0))
    {
      a, stats := a0, stats0;
      if settings.maxHappinessEnabled && a.happiness < ByteMax {
        a := a.(happiness := ByteMax);
        stats := stats.(maxHappiness := stats.maxHappiness + 1);
      }
    }

    method Befriend(a0: Animal, stats0: Tasks) returns (a: Animal, stats: Tasks)
      ensures Tending(a, stats) == BefriendStep(settings, Tending(a0, stats0))
    {
      a, stats := a0, stats0;
      if settings.maxFriendshipEnabled && a.friendship < FriendshipMax {
        a := a.(friendship := FriendshipMax);
        stats := stats.(maxFriendship := stats.maxFriendship + 1);
      }
    }

    /** The care part of the loop body: the five steps in order. */
    method CareFor(a0: Animal, stats0: Tasks) returns (a: Animal, stats: Tasks)
      ensures a == Cared(settings, a0).animal && stats == Plus(stats0, Cared(settings, a0).tasks)
    {
      a, stats := Pet(a0, stats0);
      a, stats := GrowUp(a, stats);
      a, stats := Feed(a, stats);
      a, stats := Cheer(a, stats);
      a, stats := Befriend(a, stats);
      StepsAreCared(settings, a0, stats0);
    }

    /** The harvest step of the loop body: produce is taken from an animal
        that has some (from a pig only when truffles are to be taken), handed
        to the router, whose answer is ignored, and counted. */
    method TakeProduce(a0: Animal, stats0: Tasks) returns (a: Animal, stats: Tasks)
      modifies this`world, this`inventoryAndChestFull
      ensures a == Harvested(settings, a0).animal && stats == Plus(stats0, Harvested(settings, a0).tasks)
      ensures var r := RouteProduce(settings, chestManager, old(world.stores), ProduceOf(settings, a0));
        world == old(world).(stores := r.stores) && inventoryAndChestFull == (old(inventoryAndChestFull) || !r.ok)
    {
      a, stats := a0, stats0;
      if a.currentProduce > 0 && settings.harvestEnabled {
        if a.kind == "Pig" {
          if settings.takeTrufflesFromPigs {
            var _ := AddItemToInventory(Item(a.currentProduce, 1, a.produceQuality));
            a := a.(currentProduce := 0);
            stats := stats.(trufflesHarvested := stats.trufflesHarvested + 1);
          }
        } else {
          var _ := AddItemToInventory(Item(a.currentProduce, 1, a.produceQuality));
          a := a.(currentProduce := 0);
          stats := stats.(productsHarvested := stats.productsHarvested + 1);
        }
      }
    }

    /** One pass of the loop body over an animal, care then harvest, as one
        step of the walk over the animals that has reached `p`. */
    method Tend(ghost p: Pass, a0: Animal, stats0: Tasks) returns (a: Animal, stats: Tasks, ghost ok: bool)
      requires p.stores == world.stores && p.tasks == stats0
      modifies this`world, this`inventoryAndChestFull
      ensures Step(settings, chestManager, p, a0) == Pass(p.animals + [a], world.stores, stats, p.failed || !ok)
      ensures world == old(world).(stores := world.stores)
      ensures inventoryAndChestFull == (old(inventoryAndChestFull) || !ok)
    {
      VisitInSteps(settings, a0, stats0);
      a, stats := CareFor(a0, stats0);
      ok := RouteProduce(settings, chestManager, world.stores, ProduceOf(settings, a)).ok;
      a, stats := TakeProduce(a, stats);
    }

    /** The loop body at the `i`-th animal, once the first `i` have been
        visited and the walk over them has reached `p`. */
    method VisitNext(ghost s: Stores, ghost animals: seq<Animal>, i: nat, ghost p: Pass, ghost full0: bool,
                     stats0: Tasks) returns (stats: Tasks, ghost p': Pass)
      requires i < |animals| == |world.animals|
      requires p == CareAll(settings, chestManager, s, animals[..i])
      requires world.animals == p.animals + animals[i..]
      requires world.stores == p.stores && stats0 == p.tasks
      requires inventoryAndChestFull == (full0 || p.failed)
      modifies this`world, this`inventoryAndChestFull
      ensures p' == CareAll(settings, chestManager, s, animals[..i + 1])
      ensures world.animals == p'.animals + animals[i + 1..]
      ensures world == old(world).(animals := world.animals, stores := p'.stores)
      ensures stats == p'.tasks && inventoryAndChestFull == (full0 || p'.failed)
    {
      assert world.animals[i] == animals[i];
      var a;
      ghost var ok;
      a, stats, ok := Tend(p, world.animals[i], stats0);
      world := world.(animals := world.animals[i := a]);
      ReplaceNext(p.animals, animals[i..], a);
      assert animals[i..][1..] == animals[i + 1..];
      p' := Pass(p.animals + [a], world.stores, stats, p.failed || !ok);
      CareAllExtends(settings, chestManager, s, animals, i, p');
    }

    /** The loop over the animals that opens IterateOverAnimals, visiting
        them in order from fresh statistics. */
    method TendAnimals() returns (stats: Tasks)
      modifies this`world, this`inventoryAndChestFull
      ensures var p := CareAll(settings, chestManager, old(world.stores), old(world.animals));
        world == old(world).(animals := p.animals, stores := p.stores) && stats == p.tasks &&
        inventoryAndChestFull == (old(inventoryAndChestFull) || p.failed)
    {
      ghost var s := world.stores;
      ghost var animals := world.animals;
      ghost var p := CareAll(settings, chestManager, s, []);
      stats := NoTasks();
      var i := 0;
      while i < |world.animals|
        invariant i <= |world.animals| == |animals|
        invariant p == CareAll(settings, chestManager, s, animals[..i])
        invariant world.animals == p.animals + animals[i..]
        invariant world == old(world).(animals := world.animals, stores := p.stores)
        invariant stats == p.tasks && inventoryAndChestFull == (old(inventoryAndChestFull) || p.failed)
      {
        stats, p := VisitNext(s, animals, i, p, old(inventoryAndChestFull), stats);
        i := i + 1;
      }
      assert animals[..i] == animals;
    }

    /** What the truffle scan does to a truffle before routing it. */
    method ImproveTruffle(o: Placed, draw: real) returns (obj: Placed, doubleHarvest: bool)
      ensures Prepared(obj, doubleHarvest) == PrepareTruffle(settings.checker, world.player.professions, o, draw)
    {
      obj := o;
      doubleHarvest := false;
      if 16 in world.player.professions {
        obj := obj.(item := obj.item.(quality := 4));
      }
      var doubleChance := if settings.checker == "pet" then draw < 0.4 else draw < 0.2;
      if 13 in world.player.professions && doubleChance {
        obj := obj.(item := obj.item.(stack := 2));
        doubleHarvest := true;
      }
    }

    /** The improved truffle is written back to its tile and routed; when it
        is taken its tile is queued and it is counted and earns experience,
        twice when doubled. */
    method TakeTruffle(i: nat, obj: Placed, doubleHarvest: bool, picked: seq<Coord>, stats0: Tasks)
      returns (picked': seq<Coord>, stats: Tasks)
      requires i < |world.farmObjects|
      modifies this`world, this`inventoryAndChestFull
      ensures var routed := Route(settings.bypassInventory, chestManager, old(world.stores), obj.item);
        var n := if doubleHarvest then 2 else 1;
        world == old(world).(farmObjects := old(world.farmObjects)[i := obj], stores := routed.stores,
                             player := if routed.ok then old(world.player).(xp := old(world.player.xp) + Grants(n, TruffleXp()))
                                       else old(world.player)) &&
        picked' == (if routed.ok then picked + [obj.tile] else picked) &&
        stats == (if routed.ok then stats0.(trufflesHarvested := stats0.trufflesHarvested + n) else stats0) &&
        inventoryAndChestFull == (old(inventoryAndChestFull) || !routed.ok)
    {
      picked', stats := picked, stats0;
      world := world.(farmObjects := world.farmObjects[i := obj]);
      var added := AddItemToInventory(obj.item);
      if added {
        picked' := picked' + [obj.tile];
        world := world.(player := world.player.(xp := world.player.xp + [TruffleXp()]));
        stats := stats.(trufflesHarvested := stats.trufflesHarvested + 1);
        if doubleHarvest {
          stats := stats.(trufflesHarvested := stats.trufflesHarvested + 1);
          world := world.(player := world.player.(xp := world.player.xp + [TruffleXp()]));
        }
      }
    }

    /** One object of the truffle scan, the `i`-th of the farm, which is the
        first of `rest`: a truffle is improved in place (quality 4 with
        profession 16; a stack of two with profession 13 and a lucky draw)
        and handed to the router; when it is taken, its tile is queued for
        removal and it is counted and earns experience, twice when doubled. */
    method TruffleStep(ghost w0: World, ghost r: Scan, ghost rest: seq<Placed>, i: nat, draw: real,
                       picked: seq<Coord>, stats0: Tasks, ghost t0: nat, ghost f0: bool)
      returns (picked': seq<Coord>, stats: Tasks, ghost r': Scan)
      requires |rest| > 0 && i == |r.objects| && Scanning(w0, world, r, rest)
      requires picked == r.picked && stats0.trufflesHarvested == t0 + r.harvested
      requires inventoryAndChestFull == (f0 || r.failed)
      modifies this`world, this`inventoryAndChestFull
      ensures r' == CollectStep(settings.bypassInventory, chestManager, r, rest[0],
                                PrepareTruffle(settings.checker, w0.player.professions, rest[0], draw),
                                IsTruffle, TruffleXp())
      ensures Scanning(w0, world, r', rest[1..]) && picked' == r'.picked
      ensures stats == stats0.(trufflesHarvested := t0 + r'.harvested)
      ensures inventoryAndChestFull == (f0 || r'.failed)
    {
      ghost var p := PrepareTruffle(settings.checker, w0.player.professions, rest[0], draw);
      r' := CollectStep(settings.bypassInventory, chestManager, r, rest[0], p, IsTruffle, TruffleXp());
      picked', stats := picked, stats0;
      var obj := world.farmObjects[i];
      assert obj == rest[0];
      if obj.name == "Truffle" {
        var doubleHarvest;
        obj, doubleHarvest := ImproveTruffle(obj, draw);
        ghost var w1 := world;
        picked', stats := TakeTruffle(i, obj, doubleHarvest, picked, stats0);
        TruffleTaken(settings.bypassInventory, chestManager, w0, w1, world, r, rest, obj, doubleHarvest);
      } else {
        ReplaceNext(r.objects, rest, rest[0]);
      }
    }

    /** The removal loop after the truffle scan: farm.removeObject on each
        queued tile in turn. */
    method RemoveFarmObjects(tiles: seq<Coord>)
      modifies this`world
      ensures world == old(world).(farmObjects := Without(old(world.farmObjects), tiles))
    {
      var j := 0;
      while j < |tiles|
        invariant j <= |tiles|
        invariant world == old(world).(farmObjects := Without(old(world.farmObjects), tiles[..j]))
      {
        assert tiles[..j + 1][..j] == tiles[..j];
        world := world.(farmObjects := RemoveTile(world.farmObjects, tiles[j]));
        j := j + 1;
      }
      assert tiles[..j] == tiles;
    }

    /** The scan's loop body at the `i`-th object. */
    method TruffleNext(ghost w0: World, ghost os: seq<Placed>, ghost draws: seq<real>, ghost preps: seq<Prepared>, i: nat, draw: real,
                       ghost r: Scan, picked: seq<Coord>, stats0: Tasks, ghost t0: nat, ghost f0: bool)
      returns (picked': seq<Coord>, stats: Tasks, ghost r': Scan)
      requires i < |os|
      requires ScanAt(settings.bypassInventory, chestManager, w0, world, inventoryAndChestFull,
                      os, preps, i, r, picked, stats0.trufflesHarvested, t0, f0)
      requires |draws| == |os| && draw == draws[i]
      requires preps == TrufflePreps(settings.checker, w0.player.professions, os, draws)
      modifies this`world, this`inventoryAndChestFull
      ensures ScanAt(settings.bypassInventory, chestManager, w0, world, inventoryAndChestFull,
                     os, preps, i + 1, r', picked', stats.trufflesHarvested, t0, f0)
      ensures stats == stats0.(trufflesHarvested := stats.trufflesHarvested)
    {
      picked', stats, r' := TruffleStep(w0, r, os[i..], i, draw, picked, stats0, t0, f0);
      CollectExtends(settings.bypassInventory, chestManager, w0.stores, os, preps, IsTruffle, TruffleXp(), i, r');
      assert os[i..][1..] == os[i + 1..];
    }

    /** The scanning loop of HarvestTruffles over the objects `os`, one
        random draw per object, from the state where none is scanned yet to
        the state where all are. */
    method ScanLoop(ghost w0: World, ghost os: seq<Placed>, draws: seq<real>, stats0: Tasks, ghost t0: nat, ghost f0: bool)
      returns (itemsToRemove: seq<Coord>, stats: Tasks, ghost r: Scan)
      requires |draws| == |os|
      requires ScanAt(settings.bypassInventory, chestManager, w0, world, inventoryAndChestFull,
                      os, TrufflePreps(settings.checker, w0.player.professions, os, draws), 0,
                      Collect(settings.bypassInventory, chestManager, w0.stores, [], [], IsTruffle, TruffleXp()),
                      [], stats0.trufflesHarvested, t0, f0)
      modifies this`world, this`inventoryAndChestFull
      ensures ScanAt(settings.bypassInventory, chestManager, w0, world, inventoryAndChestFull,
                     os, TrufflePreps(settings.checker, w0.player.professions, os, draws), |os|,
                     r, itemsToRemove, stats.trufflesHarvested, t0, f0)
      ensures stats == stats0.(trufflesHarvested := stats.trufflesHarvested)
    {
      ghost var preps := TrufflePreps(settings.checker, w0.player.professions, os, draws);
      r := Collect(settings.bypassInventory, chestManager, w0.stores, [], [], IsTruffle, TruffleXp());
      itemsToRemove := [];
      stats := stats0;
      var i := 0;
      while i < |draws|
        invariant i <= |os|
        invariant ScanAt(settings.bypassInventory, chestManager, w0, world, inventoryAndChestFull,
                         os, preps, i, r, itemsToRemove, stats.trufflesHarvested, t0, f0)
        invariant stats == stats0.(trufflesHarvested := stats.trufflesHarvested)
      {
        itemsToRemove, stats, r := TruffleNext(w0, os, draws, preps, i, draws[i], r, itemsToRemove, stats, t0, f0);
        i := i + 1;
      }
    }

    /** The scan of HarvestTruffles: the world, the tiles to remove, the
        counter and the flag are those of the truffle scan of the farm's
        objects. */
    method ScanTruffles(stats0: Tasks, draws: seq<real>) returns (itemsToRemove: seq<Coord>, stats: Tasks)
      requires |draws| == |world.farmObjects|
      modifies this`world, this`inventoryAndChestFull
      ensures var r := TruffleScan(settings.checker, old(world.player.professions), settings.bypassInventory,
                                   chestManager, old(world.stores), old(world.farmObjects), draws);
        Scanning(old(world), world, r, []) && itemsToRemove == r.picked &&
        stats == stats0.(trufflesHarvested := stats0.trufflesHarvested + r.harvested) &&
        inventoryAndChestFull == (old(inventoryAndChestFull) || r.failed)
    {
      ghost var w0, f0 := world, inventoryAndChestFull;
      ScanStarts(settings.bypassInventory, chestManager, w0, w0.farmObjects,
                 TrufflePreps(settings.checker, w0.player.professions, w0.farmObjects, draws), stats0.trufflesHarvested, f0);
      ghost var r;
      itemsToRemove, stats, r := ScanLoop(w0, w0.farmObjects, draws, stats0, stats0.trufflesHarvested, f0);
      ScanEnds(settings.checker, settings.bypassInventory, chestManager, w0, world, inventoryAndChestFull,
               w0.farmObjects, draws, r, itemsToRemove, stats.trufflesHarvested, stats0.trufflesHarvested, f0);
    }

    /** HarvestTruffles: the scan, then the removal of the truffles that were
        taken. */
    method HarvestTruffles(stats0: Tasks, draws: seq<real>) returns (stats: Tasks)
      requires |draws| == |world.farmObjects|
      modifies this`world, this`inventoryAndChestFull
      ensures var r := TruffleScan(settings.checker, old(world.player.professions), settings.bypassInventory,
                                   chestManager, old(world.stores), old(world.farmObjects), draws);
        world == old(world).(farmObjects := Without(r.objects, r.picked), stores := r.stores,
                             player := old(world.player).(xp := old(world.player.xp) + r.xp)) &&
        stats == stats0.(trufflesHarvested := stats0.trufflesHarvested + r.harvested) &&
        inventoryAndChestFull == (old(inventoryAndChestFull) || r.failed)
    {
      var itemsToRemove;
      itemsToRemove, stats := ScanTruffles(stats0, draws);
      assert world.farmObjects == TruffleScan(settings.checker, old(world.player.professions), settings.bypassInventory,
                                              chestManager, old(world.stores), old(world.farmObjects), draws).objects;
      RemoveFarmObjects(itemsToRemove);
    }

    /** The loop body of a coop's scan at its `i`-th object: an animal
        product, or the object with index 107, is routed; when it is taken
        its tile is listed for removal, the counter rises and one farming
        grant is made. */
    method CoopStep(ghost w0: World, os: seq<Placed>, i: nat, ghost r: Scan, picked: seq<Coord>, stats0: Tasks,
                    ghost h0: nat, ghost f0: bool)
      returns (picked': seq<Coord>, stats: Tasks, ghost r': Scan)
      requires i < |os|
      requires CoopAt(settings.bypassInventory, chestManager, w0, world, inventoryAndChestFull,
                      os, i, r, picked, stats0.productsHarvested, h0, f0)
      modifies this`world, this`inventoryAndChestFull
      ensures CoopAt(settings.bypassInventory, chestManager, w0, world, inventoryAndChestFull,
                     os, i + 1, r', picked', stats.productsHarvested, h0, f0)
      ensures stats == stats0.(productsHarvested := stats.productsHarvested)
    {
      ghost var w, full := world, inventoryAndChestFull;
      var obj := os[i];
      picked', stats := picked, stats0;
      if obj.animalProduct || obj.item.index == 107 {
        picked', stats := TakeCoopProduct(obj, picked, stats0);
      }
      r' := CollectStep(settings.bypassInventory, chestManager, r, obj, Prepared(obj, false), IsCoopProduct, CoopXp());
      CoopTaken(settings.bypassInventory, chestManager, w0, w, world, full, inventoryAndChestFull, os, i, r,
                picked, picked', stats0.productsHarvested, stats.productsHarvested, h0, f0);
    }

    /** One coop product routed: when it is taken its tile is listed for
        removal, the counter rises and one farming grant is made. */
    method TakeCoopProduct(obj: Placed, picked: seq<Coord>, stats0: Tasks) returns (picked': seq<Coord>, stats: Tasks)
      modifies this`world, this`inventoryAndChestFull
      ensures var routed := Route(settings.bypassInventory, chestManager, old(world.stores), obj.item);
        world == (if routed.ok then old(world).(stores := routed.stores,
                                                player := old(world.player).(xp := old(world.player.xp) + [CoopXp()]))
                  else old(world)) &&
        picked' == (if routed.ok then picked + [obj.tile] else picked) &&
        stats == (if routed.ok then stats0.(productsHarvested := stats0.productsHarvested + 1) else stats0) &&
        inventoryAndChestFull == (old(inventoryAndChestFull) || !routed.ok)
    {
      picked', stats := picked, stats0;
      var added := AddItemToInventory(obj.item);
      if added {
        picked' := picked + [obj.tile];
        stats := stats0.(productsHarvested := stats0.productsHarvested + 1);
        world := world.(player := world.player.(xp := world.player.xp + [CoopXp()]));
      }
    }

    /** The scan of one coop's objects: the stores, the experience, the
        counter and the flag become those of the coop scan, and the tiles to
        clear are the ones it picked. */
    method ScanCoop(os: seq<Placed>, stats0: Tasks) returns (itemsToRemove: seq<Coord>, stats: Tasks)
      modifies this`world, this`inventoryAndChestFull
      ensures var r := CoopScan(settings.bypassInventory, chestManager, old(world.stores), os);
        world == old(world).(stores := r.stores, player := old(world.player).(xp := old(world.player.xp) + r.xp)) &&
        itemsToRemove == r.picked &&
        stats == stats0.(productsHarvested := stats0.productsHarvested + r.harvested) &&
        inventoryAndChestFull == (old(inventoryAndChestFull) || r.failed)
    {
      ghost var w0, f0, h0 := world, inventoryAndChestFull, stats0.productsHarvested;
      CoopStarts(settings.bypassInventory, chestManager, w0, f0, os, h0);
      ghost var r := Collect(settings.bypassInventory, chestManager, w0.stores, [], [], IsCoopProduct, CoopXp());
      itemsToRemove, stats := [], stats0;
      var i := 0;
      while i < |os|
        invariant CoopAt(settings.bypassInventory, chestManager, w0, world, inventoryAndChestFull,
                         os, i, r, itemsToRemove, stats.productsHarvested, h0, f0)
        invariant stats == stats0.(productsHarvested := stats.productsHarvested)
      {
        itemsToRemove, stats, r := CoopStep(w0, os, i, r, itemsToRemove, stats, h0, f0);
        i := i + 1;
      }
      CoopEnds(settings.bypassInventory, chestManager, w0, world, inventoryAndChestFull,
               os, r, itemsToRemove, stats.productsHarvested, h0, f0);
    }

    /** The removal loop of a coop: each listed tile is cleared in the
        interior of the `j`-th building. */
    method RemoveIndoorObjects(j: nat, tiles: seq<Coord>)
      requires j < |world.buildings|
      modifies this`world
      ensures world == old(world).(buildings := old(world.buildings)[j := old(world.buildings[j]).(
                                     objects := Without(old(world.buildings[j].objects), tiles))])
    {
      var k := 0;
      while k < |tiles|
        invariant k <= |tiles|
        invariant world == old(world).(buildings := old(world.buildings)[j := old(world.buildings[j]).(
                                         objects := Without(old(world.buildings[j].objects), tiles[..k]))])
      {
        assert tiles[..k + 1][..k] == tiles[..k];
        var b := world.buildings[j];
        world := world.(buildings := world.buildings[j := b.(objects := RemoveTile(b.objects, tiles[k]))]);
        k := k + 1;
      }
      assert tiles[..k] == tiles;
    }

    /** The loop body of HarvestCoops at the `j`-th building: a coop is
        scanned and then cleared of what was taken; any other building is
        passed over. */
    method BuildingNext(ghost w0: World, ghost bs: seq<Building>, j: nat, ghost c: Coops, stats0: Tasks,
                        ghost h0: nat, ghost f0: bool)
      returns (stats: Tasks, ghost c': Coops)
      requires j < |bs|
      requires CoopsAt(settings.bypassInventory, chestManager, w0, world, inventoryAndChestFull,
                       bs, j, c, stats0.productsHarvested, h0, f0)
      modifies this`world, this`inventoryAndChestFull
      ensures CoopsAt(settings.bypassInventory, chestManager, w0, world, inventoryAndChestFull,
                      bs, j + 1, c', stats.productsHarvested, h0, f0)
      ensures stats == stats0.(productsHarvested := stats.productsHarvested)
    {
      ghost var w, full := world, inventoryAndChestFull;
      assert world.buildings[j] == bs[j];
      var building := world.buildings[j];
      stats := stats0;
      c' := CoopsStep(settings.bypassInventory, chestManager, c, bs[j]);
      if building.isCoop {
        var itemsToRemove;
        itemsToRemove, stats := ScanCoop(building.objects, stats0);
        RemoveIndoorObjects(j, itemsToRemove);
        CoopDone(settings.bypassInventory, chestManager, w0, w, world, full, inventoryAndChestFull,
                 bs, j, c, stats0.productsHarvested, stats.productsHarvested, h0, f0);
      } else {
        OtherDone(settings.bypassInventory, chestManager, w0, w, full, bs, j, c, stats0.productsHarvested, h0, f0);
      }
    }

    /** HarvestCoops: every coop on the farm is scanned and cleared in turn;
        the world and the product counter end as the loop over the buildings
        leaves them. */
    method HarvestCoops(stats0: Tasks) returns (stats: Tasks)
      modifies this`world, this`inventoryAndChestFull
      ensures var c := CoopsAll(settings.bypassInventory, chestManager, old(world.stores), old(world.buildings));
        world == old(world).(buildings := c.buildings, stores := c.stores,
                             player := old(world.player).(xp := old(world.player.xp) + c.xp)) &&
        stats == stats0.(productsHarvested := stats0.productsHarvested + c.harvested) &&
        inventoryAndChestFull == (old(inventoryAndChestFull) || c.failed)
    {
      ghost var w0, f0, h0 := world, inventoryAndChestFull, stats0.productsHarvested;
      ghost var bs := world.buildings;
      ghost var c := CoopsAll(settings.bypassInventory, chestManager, w0.stores, []);
      CoopsStart(settings.bypassInventory, chestManager, w0, f0, h0);
      stats := stats0;
      var j := 0;
      while j < |world.buildings|
        invariant |world.buildings| == |bs|
        invariant CoopsAt(settings.bypassInventory, chestManager, w0, world, inventoryAndChestFull,
                          bs, j, c, stats.productsHarvested, h0, f0)
        invariant stats == stats0.(productsHarvested := stats.productsHarvested)
      {
        stats, c := BuildingNext(w0, bs, j, c, stats, h0, f0);
        j := j + 1;
      }
      CoopsEnd(settings.bypassInventory, chestManager, w0, world, inventoryAndChestFull,
               bs, c, stats.productsHarvested, h0, f0);
    }

    /** ShowMessage: the report chosen by the decision table is shown, with
        the action count and the total cost filled in, and a character paid
        in full resets the count of days short of pay. */
    method ShowMessage(numActions: int, totalCost: int, doesPlayerHaveEnoughCash: bool, gatheringOnly: bool, stats0: Tasks)
      modifies this`world, this`shortDays
      ensures var sel := Select(ContextOf(settings, old(world), totalCost, doesPlayerHaveEnoughCash, gatheringOnly));
        world == old(world).(shown := old(world.shown) + [Report(sel.channel, sel.pieces,
                                                                  stats0.(numActions := numActions, totalCost := totalCost))]) &&
        shortDays == (if sel.resetShortDays then 0 else old(shortDays))
    {
      var stats := stats0.(numActions := numActions, totalCost := totalCost);
      var channel, message, resetShortDays :=
        ComposeMessage(ContextOf(settings, world, totalCost, doesPlayerHaveEnoughCash, gatheringOnly));
      if resetShortDays {
        shortDays := 0;
      }
      world := world.(shown := world.shown + [Report(channel, message, stats)]);
    }

    /** The end of IterateOverAnimals: the charge and the report. */
    method ChargeAndReport(actions: int, gatheringOnly: bool, stats: Tasks)
      modifies this`world, this`shortDays
      ensures var r := Settle(settings, old(world), stats, actions, gatheringOnly, old(shortDays));
        world == r.world && shortDays == r.shortDays
    {
      if actions > 0 && settings.costPerAnimal > 0 {
        var totalCost := actions * settings.costPerAnimal;
        var doesPlayerHaveEnoughCash := world.player.money >= totalCost;
        world := world.(player := world.player.(money := Max(0, world.player.money - totalCost)));
        if settings.messagesEnabled {
          ShowMessage(actions, totalCost, doesPlayerHaveEnoughCash, gatheringOnly, stats);
        }
      } else if actions == 0 && settings.costPerAnimal > 0 {
        if settings.messagesEnabled {
          world := world.(shown := world.shown + [Report(Hud, [Literal(NothingToDo)], stats)]);
        }
      }
    }

    /** The first part of IterateOverAnimals: care for every animal, then
        harvest the truffles and the coops. */
    method GatherAll(draws: seq<real>) returns (stats: Tasks)
      requires |draws| == |world.farmObjects|
      modifies this`world, this`inventoryAndChestFull
      ensures var g := Gather(settings, chestManager, old(world), draws);
        world == g.world && stats == g.stats && inventoryAndChestFull == (old(inventoryAndChestFull) || g.failed)
    {
      ghost var w0, f0 := world, inventoryAndChestFull;
      stats := TendAnimals();
      ghost var w1, t1, f1 := world, stats, inventoryAndChestFull;
      stats := HarvestTruffles(stats, draws);
      ghost var w2, t2, f2 := world, stats, inventoryAndChestFull;
      stats := HarvestCoops(stats);
      GatherSteps(settings, chestManager, draws, w0, w1, w2, world, t1, t2, stats, f0, f1, f2, inventoryAndChestFull);
    }

    /** The key handler's work: care for every animal, harvest the truffles
        and the coops, then charge and report. The task count and the
        gathering-only test of the statistics record are given as
        functions, and `draws` holds one random draw per object on the
        farm. */
    method IterateOverAnimals(taskCount: Tasks -> int, justGathering: Tasks -> bool, draws: seq<real>)
      requires |draws| == |world.farmObjects|
      modifies this`world, this`inventoryAndChestFull, this`shortDays
      ensures var g := Gather(settings, chestManager, old(world), draws);
        var r := Settle(settings, g.world, g.stats, taskCount(g.stats), justGathering(g.stats), old(shortDays));
        world == r.world && shortDays == r.shortDays &&
        inventoryAndChestFull == (old(inventoryAndChestFull) || g.failed)
    {
      var stats := GatherAll(draws);
      var actions := taskCount(stats);
      var gatheringOnly := justGathering(stats);
      ChargeAndReport(actions, gatheringOnly, stats);
    }
  }
}
