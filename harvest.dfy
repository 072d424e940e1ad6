/** The two world scans: truffles lying on the farm, and animal products
    lying in the coops. Each scan routes every matching object and removes
    from its tile only those that were routed. */
module Harvest {
  import opened Items
  import opened Router

  datatype Coord = Coord(x: int, y: int)

  /** An object lying on a tile of a location, with two facts the game
      derives from the object's kind: its name and whether it counts as an
      animal product. */
  datatype Placed = Placed(tile: Coord, item: Item, name: string, animalProduct: bool)

  /** One call of the game's experience grant: a skill and an amount. */
  datatype XpGrant = XpGrant(skill: nat, amount: nat)

  /** Foraging experience for each truffle. */
  function TruffleXp(): XpGrant { XpGrant(2, 7) }

  /** Farming experience for each coop product. */
  function CoopXp(): XpGrant { XpGrant(0, 5) }

  /** `n` grants of `g`. */
  function Grants(n: nat, g: XpGrant): (r: seq<XpGrant>)
    ensures |r| == n && forall x :: x in r ==> x == g
  {
    seq(n, _ => g)
  }

  /** A location's objects are keyed by tile: no two share one. */
  predicate DistinctTiles(os: seq<Placed>)
  {
    forall i, j :: 0 <= i < j < |os| ==> os[i].tile != os[j].tile
  }

  /** removeObject: the objects of a location once the one on tile `t` is
      gone. */
  function RemoveTile(os: seq<Placed>, t: Coord): (r: seq<Placed>)
    ensures forall o :: o in r <==> o in os && o.tile != t
    decreases |os|
  {
    if os == [] then []
    else (if os[0].tile == t then [] else [os[0]]) + RemoveTile(os[1..], t)
  }

  /** The objects left after removing the tiles of `ts` one after the other. */
  function Without(os: seq<Placed>, ts: seq<Coord>): (r: seq<Placed>)
    ensures forall o :: o in r <==> o in os && o.tile !in ts
    decreases |ts|
  {
    if ts == [] then os
    else
      var n := |ts| - 1;
      assert forall t :: t in ts <==> t in ts[..n] || t == ts[n] by {
        assert ts == ts[..n] + [ts[n]];
      }
      RemoveTile(Without(os, ts[..n]), ts[n])
  }

  /** What a scan makes of an object before routing it: the object as it
      changes in place, and whether its yield counts twice. */
  datatype Prepared = Prepared(changed: Placed, doubled: bool)

  /** A preparation changes only the item, never the tile or what the object
      is. */
  predicate WellPrepared(os: seq<Placed>, preps: seq<Prepared>)
  {
    |preps| == |os| &&
    forall i :: 0 <= i < |os| ==>
      preps[i].changed.tile == os[i].tile && preps[i].changed.name == os[i].name &&
      preps[i].changed.animalProduct == os[i].animalProduct
  }

  /** The state of a scan: the objects as they now are (still all on their
      tiles), the stores, the tiles to clear, the counter increment, the
      experience grants, and whether some routing failed. */
  datatype Scan = Scan(objects: seq<Placed>, stores: Stores, picked: seq<Coord>,
                       harvested: nat, xp: seq<XpGrant>, failed: bool)

  /** One object of the scan: a matching object is prepared and routed; only
      a routed one has its tile queued for removal, is counted (twice when
      doubled) and earns experience (twice when doubled). */
  function CollectStep(bypass: bool, lookup: ChestLookup, r: Scan, o: Placed, p: Prepared,
                       matches: Placed -> bool, grant: XpGrant): Scan
  {
    if !matches(o) then r.(objects := r.objects + [o])
    else
      var routed := Route(bypass, lookup, r.stores, p.changed.item);
      if routed.ok then
        Scan(r.objects + [p.changed], routed.stores, r.picked + [o.tile],
             r.harvested + (if p.doubled then 2 else 1),
             r.xp + Grants(if p.doubled then 2 else 1, grant), r.failed)
      else
        Scan(r.objects + [p.changed], r.stores, r.picked, r.harvested, r.xp, true)
  }

  /** The scanning loop over a location's objects, in enumeration order. */
  function Collect(bypass: bool, lookup: ChestLookup, s: Stores, os: seq<Placed>, preps: seq<Prepared>,
                   matches: Placed -> bool, grant: XpGrant): (r: Scan)
    requires |preps| == |os|
    ensures |r.objects| == |os|
    decreases |os|
  {
    if os == [] then Scan([], s, [], 0, [], false)
    else
      var n := |os| - 1;
      CollectStep(bypass, lookup, Collect(bypass, lookup, s, os[..n], preps[..n], matches, grant),
                  os[n], preps[n], matches, grant)
  }

  lemma CollectSnoc(bypass: bool, lookup: ChestLookup, s: Stores, os: seq<Placed>, preps: seq<Prepared>,
                    matches: Placed -> bool, grant: XpGrant, o: Placed, p: Prepared)
    requires |preps| == |os|
    ensures Collect(bypass, lookup, s, os + [o], preps + [p], matches, grant)
         == CollectStep(bypass, lookup, Collect(bypass, lookup, s, os, preps, matches, grant), o, p, matches, grant)
  {
    assert (os + [o])[..|os|] == os;
    assert (preps + [p])[..|os|] == preps;
  }

  /** Every object keeps its place in the sequence: a matching one as
      prepared, any other untouched. */
  lemma {:induction false} CollectShape(bypass: bool, lookup: ChestLookup, s: Stores, os: seq<Placed>,
                                        preps: seq<Prepared>, matches: Placed -> bool, grant: XpGrant)
    requires |preps| == |os|
    ensures var r := Collect(bypass, lookup, s, os, preps, matches, grant);
      |r.objects| == |os| &&
      forall i :: 0 <= i < |os| ==> r.objects[i] == if matches(os[i]) then preps[i].changed else os[i]
    decreases |os|
  {
    if os != [] {
      CollectShape(bypass, lookup, s, os[..|os| - 1], preps[..|os| - 1], matches, grant);
    }
  }

  /** Every picked tile is the tile of a matching object. */
  predicate PicksOnlyMatches(os: seq<Placed>, matches: Placed -> bool, picked: seq<Coord>)
  {
    forall t :: t in picked ==> exists i :: 0 <= i < |os| && os[i].tile == t && matches(os[i])
  }

  /** A matching object whose tile was not picked means some routing failed. */
  predicate LeftOnlyOnFailure(os: seq<Placed>, matches: Placed -> bool, picked: seq<Coord>, failed: bool)
  {
    forall i :: 0 <= i < |os| && matches(os[i]) && os[i].tile !in picked ==> failed
  }

  lemma CollectTiles(bypass: bool, lookup: ChestLookup, s: Stores, os: seq<Placed>,
                     preps: seq<Prepared>, matches: Placed -> bool, grant: XpGrant)
    requires WellPrepared(os, preps)
    ensures var r := Collect(bypass, lookup, s, os, preps, matches, grant);
      forall i :: 0 <= i < |os| ==> r.objects[i].tile == os[i].tile
  {
    CollectShape(bypass, lookup, s, os, preps, matches, grant);
  }

  /** Only matching objects are picked, and a matching object that is not
      picked means some routing failed. */
  lemma {:induction false} CollectPicksMatches(bypass: bool, lookup: ChestLookup, s: Stores, os: seq<Placed>,
                                               preps: seq<Prepared>, matches: Placed -> bool, grant: XpGrant)
    requires |preps| == |os|
    ensures PicksOnlyMatches(os, matches, Collect(bypass, lookup, s, os, preps, matches, grant).picked)
    ensures var r := Collect(bypass, lookup, s, os, preps, matches, grant);
      LeftOnlyOnFailure(os, matches, r.picked, r.failed)
    decreases |os|
  {
    if os != [] {
      var n := |os| - 1;
      CollectPicksMatches(bypass, lookup, s, os[..n], preps[..n], matches, grant);
      var r := Collect(bypass, lookup, s, os[..n], preps[..n], matches, grant);
      var r' := Collect(bypass, lookup, s, os, preps, matches, grant);
      assert PicksOnlyMatches(os[..n], matches, r.picked);
      forall t | t in r'.picked
        ensures exists i :: 0 <= i < |os| && os[i].tile == t && matches(os[i])
      {
        if t in r.picked {
          var i :| 0 <= i < |os[..n]| && os[..n][i].tile == t && matches(os[..n][i]);
          assert os[i] == os[..n][i];
        } else {
          assert os[n].tile == t && matches(os[n]);
        }
      }
      forall i | 0 <= i < |os| && matches(os[i]) && os[i].tile !in r'.picked
        ensures r'.failed
      {
        if i < n {
          assert os[..n][i] == os[i];
        }
      }
    }
  }

  /** The counts a scan keeps in step: a harvested count between one and two
      per picked tile, and one grant of `grant` per harvested item. */
  predicate Tallied(r: Scan, grant: XpGrant)
  {
    |r.picked| <= r.harvested <= 2 * |r.picked| && |r.xp| == r.harvested &&
    forall g :: g in r.xp ==> g == grant
  }

  lemma StepTallies(bypass: bool, lookup: ChestLookup, r: Scan, o: Placed, p: Prepared,
                    matches: Placed -> bool, grant: XpGrant)
    requires Tallied(r, grant)
    ensures var r' := CollectStep(bypass, lookup, r, o, p, matches, grant);
      Tallied(r', grant) && (!p.doubled && r.harvested == |r.picked| ==> r'.harvested == |r'.picked|)
  {
  }

  /** The counter rises by one per picked object, or by two when its yield
      doubled, and every rise comes with one experience grant. */
  lemma {:induction false} CollectCounts(bypass: bool, lookup: ChestLookup, s: Stores, os: seq<Placed>,
                                         preps: seq<Prepared>, matches: Placed -> bool, grant: XpGrant)
    requires |preps| == |os|
    ensures var r := Collect(bypass, lookup, s, os, preps, matches, grant);
      |r.picked| <= r.harvested <= 2 * |r.picked| &&
      ((forall i :: 0 <= i < |os| ==> !preps[i].doubled) ==> r.harvested == |r.picked|) &&
      |r.xp| == r.harvested &&
      (forall g :: g in r.xp ==> g == grant)
    decreases |os|
  {
    if os != [] {
      var n := |os| - 1;
      CollectCounts(bypass, lookup, s, os[..n], preps[..n], matches, grant);
      var r0 := Collect(bypass, lookup, s, os[..n], preps[..n], matches, grant);
      StepTallies(bypass, lookup, r0, os[n], preps[n], matches, grant);
      if forall i :: 0 <= i < |os| ==> !preps[i].doubled {
        assert forall i :: 0 <= i < n ==> !preps[..n][i].doubled;
      }
    }
  }

  /** One more object scanned: the scan of the first `i + 1` objects is one
      step on from the scan of the first `i`. */
  lemma CollectExtends(bypass: bool, lookup: ChestLookup, s: Stores, os: seq<Placed>, preps: seq<Prepared>,
                       matches: Placed -> bool, grant: XpGrant, i: nat, q: Scan)
    requires |preps| == |os| && i < |os|
    requires q == CollectStep(bypass, lookup, Collect(bypass, lookup, s, os[..i], preps[..i], matches, grant),
                              os[i], preps[i], matches, grant)
    ensures Collect(bypass, lookup, s, os[..i + 1], preps[..i + 1], matches, grant) == q
  {
    assert os[..i + 1][..i] == os[..i];
    assert preps[..i + 1][..i] == preps[..i];
  }

  /** The items of the objects whose tiles are among `ts`, in order. */
  function ItemsOn(os: seq<Placed>, ts: seq<Coord>): seq<Item>
    decreases |os|
  {
    if os == [] then []
    else
      var n := |os| - 1;
      ItemsOn(os[..n], ts) + (if os[n].tile in ts then [os[n].item] else [])
  }

  lemma {:induction false} ItemsOnOtherTile(os: seq<Placed>, ts: seq<Coord>, t: Coord)
    requires forall i :: 0 <= i < |os| ==> os[i].tile != t
    ensures ItemsOn(os, ts + [t]) == ItemsOn(os, ts)
    decreases |os|
  {
    if os != [] {
      ItemsOnOtherTile(os[..|os| - 1], ts, t);
    }
  }

  lemma ItemsOnSnoc(os: seq<Placed>, o: Placed, ts: seq<Coord>)
    ensures ItemsOn(os + [o], ts) == ItemsOn(os, ts) + (if o.tile in ts then [o.item] else [])
  {
    assert (os + [o])[..|os|] == os;
  }

  /** The stores hold what they held at the start of the scan plus the items
      of the objects on the tiles queued for removal. */
  predicate Balanced(s: Stores, r: Scan)
  {
    multiset(AllItems(r.stores)) == multiset(AllItems(s)) + multiset(ItemsOn(r.objects, r.picked))
  }

  lemma StepKeepsBalance(bypass: bool, lookup: ChestLookup, s: Stores, r: Scan, o: Placed, p: Prepared,
                         matches: Placed -> bool, grant: XpGrant)
    requires Balanced(s, r)
    requires o.tile !in r.picked && p.changed.tile == o.tile
    requires forall i :: 0 <= i < |r.objects| ==> r.objects[i].tile != o.tile
    ensures Balanced(s, CollectStep(bypass, lookup, r, o, p, matches, grant))
  {
    ItemsOnOtherTile(r.objects, r.picked, o.tile);
    if matches(o) {
      var routed := Route(bypass, lookup, r.stores, p.changed.item);
      RouteKeepsEveryItem(bypass, lookup, r.stores, p.changed.item);
      if routed.ok {
        ItemsOnSnoc(r.objects, p.changed, r.picked + [o.tile]);
      } else {
        ItemsOnSnoc(r.objects, p.changed, r.picked);
      }
    } else {
      ItemsOnSnoc(r.objects, o, r.picked);
    }
  }

  /** A scan loses and duplicates nothing: the stores gain exactly the items
      of the objects on the tiles queued for removal. */
  lemma {:induction false} CollectKeepsEveryItem(bypass: bool, lookup: ChestLookup, s: Stores, os: seq<Placed>,
                                                 preps: seq<Prepared>, matches: Placed -> bool, grant: XpGrant)
    requires WellPrepared(os, preps) && DistinctTiles(os)
    ensures Balanced(s, Collect(bypass, lookup, s, os, preps, matches, grant))
    decreases |os|
  {
    if os != [] {
      var n := |os| - 1;
      var r := Collect(bypass, lookup, s, os[..n], preps[..n], matches, grant);
      var o, p := os[n], preps[n];
      assert WellPrepared(os[..n], preps[..n]) && DistinctTiles(os[..n]);
      CollectKeepsEveryItem(bypass, lookup, s, os[..n], preps[..n], matches, grant);
      CollectTiles(bypass, lookup, s, os[..n], preps[..n], matches, grant);
      CollectPicksMatches(bypass, lookup, s, os[..n], preps[..n], matches, grant);
      // the tile of the new object is not among the earlier ones
      assert forall i :: 0 <= i < n ==> os[..n][i].tile != o.tile;
      assert o.tile !in r.picked;
      StepKeepsBalance(bypass, lookup, s, r, o, p, matches, grant);
    }
  }

  /** After the picked tiles are cleared, an object stays exactly when its
      tile was not picked. */
  lemma KeptIffNotPicked(bypass: bool, lookup: ChestLookup, s: Stores, os: seq<Placed>,
                         preps: seq<Prepared>, matches: Placed -> bool, grant: XpGrant)
    requires WellPrepared(os, preps)
    ensures var r := Collect(bypass, lookup, s, os, preps, matches, grant);
      forall i :: 0 <= i < |os| ==> (r.objects[i] in Without(r.objects, r.picked) <==> os[i].tile !in r.picked)
  {
    var r := Collect(bypass, lookup, s, os, preps, matches, grant);
    CollectTiles(bypass, lookup, s, os, preps, matches, grant);
    forall i | 0 <= i < |os|
      ensures r.objects[i] in Without(r.objects, r.picked) <==> os[i].tile !in r.picked
    {
      assert r.objects[i] in r.objects;
    }
  }

  /** With distinct tiles, no object that does not match has its tile
      picked. */
  lemma UnmatchedNotPicked(os: seq<Placed>, matches: Placed -> bool, picked: seq<Coord>)
    requires DistinctTiles(os) && PicksOnlyMatches(os, matches, picked)
    ensures forall i :: 0 <= i < |os| && !matches(os[i]) ==> os[i].tile !in picked
  {
    forall i | 0 <= i < |os| && !matches(os[i])
      ensures os[i].tile !in picked
    {
      if os[i].tile in picked {
        assert false;
      }
    }
  }

  /** Every object that does not match is still there once the picked tiles
      are cleared. */
  lemma UnmatchedStay(bypass: bool, lookup: ChestLookup, s: Stores, os: seq<Placed>,
                      preps: seq<Prepared>, matches: Placed -> bool, grant: XpGrant)
    requires WellPrepared(os, preps) && DistinctTiles(os)
    ensures var r := Collect(bypass, lookup, s, os, preps, matches, grant);
      forall i :: 0 <= i < |os| && !matches(os[i]) ==> os[i] in Without(r.objects, r.picked)
  {
    var r := Collect(bypass, lookup, s, os, preps, matches, grant);
    CollectPicksMatches(bypass, lookup, s, os, preps, matches, grant);
    UnmatchedNotPicked(os, matches, r.picked);
    KeptIffNotPicked(bypass, lookup, s, os, preps, matches, grant);
    CollectShape(bypass, lookup, s, os, preps, matches, grant);
  }

  /** The number of matching objects on the tiles of `ts` whose yield was
      doubled. */
  function DoubledOn(os: seq<Placed>, preps: seq<Prepared>, matches: Placed -> bool, ts: seq<Coord>): nat
    requires |preps| == |os|
    decreases |os|
  {
    if os == [] then 0
    else
      var n := |os| - 1;
      DoubledOn(os[..n], preps[..n], matches, ts)
      + (if matches(os[n]) && os[n].tile in ts && preps[n].doubled then 1 else 0)
  }

  lemma {:induction false} DoubledOnOtherTile(os: seq<Placed>, preps: seq<Prepared>, matches: Placed -> bool,
                                              ts: seq<Coord>, t: Coord)
    requires |preps| == |os|
    requires forall i :: 0 <= i < |os| ==> os[i].tile != t
    ensures DoubledOn(os, preps, matches, ts + [t]) == DoubledOn(os, preps, matches, ts)
    decreases |os|
  {
    if os != [] {
      var n := |os| - 1;
      DoubledOnOtherTile(os[..n], preps[..n], matches, ts, t);
    }
  }

  /** The counter exactly: one per picked object, and one more for each
      picked object whose yield doubled. */
  lemma {:induction false} CollectCountsExactly(bypass: bool, lookup: ChestLookup, s: Stores, os: seq<Placed>,
                                                preps: seq<Prepared>, matches: Placed -> bool, grant: XpGrant)
    requires |preps| == |os| && DistinctTiles(os)
    ensures var r := Collect(bypass, lookup, s, os, preps, matches, grant);
      r.harvested == |r.picked| + DoubledOn(os, preps, matches, r.picked)
    decreases |os|
  {
    if os != [] {
      var n := |os| - 1;
      var r := Collect(bypass, lookup, s, os[..n], preps[..n], matches, grant);
      assert DistinctTiles(os[..n]);
      CollectCountsExactly(bypass, lookup, s, os[..n], preps[..n], matches, grant);
      CollectPicksMatches(bypass, lookup, s, os[..n], preps[..n], matches, grant);
      assert forall i :: 0 <= i < n ==> os[..n][i].tile != os[n].tile;
      assert os[n].tile !in r.picked;
      StepCountsExactly(bypass, lookup, r, os[..n], preps[..n], os[n], preps[n], matches, grant);
      assert os[..n] + [os[n]] == os && preps[..n] + [preps[n]] == preps;
    }
  }

  lemma StepCountsExactly(bypass: bool, lookup: ChestLookup, r: Scan, os: seq<Placed>, preps: seq<Prepared>,
                          o: Placed, p: Prepared, matches: Placed -> bool, grant: XpGrant)
    requires |preps| == |os|
    requires r.harvested == |r.picked| + DoubledOn(os, preps, matches, r.picked)
    requires o.tile !in r.picked && forall i :: 0 <= i < |os| ==> os[i].tile != o.tile
    ensures var r' := CollectStep(bypass, lookup, r, o, p, matches, grant);
      r'.harvested == |r'.picked| + DoubledOn(os + [o], preps + [p], matches, r'.picked)
  {
    assert (os + [o])[..|os|] == os && (preps + [p])[..|os|] == preps;
    DoubledOnOtherTile(os, preps, matches, r.picked, o.tile);
  }

  /** One more object keeps each picked tile holding exactly one object. */
  lemma StepPicksOnce(bypass: bool, lookup: ChestLookup, r: Scan, o: Placed, p: Prepared,
                      matches: Placed -> bool, grant: XpGrant)
    requires |ItemsOn(r.objects, r.picked)| == |r.picked|
    requires o.tile !in r.picked && p.changed.tile == o.tile
    requires forall i :: 0 <= i < |r.objects| ==> r.objects[i].tile != o.tile
    ensures var r' := CollectStep(bypass, lookup, r, o, p, matches, grant);
      |ItemsOn(r'.objects, r'.picked)| == |r'.picked|
  {
    var r' := CollectStep(bypass, lookup, r, o, p, matches, grant);
    ItemsOnOtherTile(r.objects, r.picked, o.tile);
    ItemsOnSnoc(r.objects, r'.objects[|r.objects|], r'.picked);
  }

  /** With distinct tiles, each picked tile holds exactly one object. */
  lemma {:induction false} CollectPicksOnce(bypass: bool, lookup: ChestLookup, s: Stores, os: seq<Placed>,
                                            preps: seq<Prepared>, matches: Placed -> bool, grant: XpGrant)
    requires WellPrepared(os, preps) && DistinctTiles(os)
    ensures var r := Collect(bypass, lookup, s, os, preps, matches, grant);
      |ItemsOn(r.objects, r.picked)| == |r.picked|
    decreases |os|
  {
    if os != [] {
      var n := |os| - 1;
      var r := Collect(bypass, lookup, s, os[..n], preps[..n], matches, grant);
      var o, p := os[n], preps[n];
      assert WellPrepared(os[..n], preps[..n]) && DistinctTiles(os[..n]);
      CollectPicksOnce(bypass, lookup, s, os[..n], preps[..n], matches, grant);
      CollectTiles(bypass, lookup, s, os[..n], preps[..n], matches, grant);
      CollectPicksMatches(bypass, lookup, s, os[..n], preps[..n], matches, grant);
      assert forall i :: 0 <= i < n ==> os[..n][i].tile != o.tile;
      assert o.tile !in r.picked;
      StepPicksOnce(bypass, lookup, r, o, p, matches, grant);
    }
  }

  /** The items of the objects of `os` that are not among `kept`, in order. */
  function ItemsGone(os: seq<Placed>, kept: seq<Placed>): seq<Item>
    decreases |os|
  {
    if os == [] then []
    else
      var n := |os| - 1;
      ItemsGone(os[..n], kept) + (if os[n] in kept then [] else [os[n].item])
  }

  /** The objects that are gone are exactly those on the tiles of `ts`. */
  lemma {:induction false} GoneArePicked(os: seq<Placed>, kept: seq<Placed>, ts: seq<Coord>)
    requires forall i :: 0 <= i < |os| ==> (os[i] in kept <==> os[i].tile !in ts)
    ensures ItemsGone(os, kept) == ItemsOn(os, ts)
    decreases |os|
  {
    if os != [] {
      var n := |os| - 1;
      assert forall i :: 0 <= i < n ==> os[..n][i] == os[i];
      GoneArePicked(os[..n], kept, ts);
    }
  }

  lemma {:induction false} NothingGone(os: seq<Placed>, kept: seq<Placed>)
    requires forall i :: 0 <= i < |os| ==> os[i] in kept
    ensures ItemsGone(os, kept) == []
    decreases |os|
  {
    if os != [] {
      var n := |os| - 1;
      assert forall i :: 0 <= i < n ==> os[..n][i] == os[i];
      NothingGone(os[..n], kept);
    }
  }

  // The truffle scan (HarvestTruffles).

  predicate IsTruffle(o: Placed)
  {
    o.name == "Truffle"
  }

  /** The chance of a double truffle: a draw below 0.4 when the checker is
      exactly "pet", below 0.2 otherwise. */
  predicate DoubleChance(checker: string, draw: real)
  {
    if checker == "pet" then draw < 0.4 else draw < 0.2
  }

  /** What the truffle scan does to a truffle before routing it: quality 4
      with profession 16; a stack of two, counted double, with profession 13
      and a lucky draw. */
  function PrepareTruffle(checker: string, professions: set<int>, o: Placed, draw: real): (p: Prepared)
    ensures p.changed.tile == o.tile && p.changed.name == o.name && p.changed.animalProduct == o.animalProduct
    ensures p.changed.item.index == o.item.index
    ensures p.doubled <==> 13 in professions && (if checker == "pet" then draw < 0.4 else draw < 0.2)
    ensures p.changed.item.quality == if 16 in professions then 4 else o.item.quality
    ensures p.changed.item.stack == if p.doubled then 2 else o.item.stack
  {
    var quality := if 16 in professions then 4 else o.item.quality;
    var doubled := 13 in professions && DoubleChance(checker, draw);
    var stack := if doubled then 2 else o.item.stack;
    Prepared(o.(item := Item(o.item.index, stack, quality)), doubled)
  }

  function TrufflePreps(checker: string, professions: set<int>, os: seq<Placed>, draws: seq<real>): (ps: seq<Prepared>)
    requires |draws| == |os|
    ensures WellPrepared(os, ps)
    ensures forall i :: 0 <= i < |os| ==> ps[i] == PrepareTruffle(checker, professions, os[i], draws[i])
  {
    seq(|os|, i requires 0 <= i < |os| => PrepareTruffle(checker, professions, os[i], draws[i]))
  }

  function TruffleScan(checker: string, professions: set<int>, bypass: bool, lookup: ChestLookup,
                       s: Stores, os: seq<Placed>, draws: seq<real>): Scan
    requires |draws| == |os|
  {
    Collect(bypass, lookup, s, os, TrufflePreps(checker, professions, os, draws), IsTruffle, TruffleXp())
  }

  /** Without profession 13 no truffle counts double: the counter rises by
      exactly the number of truffles taken, one foraging grant each. */
  lemma TrufflesCountOnceWithoutProfession13(checker: string, professions: set<int>, bypass: bool,
                                             lookup: ChestLookup, s: Stores, os: seq<Placed>, draws: seq<real>)
    requires |draws| == |os| && 13 !in professions
    ensures var r := TruffleScan(checker, professions, bypass, lookup, s, os, draws);
      r.harvested == |r.picked| && |r.xp| == |r.picked| && forall g :: g in r.xp ==> g == TruffleXp()
  {
    var preps := TrufflePreps(checker, professions, os, draws);
    CollectCounts(bypass, lookup, s, os, preps, IsTruffle, TruffleXp());
  }

  // The coop scan (HarvestCoops).

  /** What the coop scan picks up: animal products and object 107. */
  predicate IsCoopProduct(o: Placed)
  {
    o.animalProduct || o.item.index == 107
  }

  /** The coop scan changes no object before routing it. */
  function CoopPreps(os: seq<Placed>): (ps: seq<Prepared>)
    ensures WellPrepared(os, ps)
    ensures forall i :: 0 <= i < |os| ==> ps[i] == Prepared(os[i], false)
  {
    seq(|os|, i requires 0 <= i < |os| => Prepared(os[i], false))
  }

  function CoopScan(bypass: bool, lookup: ChestLookup, s: Stores, os: seq<Placed>): Scan
  {
    Collect(bypass, lookup, s, os, CoopPreps(os), IsCoopProduct, CoopXp())
  }

  /** A coop scan leaves the objects as they were, and counts each product it
      takes once, with one farming grant. */
  lemma CoopScanCounts(bypass: bool, lookup: ChestLookup, s: Stores, os: seq<Placed>)
    ensures var r := CoopScan(bypass, lookup, s, os);
      r.objects == os && r.harvested == |r.picked| && |r.xp| == |r.picked| &&
      forall g :: g in r.xp ==> g == CoopXp()
  {
    var preps := CoopPreps(os);
    CollectShape(bypass, lookup, s, os, preps, IsCoopProduct, CoopXp());
    CollectCounts(bypass, lookup, s, os, preps, IsCoopProduct, CoopXp());
    var r := CoopScan(bypass, lookup, s, os);
    assert r.objects == os;
  }

  /** One coop's accounts: the stores gain exactly the items of the objects
      removed from it, the counter rises by their number, and a product left
      behind means some routing failed. */
  lemma CoopScanAccounts(bypass: bool, lookup: ChestLookup, s: Stores, os: seq<Placed>)
    requires DistinctTiles(os)
    ensures var c := CoopScan(bypass, lookup, s, os);
      var kept := Without(c.objects, c.picked);
      multiset(AllItems(c.stores)) == multiset(AllItems(s)) + multiset(ItemsGone(os, kept)) &&
      c.harvested == |ItemsGone(os, kept)| &&
      forall o :: o in kept && IsCoopProduct(o) ==> c.failed
  {
    var preps := CoopPreps(os);
    var c := CoopScan(bypass, lookup, s, os);
    CoopScanCounts(bypass, lookup, s, os);
    CollectKeepsEveryItem(bypass, lookup, s, os, preps, IsCoopProduct, CoopXp());
    CollectPicksOnce(bypass, lookup, s, os, preps, IsCoopProduct, CoopXp());
    CollectPicksMatches(bypass, lookup, s, os, preps, IsCoopProduct, CoopXp());
    var kept := Without(c.objects, c.picked);
    forall i | 0 <= i < |os|
      ensures os[i] in kept <==> os[i].tile !in c.picked
    {
      assert os[i] in os;
    }
    GoneArePicked(os, kept, c.picked);
    forall o | o in kept && IsCoopProduct(o)
      ensures c.failed
    {
      var i :| 0 <= i < |os| && os[i] == o;
    }
  }

  /** A building on the farm; only a coop's interior is scanned. */
  datatype Building = Building(isCoop: bool, objects: seq<Placed>)

  datatype Coops = Coops(buildings: seq<Building>, stores: Stores, harvested: nat,
                         xp: seq<XpGrant>, failed: bool)

  /** One building of the loop: a coop is scanned and its picked tiles are
      cleared; any other building is left alone. */
  function CoopsStep(bypass: bool, lookup: ChestLookup, r: Coops, b: Building): Coops
  {
    if !b.isCoop then r.(buildings := r.buildings + [b])
    else
      var c := CoopScan(bypass, lookup, r.stores, b.objects);
      Coops(r.buildings + [Building(true, Without(c.objects, c.picked))], c.stores,
            r.harvested + c.harvested, r.xp + c.xp, r.failed || c.failed)
  }

  /** The loop over the farm's buildings. */
  function CoopsAll(bypass: bool, lookup: ChestLookup, s: Stores, bs: seq<Building>): (r: Coops)
    ensures |r.buildings| == |bs|
    decreases |bs|
  {
    if bs == [] then Coops([], s, 0, [], false)
    else
      var n := |bs| - 1;
      CoopsStep(bypass, lookup, CoopsAll(bypass, lookup, s, bs[..n]), bs[n])
  }

  lemma CoopsAllExtends(bypass: bool, lookup: ChestLookup, s: Stores, bs: seq<Building>, j: nat, q: Coops)
    requires j < |bs| && q == CoopsStep(bypass, lookup, CoopsAll(bypass, lookup, s, bs[..j]), bs[j])
    ensures CoopsAll(bypass, lookup, s, bs[..j + 1]) == q
  {
    assert bs[..j + 1][..j] == bs[..j];
  }

  /** What the loop may do to one building: a building that is not a coop is
      untouched; a coop only loses objects, and keeps every one that is not a
      product. */
  predicate Tended(b: Building, b': Building)
  {
    b'.isCoop == b.isCoop &&
    (!b.isCoop ==> b' == b) &&
    (forall o :: o in b'.objects ==> o in b.objects) &&
    (forall o :: o in b.objects && !IsCoopProduct(o) ==> o in b'.objects)
  }

  lemma StepTends(bypass: bool, lookup: ChestLookup, r: Coops, b: Building)
    requires DistinctTiles(b.objects)
    ensures var r' := CoopsStep(bypass, lookup, r, b);
      |r'.buildings| == |r.buildings| + 1 && r'.buildings[..|r.buildings|] == r.buildings &&
      Tended(b, r'.buildings[|r.buildings|])
  {
    if b.isCoop {
      CoopScanCounts(bypass, lookup, r.stores, b.objects);
      UnmatchedStay(bypass, lookup, r.stores, b.objects, CoopPreps(b.objects), IsCoopProduct, CoopXp());
    }
  }

  /** Buildings keep their places and each is tended as one building alone. */
  lemma {:induction false} CoopsAllTends(bypass: bool, lookup: ChestLookup, s: Stores, bs: seq<Building>)
    requires forall k :: 0 <= k < |bs| ==> DistinctTiles(bs[k].objects)
    ensures var r := CoopsAll(bypass, lookup, s, bs);
      |r.buildings| == |bs| && forall k :: 0 <= k < |bs| ==> Tended(bs[k], r.buildings[k])
    decreases |bs|
  {
    if bs != [] {
      var n := |bs| - 1;
      var r := CoopsAll(bypass, lookup, s, bs[..n]);
      CoopsAllTends(bypass, lookup, s, bs[..n]);
      StepTends(bypass, lookup, r, bs[n]);
      var r' := CoopsAll(bypass, lookup, s, bs);
      forall k | 0 <= k < |bs|
        ensures Tended(bs[k], r'.buildings[k])
      {
        if k < n {
          assert bs[..n][k] == bs[k];
          assert r'.buildings[k] == r.buildings[k];
        }
      }
    }
  }

  /** The coop counter rises once per farming grant, and all grants are
      farming grants. */
  lemma {:induction false} CoopsAllCounts(bypass: bool, lookup: ChestLookup, s: Stores, bs: seq<Building>)
    ensures var r := CoopsAll(bypass, lookup, s, bs);
      |r.xp| == r.harvested && forall g :: g in r.xp ==> g == CoopXp()
    decreases |bs|
  {
    if bs != [] {
      var n := |bs| - 1;
      var r := CoopsAll(bypass, lookup, s, bs[..n]);
      CoopsAllCounts(bypass, lookup, s, bs[..n]);
      if bs[n].isCoop {
        CoopScanCounts(bypass, lookup, r.stores, bs[n].objects);
      }
    }
  }

  /** The items of the objects the loop removed, building by building. */
  function ItemsGoneFrom(bs: seq<Building>, bs': seq<Building>): seq<Item>
    requires |bs'| == |bs|
    decreases |bs|
  {
    if bs == [] then []
    else
      var n := |bs| - 1;
      ItemsGoneFrom(bs[..n], bs'[..n]) + ItemsGone(bs[n].objects, bs'[n].objects)
  }

  /** What the loop over `bs` has accounted for: the stores gained exactly
      the items removed, the counter is their number, and a product left in
      a coop means some routing failed. */
  predicate Accounted(s: Stores, bs: seq<Building>, r: Coops)
    requires |r.buildings| == |bs|
  {
    multiset(AllItems(r.stores)) == multiset(AllItems(s)) + multiset(ItemsGoneFrom(bs, r.buildings)) &&
    r.harvested == |ItemsGoneFrom(bs, r.buildings)| &&
    forall k, o :: 0 <= k < |bs| && bs[k].isCoop && o in r.buildings[k].objects && IsCoopProduct(o) ==> r.failed
  }

  lemma StepAccounts(bypass: bool, lookup: ChestLookup, s: Stores, bs: seq<Building>, r: Coops, b: Building)
    requires |r.buildings| == |bs| && Accounted(s, bs, r) && DistinctTiles(b.objects)
    ensures var r' := CoopsStep(bypass, lookup, r, b);
      |r'.buildings| == |bs + [b]| && Accounted(s, bs + [b], r')
  {
    var r' := CoopsStep(bypass, lookup, r, b);
    var n := |bs|;
    assert (bs + [b])[..n] == bs;
    assert r'.buildings[..n] == r.buildings;
    assert ItemsGoneFrom(bs + [b], r'.buildings)
        == ItemsGoneFrom(bs, r.buildings) + ItemsGone(b.objects, r'.buildings[n].objects);
    if b.isCoop {
      CoopScanAccounts(bypass, lookup, r.stores, b.objects);
    } else {
      NothingGone(b.objects, b.objects);
    }
    forall k, o | 0 <= k < n + 1 && (bs + [b])[k].isCoop && o in r'.buildings[k].objects && IsCoopProduct(o)
      ensures r'.failed
    {
      if k < n {
        assert (bs + [b])[k] == bs[k];
        assert r'.buildings[k] == r.buildings[k];
      }
    }
  }

  /** The loop's accounts: the stores gain exactly the items of the products
      removed from the coops, the counter rises by their number, and a
      product left in a coop means some routing failed. */
  lemma {:induction false} CoopsAllKeepsEveryItem(bypass: bool, lookup: ChestLookup, s: Stores, bs: seq<Building>)
    requires forall k :: 0 <= k < |bs| ==> DistinctTiles(bs[k].objects)
    ensures Accounted(s, bs, CoopsAll(bypass, lookup, s, bs))
    decreases |bs|
  {
    if bs != [] {
      var n := |bs| - 1;
      CoopsAllKeepsEveryItem(bypass, lookup, s, bs[..n]);
      StepAccounts(bypass, lookup, s, bs[..n], CoopsAll(bypass, lookup, s, bs[..n]), bs[n]);
      assert bs[..n] + [bs[n]] == bs;
    }
  }
}
