# Animal sitter: a Dafny model of the key handler

The animal sitter is a Stardew Valley mod. When the player presses its key,
it visits every farm animal and, for each one:

- pets it;
- ages a baby to maturity;
- fills fullness and happiness to 255 and friendship to 1000;
- takes its produce.

It then collects the truffles lying on the farm and the animal products
lying in the coops. Every item it collects goes through a fixed routing
order:

1. the inventory, unless bypassed;
2. the chest preferred for the item's kind;
3. the default chest;
4. the inventory once more.

Finally it charges the player a cost per action and reports the work. The
report comes from the pet, the spouse, a gatherer or a named villager.

This project models that handler in Dafny:

- `AnimalSitter` is a class. Its fields are:
  - the settings;
  - the chest manager's answers;
  - the sticky "inventory and chests full" flag;
  - the count of days short of pay;
  - the part of the game world the handler reads and writes.
- Every step of the handler is a method that updates those fields in the
  order the code does.
- Each method is proved equal to a pure function of the old state:
  - `Route` for the router;
  - `CareAll` for the animal loop;
  - `TruffleScan` and `Without` for the truffle harvest;
  - `CoopsAll` for the coop harvest;
  - `Select` for the message;
  - `Settle` for the charge.
- Lemmas then state what those functions promise.

Modules:

- `Items`: items, stores and chests.
- `Configuration`, `Stats`: the settings, the cost clamp and the statistics record.
- `Router`: the routing order of `AddItemToInventory`.
- `Care`: the per-animal care pass.
- `Harvest`: the truffle scan and the coop scan.
- `Messages`: `GetGathererName` and `ShowMessage`'s decision table.
- `Billing`: the charge, both as written with 32-bit ints and as intended.
- `Sitter`: the class and the whole run.

Two facts about the code that the model keeps:

- Produce taken from an animal is lost when routing fails. `currentProduce`
  is zeroed and counted whatever `AddItemToInventory` answers
  (AnimalSitter/AnimalSitter.cs:230-233 and 239-242).
- The pet's message is one of three fixed lines: "Meow.." for a cat person,
  "Woof." otherwise, and a line of its own for a player without a pet
  (AnimalSitter/AnimalSitter.cs:451-467).

## Model

| member | source | states |
|---|---|---|
| `Configuration.ClampCost` | AnimalSitter/AnimalSitter.cs:128-137 | the cost per animal is the configured cost when that is not negative, and 0 otherwise |
| `Sitter.AnimalSitter.ImportConfiguration` | AnimalSitter/AnimalSitter.cs:114-137 | every toggle, the checker, the bypass flag and the clamped cost are copied from the configuration |
| `Sitter.AnimalSitter.constructor` | AnimalSitter/AnimalSitter.cs:25-67 | the field initialisers: every toggle on, checker "spouse", cost 0, no bypass, flag down, no short days |
| `Router.FirstAccepting` | AnimalSitter/AnimalSitter.cs:382-424 | the first destination in a list that takes the item: none exactly when no destination takes it; otherwise one that takes it, with every earlier one refusing |
| `Router.AttemptsPickFirstTaker` | AnimalSitter/AnimalSitter.cs:386-421 | the branches as written pick the first accepting destination of the order inventory (unless bypassed), preferred chest, default chest, inventory |
| `Router.RouteTriesInOrder` | AnimalSitter/AnimalSitter.cs:382-424 | routing succeeds iff some destination in the order accepts; the item goes to the first one that accepts; on failure the stores are unchanged |
| `Router.RouteKeepsEveryItem` | AnimalSitter/AnimalSitter.cs:382-424 | routing never loses or duplicates an item: the stores gain exactly the routed item on success and nothing on failure |
| `Items.PutInChestAddsOne` | AnimalSitter/AnimalSitter.cs:398-413 | adding to one chest adds exactly that item to the chests' contents and keeps the chest count |
| `Sitter.AnimalSitter.PutInChestAt` | AnimalSitter/AnimalSitter.cs:398-413 | a null chest, or an object that is not a chest, is skipped; a chest takes the item iff it has room |
| `Sitter.AnimalSitter.AddItemToInventory` | AnimalSitter/AnimalSitter.cs:382-424 | the answer and the new stores are those of `Route`; the full flag is raised on failure and otherwise left as it was |
| `Care.VisitAnimal` | AnimalSitter/AnimalSitter.cs:178-246 | the target values (fullness and happiness 255, friendship 1000, age `ageWhenMature + 1`, produce 0) and their guards; each counter moves by one exactly when its field changes; the produce is routed exactly when it is taken |
| `Care.StepsAreCared` | AnimalSitter/AnimalSitter.cs:178-218 | the five guarded steps taken in order equal the care part of a visit, counters included |
| `Care.VisitInSteps` | AnimalSitter/AnimalSitter.cs:178-246 | the care steps and then the harvest add to the running statistics what one visit adds |
| `Care.RevisitDoesNothing` | AnimalSitter/AnimalSitter.cs:178-246 | visiting a just-visited animal changes nothing, counts nothing and routes nothing |
| `Care.CareAll` | AnimalSitter/AnimalSitter.cs:172-252 | the pass keeps the number of animals and of chests, and its statistics start from zero |
| `Care.CareAllVisitsEach` | AnimalSitter/AnimalSitter.cs:174-252 | each animal ends as its own visit makes it, whatever the other animals are and whatever routing did |
| `Care.CareAllCounts` | AnimalSitter/AnimalSitter.cs:178-246 | each of the seven counters equals the number of animals whose guard held when the pass began |
| `Care.VisitCounts` | AnimalSitter/AnimalSitter.cs:178-246 | one visit's counters are its guards on the animal as found |
| `Care.SecondPassDoesNothing` | AnimalSitter/AnimalSitter.cs:174-252 | a second pass over the animals the first pass left does no work and routes nothing |
| `Sitter.AnimalSitter.Pet` | AnimalSitter/AnimalSitter.cs:178-184 | an animal not yet petted is petted and counted when petting is on; otherwise nothing changes |
| `Sitter.AnimalSitter.GrowUp` | AnimalSitter/AnimalSitter.cs:187-194 | a baby gets age `ageWhenMature + 1` and is counted when growing up is on; otherwise nothing changes |
| `Sitter.AnimalSitter.Feed` | AnimalSitter/AnimalSitter.cs:196-202 | fullness below 255 becomes 255 and is counted when feeding is on |
| `Sitter.AnimalSitter.Cheer` | AnimalSitter/AnimalSitter.cs:204-210 | happiness below 255 becomes 255 and is counted when the happiness toggle is on |
| `Sitter.AnimalSitter.Befriend` | AnimalSitter/AnimalSitter.cs:212-218 | friendship below 1000 becomes 1000 and is counted when the friendship toggle is on |
| `Sitter.AnimalSitter.CareFor` | AnimalSitter/AnimalSitter.cs:178-218 | the five steps in order leave the animal and the counters as the care part of a visit says |
| `Sitter.AnimalSitter.TakeProduce` | AnimalSitter/AnimalSitter.cs:220-246 | produce is taken when there is some and harvesting is on, except from a pig when truffles stay; it is routed, zeroed and counted (as a truffle for a pig) whether routing succeeds or not |
| `Sitter.AnimalSitter.Tend` | AnimalSitter/AnimalSitter.cs:178-246 | one loop body is one step of `CareAll`; the flag records a failed routing |
| `Sitter.AnimalSitter.VisitNext` | AnimalSitter/AnimalSitter.cs:174-252 | one more animal visited keeps the loop invariant: the animals before it are as `CareAll` leaves them, the rest untouched |
| `Sitter.AnimalSitter.TendAnimals` | AnimalSitter/AnimalSitter.cs:172-252 | the animals, the stores, the statistics and the flag end as `CareAll` says |
| `Harvest.RemoveTile` | AnimalSitter/AnimalSitter.cs:333-337 | removing a tile keeps exactly the objects on other tiles |
| `Harvest.Without` | AnimalSitter/AnimalSitter.cs:333-337 | after the removal loop an object remains iff its tile was not listed |
| `Harvest.Collect` | AnimalSitter/AnimalSitter.cs:292-330 | a scan keeps one object per object scanned |
| `Harvest.CollectShape` | AnimalSitter/AnimalSitter.cs:292-330 | every object keeps its place; a matching one is changed as prepared, any other is untouched |
| `Harvest.CollectPicksMatches` | AnimalSitter/AnimalSitter.cs:292-330 | only matching objects are picked, and a matching object left unpicked means some routing failed |
| `Harvest.CollectCounts` | AnimalSitter/AnimalSitter.cs:311-322 | the counter rises by one or two per picked object, and by exactly one each when no yield was doubled; one experience grant per count, all of the scan's kind |
| `Harvest.CollectCountsExactly` | AnimalSitter/AnimalSitter.cs:311-322 | on distinct tiles the counter is exactly one per picked object plus one more per picked object whose yield doubled |
| `Harvest.CollectKeepsEveryItem` | AnimalSitter/AnimalSitter.cs:292-330 | the stores gain exactly the items of the objects on the picked tiles |
| `Harvest.KeptIffNotPicked` | AnimalSitter/AnimalSitter.cs:331-337 | after the removal an object stays iff its tile was not picked |
| `Harvest.UnmatchedStay` | AnimalSitter/AnimalSitter.cs:292-337 | every object that does not match is still there after the removal |
| `Harvest.PrepareTruffle` | AnimalSitter/AnimalSitter.cs:298-309 | a truffle keeps its tile and kind; its quality becomes 4 iff profession 16 is held; it doubles iff profession 13 is held and the draw is below 0.4 when the checker is exactly "pet", below 0.2 otherwise; a doubled truffle's stack is 2, any other keeps its stack |
| `Harvest.TrufflesCountOnceWithoutProfession13` | AnimalSitter/AnimalSitter.cs:305-322 | without profession 13 each routed truffle counts once and earns one foraging grant |
| `Harvest.CoopScanCounts` | AnimalSitter/AnimalSitter.cs:350-366 | a coop scan changes no object and counts each routed product once, with one farming grant |
| `Harvest.CoopsAll` | AnimalSitter/AnimalSitter.cs:346-378 | the building loop keeps the number of buildings |
| `Harvest.StepTends` | AnimalSitter/AnimalSitter.cs:348-377 | one more building of the loop: a non-coop is untouched, and a coop only loses objects and keeps every non-product |
| `Harvest.CoopsAllTends` | AnimalSitter/AnimalSitter.cs:346-378 | every building keeps its place and its kind; a non-coop is untouched; a coop only loses objects and keeps every object that is not a product |
| `Harvest.CoopScanAccounts` | AnimalSitter/AnimalSitter.cs:350-373 | in one coop, the stores gain exactly the items of the objects removed, the counter rises by their number, and a product left in the coop means some routing failed |
| `Harvest.CoopsAllKeepsEveryItem` | AnimalSitter/AnimalSitter.cs:346-378 | over all buildings, the stores gain exactly the items of the objects removed from the coops, the product counter equals their number, and a product left in any coop means some routing failed |
| `Harvest.CoopsAllCounts` | AnimalSitter/AnimalSitter.cs:346-378 | the product counter equals the number of farming grants, and every grant is a farming grant |
| `Sitter.AnimalSitter.ImproveTruffle` | AnimalSitter/AnimalSitter.cs:298-309 | quality 4 with profession 16; stack 2 and doubled with profession 13 and a draw below 0.4 for "pet" or 0.2 otherwise, as `PrepareTruffle` says |
| `Sitter.AnimalSitter.TakeTruffle` | AnimalSitter/AnimalSitter.cs:311-326 | a routed truffle is listed for removal, counted once or twice, and earns one or two foraging grants; an unrouted one is left and raises the flag |
| `Sitter.AnimalSitter.TruffleStep` | AnimalSitter/AnimalSitter.cs:294-328 | one loop body is one step of the truffle scan |
| `Sitter.AnimalSitter.TruffleNext` | AnimalSitter/AnimalSitter.cs:292-330 | one more object scanned keeps the scan invariant |
| `Sitter.AnimalSitter.ScanLoop` | AnimalSitter/AnimalSitter.cs:292-330 | the loop takes the scan from no object to every object |
| `Sitter.AnimalSitter.ScanTruffles` | AnimalSitter/AnimalSitter.cs:289-330 | the objects, stores, experience, tiles to remove, counter and flag are those of `TruffleScan` |
| `Sitter.AnimalSitter.RemoveFarmObjects` | AnimalSitter/AnimalSitter.cs:333-337 | the farm's objects become `Without` the listed tiles |
| `Sitter.AnimalSitter.HarvestTruffles` | AnimalSitter/AnimalSitter.cs:284-339 | the farm loses exactly the routed truffles; the stores, experience, truffle counter and flag follow `TruffleScan` |
| `Sitter.AnimalSitter.TakeCoopProduct` | AnimalSitter/AnimalSitter.cs:356-366 | a routed product is listed for removal, counted once and earns one farming grant; otherwise nothing but the flag changes |
| `Sitter.AnimalSitter.CoopStep` | AnimalSitter/AnimalSitter.cs:352-367 | one loop body is one step of the coop scan; an object that is not an animal product and not index 107 is skipped |
| `Sitter.AnimalSitter.ScanCoop` | AnimalSitter/AnimalSitter.cs:350-367 | the stores, experience, tiles to remove, counter and flag are those of `CoopScan` |
| `Sitter.AnimalSitter.RemoveIndoorObjects` | AnimalSitter/AnimalSitter.cs:369-373 | the coop loses the listed tiles and no other building changes |
| `Sitter.AnimalSitter.BuildingNext` | AnimalSitter/AnimalSitter.cs:346-378 | one more building done keeps the loop invariant |
| `Sitter.AnimalSitter.HarvestCoops` | AnimalSitter/AnimalSitter.cs:341-380 | the buildings, stores, experience, product counter and flag end as `CoopsAll` says |
| `Messages.GathererName` | AnimalSitter/AnimalSitter.cs:427-441 | the spouse's name when the checker is the spouse (any case) and the player is married; "The animal sitter" when unmarried; otherwise the checker |
| `Messages.Select` | AnimalSitter/AnimalSitter.cs:444-556 | pet first, with its three fixed lines; only a found character speaks, in its own name, opening with a greeting and Xdialog 5 and closing with the portrait (`$8` only for Shane) and `#$e#`; short days reset iff a character was paid in full |
| `Messages.SelectOpensEachBranch` | AnimalSitter/AnimalSitter.cs:469-550 | Xdialog 1 or 2 iff the spouse branch (married or not), Xdialog 4 iff gathering only, Xdialog 7 iff no character of that name |
| `Messages.SelectTalksMoney` | AnimalSitter/AnimalSitter.cs:480-538 | the addendum (Xdialog 3) iff spouse or gathering branch with cost charged; Xdialog 6 or "unfinishedmoney" iff a character speaks with a cost, by whether the player could pay |
| `Sitter.ComposeMessage` | AnimalSitter/AnimalSitter.cs:449-556 | the branches as written build the channel, the pieces and the reset that `Select` chooses |
| `Sitter.AnimalSitter.ShowMessage` | AnimalSitter/AnimalSitter.cs:444-558 | the selected report is shown with the action count and the cost filled in; short days become 0 exactly when `Select` resets them |
| `Billing.Wrap32` | AnimalSitter/AnimalSitter.cs:262-264 | 32-bit wrap-around: in range, congruent modulo 2^32, and the identity on values already in range |
| `Billing.Charge` | AnimalSitter/AnimalSitter.cs:260-264 | total = actions × cost; enough cash iff money ≥ total; new money is money − total, floored at 0, never negative and never more than before |
| `Billing.OverflowCreditsMoney` | AnimalSitter/AnimalSitter.cs:262-264 | as written, 3 actions at 2^30 each wrap to −2^30, so the player "can pay" and gains money |
| `Billing.ChargeAsWrittenAgrees` | AnimalSitter/AnimalSitter.cs:262-264 | without overflow, the 32-bit charge equals the intended one |
| `Sitter.GatherCounts` | AnimalSitter/AnimalSitter.cs:172-255 | care counters count the animals whose guards held; one experience grant per truffle or coop product taken from the ground, none for produce taken from animals; money and reports untouched |
| `Sitter.Settle` | AnimalSitter/AnimalSitter.cs:257-281 | only money and reports change; money moves only when actions > 0 and cost > 0, to max(0, money − actions × cost); at most one report, added iff messages are on, a cost is set and the action count is not negative; short days only ever reset, after a paid visit |
| `Sitter.SettleReports` | AnimalSitter/AnimalSitter.cs:260-281 | a charged run shows `Select`'s report with the enough-cash flag taken before the deduction; an idle run shows "There's nothing to do for the animals right now." |
| `Sitter.AnimalSitter.ChargeAndReport` | AnimalSitter/AnimalSitter.cs:257-281 | the charge and the report are as `Settle` says |
| `Sitter.AnimalSitter.GatherAll` | AnimalSitter/AnimalSitter.cs:170-255 | the care pass, the truffle harvest and the coop harvest together leave the world, the statistics and the flag as `Gather` says |
| `Sitter.AnimalSitter.IterateOverAnimals` | AnimalSitter/AnimalSitter.cs:168-282 | the whole run: `Gather`, then `Settle` with the task count and gathering-only flag of the gathered statistics |

## Left out

- Mod entry and event wiring are not modelled: `Entry`, `SaveEvents_AfterLoad`, the key-release guard and the key-binding parse (AnimalSitter/AnimalSitter.cs:81-166). They are host-framework plumbing.
- The chest manager is not modelled.
  - Its answers are a table: the chest preferred for each object index, and a default chest.
  - A chest is named by its position in the list of chests.
  - A missing entry, or a position outside the list, stands for null.
  - Parsing chest definitions and coordinates belongs to the chest manager.
- Templates are symbolic, and `PerformReplacement` is not modelled.
  - The dialogue manager's text is not part of this model.
  - A report is a list of pieces: `Xdialog(i)`, `RandomOf(category)` or literal text, with the statistics its placeholders would be filled from.
- `AnimalTasks.GetTaskCount` and `JustGathering` are not part of this model. `IterateOverAnimals` takes them as function parameters.
- `GetAnimals` (AnimalSitter/AnimalSitter.cs:562-571) is not modelled. The model takes the list of animals as given.
- Per-animal exception handling is not modelled. No step of the model can fail.
- Logging is not modelled.
- Game calls are not modelled; each is replaced as follows:
  - `farmer.gainExperience` is an appended log of grants, with no levelling.
  - `animal.pet` only sets `wasPet`.
  - `animal.reload` is left out.
- Capacity is one slot per item.
  - `couldInventoryAcceptThisItem` and `Chest.addItem` are modelled as "a store takes an item while it has a free slot".
  - The game's merging into existing stacks is not modelled.
- Rendering is an appended report log. A HUD message and a character's dialogue differ only by the report's channel.
- Randomness is an input.
  - `Sitter.AnimalSitter.HarvestTruffles` takes one draw per object on the farm and reads it only at a truffle.
  - The game draws from its generator once per truffle.
- Collections are sequences.
  - The farm's objects and a coop's objects are sequences keyed by tile, in enumeration order.
  - The farm's buildings are a sequence of coops and other buildings.
- `Sitter.AnimalSitter.ChargeAndReport` does not model 32-bit ints.
  - It uses the corrected charge, computed on unbounded integers.
  - The 32-bit arithmetic as written is modelled separately (see Findings).
  - The animal's `age`, `friendship` and `currentProduce` are unbounded integers too.
- `Care.CareAllCounts` depends on an assumed effect of `animal.pet`. The model assumes `pet` changes only `wasPet`, so every guard is read on the animal as found. The source calls the game's `pet` (AnimalSitter/AnimalSitter.cs:180) before the happiness and friendship guards (204, 212). If the game's `pet` raises happiness or friendship, those two counters, and the actions charged, can differ from the model's. `Care.Cared`, `Care.VisitCounts` and `Sitter.GatherCounts` depend on the same assumption.
- `Messages.Select` tests the configured checker for Shane's portrait. The source tests the name of the character `getCharacterFromName` found (AnimalSitter/AnimalSitter.cs:512). The two agree when the name lookup matches names exactly, which is what the model assumes. The lookup is a game call and is not part of this model.

## Findings

| source | as written | input that shows it | evidently intended | confidence | as-written member | corrected member |
|---|---|---|---|---|---|---|
| AnimalSitter/AnimalSitter.cs:262-264 | `totalCost = actions * CostPerAnimal` and `Money - totalCost` are unchecked 32-bit ints | 3 actions at a configured cost of 2^30 per action: the total wraps to −2^30, the player counts as able to pay, and money grows by 2^30 | the player is charged actions × cost, floored at zero | not executed | `Billing.OverflowCreditsMoney` | `Billing.Charge` |
