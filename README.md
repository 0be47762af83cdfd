# Shop slots of RandomTower, in Dafny

This project models the shop of the RandomTower tower-defense game with its
rendering engine taken out. An `Item` is a powerup name, a rarity grade
(D < C < B < A < S) and a gold cost. A `ShopBox` is a slot bound to one key.
It offers at most one item, either supplied or generated at random. A player
buys the item when they have enough gold. A purchase returns the item, refills
the slot with a newly generated item and debits the player by the bought
item's cost. A failed purchase changes nothing.

Files:

- `items.dfy` (module `Items`): grades, the `Item` value and its constructor.
- `shop_box.dfy` (module `ShopBoxes`): the random draws as parameters, the
  grade thresholds, the cost formula, item generation, the pure `Purchase`
  specification, and the `Player` and `ShopBox` classes whose methods update
  `currentItem` and `currentGold` in place.
- `shop_runs.dfy` (module `ShopRuns`): sequences of slot operations, and how
  much gold they move. `ApplyAll` performs such a sequence through the
  `ShopBox` methods, so what is proved about the sequence holds of the class.
- `scenarios.dfy` (module `ShopScenarios`): three client methods that check
  the class contracts on three concrete purchases: an affordable item, too
  little gold, and an empty slot.

The random source is replaced by explicit draws. `r` is in [0, 100) and picks
the grade. `u` is in [0, 1) and scales the cost. `pick` is an index into
`["arrowRate", "tornado"]` and chooses the powerup.

The cost follows the code, `floor(base * u * 0.6 + 0.7) + 1`, where the
multiplication binds first. A band around the base price,
`floor(base * (0.6 * u + 0.7)) + 1`, would be a natural reading of the
constants, but the code does not compute that. The model proves the band the
code gives: [1, 13] for D, [1, 25] for C, [1, 37] for B, [1, 49] for A and
[1, 73] for S. `CheapestCostIsOne` shows that the cheapest draw costs 1,
below `floor(0.7 * base) + 1`, the lower end such a band would have.

## Model

| member | source | states |
|---|---|---|
| `Items.NewItem` | src/game/classes/item.ts:9-22 | the constructor stores powerup, grade and cost exactly as passed |
| `Items.PlacementIgnored` | src/game/classes/item.ts:9-18 | the position and texture arguments have no influence on the item built |
| `ShopBoxes.GradeFor` | src/game/classes/shopBox.ts:81-86 | the sequential overwrites pick D for r ≤ 40, C for (40,70], B for (70,90], A for (90,98], S for (98,100]; each grade holds if and only if r is in its interval, so the guards never overlap |
| `ShopBoxes.GradeMonotone` | src/game/classes/shopBox.ts:81-86 | over [0,100) a larger draw never gives a lower grade |
| `ShopBoxes.CostFor` | src/game/classes/shopBox.ts:88-89 | for u in [0,1) the cost is an integer in [1, MaxCost(grade)] |
| `ShopBoxes.MaxCostFormula` | src/game/classes/shopBox.ts:73-79 | the upper ends 13, 25, 37, 49, 73 are floor(0.6 × base + 0.7) + 1 for the base prices 20, 40, 60, 80, 120 |
| `ShopBoxes.CostAttained` | src/game/classes/shopBox.ts:88-89 | every integer in [1, MaxCost(grade)] is the cost of some draw u, so the band is exact |
| `ShopBoxes.CostMonotone` | src/game/classes/shopBox.ts:88-89 | for a fixed grade, a larger draw u never gives a lower cost |
| `ShopBoxes.CheapestCostIsOne` | src/game/classes/shopBox.ts:88-89 | the draw u = 0 costs 1 for every grade, below floor(0.7 × base) + 1 |
| `ShopBoxes.GenerateRandomItem` | src/game/classes/shopBox.ts:72-95 | the grade depends on r alone, the cost is the formula's value for that grade and u and lies in the grade's band, and the powerup is the picked entry of the two-element list, whatever the grade |
| `ShopBoxes.Purchase` | src/game/classes/shopBox.ts:51-62 | a purchase succeeds if and only if an item is held and gold ≥ its cost. On success it returns the held item, refills the slot with a generated item and debits exactly the returned item's cost, so gold ends ≥ 0. On failure the item and gold are unchanged |
| `ShopBoxes.ShopBox.constructor` | src/game/classes/shopBox.ts:16-24 | a new slot holds no item and stores the given keybind in a constant field |
| `ShopBoxes.ShopBox.AddItem` | src/game/classes/shopBox.ts:33-35 | a given item is stored exactly; with none given a generated item is stored; the slot is non-empty afterwards |
| `ShopBoxes.ShopBox.BuyItem` | src/game/classes/shopBox.ts:51-62 | capture, clear, refill, then debit leaves the returned item, the slot and the player's gold exactly as `Purchase` prescribes |
| `ShopBoxes.ShopBox.RemoveItem` | src/game/classes/shopBox.ts:64-66 | the slot is emptied with no refill |
| `ShopBoxes.ShopBox.GetItem` | src/game/classes/shopBox.ts:68-70 | returns the held item, reading state without changing it |
| `ShopBoxes.ShopBox.GetKeybind` | src/game/classes/shopBox.ts:97-99 | returns the constructor's keybind, which nothing can reassign |
| `ShopRuns.RunAccounting` | src/game/classes/shopBox.ts:51-62 | over any sequence of add, buy and remove calls, the final gold is the initial gold minus the sum of the costs of the items bought. Gold that starts non-negative stays non-negative |
| `ShopRuns.RunSpendsPerItem` | src/game/classes/shopBox.ts:51-62 | if every offered item costs at least 1, a run buys no more items than the gold it spends |
| `ShopRuns.ApplyOne` | src/game/classes/shopBox.ts:33-66 | one call of addItem, buyItem or removeItem on a slot and a player leaves the slot, the gold and the bought items as one step of a run prescribes |
| `ShopRuns.ApplyAll` | src/game/classes/shopBox.ts:33-66 | calling the slot's methods one after another leaves the slot and the gold where the run of those operations ends, returns the items the run buys, and debits exactly their total cost |

## Left out

- Rendering: the sprite and text creation, the `destroy` calls, `scene.add.existing` and the inheritance from the engine's sprite class carry no shop logic.
- `Math.random`: the two draws are the parameters `r` and `u`, constrained to their ranges. Probabilities are not stated. The interval widths 40, 30, 20, 8 and 2 can be read off `GradeFor`'s contract.
- `getArrayRandomElement` (src/utils) is not part of this model. The choice of powerup is the index parameter `pick`.
- The player tower class (playerTower.ts) is not part of this model. Only its mutable integer `currentGold` is modelled, as the class `Player`.
- Floating point: the cost formula is evaluated over exact reals with `.Floor`, not IEEE doubles.
- `KeybindType`, `PowerupType` and `ItemGradeType` (src/game/types) are not part of this model. The keybind is a `char`. The powerup is the `string` that `Item` declares. The grade is the enum D, C, B, A, S.
- `addItem` replaces a falsy argument with a generated item. Every `Item` object is truthy, so only the absence of an item (`None`) triggers generation.
- `GradeFor` also gives D for r > 100, as the code would. The draw never reaches that range.
