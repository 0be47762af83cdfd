/**
 * One shop slot (src/game/classes/shopBox.ts): a keybind fixed at
 * construction and at most one item on offer, generated at random or
 * supplied, bought against a player's gold.
 *
 * The random draws of the generator are parameters: `r` in [0, 100) picks
 * the grade, `u` in [0, 1) scales the cost, `pick` indexes the powerup list.
 */
module ShopBoxes {
  import opened Items

  datatype Option<T> = None | Some(value: T)

  /** The powerups the generator chooses from. */
  const PowerupKinds: seq<string> := ["arrowRate", "tornado"]

  /** Base price of each grade (the `gradeCost` table). */
  function BasePrice(g: Grade): nat {
    match g
    case D => 20
    case C => 40
    case B => 60
    case A => 80
    case S => 120
  }

  /** The highest cost the generator can give an item of grade `g`. */
  function MaxCost(g: Grade): nat {
    match g
    case D => 13
    case C => 25
    case B => 37
    case A => 49
    case S => 73
  }

  /** The three random choices behind one generated item. */
  datatype Draws = Draws(r: real, u: real, pick: nat) {
    predicate Valid() {
      0.0 <= r < 100.0 && 0.0 <= u < 1.0 && pick < |PowerupKinds|
    }
  }

  /**
   * The grade chosen by `r`, written as the source writes it: start at D and
   * let each of four guards, tested in turn with no early exit, overwrite it.
   * The guards are disjoint, so each grade is exactly one interval of `r`.
   */
  function GradeFor(r: real): (g: Grade)
    ensures g == D <==> r <= 40.0 || 100.0 < r
    ensures g == C <==> 40.0 < r <= 70.0
    ensures g == B <==> 70.0 < r <= 90.0
    ensures g == A <==> 90.0 < r <= 98.0
    ensures g == S <==> 98.0 < r <= 100.0
  {
    var g0 := D;
    var g1 := if 40.0 < r <= 70.0 then C else g0;
    var g2 := if 70.0 < r <= 90.0 then B else g1;
    var g3 := if 90.0 < r <= 98.0 then A else g2;
    if 98.0 < r <= 100.0 then S else g3
  }

  /** Over the range of the draw, a larger `r` never gives a lower grade. */
  lemma GradeMonotone(r1: real, r2: real)
    requires 0.0 <= r1 <= r2 < 100.0
    ensures GradeFor(r1).Rank() <= GradeFor(r2).Rank()
  {
  }

  /**
   * The cost formula as written: `floor(base * u * 0.6 + 0.7) + 1`. The
   * multiplication binds before the addition, so the cost lies in
   * [1, MaxCost(g)] and not in a band around the base price.
   */
  function CostFor(g: Grade, u: real): (c: int)
    requires 0.0 <= u < 1.0
    ensures 1 <= c <= MaxCost(g)
  {
    ((BasePrice(g) as real) * u * 0.6 + 0.7).Floor + 1
  }

  /** The table of maximum costs is `floor(0.6 * base + 0.7) + 1`. */
  lemma MaxCostFormula(g: Grade)
    ensures MaxCost(g) == (0.6 * (BasePrice(g) as real) + 0.7).Floor + 1
  {
  }

  /** A larger draw `u` never gives a cheaper item of the same grade. */
  lemma CostMonotone(g: Grade, u1: real, u2: real)
    requires 0.0 <= u1 <= u2 < 1.0
    ensures CostFor(g, u1) <= CostFor(g, u2)
  {
  }

  /** Every cost in [1, MaxCost(g)] is produced by some draw `u`. */
  lemma CostAttained(g: Grade, k: int)
    requires 1 <= k <= MaxCost(g)
    ensures exists u :: 0.0 <= u < 1.0 && CostFor(g, u) == k
  {
    if k == 1 {
      assert CostFor(g, 0.0) == 1;
    } else {
      var base := BasePrice(g) as real;
      var u := (k as real - 1.7) / (0.6 * base);
      assert base * u * 0.6 == k as real - 1.7;
      assert 0.0 <= u < 1.0;
      assert CostFor(g, u) == k;
    }
  }

  /**
   * The cheapest draw costs 1 for every grade, below `floor(0.7 * base) + 1`:
   * the cost is not scaled into a band around the base price.
   */
  lemma CheapestCostIsOne(g: Grade)
    ensures CostFor(g, 0.0) == 1 < (0.7 * (BasePrice(g) as real)).Floor + 1
  {
  }

  /**
   * `generateRandomItem` with its draws as parameters: the grade depends on
   * `r` alone, the cost on the grade and `u`, the powerup on `pick` alone.
   */
  function GenerateRandomItem(d: Draws): (it: Item)
    requires d.Valid()
    ensures it.grade == GradeFor(d.r)
    ensures it.cost == CostFor(it.grade, d.u) && 1 <= it.cost <= MaxCost(it.grade)
    ensures it.powerup in PowerupKinds && it.powerup == PowerupKinds[d.pick]
  {
    var grade := GradeFor(d.r);
    NewItem(0.0, 0.0, "item0", PowerupKinds[d.pick], grade, CostFor(grade, d.u))
  }

  /** What a purchase leaves: the returned item, the slot's item, the gold. */
  datatype Outcome = Outcome(bought: Option<Item>, held: Option<Item>, gold: int)

  /**
   * A purchase from a slot holding `held` by a buyer holding `gold`. It
   * succeeds exactly when there is an item the buyer can afford; it then
   * returns that item, refills the slot from `d` and debits the returned
   * item's own cost. A failed purchase changes nothing.
   */
  function Purchase(held: Option<Item>, gold: int, d: Draws): (o: Outcome)
    requires d.Valid()
    ensures o.bought.Some? <==> held.Some? && gold >= held.value.cost
    ensures o.bought.Some? ==> o.bought == held && o.gold == gold - held.value.cost
    ensures o.bought.Some? ==> o.held == Some(GenerateRandomItem(d))
    ensures o.bought.Some? ==> 0 <= o.gold
    ensures o.bought.None? ==> o.held == held && o.gold == gold
    ensures 0 <= gold ==> 0 <= o.gold
  {
    if held.Some? && gold >= held.value.cost then
      Outcome(held, Some(GenerateRandomItem(d)), gold - held.value.cost)
    else
      Outcome(None, held, gold)
  }

  /** The buyer: only its gold balance matters to the shop. */
  class Player {
    var currentGold: int

    constructor (gold: int)
      ensures currentGold == gold
    {
      currentGold := gold;
    }
  }

  /** A shop slot bound to one key, holding at most one item. */
  class ShopBox {
    var currentItem: Option<Item>
    const keybind: char

    /** A new slot is empty and keeps `keybind` for its whole life. */
    constructor (keybind: char)
      ensures currentItem == None && this.keybind == keybind
    {
      this.keybind := keybind;
      currentItem := None;
    }

    /** Offers `item`, or a generated item when none is given. */
    method AddItem(item: Option<Item>, d: Draws)
      requires item.None? ==> d.Valid()
      modifies this
      ensures item.Some? ==> currentItem == item
      ensures item.None? ==> currentItem == Some(GenerateRandomItem(d))
    {
      var it := if item.Some? then item.value else GenerateRandomItem(d);
      currentItem := Some(it);
    }

    /**
     * Buys the offered item for `player`: capture it, clear the slot, refill
     * it, then debit the captured item's cost. The result is `Purchase`.
     */
    method BuyItem(player: Player, d: Draws) returns (bought: Option<Item>)
      requires d.Valid()
      modifies this, player
      ensures Outcome(bought, currentItem, player.currentGold)
              == Purchase(old(currentItem), old(player.currentGold), d)
    {
      if currentItem.Some? && player.currentGold >= currentItem.value.cost {
        var boughtItem := currentItem.value;
        currentItem := None;
        AddItem(None, d);
        player.currentGold := player.currentGold - boughtItem.cost;
        return Some(boughtItem);
      }
      return None;
    }

    /** Withdraws the offer, with no refill. */
    method RemoveItem()
      modifies this
      ensures currentItem == None
    {
      currentItem := None;
    }

    /** The item on offer, if any. */
    function GetItem(): (it: Option<Item>)
      reads this
      ensures it == currentItem
    {
      currentItem
    }

    /** The key the slot was built with. */
    function GetKeybind(): (k: char)
      ensures k == keybind
    {
      keybind
    }
  }
}
