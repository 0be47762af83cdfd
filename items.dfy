/**
 * The purchasable item of the tower-defense shop (src/game/classes/item.ts),
 * stripped of its sprite: a powerup name, a rarity grade and a gold price.
 */
module Items {

  /** Rarity grade of an item, ordered D < C < B < A < S. */
  datatype Grade = D | C | B | A | S {

    /** Position of the grade in the order, D lowest. */
    function Rank(): nat {
      match this
      case D => 0
      case C => 1
      case B => 2
      case A => 3
      case S => 4
    }
  }

  /**
   * An item as the shop sees it. No operation changes a field after the
   * constructor, so an item is a value.
   */
  datatype Item = Item(powerup: string, grade: Grade, cost: int)

  /**
   * The constructor. The placement `x`, `y` and the texture `key` belong to
   * the sprite only; powerup, grade and cost are stored as given.
   */
  function NewItem(x: real, y: real, key: string, powerup: string, grade: Grade, cost: int): (it: Item)
    ensures it.powerup == powerup && it.grade == grade && it.cost == cost
  {
    Item(powerup, grade, cost)
  }

  /** Placement and texture have no influence on the item that is built. */
  lemma PlacementIgnored(x1: real, y1: real, key1: string, x2: real, y2: real, key2: string,
                         powerup: string, grade: Grade, cost: int)
    ensures NewItem(x1, y1, key1, powerup, grade, cost) == NewItem(x2, y2, key2, powerup, grade, cost)
  {
  }
}
