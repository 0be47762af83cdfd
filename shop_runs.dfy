/**
 * Runs of slot operations: the effect of a sequence of addItem, buyItem and
 * removeItem calls on one slot and one buyer, and what it does to the gold.
 */
module ShopRuns {
  import opened Items
  import opened ShopBoxes

  /** One call on a slot, with the draws it would consume. */
  datatype Op = AddOp(given: Option<Item>, d: Draws) | BuyOp(d: Draws) | RemoveOp

  predicate OpValid(op: Op) {
    match op
    case AddOp(given, d) => given.None? ==> d.Valid()
    case BuyOp(d) => d.Valid()
    case RemoveOp => true
  }

  predicate AllValid(ops: seq<Op>) {
    forall i :: 0 <= i < |ops| ==> OpValid(ops[i])
  }

  /** The slot's item and the buyer's gold. */
  datatype Shop = Shop(held: Option<Item>, gold: int)

  /** Where a run ends, and the items it bought, in order. */
  datatype Trace = Trace(last: Shop, bought: seq<Item>)

  /** The effect of one call, as the `ShopBox` methods specify it. */
  function Step(s: Shop, op: Op): Trace
    requires OpValid(op)
  {
    match op
    case AddOp(given, d) =>
      Trace(Shop(if given.Some? then given else Some(GenerateRandomItem(d)), s.gold), [])
    case BuyOp(d) =>
      var o := Purchase(s.held, s.gold, d);
      Trace(Shop(o.held, o.gold), if o.bought.Some? then [o.bought.value] else [])
    case RemoveOp =>
      Trace(Shop(None, s.gold), [])
  }

  function Run(s: Shop, ops: seq<Op>): Trace
    requires AllValid(ops)
    decreases |ops|
  {
    if ops == [] then Trace(s, [])
    else
      var first := Step(s, ops[0]);
      var rest := Run(first.last, ops[1..]);
      Trace(rest.last, first.bought + rest.bought)
  }

  function TotalCost(items: seq<Item>): int {
    if items == [] then 0 else items[0].cost + TotalCost(items[1..])
  }

  /** Every item the slot can offer during the run costs at least 1. */
  predicate CostsPositive(s: Shop, ops: seq<Op>) {
    (s.held.Some? ==> 1 <= s.held.value.cost) &&
    forall i :: 0 <= i < |ops| && ops[i].AddOp? && ops[i].given.Some? ==> 1 <= ops[i].given.value.cost
  }

  /**
   * Only purchases move gold, each by the cost of the item it returns; gold
   * that starts non-negative stays non-negative.
   */
  lemma {:induction false} RunAccounting(s: Shop, ops: seq<Op>)
    requires AllValid(ops)
    ensures Run(s, ops).last.gold == s.gold - TotalCost(Run(s, ops).bought)
    ensures 0 <= s.gold ==> 0 <= Run(s, ops).last.gold
    decreases |ops|
  {
    if ops != [] {
      var first := Step(s, ops[0]);
      RunAccounting(first.last, ops[1..]);
      var rest := Run(first.last, ops[1..]);
      if first.bought != [] {
        assert (first.bought + rest.bought)[1..] == rest.bought;
      } else {
        assert first.bought + rest.bought == rest.bought;
      }
    }
  }

  /**
   * When every offered item costs at least 1 (generated items always do),
   * each purchase costs at least 1 gold, so a run buys no more items than
   * the gold it spends.
   */
  lemma {:induction false} RunSpendsPerItem(s: Shop, ops: seq<Op>)
    requires AllValid(ops) && CostsPositive(s, ops)
    ensures |Run(s, ops).bought| <= s.gold - Run(s, ops).last.gold
    decreases |ops|
  {
    RunAccounting(s, ops);
    if ops != [] {
      var first := Step(s, ops[0]);
      assert CostsPositive(first.last, ops[1..]) by {
        forall i | 0 <= i < |ops[1..]| && ops[1..][i].AddOp? && ops[1..][i].given.Some?
          ensures 1 <= ops[1..][i].given.value.cost
        {
          assert ops[1..][i] == ops[i + 1];
        }
      }
      RunSpendsPerItem(first.last, ops[1..]);
      RunAccounting(first.last, ops[1..]);
    }
  }

  /** One call of `op` on the slot and the buyer, with the effect `Step` gives it. */
  method ApplyOne(box: ShopBox, player: Player, op: Op) returns (bought: seq<Item>)
    requires OpValid(op)
    modifies box, player
    ensures Trace(Shop(box.currentItem, player.currentGold), bought)
            == Step(Shop(old(box.currentItem), old(player.currentGold)), op)
  {
    bought := [];
    match op
    case AddOp(given, d) =>
      box.AddItem(given, d);
    case BuyOp(d) =>
      var b := box.BuyItem(player, d);
      if b.Some? {
        bought := [b.value];
      }
    case RemoveOp =>
      box.RemoveItem();
  }

  /** A run that is not empty is its first step followed by the rest. */
  lemma RunFirst(s: Shop, ops: seq<Op>, i: nat)
    requires AllValid(ops) && i < |ops|
    ensures AllValid(ops[i + 1..]) && OpValid(ops[i])
    ensures Run(s, ops[i..]).last == Run(Step(s, ops[i]).last, ops[i + 1..]).last
    ensures Run(s, ops[i..]).bought == Step(s, ops[i]).bought + Run(Step(s, ops[i]).last, ops[i + 1..]).bought
  {
  }

  /**
   * Applies `ops` to a slot and a buyer through the `ShopBox` methods, one
   * call after another; the slot, the gold and the items bought are those
   * of `Run`, so the accounting lemmas hold of the class itself.
   */
  method ApplyAll(box: ShopBox, player: Player, ops: seq<Op>) returns (bought: seq<Item>)
    requires AllValid(ops)
    modifies box, player
    ensures Shop(box.currentItem, player.currentGold)
            == Run(Shop(old(box.currentItem), old(player.currentGold)), ops).last
    ensures bought == Run(Shop(old(box.currentItem), old(player.currentGold)), ops).bought
    ensures player.currentGold == old(player.currentGold) - TotalCost(bought)
  {
    ghost var s0 := Shop(box.currentItem, player.currentGold);
    bought := [];
    var i := 0;
    while i < |ops|
      invariant 0 <= i <= |ops|
      invariant AllValid(ops[i..])
      invariant bought + Run(Shop(box.currentItem, player.currentGold), ops[i..]).bought == Run(s0, ops).bought
      invariant Run(Shop(box.currentItem, player.currentGold), ops[i..]).last == Run(s0, ops).last
    {
      ghost var cur := Shop(box.currentItem, player.currentGold);
      RunFirst(cur, ops, i);
      var b := ApplyOne(box, player, ops[i]);
      ghost var rest := Run(Shop(box.currentItem, player.currentGold), ops[i + 1..]);
      assert bought + (b + rest.bought) == (bought + b) + rest.bought;
      bought := bought + b;
      i := i + 1;
    }
    assert ops[i..] == [];
    RunAccounting(s0, ops);
  }
}
