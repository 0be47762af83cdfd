/**
 * Three purchases from a slot offering a grade-D tornado at 15 gold, checked
 * against the `ShopBox` contracts alone.
 */
module ShopScenarios {
  import opened Items
  import opened ShopBoxes

  /** 20 gold buys the item, leaves 5, and the slot offers a different item. */
  method AffordablePurchase(d: Draws)
    requires d.Valid()
  {
    var offer := Item("tornado", D, 15);
    var box := new ShopBox('Z');
    box.AddItem(Some(offer), d);
    var player := new Player(20);
    var bought := box.BuyItem(player, d);
    assert bought == Some(offer);
    assert player.currentGold == 5;
    assert box.GetItem().Some? && box.GetItem() != Some(offer);
    assert box.GetKeybind() == 'Z';
  }

  /** 10 gold is not enough: nothing is returned and nothing changes. */
  method InsufficientGold(d: Draws)
    requires d.Valid()
  {
    var offer := Item("tornado", D, 15);
    var box := new ShopBox('X');
    box.AddItem(Some(offer), d);
    var player := new Player(10);
    var bought := box.BuyItem(player, d);
    assert bought == None;
    assert player.currentGold == 10;
    assert box.GetItem() == Some(offer);
  }

  /** After the offer is withdrawn, no amount of gold buys anything. */
  method EmptySlot(d: Draws, gold: int)
    requires d.Valid()
  {
    var box := new ShopBox('C');
    box.AddItem(Some(Item("tornado", D, 15)), d);
    box.RemoveItem();
    var player := new Player(gold);
    var bought := box.BuyItem(player, d);
    assert bought == None;
    assert player.currentGold == gold;
    assert box.GetItem() == None;
  }
}
