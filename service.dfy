/** The order service: its promotion configuration, the two setters and
    checkout, which fills in a fresh Order in three fixed steps. */
module Service {
  import opened Wrappers
  import opened Entities
  import opened Pricing

  class OrderService {
    var thresholdDiscountThreshold: Option<int>
    var thresholdDiscountAmount: Option<int>
    var buyOneGetOneCosmetics: bool

    /** The configuration as a value. */
    function Config(): Promotions
      reads this
    {
      Promotions(thresholdDiscountThreshold, thresholdDiscountAmount, buyOneGetOneCosmetics)
    }

    constructor ()
      ensures Config() == NoPromotions
    {
      thresholdDiscountThreshold := None;
      thresholdDiscountAmount := None;
      buyOneGetOneCosmetics := false;
    }

    method SetThresholdDiscount(threshold: int, discount: int)
      modifies this
      ensures Config() == SetThreshold(old(Config()), threshold, discount)
    {
      thresholdDiscountThreshold := Some(threshold);
      thresholdDiscountAmount := Some(discount);
    }

    method SetBuyOneGetOneCosmetics(enabled: bool)
      modifies this
      ensures Config() == SetBuyOneGetOne(old(Config()), enabled)
    {
      buyOneGetOneCosmetics := enabled;
    }

    /** Prices the lines: the returned order is fresh, holds the lines as
        given, and its fields are those of the pricing pipeline. */
    method Checkout(items: seq<OrderItem>) returns (order: Order)
      ensures fresh(order)
      ensures order.Snapshot() == Price(Config(), items)
      ensures order.items == items
      ensures order.originalAmount == Subtotal(items)
      ensures order.totalAmount == order.originalAmount - order.discount
    {
      order := new Order();
      order.items := items;
      CalculateOriginalAmount(order, items);
      assert map[] + Purchased(items) == Purchased(items);
      assert forall i :: 0 <= i < |items| ==> items[i].product.name in NamesOf(items);
      ApplyBuyOneGetOnePromotion(order, items);
      ApplyThresholdDiscount(order);
    }

    /** The subtotal pass: adds up the line amounts and writes each line's
        quantity into the order's received items, later lines overwriting. */
    method CalculateOriginalAmount(order: Order, items: seq<OrderItem>)
      modifies order`originalAmount, order`receivedItems
      ensures order.originalAmount == Subtotal(items)
      ensures order.receivedItems == old(order.receivedItems) + Purchased(items)
      ensures order.receivedItems.Keys == old(order.receivedItems).Keys + NamesOf(items)
    {
      ghost var start := order.receivedItems;
      var total := 0;
      for i := 0 to |items|
        invariant total == Subtotal(items[..i])
        invariant order.receivedItems == start + Purchased(items[..i])
      {
        var item := items[i];
        assert items[..i + 1][..i] == items[..i];
        total := total + item.product.unitPrice * item.quantity;
        order.receivedItems := order.receivedItems[item.product.name := item.quantity];
      }
      assert items[..|items|] == items;
      order.originalAmount := total;
      PurchasedKeys(items);
    }

    /** The buy-one-get-one pass: when enabled, each cosmetics line adds one
        unit to its product's entry, whatever the quantity. When enabled, every
        cosmetics line's name must already be an entry (the subtotal pass
        guarantees it). */
    method ApplyBuyOneGetOnePromotion(order: Order, items: seq<OrderItem>)
      requires buyOneGetOneCosmetics ==>
        forall i :: 0 <= i < |items| && IsCosmetic(items[i]) ==> items[i].product.name in order.receivedItems
      modifies order`receivedItems
      ensures order.receivedItems
           == if buyOneGetOneCosmetics then WithBonus(old(order.receivedItems), items)
              else old(order.receivedItems)
    {
      if buyOneGetOneCosmetics {
        ghost var start := order.receivedItems;
        assert WithBonus(start, items[..0]) == start;
        for i := 0 to |items|
          invariant order.receivedItems == WithBonus(start, items[..i])
        {
          var item := items[i];
          assert items[..i + 1][..i] == items[..i];
          if item.product.category == CosmeticsCategory {
            order.receivedItems := order.receivedItems[item.product.name := order.receivedItems[item.product.name] + 1];
          }
        }
        assert items[..|items|] == items;
      }
    }

    /** The threshold pass: assigns the discount the threshold rule gives for
        the order's subtotal and sets the total to subtotal minus discount. */
    method ApplyThresholdDiscount(order: Order)
      modifies order`discount, order`totalAmount
      ensures order.discount == ThresholdDiscount(Config(), order.originalAmount)
      ensures order.totalAmount == order.originalAmount - order.discount
    {
      var discount := 0;
      if thresholdDiscountThreshold.Some? && thresholdDiscountAmount.Some?
         && order.originalAmount >= thresholdDiscountThreshold.value {
        discount := thresholdDiscountAmount.value;
      }
      order.discount := discount;
      order.totalAmount := order.originalAmount - discount;
    }
  }
}
