/** The pricing pipeline of checkout as pure functions of the promotion
    configuration and the item list, and the properties it has. The order
    service's methods are proved to compute exactly these values. */
module Pricing {
  import opened Wrappers
  import opened Entities

  /** The only category the buy-one-get-one rule applies to (exact match). */
  const CosmeticsCategory := "cosmetics"

  /** The promotion configuration an order service holds. The threshold rule
      fires only when both of its parameters are set. */
  datatype Promotions = Promotions(
    threshold: Option<int>,
    thresholdAmount: Option<int>,
    buyOneGetOneCosmetics: bool)

  /** A freshly constructed service: nothing configured. */
  const NoPromotions := Promotions(None, None, false)

  /** The configuration after set_threshold_discount. */
  function SetThreshold(p: Promotions, threshold: int, discount: int): Promotions
  {
    p.(threshold := Some(threshold), thresholdAmount := Some(discount))
  }

  /** The configuration after set_buy_one_get_one_cosmetics. */
  function SetBuyOneGetOne(p: Promotions, enabled: bool): Promotions
  {
    p.(buyOneGetOneCosmetics := enabled)
  }

  // ---------------------------------------------------------------------
  // Subtotal pass

  function LineAmount(item: OrderItem): int
  {
    item.product.unitPrice * item.quantity
  }

  /** The sum of unit price times quantity over the lines, added up in list order. */
  function Subtotal(items: seq<OrderItem>): int
  {
    if items == [] then 0
    else Subtotal(items[..|items| - 1]) + LineAmount(items[|items| - 1])
  }

  /** The product names that occur in the lines. */
  function NamesOf(items: seq<OrderItem>): set<string>
  {
    set i | 0 <= i < |items| :: items[i].product.name
  }

  /** The received-items map after the subtotal pass: each line writes its
      quantity under its product name, so a later line overwrites an earlier one. */
  function Purchased(items: seq<OrderItem>): map<string, int>
  {
    if items == [] then map[]
    else
      var last := items[|items| - 1];
      Purchased(items[..|items| - 1])[last.product.name := last.quantity]
  }

  // ---------------------------------------------------------------------
  // Buy-one-get-one for cosmetics

  predicate IsCosmetic(item: OrderItem)
  {
    item.product.category == CosmeticsCategory
  }

  /** The number of cosmetics lines for the product called name. */
  function CosmeticLines(items: seq<OrderItem>, name: string): nat
  {
    if items == [] then 0
    else
      var last := items[|items| - 1];
      CosmeticLines(items[..|items| - 1], name)
        + (if last.product.name == name && IsCosmetic(last) then 1 else 0)
  }

  /** A received-items map after the bonus pass over items: every cosmetics
      line has added one unit to its product's entry. */
  function WithBonus(m: map<string, int>, items: seq<OrderItem>): map<string, int>
  {
    map n | n in m :: m[n] + CosmeticLines(items, n)
  }

  /** The received-items map checkout produces. */
  function Received(p: Promotions, items: seq<OrderItem>): map<string, int>
  {
    if p.buyOneGetOneCosmetics then WithBonus(Purchased(items), items) else Purchased(items)
  }

  // ---------------------------------------------------------------------
  // Threshold discount

  /** The threshold rule is configured and the subtotal has reached it. */
  predicate ThresholdReached(p: Promotions, originalAmount: int)
  {
    p.threshold.Some? && p.thresholdAmount.Some? && originalAmount >= p.threshold.value
  }

  /** The discount the threshold step assigns to the order. */
  function ThresholdDiscount(p: Promotions, originalAmount: int): int
  {
    if ThresholdReached(p, originalAmount) then p.thresholdAmount.value else 0
  }

  // ---------------------------------------------------------------------
  // The whole pipeline

  /** The order checkout returns, as a value: subtotal pass, then the bonus
      rule, then the threshold rule. */
  function Price(p: Promotions, items: seq<OrderItem>): (r: Receipt)
    ensures r.items == items
    ensures r.originalAmount == Subtotal(items)
    ensures r.receivedItems.Keys == NamesOf(items)
    ensures r.totalAmount == r.originalAmount - r.discount
  {
    PurchasedKeys(items);
    var original := Subtotal(items);
    var discount := ThresholdDiscount(p, original);
    Receipt(items, Received(p, items), original, discount, original - discount)
  }

  // ---------------------------------------------------------------------
  // Lemmas

  /** Splitting the line list splits the subtotal. */
  lemma {:induction false} SubtotalConcat(a: seq<OrderItem>, b: seq<OrderItem>)
    ensures Subtotal(a + b) == Subtotal(a) + Subtotal(b)
  {
    if b == [] {
      assert a + b == a;
    } else {
      var b' := b[..|b| - 1];
      assert (a + b)[..|a + b| - 1] == a + b';
      SubtotalConcat(a, b');
    }
  }

  /** With non-negative unit prices the subtotal is non-negative. */
  lemma {:induction false} SubtotalNonNegative(items: seq<OrderItem>)
    requires forall i :: 0 <= i < |items| ==> items[i].product.unitPrice >= 0
    ensures Subtotal(items) >= 0
  {
    if items != [] {
      var prefix := items[..|items| - 1];
      assert forall i :: 0 <= i < |prefix| ==> prefix[i] == items[i];
      SubtotalNonNegative(prefix);
    }
  }

  /** After the subtotal pass the keys are exactly the product names of the lines. */
  lemma {:induction false} PurchasedKeys(items: seq<OrderItem>)
    ensures Purchased(items).Keys == NamesOf(items)
  {
    if items != [] {
      var prefix := items[..|items| - 1];
      PurchasedKeys(prefix);
      assert forall i :: 0 <= i < |prefix| ==> prefix[i] == items[i];
      assert NamesOf(items) == NamesOf(prefix) + {items[|items| - 1].product.name};
    }
  }

  /** Overwrite, not accumulate: a name's entry after the subtotal pass is the
      quantity of the last line with that name. */
  lemma {:induction false} PurchasedLastWins(items: seq<OrderItem>, i: int)
    requires 0 <= i < |items|
    requires forall j :: i < j < |items| ==> items[j].product.name != items[i].product.name
    ensures items[i].product.name in Purchased(items)
    ensures Purchased(items)[items[i].product.name] == items[i].quantity
  {
    if i < |items| - 1 {
      var prefix := items[..|items| - 1];
      assert forall j :: i < j < |prefix| ==> prefix[j] == items[j];
      PurchasedLastWins(prefix, i);
    }
  }

  /** Lines with a different name, or a category other than cosmetics, earn no bonus. */
  lemma {:induction false} NoCosmeticLineNoBonus(items: seq<OrderItem>, name: string)
    requires forall j :: 0 <= j < |items| && items[j].product.name == name ==> !IsCosmetic(items[j])
    ensures CosmeticLines(items, name) == 0
  {
    if items != [] {
      var prefix := items[..|items| - 1];
      assert forall j :: 0 <= j < |prefix| ==> prefix[j] == items[j];
      NoCosmeticLineNoBonus(prefix, name);
    }
  }

  /** When line i is the only line of its product, that product earns one
      bonus unit exactly when line i is a cosmetics line. */
  lemma {:induction false} CosmeticLinesOfSoleLine(items: seq<OrderItem>, i: int)
    requires 0 <= i < |items|
    requires forall j :: 0 <= j < |items| && j != i ==> items[j].product.name != items[i].product.name
    ensures CosmeticLines(items, items[i].product.name) == if IsCosmetic(items[i]) then 1 else 0
  {
    var name := items[i].product.name;
    var prefix := items[..|items| - 1];
    assert forall j :: 0 <= j < |prefix| ==> prefix[j] == items[j];
    if i == |items| - 1 {
      NoCosmeticLineNoBonus(prefix, name);
    } else {
      CosmeticLinesOfSoleLine(prefix, i);
    }
  }

  /** The bonus rule never takes a unit away: every name receives at least the
      quantity recorded by the subtotal pass, and with the rule off exactly that. */
  lemma ReceivedAtLeastPurchased(p: Promotions, items: seq<OrderItem>, name: string)
    requires name in Purchased(items)
    ensures name in Received(p, items)
    ensures Received(p, items)[name] >= Purchased(items)[name]
    ensures !p.buyOneGetOneCosmetics ==> Received(p, items)[name] == Purchased(items)[name]
  {
  }

  /** One line per product: the customer receives the quantity bought, plus one
      when the bonus rule is on and the line is a cosmetics line, however many
      units were bought. */
  lemma SoleLineReceived(p: Promotions, items: seq<OrderItem>, i: int)
    requires 0 <= i < |items|
    requires forall j :: 0 <= j < |items| && j != i ==> items[j].product.name != items[i].product.name
    ensures items[i].product.name in Price(p, items).receivedItems
    ensures Price(p, items).receivedItems[items[i].product.name]
         == items[i].quantity + (if p.buyOneGetOneCosmetics && IsCosmetic(items[i]) then 1 else 0)
  {
    PurchasedLastWins(items, i);
    CosmeticLinesOfSoleLine(items, i);
  }

  /** A product none of whose lines is a cosmetics line is never given a bonus. */
  lemma NonCosmeticUnchanged(p: Promotions, items: seq<OrderItem>, name: string)
    requires name in Purchased(items)
    requires forall j :: 0 <= j < |items| && items[j].product.name == name ==> !IsCosmetic(items[j])
    ensures Received(p, items)[name] == Purchased(items)[name]
  {
    NoCosmeticLineNoBonus(items, name);
  }

  /** With no threshold rule configured the discount is 0 and the total is the subtotal. */
  lemma UnconfiguredThresholdNoDiscount(p: Promotions, items: seq<OrderItem>)
    requires p.threshold.None? || p.thresholdAmount.None?
    ensures Price(p, items).discount == 0
    ensures Price(p, items).totalAmount == Price(p, items).originalAmount
  {
  }

  /** A fresh service charges the plain subtotal and hands out exactly what was bought. */
  lemma NoPromotionsPassThrough(items: seq<OrderItem>)
    ensures Price(NoPromotions, items).discount == 0
    ensures Price(NoPromotions, items).totalAmount == Subtotal(items)
    ensures Price(NoPromotions, items).receivedItems == Purchased(items)
  {
  }

  /** The threshold rule: the configured amount once the subtotal reaches the
      threshold, and nothing below it. */
  lemma ThresholdDiscountCases(p: Promotions, t: int, d: int, items: seq<OrderItem>)
    ensures Subtotal(items) >= t ==> Price(SetThreshold(p, t, d), items).discount == d
    ensures Subtotal(items) < t ==> Price(SetThreshold(p, t, d), items).discount == 0
  {
  }

  /** Reaching the threshold is monotone: a larger subtotal never loses a
      non-negative discount. */
  lemma ThresholdDiscountMonotone(p: Promotions, a: int, b: int)
    requires a <= b
    requires p.thresholdAmount.Some? ==> p.thresholdAmount.value >= 0
    ensures ThresholdDiscount(p, a) <= ThresholdDiscount(p, b)
  {
  }

  /** The bonus rule only changes received quantities: the amounts are those
      of the same order without it. */
  lemma BonusLeavesAmounts(p: Promotions, items: seq<OrderItem>)
    ensures Price(p, items).originalAmount == Price(SetBuyOneGetOne(p, false), items).originalAmount
    ensures Price(p, items).discount == Price(SetBuyOneGetOne(p, false), items).discount
    ensures Price(p, items).totalAmount == Price(SetBuyOneGetOne(p, false), items).totalAmount
  {
  }

  /** Setters are last-call-wins: a later call replaces an earlier one, so
      repeating a call with the same arguments changes nothing. */
  lemma SetThresholdLastWins(p: Promotions, t1: int, d1: int, t2: int, d2: int)
    ensures SetThreshold(SetThreshold(p, t1, d1), t2, d2) == SetThreshold(p, t2, d2)
    ensures SetThreshold(SetThreshold(p, t2, d2), t2, d2) == SetThreshold(p, t2, d2)
  {
  }

  lemma SetBuyOneGetOneLastWins(p: Promotions, e1: bool, e2: bool)
    ensures SetBuyOneGetOne(SetBuyOneGetOne(p, e1), e2) == SetBuyOneGetOne(p, e2)
    ensures SetBuyOneGetOne(SetBuyOneGetOne(p, e2), e2) == SetBuyOneGetOne(p, e2)
  {
  }

  /** So repeating a setter call gives the same checkout result as calling it once. */
  lemma RepeatedSetterSameCheckout(p: Promotions, t: int, d: int, e: bool, items: seq<OrderItem>)
    ensures Price(SetThreshold(SetThreshold(p, t, d), t, d), items) == Price(SetThreshold(p, t, d), items)
    ensures Price(SetBuyOneGetOne(SetBuyOneGetOne(p, e), e), items) == Price(SetBuyOneGetOne(p, e), items)
  {
  }
}
