# Checkout pricing of the order service

This project models the pricing core of a small retail checkout: the
`OrderService` in `src/order_service.py` and the entities it fills in,
from `src/entities.py`.

A service holds three promotion settings. Two setters change them:
a threshold discount (threshold and flat amount, both unset at first) and
a buy-one-get-one flag for cosmetics. `checkout` builds a fresh `Order`
from a list of order lines in three fixed steps:

1. **Subtotal pass.** The amount of every line (unit price times
   quantity) is added to a running total. The line's quantity is written
   under its product name in `received_items`, so a repeated name
   overwrites the earlier entry.
2. **Buy-one-get-one for cosmetics.** When enabled, every line whose
   category is exactly `cosmetics` adds one unit to its product's entry,
   whatever the quantity bought.
3. **Threshold discount.** When both threshold settings are present and
   the subtotal reaches the threshold, the discount is the configured
   amount; otherwise it is 0. The step assigns the discount (it does not
   add to it) and sets the total to subtotal minus discount.

Layout:

- `wrappers.dfy`: `Option` and `Result`.
- `entities.dfy` (module `Entities`): `Product` and `OrderItem` are
  classes with constant fields. A line's quantity has the type
  `Quantity` (integers above 0). `NewOrderItem` is the validating
  construction: a quantity of 0 or less gives a `ValueError` result.
  `Order` is a class whose fields checkout assigns one by one.
  `Receipt` is the value of those fields.
- `pricing.dfy` (module `Pricing`): the pipeline as pure functions of
  the configuration (`Promotions`) and the lines: `Subtotal`,
  `Purchased`, `CosmeticLines`, `WithBonus`, `Received`,
  `ThresholdDiscount` and `Price`, plus the lemmas about them.
- `service.dfy` (module `Service`): the class `OrderService` with the
  configuration fields, the setters, `Checkout` and its three helpers.
  The helpers' loops have invariants that tie the running total and the
  map to the `Pricing` functions. `Checkout` is proved to return an
  order equal to `Price(Config(), items)`.

Prices, amounts and discounts are mathematical integers.

## Model

| member | source | states |
|---|---|---|
| `Entities.Product.constructor` | src/entities.py:9-12 | stores name, unit price and category unchanged; the category defaults to the empty string |
| `Entities.OrderItem.constructor` | src/entities.py:21-22 | stores the given product and the (positive) quantity |
| `Entities.NewOrderItem` | src/entities.py:18-22 | fails with ValueError "Quantity must be greater than 0" exactly when quantity <= 0; otherwise the line holds the given product and quantity |
| `Entities.Order.constructor` | src/entities.py:28-33 | a fresh order has total, original amount and discount 0, no items and an empty received-items map |
| `Service.OrderService.constructor` | src/order_service.py:10-13 | a new service has no threshold, no threshold amount and the bonus rule off |
| `Service.OrderService.SetThresholdDiscount` | src/order_service.py:15-18 | sets both threshold settings to the arguments and leaves the bonus flag unchanged |
| `Service.OrderService.SetBuyOneGetOneCosmetics` | src/order_service.py:20-22 | sets the bonus flag and leaves the threshold settings unchanged |
| `Service.OrderService.Checkout` | src/order_service.py:24-44 | returns a fresh order holding the input lines, with original amount the subtotal, total = original - discount, and every field equal to the pipeline `Price` of the current configuration |
| `Service.OrderService.CalculateOriginalAmount` | src/order_service.py:46-52 | sets the original amount to the sum of unit price times quantity over the lines; the received map becomes the old map overridden by each line's quantity, last line winning; its keys gain exactly the lines' names; nothing else changes |
| `Service.OrderService.ApplyBuyOneGetOnePromotion` | src/order_service.py:54-60 | with the rule on, each entry grows by the number of cosmetics lines of that name; with it off the map is unchanged; only the received map can change, so amounts and discount are untouched |
| `Service.OrderService.ApplyThresholdDiscount` | src/order_service.py:62-71 | assigns the threshold discount for the order's subtotal (the amount when both settings are set and the subtotal reaches the threshold, else 0) and sets total = original - discount |
| `Pricing.Price` | src/order_service.py:24-44 | the priced order holds the input lines, the subtotal as original amount, exactly the lines' names as received keys, and total = original - discount |
| `Pricing.SubtotalConcat` | src/order_service.py:48-52 | the subtotal of two line lists joined is the sum of their subtotals |
| `Pricing.SubtotalNonNegative` | src/order_service.py:48-52 | with non-negative unit prices the subtotal is non-negative |
| `Pricing.PurchasedKeys` | src/order_service.py:49-51 | after the subtotal pass the keys are exactly the product names of the lines |
| `Pricing.PurchasedLastWins` | src/order_service.py:49-51 | a name's entry after the subtotal pass is the quantity of the last line with that name (overwrite, not accumulate) |
| `Pricing.NoCosmeticLineNoBonus` | src/order_service.py:57-60 | a name with no cosmetics line earns no bonus unit |
| `Pricing.CosmeticLinesOfSoleLine` | src/order_service.py:57-60 | the only line of a product earns exactly one bonus unit if it is a cosmetics line, none otherwise |
| `Pricing.ReceivedAtLeastPurchased` | src/order_service.py:54-60 | every name receives at least the quantity of the subtotal pass, and exactly that with the rule off |
| `Pricing.SoleLineReceived` | src/order_service.py:49-60 | with one line per product, the customer receives the quantity bought plus one when the rule is on and the line is cosmetics, whatever the quantity |
| `Pricing.NonCosmeticUnchanged` | src/order_service.py:56-60 | a product none of whose lines is cosmetics keeps its subtotal-pass quantity |
| `Pricing.UnconfiguredThresholdNoDiscount` | src/order_service.py:64-71 | with either threshold setting unset the discount is 0 and the total is the subtotal |
| `Pricing.NoPromotionsPassThrough` | src/order_service.py:10-13 | a fresh service's checkout gives discount 0, total = subtotal and received = the subtotal-pass map |
| `Pricing.ThresholdDiscountCases` | src/order_service.py:64-70 | after set_threshold_discount(t, d) the discount is d when the subtotal is at least t and 0 when it is below |
| `Pricing.ThresholdDiscountMonotone` | src/order_service.py:65-68 | with a non-negative configured amount, a larger subtotal never gives a smaller discount |
| `Pricing.BonusLeavesAmounts` | src/order_service.py:54-60 | turning the bonus rule on or off never changes original amount, discount or total |
| `Pricing.SetThresholdLastWins` | src/order_service.py:15-18 | a later set_threshold_discount replaces an earlier one; a repeated call changes nothing |
| `Pricing.SetBuyOneGetOneLastWins` | src/order_service.py:20-22 | a later set_buy_one_get_one_cosmetics replaces an earlier one; a repeated call changes nothing |
| `Pricing.RepeatedSetterSameCheckout` | src/order_service.py:15-22 | calling a setter twice with the same arguments gives the same checkout result as calling it once |

## Left out

- Floating point: unit prices, amounts and discounts are integers, so
  the sums are exact and the order of addition does not matter.
- No bulk group discount: `checkout` calls only the bonus and threshold
  helpers (src/order_service.py:41-42). The threshold step assigns the
  discount and never adds to an earlier one (src/order_service.py:70).
- `Service.OrderService.ApplyBuyOneGetOnePromotion`: the KeyError path
  is not modelled. The source raises KeyError only when the rule is on
  and a cosmetics line's name is missing from the map. The method
  requires exactly that this does not happen. In `checkout` the subtotal
  pass creates every line's entry before the helper runs
  (src/order_service.py:38-41), so the error cannot occur there.
- Aliasing: the source stores the caller's list object in `order.items`.
  The model stores the sequence; later changes to the caller's list are
  not modelled.
- Passing `None` to `set_threshold_discount`: the parameters are typed
  as numbers, so the setter takes integers. The two settings are still
  kept as separate optional values, and the rule checks both.
- Mutation of `Product` or `OrderItem` fields after construction: nothing
  in the core does it, so the fields are constants.
- `features/environment.py` holds test-harness hooks with no logic; it is
  not part of this model. Concurrent use of one service is not modelled.
