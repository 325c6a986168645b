/** The domain entities of the order system: products, order lines and the
    priced order that checkout fills in. */
module Entities {
  import opened Wrappers

  /** A purchased quantity: the only values an order line can hold. */
  type Quantity = q: int | q > 0 witness 1

  /** The error raised when an order line is built with a bad quantity. */
  datatype Error = ValueError(message: string)

  const QuantityNotPositive := "Quantity must be greater than 0"

  /** A catalog product; nothing ever changes its fields after construction. */
  class Product {
    const name: string
    const unitPrice: int
    const category: string

    constructor (name: string, unitPrice: int, category: string := "")
      ensures this.name == name && this.unitPrice == unitPrice && this.category == category
    {
      this.name := name;
      this.unitPrice := unitPrice;
      this.category := category;
    }
  }

  /** One line of a purchase request. Its quantity is positive by type; the
      check that establishes it is NewOrderItem. */
  class OrderItem {
    const product: Product
    const quantity: Quantity

    constructor (product: Product, quantity: Quantity)
      ensures this.product == product && this.quantity == quantity
    {
      this.product := product;
      this.quantity := quantity;
    }
  }

  /** Building an order line: a non-positive quantity is refused with a
      ValueError, anything else gives a line holding exactly the arguments. */
  method NewOrderItem(product: Product, quantity: int) returns (r: Result<OrderItem, Error>)
    ensures r.Failure? <==> quantity <= 0
    ensures r.Failure? ==> r.error == ValueError(QuantityNotPositive)
    ensures r.Success? ==> r.value.product == product && r.value.quantity == quantity
  {
    if quantity <= 0 {
      return Failure(ValueError(QuantityNotPositive));
    }
    var item := new OrderItem(product, quantity);
    r := Success(item);
  }

  /** The value held by an Order after checkout, field by field. */
  datatype Receipt = Receipt(
    items: seq<OrderItem>,
    receivedItems: map<string, int>,
    originalAmount: int,
    discount: int,
    totalAmount: int)

  /** The checkout result, filled in field by field by the order service. */
  class Order {
    var totalAmount: int
    var originalAmount: int
    var discount: int
    var items: seq<OrderItem>
    var receivedItems: map<string, int>

    constructor ()
      ensures totalAmount == 0 && originalAmount == 0 && discount == 0
      ensures items == [] && receivedItems == map[]
    {
      totalAmount := 0;
      originalAmount := 0;
      discount := 0;
      items := [];
      receivedItems := map[];
    }

    /** The current fields of this order as a value. */
    function Snapshot(): Receipt
      reads this
    {
      Receipt(items, receivedItems, originalAmount, discount, totalAmount)
    }
  }
}
