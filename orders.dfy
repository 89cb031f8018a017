/**
 * Order creation on the server (backend/internal/usecase/order_usecase.go).
 *
 * CreateOrder checks the requested lines one by one against the product
 * catalog, stops at the first line whose product is missing or short of
 * stock, prices every line at the catalog's current price, adds up the
 * total, and hands a pending order to the order repository. The catalog is
 * a map from product id to product; whether the repository's Create
 * succeeds is a parameter.
 */
module Orders {
  import opened Wrappers

  /** A catalog product: its id, and the name, price and stock that order creation reads. */
  datatype Product = Product(id: string, name: string, price: int, stock: int)

  /** One requested line: which product, how many. */
  datatype CreateOrderItem = CreateOrderItem(productId: string, quantity: int)

  datatype CreateOrderInput = CreateOrderInput(address: string, items: seq<CreateOrderItem>)

  datatype OrderStatus = Pending | Completed | Cancelled

  /** One line of a stored order, priced when the order was created. */
  datatype OrderItem = OrderItem(productId: string, quantity: int, price: int)

  datatype Order = Order(userId: string, totalAmount: int, status: OrderStatus, address: string, orderItems: seq<OrderItem>)

  /** The ways CreateOrder fails: no lines, an unknown product (the repository's
      not-found error, which names no product), a line beyond the product's stock
      (named by the product), or the repository refusing the order. */
  datatype OrderError = NoItems | ProductNotFound | InsufficientStock(productName: string) | CreateFailed

  type Catalog = map<string, Product>

  /** A requested line CreateOrder lets through: the product exists and its stock
      covers this line's quantity on its own. */
  predicate Available(catalog: Catalog, item: CreateOrderItem) {
    item.productId in catalog && item.quantity <= catalog[item.productId].stock
  }

  predicate AllInCatalog(catalog: Catalog, items: seq<CreateOrderItem>) {
    forall i :: 0 <= i < |items| ==> items[i].productId in catalog
  }

  /** The error one line raises, if any: the lookup comes first, then the stock check. */
  function CheckLine(catalog: Catalog, item: CreateOrderItem): Option<OrderError> {
    if item.productId !in catalog then Some(ProductNotFound)
    else if catalog[item.productId].stock < item.quantity then Some(InsufficientStock(catalog[item.productId].name))
    else None
  }

  /** The error of the earliest failing line, scanning in input order. */
  function FirstError(catalog: Catalog, items: seq<CreateOrderItem>): Option<OrderError> {
    if items == [] then None
    else
      var earlier := FirstError(catalog, items[..|items| - 1]);
      if earlier.Some? then earlier else CheckLine(catalog, items[|items| - 1])
  }

  /** The order lines built for the requested lines, each at the catalog price. */
  function OrderLines(catalog: Catalog, items: seq<CreateOrderItem>): (r: seq<OrderItem>)
    requires AllInCatalog(catalog, items)
    ensures |r| == |items|
    ensures forall i :: 0 <= i < |items| ==>
      r[i] == OrderItem(items[i].productId, items[i].quantity, catalog[items[i].productId].price)
  {
    if items == [] then []
    else
      var last := items[|items| - 1];
      OrderLines(catalog, items[..|items| - 1]) + [OrderItem(last.productId, last.quantity, catalog[last.productId].price)]
  }

  /** Σ catalog price × quantity over the requested lines. */
  function CatalogTotal(catalog: Catalog, items: seq<CreateOrderItem>): int
    requires AllInCatalog(catalog, items)
  {
    if items == [] then 0
    else
      var last := items[|items| - 1];
      CatalogTotal(catalog, items[..|items| - 1]) + catalog[last.productId].price * last.quantity
  }

  /** Σ price × quantity over the lines of an order. */
  function LinesTotal(lines: seq<OrderItem>): int {
    if lines == [] then 0
    else LinesTotal(lines[..|lines| - 1]) + lines[|lines| - 1].price * lines[|lines| - 1].quantity
  }

  /** The scan ends without an error exactly when every line passed both checks. */
  lemma {:induction false} FirstErrorNoneIff(catalog: Catalog, items: seq<CreateOrderItem>)
    ensures FirstError(catalog, items).None? <==> forall i :: 0 <= i < |items| ==> Available(catalog, items[i])
  {
    if items != [] {
      var n := |items| - 1;
      var init := items[..n];
      FirstErrorNoneIff(catalog, init);
      assert forall i :: 0 <= i < n ==> init[i] == items[i];
      assert items == init + [items[n]];
    }
  }

  /** Once a prefix of the lines has failed, the lines after it cannot change the error. */
  lemma {:induction false} FirstErrorOfPrefix(catalog: Catalog, items: seq<CreateOrderItem>, j: int)
    requires 0 <= j <= |items| && FirstError(catalog, items[..j]).Some?
    ensures FirstError(catalog, items) == FirstError(catalog, items[..j])
    decreases |items| - j
  {
    if j < |items| {
      var init := items[..|items| - 1];
      assert init[..j] == items[..j];
      FirstErrorOfPrefix(catalog, init, j);
    } else {
      assert items[..j] == items;
    }
  }

  lemma {:induction false} LinesTotalOfOrderLines(catalog: Catalog, items: seq<CreateOrderItem>)
    requires AllInCatalog(catalog, items)
    ensures LinesTotal(OrderLines(catalog, items)) == CatalogTotal(catalog, items)
  {
    if items != [] {
      var init := items[..|items| - 1];
      LinesTotalOfOrderLines(catalog, init);
      var lines := OrderLines(catalog, items);
      assert lines[..|lines| - 1] == OrderLines(catalog, init);
    }
  }

  /** What CreateOrder returns, as a function of its inputs. */
  function CreateOrderResult(catalog: Catalog, userId: string, input: CreateOrderInput, createSucceeds: bool): Result<Order, OrderError> {
    if |input.items| == 0 then Err(NoItems)
    else
      var failure := FirstError(catalog, input.items);
      if failure.Some? then Err(failure.value)
      else
        FirstErrorNoneIff(catalog, input.items);
        var order := Order(userId, CatalogTotal(catalog, input.items), Pending, input.address, OrderLines(catalog, input.items));
        if createSucceeds then Ok(order) else Err(CreateFailed)
  }

  /** CreateOrder, step by step as the use case runs it. */
  method CreateOrder(catalog: Catalog, userId: string, input: CreateOrderInput, createSucceeds: bool)
    returns (r: Result<Order, OrderError>)
    ensures r == CreateOrderResult(catalog, userId, input, createSucceeds)
  {
    if |input.items| == 0 {
      return Err(NoItems);
    }

    var totalAmount := 0;
    var orderItems: seq<OrderItem> := [];

    var i := 0;
    while i < |input.items|
      invariant 0 <= i <= |input.items|
      invariant FirstError(catalog, input.items[..i]).None?
      invariant AllInCatalog(catalog, input.items[..i])
      invariant orderItems == OrderLines(catalog, input.items[..i])
      invariant totalAmount == CatalogTotal(catalog, input.items[..i])
    {
      var item := input.items[i];
      assert input.items[..i + 1][..i] == input.items[..i];
      if item.productId !in catalog {
        FirstErrorOfPrefix(catalog, input.items, i + 1);
        return Err(ProductNotFound);
      }
      var product := catalog[item.productId];
      if product.stock < item.quantity {
        FirstErrorOfPrefix(catalog, input.items, i + 1);
        return Err(InsufficientStock(product.name));
      }

      var price := product.price;
      var subtotal := price * item.quantity;
      totalAmount := totalAmount + subtotal;

      orderItems := orderItems + [OrderItem(item.productId, item.quantity, price)];
      i := i + 1;
    }
    assert input.items[..i] == input.items;

    var order := Order(userId, totalAmount, Pending, input.address, orderItems);

    if !createSucceeds {
      return Err(CreateFailed);
    }
    return Ok(order);
  }

  // ---------------------------------------------------------------------------
  // What CreateOrder promises.

  /** An order is created exactly when there is at least one line, every line's product
      exists with enough stock for that line, and the repository accepts the order. */
  lemma CreateOrderSucceedsIff(catalog: Catalog, userId: string, input: CreateOrderInput, createSucceeds: bool)
    ensures CreateOrderResult(catalog, userId, input, createSucceeds).Ok?
        <==> |input.items| > 0 && (forall i :: 0 <= i < |input.items| ==> Available(catalog, input.items[i])) && createSucceeds
  {
    FirstErrorNoneIff(catalog, input.items);
  }

  /** An empty request is refused before anything else is looked at. */
  lemma EmptyOrderRejected(catalog: Catalog, userId: string, input: CreateOrderInput, createSucceeds: bool)
    requires input.items == []
    ensures CreateOrderResult(catalog, userId, input, createSucceeds) == Err(NoItems)
  {
  }

  /** A line whose product is not in the catalog, with every earlier line in order,
      makes CreateOrder fail with the repository's not-found error. */
  lemma MissingProductRejected(catalog: Catalog, userId: string, input: CreateOrderInput, createSucceeds: bool, k: int)
    requires 0 <= k < |input.items| && input.items[k].productId !in catalog
    requires forall j :: 0 <= j < k ==> Available(catalog, input.items[j])
    ensures CreateOrderResult(catalog, userId, input, createSucceeds) == Err(ProductNotFound)
  {
    FirstErrorUpTo(catalog, input.items, k);
  }

  /** A line asking for more than its product's stock, with every earlier line in order,
      makes CreateOrder fail naming that product. */
  lemma InsufficientStockRejected(catalog: Catalog, userId: string, input: CreateOrderInput, createSucceeds: bool, k: int)
    requires 0 <= k < |input.items| && input.items[k].productId in catalog
    requires catalog[input.items[k].productId].stock < input.items[k].quantity
    requires forall j :: 0 <= j < k ==> Available(catalog, input.items[j])
    ensures CreateOrderResult(catalog, userId, input, createSucceeds)
         == Err(InsufficientStock(catalog[input.items[k].productId].name))
  {
    FirstErrorUpTo(catalog, input.items, k);
  }

  /** The error CreateOrder's scan reports is the one raised by the earliest failing
      line: when every line before k passes and line k fails, it is line k's. */
  lemma FirstErrorUpTo(catalog: Catalog, items: seq<CreateOrderItem>, k: int)
    requires 0 <= k < |items| && !Available(catalog, items[k])
    requires forall j :: 0 <= j < k ==> Available(catalog, items[j])
    ensures FirstError(catalog, items) == CheckLine(catalog, items[k])
  {
    var prefix := items[..k + 1];
    var init := items[..k];
    assert prefix[..k] == init;
    FirstErrorNoneIff(catalog, init);
    assert FirstError(catalog, prefix) == CheckLine(catalog, items[k]);
    FirstErrorOfPrefix(catalog, items, k + 1);
  }

  /** A successful order has one line per requested line, in request order, each with the
      requested product and quantity and the catalog's price at the time of the call. */
  lemma SuccessfulOrderLines(catalog: Catalog, userId: string, input: CreateOrderInput, createSucceeds: bool)
    requires CreateOrderResult(catalog, userId, input, createSucceeds).Ok?
    ensures var lines := CreateOrderResult(catalog, userId, input, createSucceeds).value.orderItems;
      && |lines| == |input.items|
      && forall i :: 0 <= i < |lines| ==>
           && input.items[i].productId in catalog
           && lines[i] == OrderItem(input.items[i].productId, input.items[i].quantity, catalog[input.items[i].productId].price)
  {
    FirstErrorNoneIff(catalog, input.items);
  }

  /** A successful order's total is both Σ catalog price × quantity over the request and
      Σ price × quantity over its own lines. */
  lemma SuccessfulOrderTotal(catalog: Catalog, userId: string, input: CreateOrderInput, createSucceeds: bool)
    requires CreateOrderResult(catalog, userId, input, createSucceeds).Ok?
    ensures AllInCatalog(catalog, input.items)
    ensures var order := CreateOrderResult(catalog, userId, input, createSucceeds).value;
      && order.totalAmount == CatalogTotal(catalog, input.items)
      && order.totalAmount == LinesTotal(order.orderItems)
  {
    FirstErrorNoneIff(catalog, input.items);
    LinesTotalOfOrderLines(catalog, input.items);
  }

  /** A successful order is pending, belongs to the caller and carries the address as given. */
  lemma SuccessfulOrderHeader(catalog: Catalog, userId: string, input: CreateOrderInput, createSucceeds: bool)
    requires CreateOrderResult(catalog, userId, input, createSucceeds).Ok?
    ensures var order := CreateOrderResult(catalog, userId, input, createSucceeds).value;
      order.status == Pending && order.userId == userId && order.address == input.address
  {
  }

  /** When the repository refuses the order, CreateOrder fails and returns no order. */
  lemma CreateFailurePropagated(catalog: Catalog, userId: string, input: CreateOrderInput)
    ensures CreateOrderResult(catalog, userId, input, false).Err?
    ensures |input.items| > 0 && FirstError(catalog, input.items).None? ==>
      CreateOrderResult(catalog, userId, input, false) == Err(CreateFailed)
  {
  }

  /** The stock check looks at one line at a time: two lines of 2 against a stock of 3
      both pass, although together they ask for 4. */
  lemma StockCheckedPerLine()
    ensures CreateOrderResult(
              map["p" := Product("p", "Mug", 1200, 3)], "u",
              CreateOrderInput("addr", [CreateOrderItem("p", 2), CreateOrderItem("p", 2)]), true)
         == Ok(Order("u", 4800, Pending, "addr", [OrderItem("p", 2, 1200), OrderItem("p", 2, 1200)]))
  {
    var catalog := map["p" := Product("p", "Mug", 1200, 3)];
    var items := [CreateOrderItem("p", 2), CreateOrderItem("p", 2)];
    var first := items[..1];
    assert items[..|items| - 1] == first && first[..0] == [];
    assert AllInCatalog(catalog, items);
    assert FirstError(catalog, first).None?;
    assert FirstError(catalog, items).None?;
    assert CatalogTotal(catalog, first) == 2400;
    assert CatalogTotal(catalog, items) == 4800;
    assert OrderLines(catalog, items) == [OrderItem("p", 2, 1200), OrderItem("p", 2, 1200)];
  }

  /** The stock check is the only check on a quantity: a line of quantity zero or less
      passes it and is priced like any other. */
  lemma NonPositiveQuantityAccepted(catalog: Catalog, userId: string, address: string, productId: string, quantity: int)
    requires productId in catalog && quantity <= 0 && catalog[productId].stock >= 0
    ensures CreateOrderResult(catalog, userId, CreateOrderInput(address, [CreateOrderItem(productId, quantity)]), true)
         == Ok(Order(userId, catalog[productId].price * quantity, Pending, address,
                     [OrderItem(productId, quantity, catalog[productId].price)]))
  {
    var items := [CreateOrderItem(productId, quantity)];
    assert items[..0] == [];
    assert AllInCatalog(catalog, items);
    assert FirstError(catalog, items).None?;
    assert CatalogTotal(catalog, items) == catalog[productId].price * quantity;
    assert OrderLines(catalog, items) == [OrderItem(productId, quantity, catalog[productId].price)];
  }
}
