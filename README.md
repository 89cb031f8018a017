# rabbit-cart: the shopping cart and order creation, in Dafny

rabbit-cart is a small storefront. This project models the two parts of it that hold real logic.

- **The client-side cart store** (`utils/store.ts`) is module `Cart` in `cart.dfy`. The cart is an ordered list of lines `{id, name, price, quantity, image_url}` kept in the store's one state field, `items`. There are four mutations:
  - `addItem` merges a repeated product into its existing line, or appends a new line of quantity 1.
  - `removeItem` filters the product out.
  - `updateQuantity` sets a quantity, or removes the line when the quantity is 0 or less.
  - `clearCart` empties the list.

  `getTotalAmount` is the pure sum of price × quantity. Each mutation is a pure function from the old list to the new one: `AddedItems`, `RemovedItems`, `UpdatedItems`. The class `CartStore` has the field `items: seq<CartItem>`, and its methods reassign it. Each method's postcondition is the matching function of `old(items)`. The invariant is "ids unique and every quantity at least 1" (`WellFormed`). Every mutation preserves it, and so does any sequence of them (`Run`). Lemmas state how each mutation moves the total and the header badge count; clearCart's postcondition sets both to 0.
- **Order creation on the server** (`CreateOrder` in `backend/internal/usecase/order_usecase.go`) is module `Orders` in `orders.dfy`. The method `CreateOrder` runs the use case's loop over the requested lines. It stops at the first line whose product is missing or whose stock is below the line's quantity. Otherwise it prices each line at the catalog price, accumulates the total, and builds a pending order. The product repository is a `map<string, Product>`. Whether the order repository's `Create` succeeds is a boolean parameter. The method is proved equal to the function `CreateOrderResult`. The lemmas state what that function promises: when an order is produced, which error comes back otherwise, the lines, the total and the header fields.

`wrappers.dfy` holds the shared `Option` and `Result` types. A nullable `image_url` is an `Option<string>`. A Go `(*Order, error)` return is a `Result<Order, OrderError>`.

Prices and quantities are unbounded integers on both sides. The Go entities declare them `int`, and the cart treats them as whole amounts.

Two facts about the code shape the model:
- The cart is an array, not a map keyed by product id. `addItem`, `removeItem` and `updateQuantity` act on every line with a matching id. For a well-formed cart that is exactly one line, at its position k: `IncrementAt` gives addItem's result, `RemoveAt` gives removeItem's, and `SetQuantityAt` gives updateQuantity's.
- Nothing in the code checks that a price is non-negative. `TotalAmountNonNegative` takes it as a hypothesis.

## Model

| member | source | states |
|---|---|---|
| `Cart.Find` | utils/store.ts:34 | a line is found exactly when some line carries the id, and the line found is the earliest line with that id |
| `Cart.AddedItems` | utils/store.ts:31-47 | for a product already in the cart: same length, every line keeps its id, name, price and image, that product's line gains exactly 1, every other line is unchanged; for a new product: the old lines unchanged in order, then one line built from the item with quantity 1 |
| `Cart.RemovedItems` | utils/store.ts:50-52 | the result holds exactly the lines of other products, holds no line of the removed id, is no longer than the cart, and is the cart itself when the id is absent |
| `Cart.UpdatedItems` | utils/store.ts:55-67 | a quantity of 0 or less gives exactly removeItem's result; a positive quantity keeps the length and every snapshot, sets that product's quantity to the value, leaves all other lines unchanged, and changes nothing when the id is absent |
| `Cart.RemovedItemsSingle` | utils/store.ts:51 | on one line, removeItem drops the line exactly when it carries the id |
| `Cart.RemovedItemsAppend` | utils/store.ts:51 | removing from a concatenation is removing from each part, parts kept in order; with the one-line case this fixes the result of the filter, order and duplicates included |
| `Cart.RemoveAt` | utils/store.ts:50-52 | in a cart with unique ids, removing the product at position k gives the cart with exactly position k cut out, the others in their original order |
| `Cart.IncrementAt` | utils/store.ts:36-42 | in a cart with unique ids, adding the product at position k gives the cart with only position k changed, its quantity one more |
| `Cart.SetQuantityAt` | utils/store.ts:60-66 | in a cart with unique ids, setting the product at position k gives the cart with only position k changed, its quantity the value given |
| `Cart.AddItemKeepsWellFormed` | utils/store.ts:31-47 | addItem keeps ids unique and every quantity at least 1 |
| `Cart.RemoveItemKeepsWellFormed` | utils/store.ts:50-52 | removeItem keeps ids unique and every quantity at least 1 |
| `Cart.UpdateQuantityKeepsWellFormed` | utils/store.ts:55-67 | updateQuantity keeps ids unique and every quantity at least 1, for any requested quantity |
| `Cart.ApplyKeepsWellFormed` | utils/store.ts:31-70 | each of the four mutations, clearCart included, keeps the invariant |
| `Cart.RunKeepsWellFormed` | utils/store.ts:28-70 | any sequence of mutations from a well-formed cart, such as the initial empty one, ends in a well-formed cart |
| `Cart.TotalAmount` | utils/store.ts:73-75 | the reference definition of getTotalAmount: Σ price × quantity over the lines, accumulated from 0 in order as `reduce` does; its properties are TotalAmountNonNegative and the TotalAfter lemmas |
| `Cart.CartStore.GetTotalAmount` | utils/store.ts:73-75 | the store's getTotalAmount is the reference total `TotalAmount` of its current lines, computed on each call and never stored |
| `Cart.ItemCount` | components/Header.tsx:20 | the reference definition of the header badge's number: Σ quantity over the lines; its properties are ItemCountAfterAdd and ItemCountAtLeastLines |
| `Cart.TotalAmountNonNegative` | utils/store.ts:73-75 | with non-negative prices and quantities of at least 1, the total is never negative |
| `Cart.TotalAfterAddExisting` | utils/store.ts:36-42 | adding a product already in the cart raises the total by the price stored in its line |
| `Cart.TotalAfterAddNew` | utils/store.ts:43-46 | adding a new product raises the total by the incoming price |
| `Cart.TotalAfterRemove` | utils/store.ts:50-52 | removing a product lowers the total by exactly that line's price × quantity |
| `Cart.TotalAfterUpdate` | utils/store.ts:60-66 | a positive update replaces that line's price × old quantity by price × new quantity in the total |
| `Cart.ItemCountAfterAdd` | components/Header.tsx:20 | in a cart with unique ids, every addItem raises the badge count (Σ quantity) by exactly 1 |
| `Cart.ItemCountAfterRemove` | components/Header.tsx:20 | in a cart with unique ids, removeItem lowers the badge count by exactly the removed line's quantity |
| `Cart.ItemCountAfterUpdate` | components/Header.tsx:20 | in a cart with unique ids, a positive updateQuantity replaces that line's old quantity by the new one in the badge count |
| `Cart.ItemCountAtLeastLines` | components/Header.tsx:20 | with every quantity at least 1, the badge count is at least the number of lines |
| `Cart.TotalAmountExample` | utils/store.ts:73-75 | lines of 1000 × 2 and 2500 × 1 total 4500 |
| `Cart.RepeatAddKeepsFirstSnapshot` | utils/store.ts:34-46 | adding the same product twice gives one line of quantity 2 with the first call's name, price and image, whatever the second call passed |
| `Cart.MugScenario` | utils/store.ts:31-75 | add a 1200 mug: total 1200; add it again: one line of quantity 2, total 2400; set its quantity to 0: empty cart |
| `Cart.AddAddRemoveExample` | utils/store.ts:43-52 | add p1, add p2, remove p1: only p2's line remains |
| `Cart.CartStore.constructor` | utils/store.ts:28 | a new store holds the empty cart, which is well formed |
| `Cart.CartStore.AddItem` | utils/store.ts:31-47 | the new `items` is AddedItems of the old one, and a well-formed cart stays well formed |
| `Cart.CartStore.RemoveItem` | utils/store.ts:50-52 | the new `items` is RemovedItems of the old one, and a well-formed cart stays well formed |
| `Cart.CartStore.UpdateQuantity` | utils/store.ts:55-67 | the new `items` is UpdatedItems of the old one, so 0 or less goes through removeItem, and a well-formed cart stays well formed |
| `Cart.CartStore.ClearCart` | utils/store.ts:70 | `items` becomes empty, and both the total and the badge count of the empty cart are 0 |
| `Orders.OrderLines` | backend/internal/usecase/order_usecase.go:71-75 | one order line per requested line, at the same position, with the requested product id and quantity and the catalog price |
| `Orders.FirstErrorNoneIff` | backend/internal/usecase/order_usecase.go:58-66 | the scan of the requested lines ends without an error exactly when every line's product exists with stock at least that line's quantity |
| `Orders.FirstErrorUpTo` | backend/internal/usecase/order_usecase.go:58-65 | when every line before k passes and line k fails, the error reported is line k's: product not found if its id is unknown, otherwise insufficient stock |
| `Orders.FirstErrorOfPrefix` | backend/internal/usecase/order_usecase.go:58-65 | once a prefix of the lines has failed, later lines cannot change the error returned |
| `Orders.LinesTotalOfOrderLines` | backend/internal/usecase/order_usecase.go:67-75 | Σ price × quantity over the built order lines equals Σ catalog price × quantity over the request |
| `Orders.CreateOrderResult` | backend/internal/usecase/order_usecase.go:49-95 | the reference definition of CreateOrder's outcome: the no-items error, else the first failing line's error, else the pending order with OrderLines and CatalogTotal, or CreateFailed when the repository refuses it; the lemmas on the call's outcome (CreateOrderSucceedsIff, the Rejected, SuccessfulOrder and CreateFailurePropagated lemmas) are stated about it, while FirstErrorNoneIff, FirstErrorOfPrefix, FirstErrorUpTo and LinesTotalOfOrderLines are stated about its helper functions |
| `Orders.CreateOrder` | backend/internal/usecase/order_usecase.go:49-95 | the loop with its early returns produces exactly CreateOrderResult: the same error, or the same order |
| `Orders.CreateOrderSucceedsIff` | backend/internal/usecase/order_usecase.go:49-95 | an order is returned if and only if the request has at least one line, every line's product exists with stock at least that line's quantity, and the repository's Create succeeds |
| `Orders.EmptyOrderRejected` | backend/internal/usecase/order_usecase.go:50-52 | a request without lines fails with the no-items error and no order |
| `Orders.MissingProductRejected` | backend/internal/usecase/order_usecase.go:58-62 | the first failing line having an unknown product makes the call fail with the product repository's not-found error, which names no product, and no order |
| `Orders.InsufficientStockRejected` | backend/internal/usecase/order_usecase.go:63-65 | the first failing line asking for more than its product's stock makes the call fail naming that product, and no order |
| `Orders.SuccessfulOrderLines` | backend/internal/usecase/order_usecase.go:58-75 | a successful order has as many lines as the request, in request order, each with the requested product and quantity and the catalog price at the time of the call |
| `Orders.SuccessfulOrderTotal` | backend/internal/usecase/order_usecase.go:67-84 | a successful order's total is Σ catalog price × quantity over the request, and also Σ price × quantity over its own lines |
| `Orders.SuccessfulOrderHeader` | backend/internal/usecase/order_usecase.go:82-88 | a successful order is pending, carries the caller's user id, and carries the address exactly as given |
| `Orders.CreateFailurePropagated` | backend/internal/usecase/order_usecase.go:90-94 | when the repository's Create fails, no order is returned; if all lines passed, the error is the repository's |
| `Orders.StockCheckedPerLine` | backend/internal/usecase/order_usecase.go:63-65 | two lines of 2 against a stock of 3 both pass, although together they ask for 4 |
| `Orders.NonPositiveQuantityAccepted` | backend/internal/usecase/order_usecase.go:63-69 | a single line with a quantity of 0 or less, against a non-negative stock, passes the stock check and is priced and totalled like any other line |

## Left out

- The `persist` middleware and its local-storage key (utils/store.ts:2, 77-79) are not modelled. They cover browser storage, asynchronous hydration, and the serialize/deserialize round trip of the stored cart.
- The "mounted" hydration gates of the cart page and the header are not modelled. They are UI rendering. The header's count is modelled only as the function `ItemCount`.
- JavaScript `number` arithmetic is not modelled. Cart prices and quantities are unbounded integers, with no floating point and no non-integral quantities.
- Orders.CreateOrder: the 64-bit wrap-around of Go's `int` in `price * item.Quantity` and `totalAmount` is not modelled. Totals are unbounded integers.
- Orders.CreateOrder: every error of the product repository's `FindByID` is modelled as a missing key, `ProductNotFound`. Other database failures are not distinguished. Like the repository's not-found error, `ProductNotFound` does not name the missing product.
- Orders.CreateOrder: the catalog is one fixed snapshot for the whole call. The code looks each line's product up separately, outside any transaction, and never reserves or lowers stock. Prices and stock that change between lookups are not modelled. Neither are two concurrent orders that both pass the stock check. The catalog price in `SuccessfulOrderLines` is the snapshot's price.
- Orders.CreateOrder: the repository's own error value is replaced by `CreateFailed`. The error messages become constructors. The stock error keeps the product name, as the message does.
- The database-assigned fields are not modelled: the order and line ids, `OrderID`, the timestamps, and the preloaded `Product`. Neither are the product fields the use case does not read: description, image URL and category.
- The `context.Context` argument is not modelled.
- `GetOrdersByUserID` and `GetOrderByID` are not modelled. They only forward to the order repository, which is database I/O.
- `NewOrderUseCase` is not modelled. It only wires the use case to its repositories.
