# Inventory ledger and order workflow of a supply-chain manager

This project is a Dafny model of the part of the supply-chain management
system that carries real invariants. It has two services.

- **`InventoryService`** is the ledger. It keeps one stock quantity per
  (product, warehouse) pair and supports add, remove, level query and
  transfer.
- **`OrderService`** is the workflow built on the ledger. A sales order is
  created only when the warehouse holds enough stock. Fulfilling it deducts
  that stock, turns the order from CREATED to FULFILLED and files one
  shipment. A purchase order is created only for a catalogued product and a
  catalogued supplier.

Files and modules:

- `store.dfy`, module `Store`: the keyed-store contract every repository
  follows. `findById` returns Some or None, `save` is an upsert, and `delete`
  is a no-op on a missing key. Each repository is a Dafny `map`.
- `errors.dfy`, module `Errors`: one error kind per exception class the
  services throw. `InvalidArgument` stands for `IllegalArgumentException` and
  `IllegalState` for `IllegalStateException`. `NotFound` names the record
  type that is missing, as the exception message does. `Blank` is the
  identifier check `s.trim().isEmpty()`: every character is at or below the
  space character. `Trim` models Java's `String.trim()`, and a lemma proves
  the two checks agree.
- `ids.dfy`, module `Ids`: identifier generation. An identifier is a tag
  (`SO-`, `PO-`, `SHP-`) followed by eight upper-case hexadecimal digits.
  `FreshId` proves that the identifier it returns is not already a key of the
  target store.
- `inventory.dfy`, module `Inventory`:
  - the functions `Add`, `Remove` and `Transfer` give the meaning of each
    ledger operation on a value of the repository;
  - the class `InventoryService` holds the repository as a `map` field, and
    its methods perform the operations step by step (find, compute, save);
  - each method is proved equal to its function;
  - the lemmas cover sequences of operations and the two defects listed
    under Findings.
- `orders.dfy`, module `Orders`: the class `OrderService`.
  - Fields: the sales-order, purchase-order and shipment repositories as maps,
    and the product and supplier catalogues as sets of identifiers.
  - Invariant `Valid()`:
    - ledger stock is never negative;
    - every stored sales order passed the order checks;
    - every shipment references a FULFILLED order;
    - no two shipments reference the same order;
    - every FULFILLED order has a shipment.
  - `FulfilmentWalkthrough` replays a worked scenario. Stock
    starts at 50 and 30 units are removed. An order for 25 is refused and an
    order for 15 is accepted and fulfilled, leaving 5. A second fulfilment
    fails and files no second shipment.

Every operation reports its failure as a value (`Outcome` or `Result`) in
place of an exception. The contracts state the exact error kind for each
input, the state after a failure, and the state after a success.

## Model

| member | source | states |
|---|---|---|
| `Errors.BlankIsTrimEmpty` | src/main/java/com/company/scm/service/InventoryService.java:119-122 | `Blank`, the identifier test used by every validator, holds exactly when `trim()` leaves the empty string. `Trim` strips leading and trailing characters at or below U+0020, so this happens exactly when every character is at or below U+0020 |
| `Store.Find` | src/test/java/com/company/scm/repository/ProductRepositoryTest.java:43-47 | a lookup finds a value exactly when the key is stored, and finds the stored value |
| `Store.SaveThenFind` | src/test/java/com/company/scm/repository/ProductRepositoryTest.java:29-40 | after a save the key finds the saved value; every other key finds what it found before |
| `Store.SaveIsUpsert` | src/test/java/com/company/scm/repository/ProductRepositoryTest.java:86-104 | saving twice under one key equals saving the later value once; the store grows by one only for a new key |
| `Store.Delete` | src/test/java/com/company/scm/repository/ProductRepositoryTest.java:106-125 | delete removes exactly the given key and keeps every other entry |
| `Store.DeleteMissingIsNoop` | src/test/java/com/company/scm/repository/ProductRepositoryTest.java:127-139 | deleting a missing key leaves the store equal to what it was; other keys are unaffected |
| `Inventory.ValidateIdentifiers` | src/main/java/com/company/scm/service/InventoryService.java:118-125 | passes exactly when neither identifier is blank; otherwise fails with InvalidArgument |
| `Inventory.ValidatePositiveQuantity` | src/main/java/com/company/scm/service/InventoryService.java:128-132 | passes exactly when the quantity is positive; otherwise fails with InvalidQuantity |
| `Inventory.Add` | src/main/java/com/company/scm/service/InventoryService.java:30-46 | a blank id gives InvalidArgument, checked before the quantity; otherwise a non-positive amount gives InvalidQuantity; a failure changes nothing; a success creates an unstocked pair with the amount or raises a stocked pair by exactly the amount; no other pair changes; stock stays non-negative |
| `Inventory.Remove` | src/main/java/com/company/scm/service/InventoryService.java:51-77 | the same two validation errors, in the same order; a pair with no record gives NotFound, never InsufficientStock; a record holding less than the amount gives InsufficientStock; a failure changes nothing; a success lowers the pair by exactly the amount, to a value of 0 or more, and changes nothing else |
| `Inventory.Transfer` | src/main/java/com/company/scm/service/InventoryService.java:97-113 | equal warehouses give InvalidArgument whatever the stock; a failed removal leaves both warehouses unchanged; success (exactly when the removal succeeds and the destination is not blank) lowers the source by n and raises the destination by n, so their sum is conserved; the only failure that changes stock is a blank destination, which leaves the stock as the removal left it |
| `Inventory.TransferBlankDestinationLosesStock` | src/main/java/com/company/scm/service/InventoryService.java:104-112 | with enough stock at the source and a blank destination, the transfer reports InvalidArgument, yet the source is down by n and the destination unchanged |
| `Inventory.TransferValidated` | src/main/java/com/company/scm/service/InventoryService.java:109-112 | corrected transfer: every failure leaves the stock unchanged; it succeeds exactly when the as-written transfer does, with the same result; for a non-blank destination it equals the as-written transfer |
| `Inventory.WrapInt` | src/main/java/com/company/scm/service/InventoryService.java:43 | the result lies in the 32-bit `int` range, differs from the input by a multiple of 2^32 (two's-complement wrap-around, not saturation), and equals the input when the input already lies in range |
| `Inventory.AddInt32` | src/main/java/com/company/scm/service/InventoryService.java:38-45 | add with the Java `int` sum: same outcome as Add; same stock as Add whenever the sum fits in 32 bits |
| `Inventory.AddInt32GoesNegative` | src/main/java/com/company/scm/service/InventoryService.java:43-45 | for a non-negative ledger and valid ids, an addition of a positive `int` whose sum passes Integer.MAX_VALUE succeeds. It stores the sum less 2^32, which is negative |
| `Inventory.RunBalances` | src/main/java/com/company/scm/service/InventoryService.java:30-77 | after any sequence of adds and removes on one pair, its quantity is the start plus the successful adds minus the successful removes; it stays non-negative; no other pair moves |
| `Inventory.InventoryService.constructor` | src/main/java/com/company/scm/service/InventoryService.java:20-25 | a ledger over an empty repository satisfies the non-negativity invariant |
| `Inventory.InventoryService.AddStockToWarehouse` | src/main/java/com/company/scm/service/InventoryService.java:30-46 | new repository and outcome are those of Add on the old repository; the invariant is kept |
| `Inventory.InventoryService.RemoveStockFromWarehouse` | src/main/java/com/company/scm/service/InventoryService.java:51-77 | new repository and outcome are those of Remove on the old repository; the invariant is kept |
| `Inventory.InventoryService.GetCurrentStockLevel` | src/main/java/com/company/scm/service/InventoryService.java:83-92 | fails with InvalidArgument exactly for a blank id; otherwise returns the stored quantity, or 0 without a record, never negative; changes nothing |
| `Inventory.InventoryService.TransferStockBetweenWarehouses` | src/main/java/com/company/scm/service/InventoryService.java:97-113 | new repository and outcome are those of Transfer on the old repository: the removal runs first and the addition only after it succeeded |
| `Ids.Hex` | src/main/java/com/company/scm/service/OrderService.java:279 | the spelling has exactly the requested length and consists of upper-case hexadecimal digits |
| `Ids.FreshId` | src/main/java/com/company/scm/service/OrderService.java:278-290 | the returned identifier is the tag followed by eight upper-case hex digits, and is not a key of the target store |
| `Orders.ValidateOrderParameters` | src/main/java/com/company/scm/service/OrderService.java:237-248 | passes exactly for a non-blank product, a non-blank customer and a positive quantity; otherwise InvalidArgument |
| `Orders.ValidateFulfillmentParameters` | src/main/java/com/company/scm/service/OrderService.java:251-261 | passes exactly when order id, warehouse and destination are all non-blank; otherwise InvalidArgument |
| `Orders.ValidatePurchaseOrderParameters` | src/main/java/com/company/scm/service/OrderService.java:264-275 | passes exactly for a non-blank product, a non-blank supplier and a positive quantity; otherwise InvalidArgument |
| `Orders.ShipmentCount` | src/main/java/com/company/scm/service/OrderService.java:123-145 | under the shipment invariant a FULFILLED order has exactly one shipment and any other order none |
| `Orders.CreatingKeepsConsistent` | src/main/java/com/company/scm/service/OrderService.java:99-103 | filing a new CREATED order under an unused id keeps the shipment invariant |
| `Orders.FulfillingKeepsConsistent` | src/main/java/com/company/scm/service/OrderService.java:136-143 | turning a CREATED order FULFILLED while filing one shipment for it under an unused id keeps the shipment invariant |
| `Orders.FulfillingKeepsWellFormed` | src/main/java/com/company/scm/service/OrderService.java:136-137 | changing an order's status keeps every order filed under its id with its validated fields |
| `Orders.OrderService.constructor` | src/main/java/com/company/scm/service/OrderService.java:43-76 | a workflow over the given ledger and catalogues, with empty order and shipment stores, satisfies the invariant |
| `Orders.OrderService.CreateCustomerSalesOrder` | src/main/java/com/company/scm/service/OrderService.java:81-105 | a blank product, customer or warehouse, or a quantity of 0 or less, gives InvalidArgument; otherwise stock below the quantity gives InsufficientStock; on failure no order is saved; on success exactly one order is saved, CREATED, with the given fields, under a fresh `SO-` id; stock is never touched |
| `Orders.OrderService.FulfillCustomerSalesOrder` | src/main/java/com/company/scm/service/OrderService.java:110-146 | errors: a blank argument gives InvalidArgument; an unknown order gives NotFound; an already FULFILLED order gives IllegalState; otherwise a missing inventory record gives NotFound and short stock gives InsufficientStock. After any error, stock, orders and shipments are unchanged. On success: the stock of the order's product at the warehouse drops by exactly the order quantity and nothing else moves; only that order turns FULFILLED; exactly one shipment under a fresh `SHP-` id references the order, warehouse and destination. The invariant is kept, so an order never gets a second shipment |
| `Orders.OrderService.RecordFulfilment` | src/main/java/com/company/scm/service/OrderService.java:136-143 | the second half of the fulfilment, run once the stock is deducted. Only the given order changes, and it turns FULFILLED. Exactly one shipment is filed, under a fresh `SHP-` id, referencing that order, the warehouse and the destination. The invariant is kept |
| `Orders.OrderService.CreateSupplierPurchaseOrder` | src/main/java/com/company/scm/service/OrderService.java:151-184 | invalid arguments give InvalidArgument; a missing product gives NotFound(product) even when the supplier is missing too; otherwise a missing supplier gives NotFound(supplier); on failure nothing is saved; on success exactly one order is saved with the given fields under a fresh `PO-` id |
| `Orders.OrderService.CreateSalesOrder` | src/main/java/com/company/scm/service/OrderService.java:193-207 | the order checks only, with no stock check; a failure (InvalidArgument) saves nothing; a success saves exactly one CREATED order under a fresh `SO-` id |
| `Orders.OrderService.CreatePurchaseOrder` | src/main/java/com/company/scm/service/OrderService.java:224-232 | as CreateSupplierPurchaseOrder, except that a missing product or supplier is reported as InvalidQuantity; InvalidArgument passes through unchanged |

## Findings

| source | as written | input that shows it | evidently intended | confidence | as-written member | corrected member |
|---|---|---|---|---|---|---|
| src/main/java/com/company/scm/service/InventoryService.java:43 | the new quantity is an unchecked 32-bit `int` sum | a record for (P1, W1) holding 2147483647; add 1 | stock is never negative | high; not executed | `Inventory.AddInt32GoesNegative` (about `Inventory.AddInt32`) | `Inventory.Add` (unbounded sum, non-negativity proved; used by the ledger class) |
| src/main/java/com/company/scm/service/InventoryService.java:104-112 | only source ≠ destination is checked before the removal; the destination id is validated only by the addition that follows it | W1 holds 10 of P1; transfer P1 from W1 to " " (blank) with amount 4 | per the comment at lines 109-110, a failed transfer changes neither warehouse | high; not executed | `Inventory.TransferBlankDestinationLosesStock` (about `Inventory.Transfer`) | `Inventory.TransferValidated` (every failure leaves the stock unchanged) |

The ledger class keeps the as-written transfer, so that the model matches the
code and shows the partial failure. `TransferValidated` is the corrected
definition and is proved atomic.

## Left out

- `Inventory.Add`: quantities are unbounded integers. The Java 32-bit wrap of the sum is modelled separately, in `AddInt32` (see Findings).
- Random identifiers are not modelled. The source builds a tag plus the first eight characters of a random UUID, upper-cased, and never checks it against the store. The model instead uses a deterministic generator that searches for an unused eight-digit suffix. The creators and the fulfilment therefore require that the target store holds fewer than 16^8 entries. The source, on a UUID collision, would silently overwrite an existing entry; the model cannot.
- Exception messages (`String.format` texts) are not modelled; only the error kind, and for NotFound the missing record type, is kept.
- `null` arguments and the constructor null checks cannot occur with Dafny references and strings.
- The legacy aliases `addStock`, `removeStock`, `getStockLevel`, `transferStock` and `fulfillSalesOrder` only forward, so they are not modelled separately.
- Repository classes, `findAll`, and the entity classes are not part of this model. Those classes are `InventoryItem`, `SalesOrder`, `PurchaseOrder`, `Shipment`, `Product` and `Supplier`.
- The `SalesOrder` constructor is taken to start an order in CREATED.
- The source changes a stored object in place (`setQuantity`, `setStatus`) and then saves it. The model replaces the map entry instead, so the sharing of one object between a caller and the repository is not captured.
- Both constructors start from empty order, shipment and inventory repositories. The source accepts repositories that may already hold data.
- Concurrency is not modelled. The read-then-write steps of the ledger and the check-then-create of sales orders are treated as sequential.
