/** The order workflow: sales orders checked against the ledger, fulfilment
    into a shipment, and purchase orders checked against the product and
    supplier catalogues. */
module Orders {
  import opened Errors
  import opened Store
  import Ids
  import Inventory

  datatype Status = Created | Fulfilled

  datatype SalesOrder = SalesOrder(id: string, productId: string, quantity: int, customer: string, status: Status)

  datatype PurchaseOrder = PurchaseOrder(id: string, supplierId: string, productId: string, quantity: int)

  datatype Shipment = Shipment(id: string, salesOrderId: string, warehouseId: string, destination: string)

  /** `validateOrderParameters` */
  function ValidateOrderParameters(productId: string, quantity: int, customer: string): (r: Outcome)
    ensures r.Done? <==> !Blank(productId) && !Blank(customer) && quantity > 0
    ensures r.Failed? ==> r.error == InvalidArgument
  {
    if Blank(productId) then Failed(InvalidArgument)
    else if Blank(customer) then Failed(InvalidArgument)
    else if quantity <= 0 then Failed(InvalidArgument)
    else Done
  }

  /** `validateFulfillmentParameters` */
  function ValidateFulfillmentParameters(orderId: string, warehouseId: string, destination: string): (r: Outcome)
    ensures r.Done? <==> !Blank(orderId) && !Blank(warehouseId) && !Blank(destination)
    ensures r.Failed? ==> r.error == InvalidArgument
  {
    if Blank(orderId) then Failed(InvalidArgument)
    else if Blank(warehouseId) then Failed(InvalidArgument)
    else if Blank(destination) then Failed(InvalidArgument)
    else Done
  }

  /** `validatePurchaseOrderParameters` */
  function ValidatePurchaseOrderParameters(productId: string, quantity: int, supplierId: string): (r: Outcome)
    ensures r.Done? <==> !Blank(productId) && !Blank(supplierId) && quantity > 0
    ensures r.Failed? ==> r.error == InvalidArgument
  {
    if Blank(productId) then Failed(InvalidArgument)
    else if Blank(supplierId) then Failed(InvalidArgument)
    else if quantity <= 0 then Failed(InvalidArgument)
    else Done
  }

  /** Keys of the shipments that reference the given sales order. */
  ghost function ShipmentsOf(shipments: map<string, Shipment>, orderId: string): set<string>
  {
    set k | k in shipments && shipments[k].salesOrderId == orderId
  }

  /** Every stored order is filed under its own id and passed the order checks. */
  ghost predicate WellFormedOrders(orders: map<string, SalesOrder>)
  {
    forall id | id in orders ::
      && orders[id].id == id
      && !Blank(orders[id].productId)
      && !Blank(orders[id].customer)
      && orders[id].quantity > 0
  }

  /** Shipments and orders agree: each shipment is filed under its id and
      references a FULFILLED order, no two shipments reference the same
      order, and each FULFILLED order has a shipment. */
  ghost predicate Consistent(orders: map<string, SalesOrder>, shipments: map<string, Shipment>)
  {
    && (forall k | k in shipments ::
          && shipments[k].id == k
          && shipments[k].salesOrderId in orders
          && orders[shipments[k].salesOrderId].status == Fulfilled)
    && (forall k, j | k in shipments && j in shipments && k != j ::
          shipments[k].salesOrderId != shipments[j].salesOrderId)
    && (forall id | id in orders && orders[id].status == Fulfilled ::
          exists k | k in shipments :: shipments[k].salesOrderId == id)
  }

  /** Under Consistent, an order has exactly one shipment if it is FULFILLED
      and none otherwise; in particular no order ever has two. */
  lemma ShipmentCount(orders: map<string, SalesOrder>, shipments: map<string, Shipment>, id: string)
    requires Consistent(orders, shipments)
    ensures |ShipmentsOf(shipments, id)| == if id in orders && orders[id].status == Fulfilled then 1 else 0
  {
    if id in orders && orders[id].status == Fulfilled {
      var k :| k in shipments && shipments[k].salesOrderId == id;
      assert ShipmentsOf(shipments, id) == {k};
    } else {
      if k :| k in ShipmentsOf(shipments, id) {
        assert false;
      }
      assert ShipmentsOf(shipments, id) == {};
    }
  }

  /** Filing a new CREATED order under a fresh id keeps Consistent. */
  lemma CreatingKeepsConsistent(orders: map<string, SalesOrder>, shipments: map<string, Shipment>, o: SalesOrder)
    requires Consistent(orders, shipments)
    requires o.id !in orders && o.status == Created
    ensures Consistent(orders[o.id := o], shipments)
  {
  }

  /** Marking a CREATED order FULFILLED while filing one shipment for it under
      a fresh id keeps Consistent. */
  lemma FulfillingKeepsConsistent(orders: map<string, SalesOrder>, shipments: map<string, Shipment>,
                                  id: string, sh: Shipment)
    requires Consistent(orders, shipments)
    requires id in orders && orders[id].status == Created
    requires sh.id !in shipments && sh.salesOrderId == id
    ensures Consistent(orders[id := orders[id].(status := Fulfilled)], shipments[sh.id := sh])
  {
    var orders', shipments' := orders[id := orders[id].(status := Fulfilled)], shipments[sh.id := sh];
    forall other | other in orders' && orders'[other].status == Fulfilled
      ensures exists k | k in shipments' :: shipments'[k].salesOrderId == other
    {
      if other == id {
        assert shipments'[sh.id].salesOrderId == other;
      } else {
        var k :| k in shipments && shipments[k].salesOrderId == other;
        assert shipments'[k].salesOrderId == other;
      }
    }
  }

  /** Changing an order's status keeps the orders well formed. */
  lemma FulfillingKeepsWellFormed(orders: map<string, SalesOrder>, id: string)
    requires WellFormedOrders(orders) && id in orders
    ensures WellFormedOrders(orders[id := orders[id].(status := Fulfilled)])
  {
  }

  /** How the stock deduction decides a fulfilment of order `o` from
      warehouse `w`: NotFound without a record, InsufficientStock below the
      order quantity, success otherwise. */
  predicate StockOutcome(o: SalesOrder, w: string, stock: Inventory.Stock, r: Result<Shipment>)
  {
    && ((o.productId, w) !in stock ==> r == Err(NotFound(InventoryRecord)))
    && ((o.productId, w) in stock && stock[(o.productId, w)] < o.quantity ==> r == Err(InsufficientStock))
    && ((o.productId, w) in stock && stock[(o.productId, w)] >= o.quantity ==> r.Ok?)
  }

  /** A successful fulfilment of order `o`, filed under `id`, from warehouse
      `w`: the stock of the order's product at `w` drops by exactly the order
      quantity and nothing else in the inventory moves; the order alone turns
      FULFILLED; exactly one new shipment, under a fresh SHP- id, references
      the order, the warehouse and the destination. */
  ghost predicate Shipped(id: string, o: SalesOrder, w: string, destination: string, sh: Shipment,
                          stock: Inventory.Stock, stock': Inventory.Stock,
                          orders: map<string, SalesOrder>, orders': map<string, SalesOrder>,
                          shipments: map<string, Shipment>, shipments': map<string, Shipment>)
  {
    var key := (o.productId, w);
    && key in stock && key in stock'
    && stock'[key] == stock[key] - o.quantity
    && Inventory.Untouched(stock, stock', key)
    && orders' == orders[id := o.(status := Fulfilled)]
    && sh == Shipment(sh.id, id, w, destination)
    && sh.id !in shipments && Ids.IsGeneratedId("SHP-", sh.id)
    && shipments' == shipments[sh.id := sh]
  }

  /** The order workflow. Its repositories are map fields; the catalogues are
      sets of known identifiers. */
  class OrderService {
    const inventory: Inventory.InventoryService
    var salesOrders: map<string, SalesOrder>
    var purchaseOrders: map<string, PurchaseOrder>
    var shipments: map<string, Shipment>
    var products: set<string>
    var suppliers: set<string>

    ghost predicate Valid()
      reads this, inventory
    {
      && inventory.Valid()
      && WellFormedOrders(salesOrders)
      && Consistent(salesOrders, shipments)
      && (forall id | id in purchaseOrders :: purchaseOrders[id].id == id)
    }

    /** A workflow over empty order and shipment repositories. */
    constructor (inventory: Inventory.InventoryService, products: set<string>, suppliers: set<string>)
      requires inventory.Valid()
      ensures Valid()
      ensures this.inventory == inventory && this.products == products && this.suppliers == suppliers
      ensures salesOrders == map[] && purchaseOrders == map[] && shipments == map[]
    {
      this.inventory := inventory;
      this.products := products;
      this.suppliers := suppliers;
      salesOrders := map[];
      purchaseOrders := map[];
      shipments := map[];
    }

    /** `createCustomerSalesOrder`: files a CREATED order only when the
        warehouse holds at least the requested quantity. Never touches stock. */
    method CreateCustomerSalesOrder(productId: string, quantity: int, customer: string, warehouseId: string)
      returns (r: Result<SalesOrder>)
      requires Valid()
      requires |salesOrders| < Ids.Capacity
      modifies this`salesOrders
      ensures Valid()
      ensures r == Err(InvalidArgument) <==>
        Blank(productId) || Blank(customer) || quantity <= 0 || Blank(warehouseId)
      ensures r == Err(InsufficientStock) <==>
        && !Blank(productId) && !Blank(customer) && quantity > 0 && !Blank(warehouseId)
        && Inventory.Held(inventory.items, productId, warehouseId) < quantity
      ensures r.Ok? || r == Err(InvalidArgument) || r == Err(InsufficientStock)
      ensures r.Err? ==> salesOrders == old(salesOrders)
      ensures r.Ok? ==>
        && r.value == SalesOrder(r.value.id, productId, quantity, customer, Created)
        && r.value.id !in old(salesOrders) && Ids.IsGeneratedId("SO-", r.value.id)
        && salesOrders == old(salesOrders)[r.value.id := r.value]
    {
      var checked := ValidateOrderParameters(productId, quantity, customer);
      if checked.Failed? { return Err(checked.error); }
      var available := inventory.GetCurrentStockLevel(productId, warehouseId);
      if available.Err? { return Err(available.error); }
      if available.value < quantity { return Err(InsufficientStock); }
      var id := Ids.FreshId("SO-", salesOrders.Keys);
      var order := SalesOrder(id, productId, quantity, customer, Created);
      CreatingKeepsConsistent(salesOrders, shipments, order);
      salesOrders := Save(salesOrders, id, order);
      r := Ok(order);
    }

    /** `fulfillCustomerSalesOrder`: deducts the order's quantity at the
        warehouse, marks the order FULFILLED and files one shipment for it.
        Every failure leaves stock, orders and shipments as they were. */
    method FulfillCustomerSalesOrder(orderId: string, warehouseId: string, destination: string)
      returns (r: Result<Shipment>)
      requires Valid()
      requires |shipments| < Ids.Capacity
      modifies this`salesOrders, this`shipments, inventory
      ensures Valid()
      ensures Blank(orderId) || Blank(warehouseId) || Blank(destination) ==> r == Err(InvalidArgument)
      ensures !Blank(orderId) && !Blank(warehouseId) && !Blank(destination) ==>
        && (orderId !in old(salesOrders) ==> r == Err(NotFound(SalesOrderRecord)))
        && (orderId in old(salesOrders) && old(salesOrders)[orderId].status == Fulfilled ==>
              r == Err(IllegalState))
        && (orderId in old(salesOrders) && old(salesOrders)[orderId].status == Created ==>
              StockOutcome(old(salesOrders)[orderId], warehouseId, old(inventory.items), r))
      ensures r.Err? ==>
        && salesOrders == old(salesOrders)
        && shipments == old(shipments)
        && inventory.items == old(inventory.items)
      ensures r.Ok? ==>
        && orderId in old(salesOrders) && old(salesOrders)[orderId].status == Created
        && Shipped(orderId, old(salesOrders)[orderId], warehouseId, destination, r.value,
                   old(inventory.items), inventory.items,
                   old(salesOrders), salesOrders, old(shipments), shipments)
    {
      var checked := ValidateFulfillmentParameters(orderId, warehouseId, destination);
      if checked.Failed? { return Err(checked.error); }
      var found := Find(salesOrders, orderId);
      if found.None? { return Err(NotFound(SalesOrderRecord)); }
      var order := found.value;
      if order.status == Fulfilled { return Err(IllegalState); }

      ghost var stock := inventory.items;
      var removed := inventory.RemoveStockFromWarehouse(order.productId, warehouseId, order.quantity);
      assert Inventory.Effect(inventory.items, removed) == Inventory.Remove(stock, order.productId, warehouseId, order.quantity);
      if removed.Failed? { return Err(removed.error); }

      var shipment := RecordFulfilment(orderId, warehouseId, destination);
      r := Ok(shipment);
    }

    /** The bookkeeping half of the fulfilment, once the stock is deducted:
        the order turns FULFILLED and one shipment under a fresh SHP- id is
        filed for it. */
    method RecordFulfilment(orderId: string, warehouseId: string, destination: string)
      returns (shipment: Shipment)
      requires Valid()
      requires |shipments| < Ids.Capacity
      requires orderId in salesOrders && salesOrders[orderId].status == Created
      modifies this`salesOrders, this`shipments
      ensures Valid()
      ensures salesOrders == old(salesOrders)[orderId := old(salesOrders)[orderId].(status := Fulfilled)]
      ensures shipment == Shipment(shipment.id, orderId, warehouseId, destination)
      ensures shipment.id !in old(shipments) && Ids.IsGeneratedId("SHP-", shipment.id)
      ensures shipments == old(shipments)[shipment.id := shipment]
    {
      var order := salesOrders[orderId];
      FulfillingKeepsWellFormed(salesOrders, orderId);
      order := order.(status := Fulfilled);
      var shipmentId := Ids.FreshId("SHP-", shipments.Keys);
      shipment := Shipment(shipmentId, orderId, warehouseId, destination);
      FulfillingKeepsConsistent(salesOrders, shipments, orderId, shipment);
      ghost var orders', shipments' := Save(salesOrders, orderId, order), Save(shipments, shipmentId, shipment);
      assert WellFormedOrders(orders') && Consistent(orders', shipments');
      salesOrders := Save(salesOrders, orderId, order);
      shipments := Save(shipments, shipmentId, shipment);
    }

    /** `createSupplierPurchaseOrder`: the product must be catalogued, then the
        supplier; files the order under a fresh id. */
    method CreateSupplierPurchaseOrder(productId: string, quantity: int, supplierId: string)
      returns (r: Result<PurchaseOrder>)
      requires Valid()
      requires |purchaseOrders| < Ids.Capacity
      modifies this`purchaseOrders
      ensures Valid()
      ensures r == Err(InvalidArgument) <==> Blank(productId) || Blank(supplierId) || quantity <= 0
      ensures r == Err(NotFound(ProductRecord)) <==>
        !Blank(productId) && !Blank(supplierId) && quantity > 0 && productId !in products
      ensures r == Err(NotFound(SupplierRecord)) <==>
        !Blank(productId) && !Blank(supplierId) && quantity > 0 && productId in products
        && supplierId !in suppliers
      ensures r.Ok? || r == Err(InvalidArgument) || r == Err(NotFound(ProductRecord))
        || r == Err(NotFound(SupplierRecord))
      ensures r.Err? ==> purchaseOrders == old(purchaseOrders)
      ensures r.Ok? ==>
        && r.value == PurchaseOrder(r.value.id, supplierId, productId, quantity)
        && r.value.id !in old(purchaseOrders) && Ids.IsGeneratedId("PO-", r.value.id)
        && purchaseOrders == old(purchaseOrders)[r.value.id := r.value]
    {
      var checked := ValidatePurchaseOrderParameters(productId, quantity, supplierId);
      if checked.Failed? { return Err(checked.error); }
      if productId !in products { return Err(NotFound(ProductRecord)); }
      if supplierId !in suppliers { return Err(NotFound(SupplierRecord)); }
      var id := Ids.FreshId("PO-", purchaseOrders.Keys);
      var order := PurchaseOrder(id, supplierId, productId, quantity);
      purchaseOrders := Save(purchaseOrders, id, order);
      r := Ok(order);
    }

    /** Legacy `createSalesOrder`: the order checks only, no stock check. */
    method CreateSalesOrder(productId: string, quantity: int, customer: string)
      returns (r: Result<SalesOrder>)
      requires Valid()
      requires |salesOrders| < Ids.Capacity
      modifies this`salesOrders
      ensures Valid()
      ensures r.Err? <==> Blank(productId) || Blank(customer) || quantity <= 0
      ensures r.Err? ==> r.error == InvalidArgument && salesOrders == old(salesOrders)
      ensures r.Ok? ==>
        && r.value == SalesOrder(r.value.id, productId, quantity, customer, Created)
        && r.value.id !in old(salesOrders) && Ids.IsGeneratedId("SO-", r.value.id)
        && salesOrders == old(salesOrders)[r.value.id := r.value]
    {
      var checked := ValidateOrderParameters(productId, quantity, customer);
      if checked.Failed? { return Err(checked.error); }
      var id := Ids.FreshId("SO-", salesOrders.Keys);
      var order := SalesOrder(id, productId, quantity, customer, Created);
      CreatingKeepsConsistent(salesOrders, shipments, order);
      salesOrders := Save(salesOrders, id, order);
      r := Ok(order);
    }

    /** Legacy `createPurchaseOrder`: forwards with the arguments reordered and
        reports a missing product or supplier as InvalidQuantity. */
    method CreatePurchaseOrder(supplierId: string, productId: string, quantity: int)
      returns (r: Result<PurchaseOrder>)
      requires Valid()
      requires |purchaseOrders| < Ids.Capacity
      modifies this`purchaseOrders
      ensures Valid()
      ensures r == Err(InvalidArgument) <==> Blank(productId) || Blank(supplierId) || quantity <= 0
      ensures r == Err(InvalidQuantity) <==>
        && !Blank(productId) && !Blank(supplierId) && quantity > 0
        && (productId !in products || supplierId !in suppliers)
      ensures r.Ok? || r == Err(InvalidArgument) || r == Err(InvalidQuantity)
      ensures r.Err? ==> purchaseOrders == old(purchaseOrders)
      ensures r.Ok? ==>
        && r.value == PurchaseOrder(r.value.id, supplierId, productId, quantity)
        && r.value.id !in old(purchaseOrders) && Ids.IsGeneratedId("PO-", r.value.id)
        && purchaseOrders == old(purchaseOrders)[r.value.id := r.value]
    {
      r := CreateSupplierPurchaseOrder(productId, quantity, supplierId);
      if r.Err? && r.error.NotFound? {
        r := Err(InvalidQuantity);
      }
    }
  }

  lemma ExampleNamesNotBlank()
    ensures !Blank("P1") && !Blank("W1") && !Blank("cust") && !Blank("addr")
  {
    assert "P1"[0] == 'P' && "W1"[0] == 'W' && "cust"[0] == 'c' && "addr"[0] == 'a';
  }

  /** First half of a worked scenario: 50 units of P1 arrive at W1 and 30
      leave again. */
  method StockedLedger() returns (ledger: Inventory.InventoryService)
    ensures fresh(ledger) && ledger.Valid()
    ensures ledger.items == map[("P1", "W1") := 20]
  {
    ExampleNamesNotBlank();
    ledger := new Inventory.InventoryService();
    var added := ledger.AddStockToWarehouse("P1", "W1", 50);
    assert added == Done && ledger.items == map[("P1", "W1") := 50];
    var removed := ledger.RemoveStockFromWarehouse("P1", "W1", 30);
    assert removed == Done;
  }

  /** A worked scenario of the ledger and the workflow: 50 units of P1 at W1,
      30 removed, an order for 25 refused, one for 15 accepted and fulfilled,
      leaving 5; a second fulfilment is refused and files nothing. */
  method FulfilmentWalkthrough()
  {
    ExampleNamesNotBlank();
    var ledger := StockedLedger();
    var service := new OrderService(ledger, {"P1"}, {});
    var refused := service.CreateCustomerSalesOrder("P1", 25, "cust", "W1");
    assert refused == Err(InsufficientStock);
    assert service.salesOrders == map[];

    var accepted := service.CreateCustomerSalesOrder("P1", 15, "cust", "W1");
    assert accepted.Ok? && accepted.value.status == Created;
    var id := accepted.value.id;
    assert "SO-"[0] == 'S';
    assert id[0] == 'S';

    var shipped := service.FulfillCustomerSalesOrder(id, "W1", "addr");
    assert shipped.Ok?;
    assert ledger.items[("P1", "W1")] == 5;
    assert service.salesOrders[id].status == Fulfilled;
    assert shipped.value.salesOrderId == id;

    var again := service.FulfillCustomerSalesOrder(id, "W1", "addr");
    assert again == Err(IllegalState);
    assert service.shipments == map[shipped.value.id := shipped.value];
  }
}
