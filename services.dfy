/**
 * The stock-replenishment workflow of DbService: existence checks, order
 * matching, the double-fulfilment guard, the order update, the price
 * computation and the movement insert, run as one transaction that either
 * commits every change or rolls the store back to its state at the start.
 */
module Services {
  import opened Wrappers
  import opened Model

  /** The largest value of a 32-bit signed int: the widest identity value the insert can return. */
  const Int32Max: int := 0x7FFF_FFFF

  /**
   * The message of the failed insert when the identity counter runs past
   * Int32Max. The schema is not part of this model; an int IDENTITY column,
   * and this message for it, are assumed.
   */
  const IdentityOverflow: string := "Arithmetic overflow error converting IDENTITY to data type int."

  /** decimal.MaxValue. Prices are hundredths, so a total above DecimalMax * 100 hundredths overflows. */
  const DecimalMax: int := 79_228_162_514_264_337_593_543_950_335

  /** The message of the OverflowException that decimal multiplication throws. */
  const DecimalOverflow: string := "Value was either too large or too small for a Decimal."

  /** A total price, in hundredths, that decimal arithmetic can hold. */
  predicate InDecimalRange(hundredths: int) {
    -DecimalMax * 100 <= hundredths <= DecimalMax * 100
  }

  /**
   * The range of SQL datetime, to which the DateTime parameter @createdAt is
   * converted: 1753-01-01 00:00:00 to 9999-12-31 23:59:59.997, in ticks.
   */
  const SqlDateTimeMin: int := 552_877_920_000_000_000
  const SqlDateTimeMax: int := 3_155_378_975_999_970_000

  /** The message of the exception a DateTime parameter outside that range raises. */
  const SqlDateTimeOverflow: string :=
    "SqlDateTime overflow. Must be between 1/1/1753 12:00:00 AM and 12/31/9999 11:59:59 PM."

  /** A timestamp the datetime parameter of the order query can carry. */
  predicate InSqlDateTimeRange(t: int) {
    SqlDateTimeMin <= t <= SqlDateTimeMax
  }

  /**
   * The ways the workflow fails; each one aborts and rolls back the
   * transaction. StoreFailure stands for any other exception raised inside
   * the transaction: the database's own errors and the OverflowException of
   * the decimal price multiplication alike, with the exception's message.
   */
  datatype Error =
    | ProductNotFound
    | WarehouseNotFound
    | NoValidOrder
    | OrderAlreadyFulfilled
    | StoreFailure(reason: string)

  /** The message of the exception the workflow throws for each error. */
  function Message(e: Error): string {
    match e
    case ProductNotFound => "Product not found"
    case WarehouseNotFound => "Warehouse not found"
    case NoValidOrder => "No valid order found"
    case OrderAlreadyFulfilled => "Order already fulfilled"
    case StoreFailure(reason) => reason
  }

  lemma MessagesDistinct(e1: Error, e2: Error)
    requires !e1.StoreFailure? && !e2.StoreFailure?
    ensures Message(e1) == Message(e2) <==> e1 == e2
  {
  }

  /** The tables RecordExists is asked about. */
  datatype Table = ProductTable | WarehouseTable

  // ---------------------------------------------------------------------------
  // Read-only queries
  // ---------------------------------------------------------------------------

  /** SELECT 1 FROM table WHERE id column = id returns a row. */
  function RecordExists(s: Store, table: Table, id: int): (b: bool)
    ensures table == ProductTable ==> (b <==> id in s.products)
    ensures table == WarehouseTable ==> (b <==> id in s.warehouses)
  {
    match table
    case ProductTable => id in s.products
    case WarehouseTable => id in s.warehouses
  }

  /** The WHERE clause of FindValidOrder: same product, exact amount, created strictly earlier, still open. */
  predicate IsValidOrder(o: Order, productId: int, amount: int, createdAt: int) {
    o.productId == productId && o.amount == amount && o.createdAt < createdAt && o.fulfilledAt.None?
  }

  /**
   * SELECT TOP 1 over [Order] with the IsValidOrder filter. The query has no
   * ORDER BY; the model returns the first matching row in table order, as its
   * position in the table.
   */
  function FindValidOrder(orders: seq<Order>, productId: int, amount: int, createdAt: int): (r: Option<nat>)
    ensures r.Some? ==> r.value < |orders| && IsValidOrder(orders[r.value], productId, amount, createdAt)
    ensures r.Some? ==> forall j :: 0 <= j < r.value ==> !IsValidOrder(orders[j], productId, amount, createdAt)
    ensures r.None? <==> forall j :: 0 <= j < |orders| ==> !IsValidOrder(orders[j], productId, amount, createdAt)
    decreases |orders|
  {
    if |orders| == 0 then None
    else if IsValidOrder(orders[0], productId, amount, createdAt) then Some(0)
    else match FindValidOrder(orders[1..], productId, amount, createdAt)
      case None => None
      case Some(k) => Some(k + 1)
  }

  /** SELECT 1 FROM Product_Warehouse WHERE IdOrder = orderId returns a row. */
  function OrderFulfilled(rows: seq<ProductWarehouse>, orderId: int): (b: bool)
    ensures b <==> exists i :: 0 <= i < |rows| && rows[i].orderId == orderId
    decreases |rows|
  {
    if |rows| == 0 then false
    else rows[|rows| - 1].orderId == orderId || OrderFulfilled(rows[..|rows| - 1], orderId)
  }

  /** SELECT Price FROM Product WHERE IdProduct = productId. */
  function GetProductPrice(s: Store, productId: int): int
    requires productId in s.products
  {
    s.products[productId]
  }

  // ---------------------------------------------------------------------------
  // The effect of the two writes, on values
  // ---------------------------------------------------------------------------

  /** [Order] after UPDATE ... SET FulfilledAt = now WHERE IdOrder = orderId. */
  function SetFulfilledAt(orders: seq<Order>, orderId: int, now: int): (r: seq<Order>)
    ensures |r| == |orders|
    ensures forall i :: 0 <= i < |orders| && orders[i].id == orderId ==>
              r[i] == orders[i].(fulfilledAt := Some(now))
    ensures forall i :: 0 <= i < |orders| && orders[i].id != orderId ==> r[i] == orders[i]
    decreases |orders|
  {
    if |orders| == 0 then []
    else
      var head := if orders[0].id == orderId then orders[0].(fulfilledAt := Some(now)) else orders[0];
      [head] + SetFulfilledAt(orders[1..], orderId, now)
  }

  /** The result of the workflow and the store it leaves behind. */
  datatype Outcome = Outcome(result: Result<int, Error>, store: Store)

  /**
   * AddProductToWarehouseAsync as a function of the store before the call:
   * the steps in the source's order, where the first failing one decides the
   * error and any error returns the initial store (the rollback). `now` is the
   * database clock both GETDATE() calls read.
   */
  function Fulfill(s: Store, productId: int, warehouseId: int, amount: int, createdAt: int, now: int): Outcome
  {
    if !RecordExists(s, ProductTable, productId) then Outcome(Err(ProductNotFound), s)
    else if !RecordExists(s, WarehouseTable, warehouseId) then Outcome(Err(WarehouseNotFound), s)
    else if !InSqlDateTimeRange(createdAt) then Outcome(Err(StoreFailure(SqlDateTimeOverflow)), s)
    else match FindValidOrder(s.orders, productId, amount, createdAt)
      case None => Outcome(Err(NoValidOrder), s)
      case Some(k) =>
        var orderId := s.orders[k].id;
        if OrderFulfilled(s.productWarehouse, orderId) then Outcome(Err(OrderAlreadyFulfilled), s)
        else Record(s, productId, warehouseId, orderId, amount, now)
  }

  /**
   * The write phase of the workflow, once an unreferenced order was selected:
   * the order update, the price computation and the insert, or the initial
   * store when the price or the new id is out of range.
   */
  function Record(s: Store, productId: int, warehouseId: int, orderId: int, amount: int, now: int): Outcome
    requires productId in s.products
  {
    var price := GetProductPrice(s, productId) * amount;
    if !InDecimalRange(price) then Outcome(Err(StoreFailure(DecimalOverflow)), s)
    else if s.nextId > Int32Max then Outcome(Err(StoreFailure(IdentityOverflow)), s)
    else
      var row := ProductWarehouse(s.nextId, warehouseId, productId, orderId, amount, price, now);
      Outcome(Ok(s.nextId), s.(orders := SetFulfilledAt(s.orders, orderId, now),
                               productWarehouse := s.productWarehouse + [row],
                               nextId := s.nextId + 1))
  }

  // ---------------------------------------------------------------------------
  // The transactional service
  // ---------------------------------------------------------------------------

  /** The service and the tables of the store it works on. */
  class DbService {
    var products: map<int, int>
    var warehouses: set<int>
    var orders: seq<Order>
    var productWarehouse: seq<ProductWarehouse>
    var nextId: int

    /** The current contents of the store. */
    function State(): Store
      reads this
    {
      Store(products, warehouses, orders, productWarehouse, nextId)
    }

    ghost predicate Valid()
      reads this
    {
      StoreValid(State())
    }

    constructor (s: Store)
      requires StoreValid(s)
      ensures Valid() && State() == s
    {
      products, warehouses, orders := s.products, s.warehouses, s.orders;
      productWarehouse, nextId := s.productWarehouse, s.nextId;
    }

    /** Sets FulfilledAt of the order rows with IdOrder = orderId to now. */
    method UpdateOrder(orderId: int, now: int)
      requires Valid()
      modifies this`orders
      ensures Valid()
      ensures orders == SetFulfilledAt(old(orders), orderId, now)
    {
      var updated := SetFulfilledAt(orders, orderId, now);
      assert forall i :: 0 <= i < |orders| ==> updated[i].id == orders[i].id;
      orders := updated;
    }

    /**
     * Inserts one Product_Warehouse row and returns the identity value it
     * received; fails, inserting nothing, when that value exceeds Int32Max.
     */
    method InsertProductWarehouse(productId: int, warehouseId: int, orderId: int, amount: int, price: int, now: int)
      returns (r: Result<int, Error>)
      requires Valid()
      modifies this`productWarehouse, this`nextId
      ensures Valid()
      ensures old(nextId) > Int32Max ==>
                r == Err(StoreFailure(IdentityOverflow)) && productWarehouse == old(productWarehouse) && nextId == old(nextId)
      ensures old(nextId) <= Int32Max ==>
                && r == Ok(old(nextId))
                && productWarehouse == old(productWarehouse)
                     + [ProductWarehouse(old(nextId), warehouseId, productId, orderId, amount, price, now)]
                && nextId == old(nextId) + 1
    {
      if nextId > Int32Max {
        r := Err(StoreFailure(IdentityOverflow));
        return;
      }
      productWarehouse := productWarehouse + [ProductWarehouse(nextId, warehouseId, productId, orderId, amount, price, now)];
      r := Ok(nextId);
      nextId := nextId + 1;
    }

    /** Undoes every change made since the snapshot was taken. */
    method Rollback(snapshot: Store)
      requires StoreValid(snapshot)
      modifies this
      ensures Valid()
      ensures State() == snapshot
    {
      products, warehouses, orders := snapshot.products, snapshot.warehouses, snapshot.orders;
      productWarehouse, nextId := snapshot.productWarehouse, snapshot.nextId;
    }

    /**
     * AddProductToWarehouseAsync: the workflow inside one transaction. The
     * snapshot is taken when the transaction begins; each failure rolls back
     * to it before the error is returned.
     */
    method AddProductToWarehouse(productId: int, warehouseId: int, amount: int, createdAt: int, now: int)
      returns (r: Result<int, Error>)
      requires Valid()
      modifies this
      ensures Valid()
      ensures r == Fulfill(old(State()), productId, warehouseId, amount, createdAt, now).result
      ensures State() == Fulfill(old(State()), productId, warehouseId, amount, createdAt, now).store
    {
      var snapshot := State();
      if !RecordExists(State(), ProductTable, productId) {
        Rollback(snapshot);
        return Err(ProductNotFound);
      }
      if !RecordExists(State(), WarehouseTable, warehouseId) {
        Rollback(snapshot);
        return Err(WarehouseNotFound);
      }
      if !InSqlDateTimeRange(createdAt) {
        Rollback(snapshot);
        return Err(StoreFailure(SqlDateTimeOverflow));
      }
      var found := FindValidOrder(orders, productId, amount, createdAt);
      if found.None? {
        Rollback(snapshot);
        return Err(NoValidOrder);
      }
      var orderId := orders[found.value].id;
      if OrderFulfilled(productWarehouse, orderId) {
        Rollback(snapshot);
        return Err(OrderAlreadyFulfilled);
      }
      assert Fulfill(snapshot, productId, warehouseId, amount, createdAt, now)
          == Record(snapshot, productId, warehouseId, orderId, amount, now);
      UpdateOrder(orderId, now);
      var price := GetProductPrice(State(), productId) * amount;
      if !InDecimalRange(price) {
        Rollback(snapshot);
        return Err(StoreFailure(DecimalOverflow));
      }
      ghost var updated := State();
      r := InsertProductWarehouse(productId, warehouseId, orderId, amount, price, now);
      if r.Err? {
        Rollback(snapshot);
        return;
      }
      assert State() == updated.(productWarehouse := snapshot.productWarehouse
                                   + [ProductWarehouse(snapshot.nextId, warehouseId, productId, orderId, amount, price, now)],
                                 nextId := snapshot.nextId + 1);
    }
  }

  // ---------------------------------------------------------------------------
  // Properties of the workflow
  // ---------------------------------------------------------------------------

  /** The store a successful call leaves, written out. */
  lemma SuccessStore(s: Store, productId: int, warehouseId: int, amount: int, createdAt: int, now: int)
    requires Fulfill(s, productId, warehouseId, amount, createdAt, now).result.Ok?
    ensures FindValidOrder(s.orders, productId, amount, createdAt).Some? && productId in s.products
    ensures var orderId := s.orders[FindValidOrder(s.orders, productId, amount, createdAt).value].id;
      Fulfill(s, productId, warehouseId, amount, createdAt, now)
      == Outcome(Ok(s.nextId),
                 s.(orders := SetFulfilledAt(s.orders, orderId, now),
                    productWarehouse := s.productWarehouse
                      + [ProductWarehouse(s.nextId, warehouseId, productId, orderId, amount, s.products[productId] * amount, now)],
                    nextId := s.nextId + 1))
  {
    var orderId := s.orders[FindValidOrder(s.orders, productId, amount, createdAt).value].id;
    assert Fulfill(s, productId, warehouseId, amount, createdAt, now)
        == Record(s, productId, warehouseId, orderId, amount, now);
  }

  /** A missing product fails first, with the store untouched. */
  lemma ProductMissing(s: Store, productId: int, warehouseId: int, amount: int, createdAt: int, now: int)
    ensures var o := Fulfill(s, productId, warehouseId, amount, createdAt, now);
      (o.result == Err(ProductNotFound) <==> productId !in s.products)
      && (productId !in s.products ==> o.store == s)
  {
  }

  /** The warehouse is checked only once the product exists. */
  lemma WarehouseMissing(s: Store, productId: int, warehouseId: int, amount: int, createdAt: int, now: int)
    ensures var o := Fulfill(s, productId, warehouseId, amount, createdAt, now);
      (o.result == Err(WarehouseNotFound) <==> productId in s.products && warehouseId !in s.warehouses)
      && (o.result == Err(WarehouseNotFound) ==> o.store == s)
  {
  }

  /** No open order matching product, exact amount and an earlier creation time: NoValidOrder, nothing written. */
  lemma NoMatchingOrder(s: Store, productId: int, warehouseId: int, amount: int, createdAt: int, now: int)
    ensures var o := Fulfill(s, productId, warehouseId, amount, createdAt, now);
      (o.result == Err(NoValidOrder) <==>
         && productId in s.products && warehouseId in s.warehouses && InSqlDateTimeRange(createdAt)
         && forall i :: 0 <= i < |s.orders| ==> !IsValidOrder(s.orders[i], productId, amount, createdAt))
      && (o.result == Err(NoValidOrder) ==> o.store == s)
  {
  }

  /** A movement already referencing the selected order: OrderAlreadyFulfilled, nothing written. */
  lemma AlreadyFulfilledGuard(s: Store, productId: int, warehouseId: int, amount: int, createdAt: int, now: int)
    ensures var o := Fulfill(s, productId, warehouseId, amount, createdAt, now);
      var found := FindValidOrder(s.orders, productId, amount, createdAt);
      (o.result == Err(OrderAlreadyFulfilled) <==>
         && productId in s.products && warehouseId in s.warehouses && InSqlDateTimeRange(createdAt) && found.Some?
         && exists m :: 0 <= m < |s.productWarehouse| && s.productWarehouse[m].orderId == s.orders[found.value].id)
      && (o.result == Err(OrderAlreadyFulfilled) ==> o.store == s)
  {
  }

  /** Every failure, whichever step raised it, leaves the store exactly as it was. */
  lemma FailureRollsBack(s: Store, productId: int, warehouseId: int, amount: int, createdAt: int, now: int)
    ensures var o := Fulfill(s, productId, warehouseId, amount, createdAt, now);
      o.result.Err? ==> o.store == s
  {
  }

  /** The call succeeds exactly when every step passes. */
  lemma SuccessCondition(s: Store, productId: int, warehouseId: int, amount: int, createdAt: int, now: int)
    ensures var o := Fulfill(s, productId, warehouseId, amount, createdAt, now);
      var found := FindValidOrder(s.orders, productId, amount, createdAt);
      o.result.Ok? <==>
        && productId in s.products && warehouseId in s.warehouses && InSqlDateTimeRange(createdAt) && found.Some?
        && !OrderFulfilled(s.productWarehouse, s.orders[found.value].id)
        && InDecimalRange(s.products[productId] * amount)
        && s.nextId <= Int32Max
  {
  }

  /**
   * A @createdAt outside the SQL datetime range fails the order query, and a
   * total beyond the decimal range fails the price computation after the
   * order was updated; both leave the store as it was.
   */
  lemma RangeFailures(s: Store, productId: int, warehouseId: int, amount: int, createdAt: int, now: int)
    ensures var o := Fulfill(s, productId, warehouseId, amount, createdAt, now);
      var found := FindValidOrder(s.orders, productId, amount, createdAt);
      && (o.result == Err(StoreFailure(SqlDateTimeOverflow)) <==>
            productId in s.products && warehouseId in s.warehouses && !InSqlDateTimeRange(createdAt))
      && (o.result == Err(StoreFailure(DecimalOverflow)) <==>
            && productId in s.products && warehouseId in s.warehouses && InSqlDateTimeRange(createdAt)
            && found.Some? && !OrderFulfilled(s.productWarehouse, s.orders[found.value].id)
            && !InDecimalRange(s.products[productId] * amount))
      && (o.result.Err? && o.result.error.StoreFailure? ==> o.store == s)
  {
  }

  /**
   * A success marks exactly the selected order fulfilled at `now`; every other
   * order row, the products and the warehouses are unchanged.
   */
  lemma SuccessUpdatesOnlyMatchedOrder(s: Store, productId: int, warehouseId: int, amount: int, createdAt: int, now: int)
    requires StoreValid(s)
    requires Fulfill(s, productId, warehouseId, amount, createdAt, now).result.Ok?
    ensures var o := Fulfill(s, productId, warehouseId, amount, createdAt, now);
      var k := FindValidOrder(s.orders, productId, amount, createdAt).value;
      && IsValidOrder(s.orders[k], productId, amount, createdAt)
      && |o.store.orders| == |s.orders|
      && o.store.orders[k] == s.orders[k].(fulfilledAt := Some(now))
      && (forall i :: 0 <= i < |s.orders| && i != k ==> o.store.orders[i] == s.orders[i])
      && o.store.products == s.products && o.store.warehouses == s.warehouses
  {
  }

  /**
   * A success appends exactly one Product_Warehouse row, holding the warehouse,
   * product, selected order and amount, the unit price times the amount, and
   * a fresh id, which is what the call returns.
   */
  lemma SuccessRecordsOneMovement(s: Store, productId: int, warehouseId: int, amount: int, createdAt: int, now: int)
    requires StoreValid(s)
    requires Fulfill(s, productId, warehouseId, amount, createdAt, now).result.Ok?
    ensures var o := Fulfill(s, productId, warehouseId, amount, createdAt, now);
      var k := FindValidOrder(s.orders, productId, amount, createdAt).value;
      var n := |s.productWarehouse|;
      && |o.store.productWarehouse| == n + 1
      && o.store.productWarehouse[..n] == s.productWarehouse
      && o.store.productWarehouse[n] ==
           ProductWarehouse(o.result.value, warehouseId, productId, s.orders[k].id, amount,
                            s.products[productId] * amount, now)
      && (forall m :: 0 <= m < n ==> s.productWarehouse[m].id != o.result.value)
      && o.result.value <= Int32Max
      && o.store.nextId == o.result.value + 1
  {
  }

  /** The workflow keeps the schema's guarantees. */
  lemma FulfillPreservesValid(s: Store, productId: int, warehouseId: int, amount: int, createdAt: int, now: int)
    requires StoreValid(s)
    ensures StoreValid(Fulfill(s, productId, warehouseId, amount, createdAt, now).store)
  {
    var found := FindValidOrder(s.orders, productId, amount, createdAt);
    if productId in s.products && found.Some? {
      RecordPreservesValid(s, productId, warehouseId, s.orders[found.value].id, amount, now);
    }
  }

  /** The write phase keeps the schema's guarantees. */
  lemma RecordPreservesValid(s: Store, productId: int, warehouseId: int, orderId: int, amount: int, now: int)
    requires StoreValid(s) && productId in s.products
    ensures StoreValid(Record(s, productId, warehouseId, orderId, amount, now).store)
  {
    var o := Record(s, productId, warehouseId, orderId, amount, now);
    if o.result.Ok? {
      var t := o.store;
      assert t.orders == SetFulfilledAt(s.orders, orderId, now);
      forall i, j | 0 <= i < j < |t.orders| ensures t.orders[i].id != t.orders[j].id {
        assert t.orders[i].id == s.orders[i].id && t.orders[j].id == s.orders[j].id;
      }
    }
  }

  /** No order is referenced by more than one stock movement. */
  ghost predicate OneMovementPerOrder(s: Store) {
    forall i, j :: 0 <= i < j < |s.productWarehouse| ==>
      s.productWarehouse[i].orderId != s.productWarehouse[j].orderId
  }

  /** Every stock movement references an order whose FulfilledAt is set. */
  ghost predicate MovementsReferenceFulfilled(s: Store) {
    forall m :: 0 <= m < |s.productWarehouse| ==>
      exists i :: 0 <= i < |s.orders| && s.orders[i].id == s.productWarehouse[m].orderId && s.orders[i].fulfilledAt.Some?
  }

  /** The guard against a second movement for one order keeps OneMovementPerOrder. */
  lemma FulfillKeepsOneMovementPerOrder(s: Store, productId: int, warehouseId: int, amount: int, createdAt: int, now: int)
    requires OneMovementPerOrder(s)
    ensures OneMovementPerOrder(Fulfill(s, productId, warehouseId, amount, createdAt, now).store)
  {
    var o := Fulfill(s, productId, warehouseId, amount, createdAt, now);
    if o.result.Ok? {
      var k := FindValidOrder(s.orders, productId, amount, createdAt).value;
      var n := |s.productWarehouse|;
      var t := o.store.productWarehouse;
      assert !OrderFulfilled(s.productWarehouse, s.orders[k].id);
      forall i, j | 0 <= i < j < |t| ensures t[i].orderId != t[j].orderId {
        if j == n {
          assert t[i] == s.productWarehouse[i];
        } else {
          assert t[i] == s.productWarehouse[i] && t[j] == s.productWarehouse[j];
        }
      }
    }
  }

  /** Only open orders are written, so a FulfilledAt value once set never changes. */
  lemma FulfilledAtNeverChanges(s: Store, productId: int, warehouseId: int, amount: int, createdAt: int, now: int)
    requires StoreValid(s)
    ensures var t := Fulfill(s, productId, warehouseId, amount, createdAt, now).store;
      |t.orders| == |s.orders|
      && forall i :: 0 <= i < |s.orders| && s.orders[i].fulfilledAt.Some? ==> t.orders[i] == s.orders[i]
  {
    var o := Fulfill(s, productId, warehouseId, amount, createdAt, now);
    if o.result.Ok? {
      var k := FindValidOrder(s.orders, productId, amount, createdAt).value;
      forall i | 0 <= i < |s.orders| && s.orders[i].fulfilledAt.Some?
        ensures o.store.orders[i] == s.orders[i]
      {
        assert i != k;
      }
    }
  }

  /**
   * The workflow keeps "every movement references a fulfilled order", and on
   * a store where that holds (with unique order ids) the OrderAlreadyFulfilled
   * guard can never fire: it only defends against data written by other means.
   */
  lemma FulfillKeepsMovementsReferenceFulfilled(s: Store, productId: int, warehouseId: int, amount: int, createdAt: int, now: int)
    requires StoreValid(s) && MovementsReferenceFulfilled(s)
    ensures MovementsReferenceFulfilled(Fulfill(s, productId, warehouseId, amount, createdAt, now).store)
    ensures Fulfill(s, productId, warehouseId, amount, createdAt, now).result != Err(OrderAlreadyFulfilled)
  {
    var o := Fulfill(s, productId, warehouseId, amount, createdAt, now);
    var found := FindValidOrder(s.orders, productId, amount, createdAt);
    if o.result.Ok? {
      var k := found.value;
      var orderId := s.orders[k].id;
      var t := o.store;
      var n := |s.productWarehouse|;
      forall m | 0 <= m < |t.productWarehouse|
        ensures exists i :: 0 <= i < |t.orders| && t.orders[i].id == t.productWarehouse[m].orderId && t.orders[i].fulfilledAt.Some?
      {
        if m == n {
          assert t.orders[k].id == orderId && t.orders[k].fulfilledAt.Some?;
        } else {
          assert t.productWarehouse[m] == s.productWarehouse[m];
          var i :| 0 <= i < |s.orders| && s.orders[i].id == s.productWarehouse[m].orderId && s.orders[i].fulfilledAt.Some?;
          assert t.orders[i].id == s.orders[i].id && t.orders[i].fulfilledAt.Some?;
        }
      }
    }
  }

  /**
   * After a success, no later call on the resulting store can select the same
   * order again: the selected order is no longer open.
   */
  lemma NoOrderFulfilledTwice(s: Store, productId: int, warehouseId: int, amount: int, createdAt: int, now: int,
                              productId': int, warehouseId': int, amount': int, createdAt': int, now': int)
    requires Fulfill(s, productId, warehouseId, amount, createdAt, now).result.Ok?
    requires Fulfill(Fulfill(s, productId, warehouseId, amount, createdAt, now).store,
                     productId', warehouseId', amount', createdAt', now').result.Ok?
    ensures var t := Fulfill(s, productId, warehouseId, amount, createdAt, now).store;
      var k := FindValidOrder(s.orders, productId, amount, createdAt).value;
      var k' := FindValidOrder(t.orders, productId', amount', createdAt').value;
      t.orders[k'].id != s.orders[k].id
  {
    SuccessStore(s, productId, warehouseId, amount, createdAt, now);
    var t := Fulfill(s, productId, warehouseId, amount, createdAt, now).store;
    SuccessStore(t, productId', warehouseId', amount', createdAt', now');
    var k := FindValidOrder(s.orders, productId, amount, createdAt).value;
    var k' := FindValidOrder(t.orders, productId', amount', createdAt').value;
    assert t.orders == SetFulfilledAt(s.orders, s.orders[k].id, now);
    assert t.orders[k'].fulfilledAt.None?;
  }

  /** Every order row with this id has its FulfilledAt set. */
  ghost predicate OrderClosed(orders: seq<Order>, orderId: int) {
    forall i :: 0 <= i < |orders| && orders[i].id == orderId ==> orders[i].fulfilledAt.Some?
  }

  /** One call of AddProductToWarehouseAsync, with its arguments and the database clock. */
  datatype Request = Request(productId: int, warehouseId: int, amount: int, createdAt: int, now: int)

  /** The store after the requests have run one after the other. */
  function Run(s: Store, requests: seq<Request>): Store
    decreases |requests|
  {
    if |requests| == 0 then s
    else
      var q := requests[0];
      Run(Fulfill(s, q.productId, q.warehouseId, q.amount, q.createdAt, q.now).store, requests[1..])
  }

  /**
   * A call never reopens a closed order, whatever its outcome, and a
   * successful call never selects a closed order.
   */
  lemma FulfillKeepsOrderClosed(s: Store, orderId: int, productId: int, warehouseId: int, amount: int, createdAt: int, now: int)
    requires OrderClosed(s.orders, orderId)
    ensures OrderClosed(Fulfill(s, productId, warehouseId, amount, createdAt, now).store.orders, orderId)
    ensures Fulfill(s, productId, warehouseId, amount, createdAt, now).result.Ok? ==>
      s.orders[FindValidOrder(s.orders, productId, amount, createdAt).value].id != orderId
  {
    var o := Fulfill(s, productId, warehouseId, amount, createdAt, now);
    if o.result.Ok? {
      SuccessStore(s, productId, warehouseId, amount, createdAt, now);
      var k := FindValidOrder(s.orders, productId, amount, createdAt).value;
      var t := o.store.orders;
      assert t == SetFulfilledAt(s.orders, s.orders[k].id, now);
      forall i | 0 <= i < |t| && t[i].id == orderId ensures t[i].fulfilledAt.Some? {
        if s.orders[i].id != s.orders[k].id {
          assert t[i] == s.orders[i];
        }
      }
    }
  }

  /** The order a successful call selects is closed in the store it leaves. */
  lemma SuccessClosesOrder(s: Store, productId: int, warehouseId: int, amount: int, createdAt: int, now: int)
    requires Fulfill(s, productId, warehouseId, amount, createdAt, now).result.Ok?
    ensures OrderClosed(Fulfill(s, productId, warehouseId, amount, createdAt, now).store.orders,
                        s.orders[FindValidOrder(s.orders, productId, amount, createdAt).value].id)
  {
    SuccessStore(s, productId, warehouseId, amount, createdAt, now);
  }

  /** Any number of later calls leave a closed order closed. */
  lemma {:induction false} RunKeepsOrderClosed(s: Store, orderId: int, requests: seq<Request>)
    requires OrderClosed(s.orders, orderId)
    ensures OrderClosed(Run(s, requests).orders, orderId)
    decreases |requests|
  {
    if |requests| > 0 {
      var q := requests[0];
      FulfillKeepsOrderClosed(s, orderId, q.productId, q.warehouseId, q.amount, q.createdAt, q.now);
      RunKeepsOrderClosed(Fulfill(s, q.productId, q.warehouseId, q.amount, q.createdAt, q.now).store, orderId, requests[1..]);
    }
  }

  /**
   * After a success, whatever calls come in between, a later successful call
   * selects an order with a different id.
   */
  lemma NeverFulfilledAgain(s: Store, first: Request, between: seq<Request>, later: Request)
    requires Fulfill(s, first.productId, first.warehouseId, first.amount, first.createdAt, first.now).result.Ok?
    requires var u := Run(Fulfill(s, first.productId, first.warehouseId, first.amount, first.createdAt, first.now).store, between);
      Fulfill(u, later.productId, later.warehouseId, later.amount, later.createdAt, later.now).result.Ok?
    ensures var u := Run(Fulfill(s, first.productId, first.warehouseId, first.amount, first.createdAt, first.now).store, between);
      var k := FindValidOrder(s.orders, first.productId, first.amount, first.createdAt).value;
      var k' := FindValidOrder(u.orders, later.productId, later.amount, later.createdAt).value;
      u.orders[k'].id != s.orders[k].id
  {
    var t := Fulfill(s, first.productId, first.warehouseId, first.amount, first.createdAt, first.now).store;
    var u := Run(t, between);
    var orderId := s.orders[FindValidOrder(s.orders, first.productId, first.amount, first.createdAt).value].id;
    SuccessClosesOrder(s, first.productId, first.warehouseId, first.amount, first.createdAt, first.now);
    RunKeepsOrderClosed(t, orderId, between);
    FulfillKeepsOrderClosed(u, orderId, later.productId, later.warehouseId, later.amount, later.createdAt, later.now);
  }

  /**
   * Repeating a successful call with the same arguments fails with
   * NoValidOrder and writes nothing, provided the first call's order was the
   * only matching one.
   */
  lemma RepeatWithSingleCandidate(s: Store, productId: int, warehouseId: int, amount: int, createdAt: int, now: int, now': int)
    requires Fulfill(s, productId, warehouseId, amount, createdAt, now).result.Ok?
    requires forall i, j ::
               (0 <= i < |s.orders| && 0 <= j < |s.orders|
                && IsValidOrder(s.orders[i], productId, amount, createdAt)
                && IsValidOrder(s.orders[j], productId, amount, createdAt)) ==> s.orders[i].id == s.orders[j].id
    ensures var t := Fulfill(s, productId, warehouseId, amount, createdAt, now).store;
      Fulfill(t, productId, warehouseId, amount, createdAt, now') == Outcome(Err(NoValidOrder), t)
  {
    SuccessStore(s, productId, warehouseId, amount, createdAt, now);
    var t := Fulfill(s, productId, warehouseId, amount, createdAt, now).store;
    var k := FindValidOrder(s.orders, productId, amount, createdAt).value;
    var orderId := s.orders[k].id;
    assert t.orders == SetFulfilledAt(s.orders, orderId, now);
    assert t.products == s.products && t.warehouses == s.warehouses;
    assert InSqlDateTimeRange(createdAt);
    forall i | 0 <= i < |t.orders| ensures !IsValidOrder(t.orders[i], productId, amount, createdAt) {
      if s.orders[i].id == orderId {
        assert t.orders[i].fulfilledAt.Some?;
      } else {
        assert t.orders[i] == s.orders[i];
        assert !IsValidOrder(s.orders[i], productId, amount, createdAt);
      }
    }
    assert FindValidOrder(t.orders, productId, amount, createdAt).None?;
  }

  // Timestamps of the examples below, in ticks: midnight of the first of a month.
  const TicksPerDay: int := 864_000_000_000
  const Jan2024: int := 738_885 * TicksPerDay
  const Feb2024: int := 738_916 * TicksPerDay
  const Jun2024: int := 739_037 * TicksPerDay
  const Jul2024: int := 739_067 * TicksPerDay

  /**
   * With two open orders that both match, the second identical call succeeds
   * on the other order: repeating a call is not in general rejected.
   */
  lemma RepeatCanSucceedOnAnotherOrder()
    ensures var s := Store(map[7 := 1999], {3},
                           [Order(55, 7, 10, Jan2024, None), Order(56, 7, 10, Feb2024, None)], [], 1);
      var o1 := Fulfill(s, 7, 3, 10, Jun2024, Jun2024);
      var o2 := Fulfill(o1.store, 7, 3, 10, Jun2024, Jul2024);
      o1.result == Ok(1) && o2.result == Ok(2)
      && o2.store.productWarehouse[0].orderId == 55 && o2.store.productWarehouse[1].orderId == 56
  {
    var s := Store(map[7 := 1999], {3},
                   [Order(55, 7, 10, Jan2024, None), Order(56, 7, 10, Feb2024, None)], [], 1);
    assert InSqlDateTimeRange(Jun2024) && InDecimalRange(19990);
    assert FindValidOrder(s.orders, 7, 10, Jun2024) == Some(0);
    var t := s.(orders := [Order(55, 7, 10, Jan2024, Some(Jun2024)), Order(56, 7, 10, Feb2024, None)],
                productWarehouse := [ProductWarehouse(1, 3, 7, 55, 10, 19990, Jun2024)],
                nextId := 2);
    assert SetFulfilledAt(s.orders, 55, Jun2024) == t.orders;
    assert Fulfill(s, 7, 3, 10, Jun2024, Jun2024) == Outcome(Ok(1), t);
    assert FindValidOrder(t.orders, 7, 10, Jun2024) == Some(1);
    assert !OrderFulfilled(t.productWarehouse, 56);
    var u := t.(orders := [Order(55, 7, 10, Jan2024, Some(Jun2024)), Order(56, 7, 10, Feb2024, Some(Jul2024))],
                productWarehouse := t.productWarehouse + [ProductWarehouse(2, 3, 7, 56, 10, 19990, Jul2024)],
                nextId := 3);
    assert SetFulfilledAt(t.orders, 56, Jul2024) == u.orders;
    assert Fulfill(t, 7, 3, 10, Jun2024, Jul2024) == Outcome(Ok(2), u);
  }

  /**
   * Product 7 priced 19.99, warehouse 3, open order 55 for ten units created
   * on 2024-01-01, a request dated 2024-06-01: the call records a movement
   * priced 199.90 for order 55, marks the order fulfilled, and the repeat
   * fails with NoValidOrder.
   */
  lemma ExampleScenario()
    ensures var s := Store(map[7 := 1999], {3}, [Order(55, 7, 10, Jan2024, None)], [], 1);
      var o := Fulfill(s, 7, 3, 10, Jun2024, Jun2024);
      o.result == Ok(1)
      && o.store.productWarehouse == [ProductWarehouse(1, 3, 7, 55, 10, 19990, Jun2024)]
      && o.store.orders == [Order(55, 7, 10, Jan2024, Some(Jun2024))]
      && Fulfill(o.store, 7, 3, 10, Jun2024, Jul2024) == Outcome(Err(NoValidOrder), o.store)
  {
    var s := Store(map[7 := 1999], {3}, [Order(55, 7, 10, Jan2024, None)], [], 1);
    assert InSqlDateTimeRange(Jun2024) && InDecimalRange(19990);
    assert FindValidOrder(s.orders, 7, 10, Jun2024) == Some(0);
    var t := s.(orders := [Order(55, 7, 10, Jan2024, Some(Jun2024))],
                productWarehouse := [ProductWarehouse(1, 3, 7, 55, 10, 19990, Jun2024)],
                nextId := 2);
    assert SetFulfilledAt(s.orders, 55, Jun2024) == t.orders;
    assert Fulfill(s, 7, 3, 10, Jun2024, Jun2024) == Outcome(Ok(1), t);
    assert FindValidOrder(t.orders, 7, 10, Jun2024) == None;
  }
}
