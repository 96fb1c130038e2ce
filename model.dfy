/**
 * The rows of the four tables the stock-replenishment workflow reads and
 * writes, and the store that holds them. Timestamps are DateTime ticks
 * (units of 100 ns since 0001-01-01); prices are integers in hundredths, the
 * two decimal places of the Price column.
 */
module Model {
  import opened Wrappers

  /** A row of [Order]. The order is open while fulfilledAt is None. */
  datatype Order = Order(
    id: int,
    productId: int,
    amount: int,
    createdAt: int,
    fulfilledAt: Option<int>)

  /** A row of Product_Warehouse: one stock movement recorded for one order. */
  datatype ProductWarehouse = ProductWarehouse(
    id: int,
    warehouseId: int,
    productId: int,
    orderId: int,
    amount: int,
    price: int,
    createdAt: int)

  /**
   * The relational store: Product as IdProduct -> Price, Warehouse as its set
   * of ids, [Order] and Product_Warehouse as their rows in table order, and
   * the identity value the next Product_Warehouse row will receive.
   */
  datatype Store = Store(
    products: map<int, int>,
    warehouses: set<int>,
    orders: seq<Order>,
    productWarehouse: seq<ProductWarehouse>,
    nextId: int)

  /**
   * What the model assumes the schema guarantees of every store (the schema
   * itself is not part of this model): IdOrder is the primary key of [Order],
   * and IdProductWarehouse is an IDENTITY column, so every Product_Warehouse
   * id is distinct and below the identity counter.
   */
  ghost predicate StoreValid(s: Store) {
    && (forall i, j :: 0 <= i < j < |s.orders| ==> s.orders[i].id != s.orders[j].id)
    && (forall i :: 0 <= i < |s.productWarehouse| ==> s.productWarehouse[i].id < s.nextId)
    && (forall i, j :: 0 <= i < j < |s.productWarehouse| ==>
          s.productWarehouse[i].id != s.productWarehouse[j].id)
  }
}
