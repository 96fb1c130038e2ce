/**
 * The add-product endpoint of WarehouseController: four guards on the
 * request's scalar inputs, checked in order, and then one call of the
 * service whose id or error message is passed back. The controller's clock
 * (`now`) and the database's clock (`dbNow`) are parameters.
 */
module Controllers {
  import Wrappers
  import opened Model
  import Services

  const ProductIdNotPositive: string := "Product ID must be positive"
  const WarehouseIdNotPositive: string := "Warehouse ID must be positive"
  const AmountNotPositive: string := "Amount must be greater than 0"
  const CreatedAtInFuture: string := "CreatedAt cannot be in the future"

  /** What the endpoint answers: the new id, a rejected request, or a service failure. */
  datatype Response =
    | Ok(idProductWarehouse: int)
    | BadRequest(message: string)
    | ServerError(message: string)

  /** The response together with the store the request leaves behind. */
  datatype Reply = Reply(response: Response, store: Store)

  /**
   * The guards of the endpoint: the message of the first one that fails, or
   * None when the request may go to the service.
   */
  function Validate(productId: int, warehouseId: int, amount: int, createdAt: int, now: int): (r: Wrappers.Option<string>)
    ensures r.None? <==> productId > 0 && warehouseId > 0 && amount > 0 && createdAt <= now
    ensures productId <= 0 ==> r == Wrappers.Some(ProductIdNotPositive)
    ensures productId > 0 && warehouseId <= 0 ==> r == Wrappers.Some(WarehouseIdNotPositive)
    ensures productId > 0 && warehouseId > 0 && amount <= 0 ==> r == Wrappers.Some(AmountNotPositive)
    ensures productId > 0 && warehouseId > 0 && amount > 0 && createdAt > now ==> r == Wrappers.Some(CreatedAtInFuture)
  {
    if productId <= 0 then Wrappers.Some(ProductIdNotPositive)
    else if warehouseId <= 0 then Wrappers.Some(WarehouseIdNotPositive)
    else if amount <= 0 then Wrappers.Some(AmountNotPositive)
    else if createdAt > now then Wrappers.Some(CreatedAtInFuture)
    else Wrappers.None
  }

  /**
   * AddProductToWarehouse: a rejected request never reaches the store; an
   * accepted one runs the workflow, whose id is answered as is and whose
   * error is answered as a failure carrying the error's message.
   */
  function AddProductToWarehouse(s: Store, productId: int, warehouseId: int, amount: int, createdAt: int,
                                 now: int, dbNow: int): (r: Reply)
    ensures Validate(productId, warehouseId, amount, createdAt, now).Some? ==>
              r == Reply(BadRequest(Validate(productId, warehouseId, amount, createdAt, now).value), s)
    ensures Validate(productId, warehouseId, amount, createdAt, now).None? ==>
              r.store == Services.Fulfill(s, productId, warehouseId, amount, createdAt, dbNow).store
    ensures r.response.Ok? <==>
              Validate(productId, warehouseId, amount, createdAt, now).None?
              && Services.Fulfill(s, productId, warehouseId, amount, createdAt, dbNow).result.Ok?
    ensures r.response.Ok? ==>
              r.response.idProductWarehouse == Services.Fulfill(s, productId, warehouseId, amount, createdAt, dbNow).result.value
    ensures Validate(productId, warehouseId, amount, createdAt, now).None?
              && Services.Fulfill(s, productId, warehouseId, amount, createdAt, dbNow).result.Err? ==>
              r.response == ServerError(Services.Message(Services.Fulfill(s, productId, warehouseId, amount, createdAt, dbNow).result.error))
  {
    match Validate(productId, warehouseId, amount, createdAt, now)
    case Some(message) => Reply(BadRequest(message), s)
    case None =>
      var o := Services.Fulfill(s, productId, warehouseId, amount, createdAt, dbNow);
      match o.result
      case Ok(id) => Reply(Ok(id), o.store)
      case Err(e) => Reply(ServerError(Services.Message(e)), o.store)
  }

  /**
   * A request the endpoint answers with an id has recorded a movement with
   * that id for a positive amount, priced at the unit price times the amount,
   * for an order created before the controller's clock.
   */
  lemma OkResponseRecordsMovement(s: Store, productId: int, warehouseId: int, amount: int, createdAt: int,
                                  now: int, dbNow: int)
    requires StoreValid(s)
    requires AddProductToWarehouse(s, productId, warehouseId, amount, createdAt, now, dbNow).response.Ok?
    ensures var r := AddProductToWarehouse(s, productId, warehouseId, amount, createdAt, now, dbNow);
      var rows := r.store.productWarehouse;
      && |rows| == |s.productWarehouse| + 1
      && rows[|rows| - 1].id == r.response.idProductWarehouse
      && rows[|rows| - 1].amount == amount > 0
      && rows[|rows| - 1].price == s.products[productId] * amount
      && exists i :: 0 <= i < |s.orders| && s.orders[i].id == rows[|rows| - 1].orderId && s.orders[i].createdAt < now
  {
    Services.SuccessRecordsOneMovement(s, productId, warehouseId, amount, createdAt, dbNow);
    var k := Services.FindValidOrder(s.orders, productId, amount, createdAt).value;
    assert s.orders[k].createdAt < createdAt <= now;
  }
}
