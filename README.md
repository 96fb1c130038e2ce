# Warehouse stock replenishment, modelled in Dafny

The system records stock arriving in a warehouse against an outstanding
sales order. A request names a product, a warehouse, an amount and a
creation time. The service checks that the product and the warehouse exist.
It then finds an open order for that product with exactly that amount,
created strictly before the given time, and refuses the request if a
stock movement already references that order. Otherwise it marks the order
fulfilled, prices the movement at the product's unit price times the amount,
inserts the movement and returns its generated id. All of this runs in one
transaction: any failure rolls the store back. In front of the service, the
controller rejects non-positive ids and amounts and creation times in the
future, and passes on either the new id or the service's error message.

Files:

- `wrappers.dfy` (`Wrappers`): `Option` and `Result`.
- `model.dfy` (`Model`): the rows of `[Order]` and `Product_Warehouse`, and the
  `Store` holding the four tables and the identity counter. `StoreValid` states
  what the model assumes of the schema, which is not in the repository:
  `IdOrder` is the primary key of `[Order]`, so the order update touches one
  row, and `IdProductWarehouse` is an IDENTITY column whose counter is above
  every id it has handed out.
- `services.dfy` (`Services`): the read-only queries as functions over a
  `Store`. `Fulfill` is the whole workflow as a function of the store before
  the call; it returns the result and the store after the call. The class
  `DbService` holds the tables as fields. Its methods `UpdateOrder`,
  `InsertProductWarehouse` and `Rollback` change them in place, and
  `AddProductToWarehouse` runs the steps one by one inside a snapshot-and-rollback
  transaction. That method is proved to return `Fulfill`'s result and leave
  `Fulfill`'s store. The properties are lemmas about `Fulfill`.
- `controllers.dfy` (`Controllers`): the endpoint's guards (`Validate`) and the
  endpoint itself as a pure function of the store and the two clocks.

Modelling decisions:

- Timestamps are `DateTime` ticks: units of 100 ns since 0001-01-01. The
  controller's clock (`DateTime.Now`) and the database clock (`GETDATE()`) are
  parameters: `now` and `dbNow`.
- Prices are integers in hundredths, the two decimal places of the column.
  The total `unit price × amount` is computed exactly. When its value is
  beyond `decimal.MaxValue`, the `decimal` multiplication in the service throws
  an `OverflowException`. The model reports it as `StoreFailure`, the error that
  stands for every exception not thrown by the workflow itself. That happens
  after the order update, so the transaction rolls the update back.
- `@createdAt` is sent as an SQL `datetime`. A value outside 1753-01-01 to
  9999-12-31 23:59:59.997 makes the order query fail with a store failure,
  before anything is written. The controller's guard does not exclude early
  dates, so such a request reaches the service.
- `SELECT TOP 1` has no `ORDER BY`, so the model picks the first matching row
  in table order. Every property about the selected order is stated only
  through the filter it satisfies and its position.
- The generated id is the store's identity counter. The schema is not in the
  repository. The model assumes an `int` IDENTITY column: when the counter is
  past the 32-bit range, the insert fails with a store failure and the
  transaction rolls the order update back.
- The four workflow errors carry the messages the source throws. The three store
  failures carry the .NET or SQL Server exception texts for those conditions.
  These texts come from the platform, not from the repository, so they are
  assumed.

A repeated successful call is not always rejected. `FindValidOrder` selects
any open order that matches, and `UpdateOrder` closes only the selected
one. So when a second open order also matches, the repeat can succeed on
that order. `RepeatCanSucceedOnAnotherOrder` shows such a store.
`RepeatWithSingleCandidate` proves that when the first call's order was the
only match, the identical repeat fails with `NoValidOrder` and writes
nothing. What holds in every case: the next successful call, whatever its
arguments, selects an order with a different id (`NoOrderFulfilledTwice`).
The same holds for any later successful call, whatever calls come in between
(`NeverFulfilledAgain`), because no call reopens an order once its FulfilledAt
is set (`FulfillKeepsOrderClosed`).

## Model

| member | source | states |
|---|---|---|
| `Services.FindValidOrder` | DbService.cs:132-148 | a selected row has the product, exactly the amount, an earlier creation time and no FulfilledAt, and no earlier row does; None exactly when no row matches |
| `Services.OrderFulfilled` | DbService.cs:150-159 | true exactly when some Product_Warehouse row references the order |
| `Services.SetFulfilledAt` | DbService.cs:161-170 | every order row with the id gets FulfilledAt = now; every other row is unchanged; the row count is unchanged |
| `Services.DbService.UpdateOrder` | DbService.cs:161-170 | the in-place update leaves the orders that `SetFulfilledAt` describes and keeps the schema invariant |
| `Services.DbService.InsertProductWarehouse` | DbService.cs:183-220 | appends exactly one row with the given values and the counter's id, returns that id and advances the counter; past Int32Max it fails and inserts nothing; keeps the schema invariant |
| `Services.DbService.Rollback` | DbService.cs:114-118 | the store is again the snapshot taken when the transaction began, which satisfies the schema invariant |
| `Services.DbService.AddProductToWarehouse` | DbService.cs:69-123 | the step-by-step transactional method returns `Fulfill`'s result, leaves `Fulfill`'s store and keeps the schema invariant |
| `Services.ProductMissing` | DbService.cs:85-86 | ProductNotFound exactly when the product is missing, with the store unchanged |
| `Services.WarehouseMissing` | DbService.cs:88-89 | WarehouseNotFound exactly when the product exists and the warehouse does not, with the store unchanged |
| `Services.NoMatchingOrder` | DbService.cs:91-93 | NoValidOrder exactly when both exist, @createdAt is in range and no order matches product, amount, earlier creation and open, with the store unchanged |
| `Services.AlreadyFulfilledGuard` | DbService.cs:95-96 | OrderAlreadyFulfilled exactly when an order was selected and some movement already references it, with the store unchanged |
| `Services.FailureRollsBack` | DbService.cs:114-118 | whatever step fails, the store after the call equals the store before it |
| `Services.SuccessCondition` | DbService.cs:85-112 | success exactly when every check passes, `@createdAt` is a valid SQL datetime, the total fits in a decimal and the identity value fits in 32 bits |
| `Services.RangeFailures` | DbService.cs:91-100 | the order query fails with a store failure exactly when @createdAt is outside the SQL datetime range; the pricing fails with a store failure exactly when the total is beyond the decimal range; either failure leaves the store unchanged |
| `Services.SuccessUpdatesOnlyMatchedOrder` | DbService.cs:98 | on success the selected (matching) order alone gets FulfilledAt = now; all other orders, products and warehouses are unchanged |
| `Services.SuccessRecordsOneMovement` | DbService.cs:100-112 | on success exactly one row is appended, with the warehouse, product, order and amount, price = unit price × amount, a fresh id, and that id is returned |
| `Services.FulfillPreservesValid` | DbService.cs:98-109 | the workflow keeps order ids unique and movement ids unique and below the counter |
| `Services.RecordPreservesValid` | DbService.cs:98-109 | the write phase (update, price, insert) keeps the same guarantees |
| `Services.FulfillKeepsOneMovementPerOrder` | DbService.cs:95-96 | if no order had two movements before the call, none has after it |
| `Services.FulfilledAtNeverChanges` | DbService.cs:135-139 | an order whose FulfilledAt was set is left exactly as it was |
| `Services.FulfillKeepsMovementsReferenceFulfilled` | DbService.cs:95-98 | the workflow keeps "every movement references a fulfilled order", and on such a store OrderAlreadyFulfilled never occurs |
| `Services.NoOrderFulfilledTwice` | DbService.cs:98 | after a success, the next successful call, whatever its arguments, selects an order with a different id |
| `Services.FulfillKeepsOrderClosed` | DbService.cs:132-170 | a call, whatever its outcome, leaves every row of a closed order closed, and a successful call never selects a closed order |
| `Services.SuccessClosesOrder` | DbService.cs:161-170 | after a success, every order row with the selected id has FulfilledAt set |
| `Services.RunKeepsOrderClosed` | DbService.cs:69-123 | any sequence of calls leaves a closed order closed |
| `Services.NeverFulfilledAgain` | DbService.cs:91-98 | after a success, any later successful call, with any calls in between, selects an order with a different id |
| `Services.RepeatWithSingleCandidate` | DbService.cs:91-93 | repeating a success whose order was the only match fails with NoValidOrder and writes nothing |
| `Services.RepeatCanSucceedOnAnotherOrder` | DbService.cs:135-139 | with two matching open orders, two identical calls both succeed, on different orders |
| `Services.ExampleScenario` | DbService.cs:100-112 | product priced 19.99, ten units: one movement priced 199.90 for order 55, which is marked fulfilled; the repeat fails with NoValidOrder |
| `Services.MessagesDistinct` | DbService.cs:85-96 | the four workflow errors have four different messages |
| `Controllers.Validate` | WarehouseController.cs:25-28 | the first failing guard, in source order, decides the message; no message exactly when all four pass |
| `Controllers.AddProductToWarehouse` | WarehouseController.cs:25-43 | a rejected request leaves the store untouched; otherwise the response is the service's id exactly when the service succeeds, and otherwise a failure carrying the error's message |
| `Controllers.OkResponseRecordsMovement` | WarehouseController.cs:32-38 | an id answered by the endpoint is the id of a newly recorded movement for a positive amount, priced unit price × amount, for an order created before the controller's clock |

## Left out

- `DoSomethingAsync` and `ProcedureAsync`: sample code unrelated to the workflow.
- Connections, commands, SQL text, parameter binding and async/await. The tables are values, and the transaction is a snapshot that failures restore.
- Connectivity loss and timeouts: the store raises no failures other than the three range failures above.
- `decimal` rounding: a total with more than 28 significant digits, or just above `decimal.MaxValue`, would be rounded by .NET. The model keeps the exact value, and it fails only when the value is beyond `decimal.MaxValue`.
- The conversion of `@createdAt` to `datetime` rounds it to 1/300 of a second. The model compares the exact value.
- The column types of Product_Warehouse (`Price`, the IDENTITY type) are not in the repository. The model assumes an `int` identity and a `Price` column that holds any decimal total.
- Concurrent callers, and the race between the order lookup and the update: the model is one caller at a time.
- The two `GETDATE()` calls read one database instant, `dbNow`.
- HTTP routing, status codes and query-string binding into 32-bit ints. The response only says whether it is a success, a bad request or a server error.
- The names, descriptions and addresses of products and warehouses. The workflow does not read them.
- `Services.RecordExists`: a membership test with no contract of its own beyond that membership. `ProductMissing` and `WarehouseMissing` state what it decides.
- `Services.Message`: the exception messages, with no contract of its own. `MessagesDistinct` states that the four workflow messages differ, and `Controllers.AddProductToWarehouse` states that a failure answers with the error's message.
- `Services.GetProductPrice`: the price lookup has no contract of its own. It is a field read, and `SuccessRecordsOneMovement` states the price it produces.
- `Services.Fulfill` and `Services.Record`: the workflow function and its write phase have no contract of their own. The lemmas above state their properties.
