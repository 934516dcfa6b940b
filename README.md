# Inventory and supplier services: a Dafny model

This project models the core of a pair of CRUD microservices. The inventory service keeps
products, and the supplier service keeps suppliers. The model covers three parts:

- the stock adjustment on a product: a guarded decrease and an unguarded increase;
- the two services' store operations: find, change the entity, save;
- the inventory controller's decisions: amount validation, the status of each outcome,
  and the product-to-supplier lookup, which collapses every failure into "not found".

Modules, one per source component:

- `Wrappers` (wrappers.dfy): `Option`, `Result` and `Outcome`. They stand for the
  source's `Optional` values and thrown exceptions.
- `Decimal` (decimal.dfy): the decimal numeral of a Java `Long`. The source writes one
  when it concatenates an identifier into the supplier URL or an error message.
- `Products` (products.dfy): `ProductRow`, the persisted state of a product, and
  `Product`, the entity class. `Product.DecreaseStock` and `Product.IncreaseStock`
  change the field `quantityInStock` in place and may change no other field. The pure
  functions `StockDecreased` and `StockIncreased` specify them.
- `InventoryServices` (inventory_service.dfy): the class `InventoryService`, whose
  repository is a field `products: map<int, ProductRow>`. The update and stock methods
  load a `Product` from its row, mutate it, and save its row back; create and delete
  change the map directly. Each method is proved equal to a
  pure transition (`Created`, `Replaced`, `Removed`, `Decreased`, `Increased`). A
  transition returns the operation's result together with the store it leaves behind.
  The supplier lookup `GetSupplierDetails` reads one URL through an abstract remote read.
- `SupplierServices` (supplier_service.dfy): the class `SupplierService` over a field
  `suppliers: map<int, Supplier>`. Its methods are proved equal to pure transitions in
  the same way, but a supplier is a datatype value: `UpdateSupplier` builds the edited
  value and stores it, with no entity object. It includes the email-then-name uniqueness
  checks of `createSupplier`.
- `InventoryControllers` (inventory_controller.dfy): the handlers, as pure functions.
  Each takes a request and the product store. The read-only handlers `GetProductById`
  and `GetProductSupplierDetails` return only a `Response` (200 with a body or 404). The
  others return a `Response` (200 with a body, 204 or 400 or 404) together with the store
  after the service has run.

Every operation has a partner property. Examples:

- a decrease followed by an increase restores the product and the store;
- update and delete are idempotent;
- a lookup after create, update or delete returns what the operation promised;
- creates and deletes keep supplier emails and names distinct, and a counterexample shows
  that an update can break this;
- any sequence of requests to the stock endpoints keeps every stock non-negative and
  changes nothing but stock.

Several store functions require `Keyed`: every row is stored under its own identifier.
A table keyed by its id always meets this, and both service classes keep it as part of
their invariant `Valid()`. The source saves an entity under the entity's own id, and
`Keyed` makes that id the one that was looked up.

The supplier service is reached through a parameter `fetch: string -> RemoteRead`. For
one URL, `fetch` gives either an answer, whose body may be null, or an exception. The store
hands out identifiers from a counter `nextId`, as the database's identity column would.

Where the code and the system's stated design differ, the model follows the code. Three
differences:

- The design says a product's stock is never negative at rest. Only the stock endpoints
  keep that, and only in unbounded integers: an increase of 1 on a stock of
  `Integer.MAX_VALUE` wraps to `Integer.MIN_VALUE` in the source. `createProduct` and `updateProduct` store whatever stock the request
  carries, and the service's `increaseStock` accepts a negative amount. The lemmas
  `UpdateMayStoreNegativeStock` and `ServiceIncreaseAcceptsNegativeAmount` show both.
- The design treats supplier uniqueness as a policy. The code enforces it in
  `createSupplier` and not in `updateSupplier`, and the model does the same.
- The design calls every "not found" a `NotFound`. In the code, a missing product in a
  stock request gives 400, the same as a short stock.

## Model

| member | source | states |
|---|---|---|
| `Decimal.IntToString` | inventory-service/src/main/java/com/example/inventory/InventoryService.java:69 | the numeral concatenated into the URL starts with '-' exactly for a negative identifier, followed by the numeral of its magnitude, and otherwise holds only digits |
| `Decimal.IntToStringInjective` | inventory-service/src/main/java/com/example/inventory/InventoryService.java:69 | distinct identifiers have distinct numerals (proved through the parse of the numeral) |
| `Products.StockErrorMessage` | inventory-service/src/main/java/com/example/inventory/Product.java:85 | the message is "Not enough stock for product " followed by the product's name |
| `Products.StockDecreased` | inventory-service/src/main/java/com/example/inventory/Product.java:83-88 | a decrease fails exactly when the stock is below the amount, reporting the product's name; otherwise the stock drops by the amount and every other field is kept |
| `Products.StockIncreased` | inventory-service/src/main/java/com/example/inventory/Product.java:90-92 | the stock grows by exactly the amount, with no guard, and every other field is kept |
| `Products.DecreaseWholeStock` | inventory-service/src/main/java/com/example/inventory/Product.java:84 | the guard is strict: decreasing by the whole stock succeeds and leaves exactly 0 |
| `Products.DecreaseLeavesNonNegative` | inventory-service/src/main/java/com/example/inventory/Product.java:84-87 | after any successful decrease the stock is at least 0, whatever it was before |
| `Products.StockOperationsChangeOnlyQuantity` | inventory-service/src/main/java/com/example/inventory/Product.java:83-92 | both stock operations leave id, name, description, price and supplier id as they were |
| `Products.DecreaseThenIncreaseRestores` | inventory-service/src/main/java/com/example/inventory/Product.java:83-92 | an increase by the amount a successful decrease took restores the product |
| `Products.IncreaseThenDecreaseRestores` | inventory-service/src/main/java/com/example/inventory/Product.java:83-92 | a decrease by the amount just added restores the product exactly when the stock was not negative |
| `Products.JavaInt` | inventory-service/src/main/java/com/example/inventory/Product.java:87-91 | the value Java's 32-bit `int` arithmetic gives for an exact result: it lies in the `int` range, differs from the exact result by a multiple of 2^32, and is the exact result when that is already in range |
| `Products.DecreaseByNonNegativeAgreesWithJava` | inventory-service/src/main/java/com/example/inventory/Product.java:84-87 | for a stock in the `int` range and a non-negative amount, a successful decrease stores exactly the 32-bit result of the source's subtraction |
| `Products.DecreaseByMinValueWraps` | inventory-service/src/main/java/com/example/inventory/Product.java:84-87 | on a stock of 0, a decrease by `Integer.MIN_VALUE` passes the guard; the source's subtraction wraps to `Integer.MIN_VALUE`, which the model's result is not |
| `Products.IncreaseAgreesWithJava` | inventory-service/src/main/java/com/example/inventory/Product.java:90-92 | for a stock and an amount in the `int` range, an increase stores the 32-bit result of the source's addition exactly when the sum stays in the `int` range |
| `Products.IncreaseOfMaxValueWraps` | inventory-service/src/main/java/com/example/inventory/Product.java:90-92 | an increase by 1 of a stock at `Integer.MAX_VALUE` wraps to `Integer.MIN_VALUE` in the source, which the model's result is not |
| `Products.Product.DecreaseStock` | inventory-service/src/main/java/com/example/inventory/Product.java:83-88 | only `quantityInStock` may change; it fails with the product's name and leaves the stock unchanged when the stock is below the amount, and otherwise subtracts the amount |
| `Products.Product.IncreaseStock` | inventory-service/src/main/java/com/example/inventory/Product.java:90-92 | only `quantityInStock` may change; it grows by exactly the amount, with no guard |
| `InventoryServices.GetAllProducts` | inventory-service/src/main/java/com/example/inventory/InventoryService.java:30-32 | in a consistent store, the listing holds exactly the products that a lookup by their own identifier finds |
| `InventoryServices.GetProductById` | inventory-service/src/main/java/com/example/inventory/InventoryService.java:34-36 | a product is found exactly when one is stored under the id, and it is the stored one, carrying that id |
| `InventoryServices.ErrorMessage` | inventory-service/src/main/java/com/example/inventory/InventoryService.java:46-64 | in the three `orElseThrow` messages (lines 46, 57, 64), a missing product reads "Product not found with id " followed by the id's numeral; a short stock carries the product's own message |
| `InventoryServices.NotFoundMessageNamesId` | inventory-service/src/main/java/com/example/inventory/InventoryService.java:46 | two "not found" messages are equal only for the same id |
| `InventoryServices.Created` | inventory-service/src/main/java/com/example/inventory/InventoryService.java:26-28 | the product is saved under the fresh identifier and is found there; every other lookup is unchanged |
| `InventoryServices.Replaced` | inventory-service/src/main/java/com/example/inventory/InventoryService.java:38-47 | on a stored id, the stored product becomes the details with the id kept, and nothing else changes; on an absent id it fails with "not found" and saves nothing |
| `InventoryServices.Removed` | inventory-service/src/main/java/com/example/inventory/InventoryService.java:49-51 | afterwards the lookup of the id is empty and every other lookup is unchanged |
| `InventoryServices.Decreased` | inventory-service/src/main/java/com/example/inventory/InventoryService.java:53-58 | succeeds exactly when the product is stored and has at least the amount; an absent id gives "not found" and a short stock gives "not enough stock", both leaving the store unchanged; on success only that product's stock drops by the amount |
| `InventoryServices.Increased` | inventory-service/src/main/java/com/example/inventory/InventoryService.java:60-65 | succeeds exactly when the product is stored, then raises only that product's stock by exactly the amount; an absent id gives "not found" and leaves the store unchanged |
| `InventoryServices.OperationsKeepKeyed` | inventory-service/src/main/java/com/example/inventory/InventoryService.java:38-65 | update, delete and both stock operations keep every row stored under its own id |
| `InventoryServices.DecreaseThenIncreaseRestoresStore` | inventory-service/src/main/java/com/example/inventory/InventoryService.java:53-65 | a successful decrease followed by an increase of the same amount returns the original product and restores the whole store |
| `InventoryServices.UpdateIsIdempotent` | inventory-service/src/main/java/com/example/inventory/InventoryService.java:38-47 | repeating an update with the same details changes nothing more |
| `InventoryServices.DeleteIsIdempotent` | inventory-service/src/main/java/com/example/inventory/InventoryService.java:49-51 | deleting twice is deleting once; deleting an absent id is not an error |
| `InventoryServices.IncreaseExample` | inventory-service/src/test/java/com/example/inventory/InventoryServiceTest.java:127-139 | a product with stock 100, raised by 10, holds 110 |
| `InventoryServices.NotFoundMessageExample` | inventory-service/src/test/java/com/example/inventory/InventoryServiceTest.java:95 | the failure for id 1 reads "Product not found with id 1" |
| `InventoryServices.SupplierUrl` | inventory-service/src/main/java/com/example/inventory/InventoryService.java:69 | the URL is the base URL, a slash, and the supplier id's numeral |
| `InventoryServices.SupplierUrlInjective` | inventory-service/src/main/java/com/example/inventory/InventoryService.java:69 | for a fixed base URL, the URL read names the requested supplier and no other |
| `InventoryServices.SupplierUrlExample` | inventory-service/src/test/java/com/example/inventory/InventoryServiceTest.java:164 | supplier 1 is read from ".../api/suppliers/1" |
| `InventoryServices.GetSupplierDetails` | inventory-service/src/main/java/com/example/inventory/InventoryService.java:67-77 | the result is a supplier exactly when the read of base + "/" + id answered with a non-null supplier, and then it is that supplier; a null answer or any exception gives empty |
| `InventoryServices.InventoryService.CreateProduct` | inventory-service/src/main/java/com/example/inventory/InventoryService.java:26-28 | the new store is `Created` of the old one under the next identifier; the counter advances |
| `InventoryServices.InventoryService.UpdateProduct` | inventory-service/src/main/java/com/example/inventory/InventoryService.java:38-47 | find, set the five fields on the entity, save; the result and new store are those of `Replaced` |
| `InventoryServices.InventoryService.DeleteProduct` | inventory-service/src/main/java/com/example/inventory/InventoryService.java:49-51 | the new store is `Removed` of the old one |
| `InventoryServices.InventoryService.DecreaseStock` | inventory-service/src/main/java/com/example/inventory/InventoryService.java:53-58 | find, `Product.DecreaseStock`, save only on success; the result and new store are those of `Decreased` |
| `InventoryServices.InventoryService.IncreaseStock` | inventory-service/src/main/java/com/example/inventory/InventoryService.java:60-65 | find, `Product.IncreaseStock`, save; the result and new store are those of `Increased` |
| `SupplierServices.GetAllSuppliers` | supplier-service/src/main/java/com/example/supplier/SupplierService.java:29-31 | in a consistent store, the listing holds exactly the suppliers that a lookup by their own identifier finds |
| `SupplierServices.GetSupplierById` | supplier-service/src/main/java/com/example/supplier/SupplierService.java:33-35 | a supplier is found exactly when one is stored under the id, and it is the stored one, carrying that id |
| `SupplierServices.ExistsByEmail` | supplier-service/src/main/java/com/example/supplier/SupplierService.java:20 | true exactly when some listed supplier has the email |
| `SupplierServices.ExistsByName` | supplier-service/src/main/java/com/example/supplier/SupplierService.java:23 | true exactly when some listed supplier has the name |
| `SupplierServices.ErrorMessage` | supplier-service/src/main/java/com/example/supplier/SupplierService.java:21-44 | in the messages of lines 21, 24 and 44: "Supplier with email " or "Supplier with name " followed by the value at fault and " already exists"; "Supplier not found with id " followed by the id's numeral |
| `SupplierServices.NotFoundMessageNamesId` | supplier-service/src/main/java/com/example/supplier/SupplierService.java:44 | two "not found" messages are equal only for the same id |
| `SupplierServices.Created` | supplier-service/src/main/java/com/example/supplier/SupplierService.java:19-27 | an email in use fails with the email error and saves nothing; else a name in use fails with the name error and saves nothing; else the supplier is saved under the fresh id; distinct emails and names stay distinct |
| `SupplierServices.Replaced` | supplier-service/src/main/java/com/example/supplier/SupplierService.java:37-45 | on a stored id, name, contact person, phone and email are replaced and the id is kept; on an absent id it fails with "not found" and saves nothing |
| `SupplierServices.Removed` | supplier-service/src/main/java/com/example/supplier/SupplierService.java:47-49 | afterwards the lookup of the id is empty and every other lookup is unchanged |
| `SupplierServices.EmailClashReportedFirst` | supplier-service/src/main/java/com/example/supplier/SupplierService.java:20-25 | when both the email and the name are in use, the email error is the one reported |
| `SupplierServices.UpdateMayDuplicateEmail` | supplier-service/src/main/java/com/example/supplier/SupplierService.java:37-45 | an update succeeds with another supplier's email, so update does not keep emails distinct |
| `SupplierServices.NotFoundMessageExample` | supplier-service/src/test/java/com/example/supplier/SupplierServiceTest.java:89 | the failure for id 1 reads "Supplier not found with id 1" |
| `SupplierServices.CreatesAndDeletesKeepContactsDistinct` | supplier-service/src/main/java/com/example/supplier/SupplierService.java:19-49 | over any sequence of creates and deletes, no two stored suppliers share an email or a name |
| `SupplierServices.SupplierService.CreateSupplier` | supplier-service/src/main/java/com/example/supplier/SupplierService.java:19-27 | the email check, then the name check, then the save; the result and new store are those of `Created` |
| `SupplierServices.SupplierService.UpdateSupplier` | supplier-service/src/main/java/com/example/supplier/SupplierService.java:37-45 | find, set four fields, save; the result and new store are those of `Replaced` |
| `SupplierServices.SupplierService.DeleteSupplier` | supplier-service/src/main/java/com/example/supplier/SupplierService.java:47-49 | the new store is `Removed` of the old one |
| `InventoryControllers.Response.StatusCode` | inventory-service/src/main/java/com/example/inventory/InventoryController.java:34-87 | the statuses of `ResponseEntity.ok`, `noContent`, `badRequest` and `notFound` (lines 34-35, 42-44, 51, 58, 62-64, 76-78, 86-87): 200, 204, 400 and 404, each belonging to exactly one kind of response |
| `InventoryControllers.AcceptedAmount` | inventory-service/src/main/java/com/example/inventory/InventoryController.java:56-59 | an amount is accepted exactly when the key is present, not null and positive |
| `InventoryControllers.GetProductById` | inventory-service/src/main/java/com/example/inventory/InventoryController.java:31-36 | 200 with the stored product when present, 404 otherwise |
| `InventoryControllers.UpdateProduct` | inventory-service/src/main/java/com/example/inventory/InventoryController.java:38-46 | 200 with the replaced product when the id is stored, otherwise 404 with the store unchanged |
| `InventoryControllers.DeleteProduct` | inventory-service/src/main/java/com/example/inventory/InventoryController.java:48-52 | always 204, the product is gone, every other product is kept |
| `InventoryControllers.StockResponse` | inventory-service/src/main/java/com/example/inventory/InventoryController.java:60-65 | 200 with the product exactly on success; any failure, not found or short stock, is 400 |
| `InventoryControllers.DecreaseStock` | inventory-service/src/main/java/com/example/inventory/InventoryController.java:54-66 | a rejected amount is 400 with the store untouched; otherwise 200 exactly when the product is stored with enough stock, with only its stock lowered, and 400 with the store unchanged on any failure |
| `InventoryControllers.IncreaseStock` | inventory-service/src/main/java/com/example/inventory/InventoryController.java:68-80 | a rejected amount is 400 with the store untouched; otherwise 200 exactly when the product is stored, with only its stock raised by the amount, and 400 otherwise |
| `InventoryControllers.GetProductSupplierDetails` | inventory-service/src/main/java/com/example/inventory/InventoryController.java:82-88 | 200 with the supplier exactly when the product is stored and its supplier's URL answered with a supplier; 404 for an absent product, a null answer or any failure alike |
| `InventoryControllers.StockEndpointsKeepStockNonNegative` | inventory-service/src/main/java/com/example/inventory/InventoryController.java:54-80 | over any sequence of stock requests, a store without negative stock never gets one |
| `InventoryControllers.StockEndpointsKeepCatalog` | inventory-service/src/main/java/com/example/inventory/InventoryController.java:54-80 | over any sequence of stock requests, the set of products is unchanged and every field but the stock is kept |
| `InventoryControllers.SaleThenRestock` | ApiTester.java:29-47 | a decrease of 5 and then an increase of 20 leave the stock at its initial value − 5 + 20 |
| `InventoryControllers.ShortStockRejected` | inventory-service/src/test/java/com/example/inventory/InventoryServiceTest.java:115-125 | decreasing a stock of 5 by 10 is a 400 and leaves the store, so the stock, unchanged |
| `InventoryControllers.ServiceIncreaseAcceptsNegativeAmount` | inventory-service/src/main/java/com/example/inventory/InventoryService.java:60-65 | the service's increase accepts a negative amount and can make a stock negative |
| `InventoryControllers.UpdateMayStoreNegativeStock` | inventory-service/src/main/java/com/example/inventory/InventoryService.java:38-47 | an update stores a negative stock from the request and answers 200 |

## Left out

- Java's 32-bit `int` arithmetic: the model's integers are unbounded, so it does not wrap where the source's `quantityInStock -= amount` and `+= amount` (Product.java:87, 91) do. `JavaInt` states the source's 32-bit result; `DecreaseByNonNegativeAgreesWithJava` and `IncreaseAgreesWithJava` prove where the model's result equals it, and `DecreaseByMinValueWraps` and `IncreaseOfMaxValueWraps` exhibit the two wraps described here. Each member below is stated in unbounded integers:
- `Products.StockDecreased`: does not model the wrap of a decrease by a negative amount; on a stock of 0, a decrease by `Integer.MIN_VALUE` leaves `Integer.MIN_VALUE` in the source.
- `Products.DecreaseLeavesNonNegative`: holds of the unbounded model only; in the source a decrease by `Integer.MIN_VALUE` on a stock of 0 passes the guard and leaves `Integer.MIN_VALUE`.
- `Products.Product.DecreaseStock`: does not model the 32-bit wrap of the subtraction.
- `InventoryServices.Decreased`: does not model the 32-bit wrap of the subtraction.
- `InventoryServices.InventoryService.DecreaseStock`: does not model the 32-bit wrap of the subtraction.
- `Products.StockIncreased`: does not model the wrap of a large increase to a negative stock.
- `Products.Product.IncreaseStock`: does not model the 32-bit wrap of the addition.
- `Products.IncreaseThenDecreaseRestores`: holds of the unbounded model only; in the source an increase that wraps leaves a stock the guard of the following decrease may reject.
- `InventoryServices.Increased`: does not model the 32-bit wrap of the addition.
- `InventoryServices.InventoryService.IncreaseStock`: does not model the 32-bit wrap of the addition.
- `InventoryControllers.IncreaseStock`: does not model the 32-bit wrap of the addition, nor a request `amount` beyond the `Integer` range.
- `InventoryControllers.StockEndpointsKeepStockNonNegative`: holds of the unbounded model only; in the source an increase by 1 on a stock of `Integer.MAX_VALUE` stores `Integer.MIN_VALUE`.
- `InventoryControllers.SaleThenRestock`: stated in unbounded integers; it agrees with the source whenever the initial stock plus 15 stays within the `int` range.
- Java `null`: the source's fields, identifiers and the request's `amount` are boxed and may be null. The model covers only a null or missing `amount`, which the controller rejects before the service sees it. The other nulls are not modelled. In the source they act differently: a null stock throws a `NullPointerException` when a stock method unboxes it (Product.java:84, 91); a null name is written as "null" into the short-stock message (Product.java:85); a null supplier id is written as "null" into the supplier URL (InventoryService.java:69), and the read of `.../null` decides the answer, which ends as 404.
- Identifier assignment: the database's identity column is modelled as a counter. When a create request already carries an id, the source's `save` merges into the existing row; the model always assigns a fresh id.
- `price` is a `Double` that is only ever copied. It is modelled as `real`, with no floating-point behaviour.
- The lists returned by `getAllProducts` and `getAllSuppliers` are modelled as sets; their order is unspecified in the source.
- The controller's `createProduct` and `getAllProducts`: they return the service result with status 200 and decide nothing.
- The `@ExceptionHandler` for `IllegalArgumentException` (InventoryController.java:90-93): no modelled path raises an `IllegalArgumentException` outside a try, so none reaches it.
- HTTP and JSON: routing, request bodies that fail to parse, `ResponseEntity` bodies, and the `RestTemplate` call itself. The remote read becomes the `fetch` parameter; error statuses and exceptions of that read become `Raised`.
- `SupplierDTO`, `Supplier` and the repositories are not part of this model. Their fields and queries (`existsByEmail`, `existsByName`, `findById`, `deleteById`) are inferred from their use in the services and tests. `SupplierDto` carries only the id and the name, the only fields the inventory side sets or reads.
- The supplier service's controller is not part of this model.
- The error log written when the supplier lookup fails (InventoryService.java:74).
- Concurrency: lost updates between concurrent stock adjustments are a property of the database and threads. The model is sequential.
- `ApiTester.java` is a scripted HTTP client. Only its request sequence is restated, by `SaleThenRestock`.
