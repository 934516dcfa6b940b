/** The inventory service: a product store with create, read, full-replace update,
    delete and the two stock adjustments, plus the lookup of a product's supplier in the
    supplier service. */
module InventoryServices {
  import opened Wrappers
  import opened Products
  import Decimal

  /** The product repository: rows by identifier. */
  type ProductStore = map<int, ProductRow>

  /** The runtime failures the service raises. */
  datatype ServiceError = ProductNotFound(id: int) | OutOfStock(cause: StockError)

  /** The message of the exception: a missing product is named by its identifier, a
      short stock by the product's name. */
  function ErrorMessage(e: ServiceError): (m: string)
    ensures e.ProductNotFound? ==>
      |m| > 26 && m[..26] == "Product not found with id " && m[26..] == Decimal.IntToString(e.id)
    ensures e.OutOfStock? ==> m == StockErrorMessage(e.cause)
  {
    match e
    case ProductNotFound(id) => "Product not found with id " + Decimal.IntToString(id)
    case OutOfStock(cause) => StockErrorMessage(cause)
  }

  /** The "not found" message tells the identifiers apart. */
  lemma NotFoundMessageNamesId(a: int, b: int)
    requires ErrorMessage(ProductNotFound(a)) == ErrorMessage(ProductNotFound(b))
    ensures a == b
  {
    Decimal.IntToStringInjective(a, b);
  }

  /** What an operation returns, together with the store it leaves behind. */
  datatype Saved = Saved(result: Result<ProductRow, ServiceError>, products: ProductStore)

  /** Every stored row carries the identifier it is stored under. */
  ghost predicate Keyed(store: ProductStore) {
    forall id | id in store :: store[id].id == id
  }

  /** No stored product has a negative stock. */
  ghost predicate StockNonNegative(store: ProductStore) {
    forall id | id in store :: store[id].quantityInStock >= 0
  }

  /** `getProductById`: the repository's lookup, empty exactly when nothing is stored
      under the identifier. */
  function GetProductById(store: ProductStore, id: int): (r: Option<ProductRow>)
    ensures r.Some? <==> id in store
    ensures r.Some? ==> r.value == store[id]
    ensures Keyed(store) && r.Some? ==> r.value.id == id
  {
    if id in store then Some(store[id]) else None
  }

  /** `getAllProducts`: in a consistent store, exactly the products that a lookup by
      their own identifier finds, in no particular order. */
  function GetAllProducts(store: ProductStore): (all: set<ProductRow>)
    ensures Keyed(store) ==> forall p :: p in all <==> GetProductById(store, p.id) == Some(p)
  {
    set id | id in store :: store[id]
  }

  /** `createProduct`: the product is saved under a fresh identifier chosen by the store;
      nothing already stored changes. */
  function Created(store: ProductStore, newId: int, product: ProductRow): (s: Saved)
    requires newId !in store
    ensures s.result == Success(product.(id := newId))
    ensures GetProductById(s.products, newId) == Some(product.(id := newId))
    ensures forall k | k != newId :: GetProductById(s.products, k) == GetProductById(store, k)
    ensures Keyed(store) ==> Keyed(s.products)
  {
    var saved := product.(id := newId);
    Saved(Success(saved), store[newId := saved])
  }

  /** `updateProduct`: on a stored identifier, every field but the identifier is taken
      from the details and the result is saved; otherwise it fails and saves nothing. */
  function Replaced(store: ProductStore, id: int, details: ProductRow): (s: Saved)
    requires Keyed(store)
    ensures s.result.Failure? <==> id !in store
    ensures s.result.Failure? ==> s.result.error == ProductNotFound(id) && s.products == store
    ensures s.result.Success? ==>
      s.result.value == details.(id := store[id].id) && s.products == store[id := s.result.value]
  {
    match GetProductById(store, id)
    case None => Saved(Failure(ProductNotFound(id)), store)
    case Some(product) =>
      var updated := product.(name := details.name, description := details.description,
                              price := details.price, quantityInStock := details.quantityInStock,
                              supplierId := details.supplierId);
      Saved(Success(updated), store[updated.id := updated])
  }

  /** `deleteProduct`: the identifier is gone afterwards, present or not before, and every
      other product is unchanged. */
  function Removed(store: ProductStore, id: int): (after: ProductStore)
    ensures GetProductById(after, id) == None
    ensures forall k | k != id :: GetProductById(after, k) == GetProductById(store, k)
  {
    store - {id}
  }

  /** `decreaseStock`: fails on an absent product, fails on a short stock, and otherwise
      lowers the stored stock by the amount; a failure leaves the store as it was. */
  function Decreased(store: ProductStore, id: int, amount: int): (s: Saved)
    requires Keyed(store)
    ensures s.result.Success? <==> id in store && amount <= store[id].quantityInStock
    ensures id !in store ==> s.result == Failure(ProductNotFound(id))
    ensures id in store && store[id].quantityInStock < amount ==>
      s.result == Failure(OutOfStock(NotEnoughStock(store[id].name)))
    ensures s.result.Failure? ==> s.products == store
    ensures s.result.Success? ==>
      s.result.value == store[id].(quantityInStock := store[id].quantityInStock - amount) &&
      s.products == store[id := s.result.value]
  {
    match GetProductById(store, id)
    case None => Saved(Failure(ProductNotFound(id)), store)
    case Some(product) =>
      match StockDecreased(product, amount)
      case Failure(e) => Saved(Failure(OutOfStock(e)), store)
      case Success(updated) => Saved(Success(updated), store[updated.id := updated])
  }

  /** `increaseStock`: fails on an absent product, and otherwise raises the stored stock by
      exactly the amount. */
  function Increased(store: ProductStore, id: int, amount: int): (s: Saved)
    requires Keyed(store)
    ensures s.result.Success? <==> id in store
    ensures s.result.Failure? ==> s.result.error == ProductNotFound(id) && s.products == store
    ensures s.result.Success? ==>
      s.result.value == store[id].(quantityInStock := store[id].quantityInStock + amount) &&
      s.products == store[id := s.result.value]
  {
    match GetProductById(store, id)
    case None => Saved(Failure(ProductNotFound(id)), store)
    case Some(product) =>
      var updated := StockIncreased(product, amount);
      Saved(Success(updated), store[updated.id := updated])
  }

  /** The operations that change a stored row keep every row under its own identifier. */
  lemma OperationsKeepKeyed(store: ProductStore, id: int, details: ProductRow, amount: int)
    requires Keyed(store)
    ensures Keyed(Replaced(store, id, details).products)
    ensures Keyed(Removed(store, id))
    ensures Keyed(Decreased(store, id, amount).products)
    ensures Keyed(Increased(store, id, amount).products)
  {
  }

  /** Raising the stock by the amount a successful decrease took restores the store. */
  lemma DecreaseThenIncreaseRestoresStore(store: ProductStore, id: int, amount: int)
    requires Keyed(store)
    requires Decreased(store, id, amount).result.Success?
    ensures Increased(Decreased(store, id, amount).products, id, amount) == Saved(Success(store[id]), store)
  {
  }

  /** A second update with the same details changes nothing more. */
  lemma UpdateIsIdempotent(store: ProductStore, id: int, details: ProductRow)
    requires Keyed(store)
    ensures Keyed(Replaced(store, id, details).products)
    ensures var once := Replaced(store, id, details);
      Replaced(once.products, id, details) == once
  {
  }

  /** Deleting twice is the same as deleting once. */
  lemma DeleteIsIdempotent(store: ProductStore, id: int)
    ensures Removed(Removed(store, id), id) == Removed(store, id)
  {
  }

  /** A product created with a stock of 100 and then raised by 10 holds 110. */
  lemma IncreaseExample(store: ProductStore, id: int, details: ProductRow)
    requires Keyed(store) && id !in store && details.quantityInStock == 100
    ensures var created := Created(store, id, details).products;
      Increased(created, id, 10).result == Success(details.(id := id, quantityInStock := 110))
  {
  }

  /** The message of the failure on an absent product, for identifier 1. */
  lemma NotFoundMessageExample()
    ensures ErrorMessage(ProductNotFound(1)) == "Product not found with id 1"
  {
  }

  /** The supplier as the supplier service answers it; only the identifier and the name
      are ever read. */
  datatype SupplierDto = SupplierDto(id: int, name: string)

  /** What a remote read of one URL gives: an answer whose body may be null, or an
      exception (connection refused, an error status, a body that does not parse). */
  datatype RemoteRead = Answered(body: Option<SupplierDto>) | Raised(reason: string)

  /** The resource of one supplier in the supplier service: the base URL, a slash, and
      the identifier's numeral. */
  function SupplierUrl(baseUrl: string, supplierId: int): (u: string)
    ensures |u| > |baseUrl| + 1 && u[..|baseUrl|] == baseUrl && u[|baseUrl|] == '/'
    ensures u[|baseUrl| + 1..] == Decimal.IntToString(supplierId)
  {
    baseUrl + "/" + Decimal.IntToString(supplierId)
  }

  /** The URL names the supplier it was built for and no other. */
  lemma SupplierUrlInjective(baseUrl: string, a: int, b: int)
    requires SupplierUrl(baseUrl, a) == SupplierUrl(baseUrl, b)
    ensures a == b
  {
    var n := |baseUrl| + 1;
    assert SupplierUrl(baseUrl, a)[n..] == Decimal.IntToString(a);
    assert SupplierUrl(baseUrl, b)[n..] == Decimal.IntToString(b);
    Decimal.IntToStringInjective(a, b);
  }

  lemma SupplierUrlExample()
    ensures SupplierUrl("http://localhost:8082/api/suppliers", 1) == "http://localhost:8082/api/suppliers/1"
  {
  }

  /** `getSupplierDetails`: one read of the supplier's URL; a non-null answer is the
      supplier, and a null answer or any exception collapses into empty. */
  function GetSupplierDetails(supplierServiceUrl: string, supplierId: int, fetch: string -> RemoteRead)
    : (found: Option<SupplierDto>)
    ensures var read := fetch(SupplierUrl(supplierServiceUrl, supplierId));
      found.Some? <==> read.Answered? && read.body.Some?
    ensures found.Some? ==> fetch(SupplierUrl(supplierServiceUrl, supplierId)) == Answered(found)
  {
    match fetch(SupplierUrl(supplierServiceUrl, supplierId))
    case Answered(body) => body
    case Raised(_) => None
  }

  /** The inventory service with its product repository. Identifiers come from a counter,
      as the database's identity column hands them out. */
  class InventoryService {
    var products: ProductStore
    var nextId: int

    ghost predicate Valid()
      reads this
    {
      Keyed(products) && forall id | id in products :: id < nextId
    }

    constructor ()
      ensures Valid() && products == map[]
    {
      products := map[];
      nextId := 1;
    }

    /** `createProduct`: saves the product under the next identifier. */
    method CreateProduct(product: ProductRow) returns (saved: ProductRow)
      requires Valid()
      modifies this
      ensures Valid()
      ensures Saved(Success(saved), products) == Created(old(products), old(nextId), product)
      ensures nextId == old(nextId) + 1
    {
      saved := product.(id := nextId);
      products := products[saved.id := saved];
      nextId := nextId + 1;
    }

    /** `updateProduct`: find, copy the details with the setters, save. */
    method UpdateProduct(id: int, productDetails: ProductRow) returns (r: Result<ProductRow, ServiceError>)
      requires Valid()
      modifies this`products
      ensures Valid()
      ensures Saved(r, products) == Replaced(old(products), id, productDetails)
    {
      var found := GetProductById(products, id);
      if found.None? {
        return Failure(ProductNotFound(id));
      }
      var product := new Product.Load(found.value);
      product.name := productDetails.name;
      product.description := productDetails.description;
      product.price := productDetails.price;
      product.quantityInStock := productDetails.quantityInStock;
      product.supplierId := productDetails.supplierId;
      products := products[product.id := product.Row()];
      r := Success(product.Row());
    }

    /** `deleteProduct`: removes the row, if there is one. */
    method DeleteProduct(id: int)
      requires Valid()
      modifies this`products
      ensures Valid()
      ensures products == Removed(old(products), id)
    {
      products := products - {id};
    }

    /** `decreaseStock`: find, decrease on the entity, save; a failure saves nothing. */
    method DecreaseStock(productId: int, amount: int) returns (r: Result<ProductRow, ServiceError>)
      requires Valid()
      modifies this`products
      ensures Valid()
      ensures Saved(r, products) == Decreased(old(products), productId, amount)
    {
      var found := GetProductById(products, productId);
      if found.None? {
        return Failure(ProductNotFound(productId));
      }
      var product := new Product.Load(found.value);
      var outcome := product.DecreaseStock(amount);
      if outcome.Fail? {
        return Failure(OutOfStock(outcome.error));
      }
      products := products[product.id := product.Row()];
      r := Success(product.Row());
    }

    /** `increaseStock`: find, increase on the entity, save. */
    method IncreaseStock(productId: int, amount: int) returns (r: Result<ProductRow, ServiceError>)
      requires Valid()
      modifies this`products
      ensures Valid()
      ensures Saved(r, products) == Increased(old(products), productId, amount)
    {
      var found := GetProductById(products, productId);
      if found.None? {
        return Failure(ProductNotFound(productId));
      }
      var product := new Product.Load(found.value);
      product.IncreaseStock(amount);
      products := products[product.id := product.Row()];
      r := Success(product.Row());
    }
  }
}
