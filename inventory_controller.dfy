/** The inventory service's HTTP handlers, as functions from a request and the product
    store to a response and the store the service leaves behind. Status codes are values
    of `Response`; routing and bodies on the wire are not modelled. */
module InventoryControllers {
  import opened Wrappers
  import opened Products
  import S = InventoryServices

  /** The responses the handlers build: 200 with a body, 204, 400 and 404. */
  datatype Response<T> = Ok(body: T) | NoContent | BadRequest | NotFound {
    /** The HTTP status of the response; each kind of response has its own. */
    function StatusCode(): (code: int)
      ensures code == 200 <==> this.Ok?
      ensures code == 204 <==> this.NoContent?
      ensures code == 400 <==> this.BadRequest?
      ensures code == 404 <==> this.NotFound?
    {
      match this
      case Ok(_) => 200
      case NoContent => 204
      case BadRequest => 400
      case NotFound => 404
    }
  }

  /** A stock request body: JSON keys mapped to integers, or to null. */
  type Payload = map<string, Option<int>>

  /** A response together with the product store the service left behind. */
  datatype Handled = Handled(response: Response<ProductRow>, products: S.ProductStore)

  /** The `amount` of a stock request, when it is present, not null and positive. */
  function AcceptedAmount(payload: Payload): (amount: Option<int>)
    ensures amount.Some? <==> "amount" in payload && payload["amount"].Some? && payload["amount"].value > 0
    ensures amount.Some? ==> payload["amount"] == amount
  {
    var given := if "amount" in payload then payload["amount"] else None;
    if given.None? || given.value <= 0 then None else given
  }

  /** `GET /{id}`: 200 with the product when it is stored, 404 otherwise. */
  function GetProductById(store: S.ProductStore, id: int): (r: Response<ProductRow>)
    ensures r.Ok? || r.NotFound?
    ensures r.Ok? <==> id in store
    ensures r.Ok? ==> r.body == store[id]
  {
    match S.GetProductById(store, id)
    case Some(product) => Ok(product)
    case None => NotFound
  }

  /** `PUT /{id}`: 200 with the replaced product, or 404 with nothing saved. */
  function UpdateProduct(store: S.ProductStore, id: int, details: ProductRow): (h: Handled)
    requires S.Keyed(store)
    ensures h.response.Ok? || h.response.NotFound?
    ensures h.response.Ok? <==> id in store
    ensures h.response.NotFound? ==> h.products == store
    ensures h.response.Ok? ==>
      h.response.body == details.(id := id) && h.products == store[id := h.response.body]
  {
    var saved := S.Replaced(store, id, details);
    match saved.result
    case Success(product) => Handled(Ok(product), saved.products)
    case Failure(_) => Handled(NotFound, saved.products)
  }

  /** `DELETE /{id}`: always 204, and the product is gone afterwards. */
  function DeleteProduct(store: S.ProductStore, id: int): (h: Handled)
    ensures h.response.StatusCode() == 204
    ensures id !in h.products
    ensures forall k | k in store && k != id :: k in h.products && h.products[k] == store[k]
    ensures h.products.Keys <= store.Keys
  {
    Handled(NoContent, S.Removed(store, id))
  }

  /** The status of a stock operation: 200 with the product on success; any failure, an
      absent product or a short stock alike, is 400. */
  function StockResponse(result: Result<ProductRow, S.ServiceError>): (r: Response<ProductRow>)
    ensures r.Ok? || r.BadRequest?
    ensures r.Ok? <==> result.Success?
    ensures r.Ok? ==> r.body == result.value
  {
    match result
    case Success(product) => Ok(product)
    case Failure(_) => BadRequest
  }

  /** `POST /{id}/decreaseStock`: a missing or non-positive amount is 400 before the
      service is reached; otherwise the service's outcome decides. */
  function DecreaseStock(store: S.ProductStore, productId: int, payload: Payload): (h: Handled)
    requires S.Keyed(store)
    ensures h.response.Ok? || h.response.BadRequest?
    ensures AcceptedAmount(payload).None? ==> h == Handled(BadRequest, store)
    ensures h.response.Ok? <==>
      AcceptedAmount(payload).Some? && productId in store &&
      AcceptedAmount(payload).value <= store[productId].quantityInStock
    ensures h.response.BadRequest? ==> h.products == store
    ensures h.response.Ok? ==>
      var before := store[productId];
      h.response.body == before.(quantityInStock := before.quantityInStock - AcceptedAmount(payload).value) &&
      h.products == store[productId := h.response.body]
  {
    match AcceptedAmount(payload)
    case None => Handled(BadRequest, store)
    case Some(amount) =>
      var saved := S.Decreased(store, productId, amount);
      Handled(StockResponse(saved.result), saved.products)
  }

  /** `POST /{id}/increaseStock`: a missing or non-positive amount is 400 before the
      service is reached; otherwise 200 exactly when the product is stored. */
  function IncreaseStock(store: S.ProductStore, productId: int, payload: Payload): (h: Handled)
    requires S.Keyed(store)
    ensures h.response.Ok? || h.response.BadRequest?
    ensures AcceptedAmount(payload).None? ==> h == Handled(BadRequest, store)
    ensures h.response.Ok? <==> AcceptedAmount(payload).Some? && productId in store
    ensures h.response.BadRequest? ==> h.products == store
    ensures h.response.Ok? ==>
      var before := store[productId];
      h.response.body == before.(quantityInStock := before.quantityInStock + AcceptedAmount(payload).value) &&
      h.products == store[productId := h.response.body]
  {
    match AcceptedAmount(payload)
    case None => Handled(BadRequest, store)
    case Some(amount) =>
      var saved := S.Increased(store, productId, amount);
      Handled(StockResponse(saved.result), saved.products)
  }

  /** `GET /{id}/supplier`: the product lookup chained into the supplier lookup; 200 with
      the supplier only when the product is stored and its supplier's URL answered with a
      supplier, 404 for every other case. */
  function GetProductSupplierDetails(store: S.ProductStore, supplierServiceUrl: string, productId: int,
                                     fetch: string -> S.RemoteRead): (r: Response<S.SupplierDto>)
    ensures r.Ok? || r.NotFound?
    ensures r.Ok? <==>
      productId in store &&
      var read := fetch(S.SupplierUrl(supplierServiceUrl, store[productId].supplierId));
      read.Answered? && read.body.Some?
    ensures r.Ok? ==>
      fetch(S.SupplierUrl(supplierServiceUrl, store[productId].supplierId)) == S.Answered(Some(r.body))
  {
    match S.GetProductById(store, productId)
    case None => NotFound
    case Some(product) =>
      match S.GetSupplierDetails(supplierServiceUrl, product.supplierId, fetch)
      case None => NotFound
      case Some(supplier) => Ok(supplier)
  }

  /** A request to one of the two stock endpoints. */
  datatype StockRequest =
    | DecreaseRequest(productId: int, payload: Payload)
    | IncreaseRequest(productId: int, payload: Payload)

  function Handle(store: S.ProductStore, request: StockRequest): (h: Handled)
    requires S.Keyed(store)
  {
    match request
    case DecreaseRequest(id, payload) => DecreaseStock(store, id, payload)
    case IncreaseRequest(id, payload) => IncreaseStock(store, id, payload)
  }

  lemma HandleKeepsKeyed(store: S.ProductStore, request: StockRequest)
    requires S.Keyed(store)
    ensures S.Keyed(Handle(store, request).products)
  {
  }

  /** The store after the stock endpoints have served a sequence of requests. */
  function Serve(store: S.ProductStore, requests: seq<StockRequest>): (final: S.ProductStore)
    requires S.Keyed(store)
    decreases |requests|
  {
    if requests == [] then store
    else
      HandleKeepsKeyed(store, requests[0]);
      Serve(Handle(store, requests[0]).products, requests[1..])
  }

  /** Through the stock endpoints, no stock ever becomes negative: the controller admits
      only positive amounts, and a decrease never takes more than there is. */
  lemma {:induction false} StockEndpointsKeepStockNonNegative(store: S.ProductStore, requests: seq<StockRequest>)
    requires S.Keyed(store) && S.StockNonNegative(store)
    ensures S.StockNonNegative(Serve(store, requests))
    decreases |requests|
  {
    if requests != [] {
      HandleKeepsKeyed(store, requests[0]);
      var next := Handle(store, requests[0]).products;
      assert S.StockNonNegative(next);
      StockEndpointsKeepStockNonNegative(next, requests[1..]);
    }
  }

  /** The stock endpoints neither add nor remove products, and change nothing in a product
      but its stock. */
  lemma {:induction false} StockEndpointsKeepCatalog(store: S.ProductStore, requests: seq<StockRequest>)
    requires S.Keyed(store)
    ensures Serve(store, requests).Keys == store.Keys
    ensures forall id | id in store ::
      Serve(store, requests)[id] == store[id].(quantityInStock := Serve(store, requests)[id].quantityInStock)
    decreases |requests|
  {
    if requests != [] {
      HandleKeepsKeyed(store, requests[0]);
      var next := Handle(store, requests[0]).products;
      assert next.Keys == store.Keys;
      StockEndpointsKeepCatalog(next, requests[1..]);
    }
  }

  /** A sale of 5 followed by a restock of 20 leaves the stock 15 higher. */
  lemma SaleThenRestock(store: S.ProductStore, id: int)
    requires S.Keyed(store) && id in store && store[id].quantityInStock >= 5
    ensures var final := Serve(store, [DecreaseRequest(id, map["amount" := Some(5)]),
                                       IncreaseRequest(id, map["amount" := Some(20)])]);
      id in final && final[id].quantityInStock == store[id].quantityInStock - 5 + 20
  {
    var sale := DecreaseRequest(id, map["amount" := Some(5)]);
    var restock := IncreaseRequest(id, map["amount" := Some(20)]);
    var afterSale := Handle(store, sale).products;
    assert AcceptedAmount(map["amount" := Some(5)]) == Some(5);
    assert AcceptedAmount(map["amount" := Some(20)]) == Some(20);
    assert afterSale[id].quantityInStock == store[id].quantityInStock - 5;
    var afterRestock := Handle(afterSale, restock).products;
    assert [sale, restock][1..] == [restock];
    assert Serve(store, [sale, restock]) == Serve(afterSale, [restock]);
    assert Serve(afterSale, [restock]) == Serve(afterRestock, []);
  }

  /** A decrease of 10 with 5 in stock is a 400 and the stock stays 5. */
  lemma ShortStockRejected(store: S.ProductStore, id: int)
    requires S.Keyed(store) && id in store && store[id].quantityInStock == 5
    ensures DecreaseStock(store, id, map["amount" := Some(10)]) == Handled(BadRequest, store)
  {
  }

  /** The service itself does not check the sign of the amount: an increase by -1 of an
      empty stock succeeds and leaves it negative. Only the controller's validation keeps
      this from the stock endpoints. */
  lemma ServiceIncreaseAcceptsNegativeAmount(p: ProductRow)
    requires p.quantityInStock == 0
    ensures var s := S.Increased(map[p.id := p], p.id, -1);
      s.result.Success? && !S.StockNonNegative(s.products)
  {
    assert S.Increased(map[p.id := p], p.id, -1).products[p.id].quantityInStock == -1;
  }

  /** The update endpoint copies the stock from the request as it is, negative or not. */
  lemma UpdateMayStoreNegativeStock(p: ProductRow, details: ProductRow)
    requires details.quantityInStock < 0
    ensures var h := UpdateProduct(map[p.id := p], p.id, details);
      h.response.Ok? && !S.StockNonNegative(h.products)
  {
    assert UpdateProduct(map[p.id := p], p.id, details).products[p.id].quantityInStock < 0;
  }
}
