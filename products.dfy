/** The product entity of the inventory service: the state a product row holds and the
    two stock mutators that change it in place. */
module Products {
  import opened Wrappers

  /** A price is a boxed double in the source that is only ever copied between
      products; nothing here computes on it. */
  type Price = real

  /** The persisted state of one product. */
  datatype ProductRow = ProductRow(
    id: int,
    name: string,
    description: string,
    price: Price,
    quantityInStock: int,
    supplierId: int)

  /** The exception a decrease throws when the stock is short; it names the product. */
  datatype StockError = NotEnoughStock(productName: string)

  /** The message of the exception names the product whose stock is short. */
  function StockErrorMessage(e: StockError): (m: string)
    ensures |m| == 29 + |e.productName|
    ensures m[..29] == "Not enough stock for product " && m[29..] == e.productName
  {
    "Not enough stock for product " + e.productName
  }

  /** The effect of `decreaseStock(amount)` on a product's state: it fails exactly when
      the stock is below the amount, reporting the product's name; otherwise the stock
      drops by the amount and every other field is kept. */
  function StockDecreased(p: ProductRow, amount: int): (r: Result<ProductRow, StockError>)
    ensures r.Failure? <==> p.quantityInStock < amount
    ensures r.Failure? ==> r.error == NotEnoughStock(p.name)
    ensures r.Success? ==>
      r.value.quantityInStock == p.quantityInStock - amount &&
      r.value.(quantityInStock := p.quantityInStock) == p
  {
    if p.quantityInStock < amount then Failure(NotEnoughStock(p.name))
    else Success(p.(quantityInStock := p.quantityInStock - amount))
  }

  /** The effect of `increaseStock(amount)`: the stock grows by the amount, whatever its
      sign, and every other field is kept. */
  function StockIncreased(p: ProductRow, amount: int): (r: ProductRow)
    ensures r.quantityInStock == p.quantityInStock + amount
    ensures r.(quantityInStock := p.quantityInStock) == p
  {
    p.(quantityInStock := p.quantityInStock + amount)
  }

  /** The range of Java's `int` and `Integer`, in which the source's stock and amounts live. */
  const IntMin := -0x8000_0000
  const IntMax := 0x7fff_ffff

  predicate IsInt(x: int) {
    IntMin <= x <= IntMax
  }

  /** The guard is strict: taking the whole stock succeeds and leaves exactly zero. */
  lemma DecreaseWholeStock(p: ProductRow)
    ensures StockDecreased(p, p.quantityInStock) == Success(p.(quantityInStock := 0))
  {
  }

  /** Whatever the stock was, a successful decrease never leaves it negative. */
  lemma DecreaseLeavesNonNegative(p: ProductRow, amount: int)
    requires StockDecreased(p, amount).Success?
    ensures StockDecreased(p, amount).value.quantityInStock >= 0
  {
  }

  /** The value Java's 32-bit `int` arithmetic gives for the exact result `x`: the one
      number in the `int` range that differs from `x` by a multiple of 2^32. */
  function JavaInt(x: int): (r: int)
    ensures IsInt(r)
    ensures (x - r) % 0x1_0000_0000 == 0
    ensures IsInt(x) ==> r == x
  {
    (x - IntMin) % 0x1_0000_0000 + IntMin
  }

  /** For a stock in the `int` range and a non-negative amount, a successful decrease
      stores what the source's `quantityInStock -= amount` stores. A negative amount, which
      only the service lets through, may wrap in the source. */
  lemma DecreaseByNonNegativeAgreesWithJava(p: ProductRow, amount: int)
    requires IsInt(p.quantityInStock) && 0 <= amount
    requires StockDecreased(p, amount).Success?
    ensures StockDecreased(p, amount).value.quantityInStock == JavaInt(p.quantityInStock - amount)
  {
  }

  /** In the source a decrease by `Integer.MIN_VALUE` of an empty stock passes the guard,
      and the subtraction wraps to `Integer.MIN_VALUE`; the model stores 2^31 instead. */
  lemma DecreaseByMinValueWraps(p: ProductRow)
    requires p.quantityInStock == 0
    ensures StockDecreased(p, IntMin).Success?
    ensures JavaInt(p.quantityInStock - IntMin) == IntMin
    ensures StockDecreased(p, IntMin).value.quantityInStock != IntMin
  {
  }

  /** An increase stores what the source's `quantityInStock += amount` stores exactly when
      the sum stays within the `int` range. */
  lemma IncreaseAgreesWithJava(p: ProductRow, amount: int)
    requires IsInt(p.quantityInStock) && IsInt(amount)
    ensures StockIncreased(p, amount).quantityInStock == JavaInt(p.quantityInStock + amount)
      <==> IsInt(p.quantityInStock + amount)
  {
  }

  /** In the source an increase by 1 of a stock at `Integer.MAX_VALUE` wraps to
      `Integer.MIN_VALUE`; the model stores 2^31 instead. */
  lemma IncreaseOfMaxValueWraps(p: ProductRow)
    requires p.quantityInStock == IntMax
    ensures JavaInt(p.quantityInStock + 1) == IntMin
    ensures StockIncreased(p, 1).quantityInStock != IntMin
  {
  }

  /** Both stock operations change the quantity and no other field. */
  lemma StockOperationsChangeOnlyQuantity(p: ProductRow, amount: int)
    ensures var q := StockIncreased(p, amount);
      q.id == p.id && q.name == p.name && q.description == p.description &&
      q.price == p.price && q.supplierId == p.supplierId
    ensures StockDecreased(p, amount).Success? ==>
      var q := StockDecreased(p, amount).value;
      q.id == p.id && q.name == p.name && q.description == p.description &&
      q.price == p.price && q.supplierId == p.supplierId
  {
  }

  /** An increase by the same amount undoes a successful decrease. */
  lemma DecreaseThenIncreaseRestores(p: ProductRow, amount: int)
    requires StockDecreased(p, amount).Success?
    ensures StockIncreased(StockDecreased(p, amount).value, amount) == p
  {
  }

  /** A decrease by the same amount undoes an increase, provided the stock was not
      negative (otherwise the guard rejects the decrease). */
  lemma IncreaseThenDecreaseRestores(p: ProductRow, amount: int)
    ensures StockDecreased(StockIncreased(p, amount), amount) == Success(p) <==> p.quantityInStock >= 0
  {
  }

  /** The product entity: an object whose fields the service loads, changes and saves. */
  class Product {
    var id: int
    var name: string
    var description: string
    var price: Price
    var quantityInStock: int
    var supplierId: int

    /** The entity materialised from a stored row, as a repository lookup returns it. */
    constructor Load(row: ProductRow)
      ensures Row() == row
    {
      id := row.id;
      name := row.name;
      description := row.description;
      price := row.price;
      quantityInStock := row.quantityInStock;
      supplierId := row.supplierId;
    }

    /** The state this entity writes to its row when it is saved. */
    function Row(): (row: ProductRow)
      reads this
    {
      ProductRow(id, name, description, price, quantityInStock, supplierId)
    }

    /** `decreaseStock`: fails, changing nothing, when the stock is below the amount;
        otherwise subtracts the amount. Only the quantity may change. */
    method DecreaseStock(amount: int) returns (outcome: Outcome<StockError>)
      modifies this`quantityInStock
      ensures outcome.Fail? <==> old(quantityInStock) < amount
      ensures outcome.Fail? ==> outcome.error == NotEnoughStock(name) && quantityInStock == old(quantityInStock)
      ensures outcome.Pass? ==> quantityInStock == old(quantityInStock) - amount
      ensures StockDecreased(old(Row()), amount) ==
        if outcome.Pass? then Success(Row()) else Failure(outcome.error)
    {
      if quantityInStock < amount {
        return Fail(NotEnoughStock(name));
      }
      quantityInStock := quantityInStock - amount;
      outcome := Pass;
    }

    /** `increaseStock`: adds the amount, whatever its sign. Only the quantity changes. */
    method IncreaseStock(amount: int)
      modifies this`quantityInStock
      ensures quantityInStock == old(quantityInStock) + amount
      ensures Row() == StockIncreased(old(Row()), amount)
    {
      quantityInStock := quantityInStock + amount;
    }
  }
}
