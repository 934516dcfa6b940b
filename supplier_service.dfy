/** The supplier service: a supplier store whose create operation refuses a second
    supplier with an email or a name already in use. */
module SupplierServices {
  import opened Wrappers
  import Decimal

  /** The persisted state of one supplier. */
  datatype Supplier = Supplier(id: int, name: string, contactPerson: string, phone: string, email: string)

  /** The supplier repository: rows by identifier. */
  type SupplierStore = map<int, Supplier>

  datatype SupplierError = EmailTaken(email: string) | NameTaken(name: string) | SupplierNotFound(id: int)

  /** The message of the exception names the email, the name or the identifier at fault. */
  function ErrorMessage(e: SupplierError): (m: string)
    ensures e.EmailTaken? ==>
      |m| == 35 + |e.email| && m[..20] == "Supplier with email " &&
      m[20..|m| - 15] == e.email && m[|m| - 15..] == " already exists"
    ensures e.NameTaken? ==>
      |m| == 34 + |e.name| && m[..19] == "Supplier with name " &&
      m[19..|m| - 15] == e.name && m[|m| - 15..] == " already exists"
    ensures e.SupplierNotFound? ==>
      |m| > 27 && m[..27] == "Supplier not found with id " && m[27..] == Decimal.IntToString(e.id)
  {
    match e
    case EmailTaken(email) => "Supplier with email " + email + " already exists"
    case NameTaken(name) => "Supplier with name " + name + " already exists"
    case SupplierNotFound(id) => "Supplier not found with id " + Decimal.IntToString(id)
  }

  /** The "not found" message tells the identifiers apart. */
  lemma NotFoundMessageNamesId(a: int, b: int)
    requires ErrorMessage(SupplierNotFound(a)) == ErrorMessage(SupplierNotFound(b))
    ensures a == b
  {
    Decimal.IntToStringInjective(a, b);
  }

  /** What an operation returns, together with the store it leaves behind. */
  datatype Saved = Saved(result: Result<Supplier, SupplierError>, suppliers: SupplierStore)

  /** Every stored row carries the identifier it is stored under. */
  ghost predicate Keyed(store: SupplierStore) {
    forall id | id in store :: store[id].id == id
  }

  /** No two stored suppliers share an email or a name. */
  ghost predicate ContactsDistinct(store: SupplierStore) {
    forall a, b | a in store && b in store && a != b ::
      store[a].email != store[b].email && store[a].name != store[b].name
  }

  /** The repository's `existsByEmail`: some listed supplier has this email. */
  function ExistsByEmail(store: SupplierStore, email: string): (found: bool)
    ensures found <==> exists s | s in GetAllSuppliers(store) :: s.email == email
  {
    exists id | id in store :: store[id].email == email
  }

  /** The repository's `existsByName`: some listed supplier has this name. */
  function ExistsByName(store: SupplierStore, name: string): (found: bool)
    ensures found <==> exists s | s in GetAllSuppliers(store) :: s.name == name
  {
    exists id | id in store :: store[id].name == name
  }

  /** `getSupplierById`: the repository's lookup, empty exactly when nothing is stored
      under the identifier. */
  function GetSupplierById(store: SupplierStore, id: int): (r: Option<Supplier>)
    ensures r.Some? <==> id in store
    ensures r.Some? ==> r.value == store[id]
    ensures Keyed(store) && r.Some? ==> r.value.id == id
  {
    if id in store then Some(store[id]) else None
  }

  /** `getAllSuppliers`: in a consistent store, exactly the suppliers that a lookup by
      their own identifier finds, in no particular order. */
  function GetAllSuppliers(store: SupplierStore): (all: set<Supplier>)
    ensures Keyed(store) ==> forall s :: s in all <==> GetSupplierById(store, s.id) == Some(s)
  {
    set id | id in store :: store[id]
  }

  /** `createSupplier`: the email is checked first, then the name; either clash fails and
      saves nothing. Otherwise the supplier is saved under a fresh identifier, and a store
      without shared emails or names stays so. */
  function Created(store: SupplierStore, newId: int, supplier: Supplier): (s: Saved)
    requires newId !in store
    ensures ExistsByEmail(store, supplier.email) ==> s == Saved(Failure(EmailTaken(supplier.email)), store)
    ensures !ExistsByEmail(store, supplier.email) && ExistsByName(store, supplier.name) ==>
      s == Saved(Failure(NameTaken(supplier.name)), store)
    ensures s.result.Success? <==> !ExistsByEmail(store, supplier.email) && !ExistsByName(store, supplier.name)
    ensures s.result.Success? ==>
      s.result.value == supplier.(id := newId) && s.suppliers == store[newId := s.result.value]
    ensures ContactsDistinct(store) ==> ContactsDistinct(s.suppliers)
    ensures Keyed(store) ==> Keyed(s.suppliers)
  {
    if ExistsByEmail(store, supplier.email) then
      Saved(Failure(EmailTaken(supplier.email)), store)
    else if ExistsByName(store, supplier.name) then
      Saved(Failure(NameTaken(supplier.name)), store)
    else
      var saved := supplier.(id := newId);
      Saved(Success(saved), store[newId := saved])
  }

  /** `updateSupplier`: on a stored identifier, every field but the identifier is taken
      from the details and saved, with no uniqueness check; otherwise it fails and saves
      nothing. */
  function Replaced(store: SupplierStore, id: int, details: Supplier): (s: Saved)
    requires Keyed(store)
    ensures s.result.Failure? <==> id !in store
    ensures s.result.Failure? ==> s.result.error == SupplierNotFound(id) && s.suppliers == store
    ensures s.result.Success? ==>
      s.result.value == details.(id := id) && s.suppliers == store[id := s.result.value]
    ensures Keyed(s.suppliers)
  {
    match GetSupplierById(store, id)
    case None => Saved(Failure(SupplierNotFound(id)), store)
    case Some(supplier) =>
      var updated := supplier.(name := details.name, contactPerson := details.contactPerson,
                               phone := details.phone, email := details.email);
      Saved(Success(updated), store[updated.id := updated])
  }

  /** `deleteSupplier`: the identifier is gone afterwards and every other supplier is
      unchanged. */
  function Removed(store: SupplierStore, id: int): (after: SupplierStore)
    ensures GetSupplierById(after, id) == None
    ensures forall k | k != id :: GetSupplierById(after, k) == GetSupplierById(store, k)
  {
    store - {id}
  }

  /** When both the email and the name clash, the email is the one reported. */
  lemma EmailClashReportedFirst(store: SupplierStore, newId: int, supplier: Supplier)
    requires newId !in store
    requires ExistsByEmail(store, supplier.email) && ExistsByName(store, supplier.name)
    ensures Created(store, newId, supplier).result == Failure(EmailTaken(supplier.email))
  {
  }

  /** Update does not keep emails distinct: renaming a second supplier to the first one's
      email succeeds. */
  lemma UpdateMayDuplicateEmail()
    ensures var first := Supplier(1, "Old Name", "Old Contact", "111", "old@test.com");
      var second := Supplier(2, "Other", "Other Contact", "222", "other@test.com");
      var store := map[1 := first, 2 := second];
      var s := Replaced(store, 2, second.(email := first.email));
      ContactsDistinct(store) && s.result.Success? && !ContactsDistinct(s.suppliers)
  {
    var first := Supplier(1, "Old Name", "Old Contact", "111", "old@test.com");
    var second := Supplier(2, "Other", "Other Contact", "222", "other@test.com");
    var store := map[1 := first, 2 := second];
    var after := Replaced(store, 2, second.(email := first.email)).suppliers;
    assert after[1].email == after[2].email;
  }

  lemma NotFoundMessageExample()
    ensures ErrorMessage(SupplierNotFound(1)) == "Supplier not found with id 1"
  {
  }

  /** The client-side commands that reach the supplier store. */
  datatype Command = Create(supplier: Supplier) | Update(id: int, details: Supplier) | Delete(id: int)

  /** The store and the identifier counter after one command. */
  function Step(store: SupplierStore, nextId: int, c: Command): (after: (SupplierStore, int))
    requires Keyed(store) && nextId !in store
  {
    match c
    case Create(supplier) =>
      var s := Created(store, nextId, supplier);
      (s.suppliers, if s.result.Success? then nextId + 1 else nextId)
    case Update(id, details) => (Replaced(store, id, details).suppliers, nextId)
    case Delete(id) => (Removed(store, id), nextId)
  }

  /** Every identifier in the store was handed out before the counter's current value. */
  ghost predicate Issued(store: SupplierStore, nextId: int) {
    Keyed(store) && forall id | id in store :: id < nextId
  }

  /** The store after a sequence of commands. */
  function Run(store: SupplierStore, nextId: int, cs: seq<Command>): (final: SupplierStore)
    requires Issued(store, nextId)
    decreases |cs|
  {
    if cs == [] then store
    else
      StepKeepsIssued(store, nextId, cs[0]);
      var (store', nextId') := Step(store, nextId, cs[0]);
      Run(store', nextId', cs[1..])
  }

  lemma StepKeepsIssued(store: SupplierStore, nextId: int, c: Command)
    requires Issued(store, nextId)
    ensures Issued(Step(store, nextId, c).0, Step(store, nextId, c).1)
  {
  }

  /** As long as no command is an update, creates and deletes never let two suppliers
      share an email or a name. */
  lemma {:induction false} CreatesAndDeletesKeepContactsDistinct(store: SupplierStore, nextId: int, cs: seq<Command>)
    requires Issued(store, nextId) && ContactsDistinct(store)
    requires forall i | 0 <= i < |cs| :: !cs[i].Update?
    ensures ContactsDistinct(Run(store, nextId, cs))
    decreases |cs|
  {
    if cs != [] {
      var (store', nextId') := Step(store, nextId, cs[0]);
      StepKeepsIssued(store, nextId, cs[0]);
      assert ContactsDistinct(store');
      CreatesAndDeletesKeepContactsDistinct(store', nextId', cs[1..]);
    }
  }

  /** The supplier service with its repository; identifiers come from a counter. */
  class SupplierService {
    var suppliers: SupplierStore
    var nextId: int

    ghost predicate Valid()
      reads this
    {
      Issued(suppliers, nextId)
    }

    constructor ()
      ensures Valid() && suppliers == map[]
    {
      suppliers := map[];
      nextId := 1;
    }

    /** `createSupplier`: the two uniqueness checks, then the save. */
    method CreateSupplier(supplier: Supplier) returns (r: Result<Supplier, SupplierError>)
      requires Valid()
      modifies this
      ensures Valid()
      ensures Saved(r, suppliers) == Created(old(suppliers), old(nextId), supplier)
      ensures nextId == if r.Success? then old(nextId) + 1 else old(nextId)
    {
      if ExistsByEmail(suppliers, supplier.email) {
        return Failure(EmailTaken(supplier.email));
      }
      if ExistsByName(suppliers, supplier.name) {
        return Failure(NameTaken(supplier.name));
      }
      var saved := supplier.(id := nextId);
      suppliers := suppliers[saved.id := saved];
      nextId := nextId + 1;
      r := Success(saved);
    }

    /** `updateSupplier`: find, copy the details with the setters, save. */
    method UpdateSupplier(id: int, supplierDetails: Supplier) returns (r: Result<Supplier, SupplierError>)
      requires Valid()
      modifies this`suppliers
      ensures Valid()
      ensures Saved(r, suppliers) == Replaced(old(suppliers), id, supplierDetails)
    {
      var found := GetSupplierById(suppliers, id);
      if found.None? {
        return Failure(SupplierNotFound(id));
      }
      var supplier := found.value;
      supplier := supplier.(name := supplierDetails.name);
      supplier := supplier.(contactPerson := supplierDetails.contactPerson);
      supplier := supplier.(phone := supplierDetails.phone);
      supplier := supplier.(email := supplierDetails.email);
      suppliers := suppliers[supplier.id := supplier];
      r := Success(supplier);
    }

    /** `deleteSupplier`: removes the row, if there is one. */
    method DeleteSupplier(id: int)
      requires Valid()
      modifies this`suppliers
      ensures Valid()
      ensures suppliers == Removed(old(suppliers), id)
    {
      suppliers := suppliers - {id};
    }
  }
}
