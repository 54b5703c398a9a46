/**
 * The persistent records of the CRUD service (the `address` and `customer`
 * tables), the failures the service layer raises, and the foreign key that
 * links a customer to its address.
 */
module Model {

  datatype Option<+T> = None | Some(value: T)

  datatype Result<+T, +E> = Success(value: T) | Failure(error: E)

  /** Outcome of an operation that returns nothing (`void`) or throws. */
  datatype Outcome<+E> = Pass | Fail(error: E)

  /** Surrogate keys (`Long`, column ADDRESS_ID / CUSTOMER_ID); a client may ask for any value. */
  type AddressId = int
  type CustomerId = int

  /** An address row; every attribute is optional free text. */
  datatype Address = Address(
    addressId: Option<AddressId>,
    city: Option<string>,
    country: Option<string>,
    streetName: Option<string>,
    streetNumber: Option<string>,
    streetType: Option<string>,
    suburb: Option<string>)

  /**
   * A customer row. The address is held as the value of the ADDRESS_ID
   * foreign key, not as a copy of the address record.
   */
  datatype Customer = Customer(
    customerId: Option<CustomerId>,
    name: Option<string>,
    telephoneNumber: Option<string>,
    address: Option<AddressId>)

  /** The exceptions that leave the service layer. */
  datatype Error =
    | AlreadyExists       // EntityExistsException: create given a record that has an id
    | NotFound            // NoResultException: update of an id that is not stored
    | NullId              // a lookup by a null id, refused by the cache and repository
    | IntegrityViolation  // the storage layer's foreign-key constraint FK_ADDRESS

  /** Some customer row still points at address `id`. */
  predicate Referenced(customers: map<CustomerId, Customer>, id: AddressId)
  {
    exists k :: k in customers && customers[k].address == Some(id)
  }

  /** Referential integrity: every customer's address key names a stored address. */
  ghost predicate Linked(customers: map<CustomerId, Customer>, addresses: map<AddressId, Address>)
  {
    forall k :: k in customers && customers[k].address.Some? ==> customers[k].address.value in addresses
  }

  /**
   * Removing an address that no customer references keeps referential
   * integrity, and removing a referenced one would break it.
   */
  lemma RemoveAddressKeepsLinked(customers: map<CustomerId, Customer>, addresses: map<AddressId, Address>, id: AddressId)
    requires Linked(customers, addresses)
    requires id in addresses
    ensures Linked(customers, addresses - {id}) <==> !Referenced(customers, id)
  {
  }
}
