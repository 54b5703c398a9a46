/**
 * Client-side consequences of the service and controller contracts: the
 * sequences of calls the service tests make, proved from the contracts
 * alone.
 */
module Scenarios {
  import opened Model
  import opened Tables
  import opened AddressService
  import opened CustomerService
  import opened CustomerController

  /** Create, then read the new id back and list the table: one more row, and the read returns the created record. */
  method CreateThenRead(service: AddressServiceImpl, address: Address)
    returns (created: Result<Address, Error>, readBack: Option<Address>, count: nat)
    requires service.Valid()
    requires address.addressId.None?
    modifies service
    ensures service.Valid()
    ensures created.Success? && created.value.addressId.Some?
    ensures created.value.streetName == address.streetName
    ensures readBack == Some(created.value)
    ensures count == |old(service.store)| + 1
  {
    created := service.Create(address);
    readBack := service.Read(created.value.addressId.value);
    var all := service.ReadAll();
    count := |all|;
  }

  /** Two reads of one id with no write between them return the same answer, cached or not. */
  method ReadTwice(service: AddressServiceImpl, id: AddressId) returns (first: Option<Address>, second: Option<Address>)
    requires service.Valid()
    modifies service
    ensures service.Valid()
    ensures first == second
  {
    first := service.Read(id);
    second := service.Read(id);
  }

  /** Evicting and reading again yields the table's current row. */
  method EvictThenRead(service: AddressServiceImpl, id: AddressId) returns (found: Option<Address>)
    requires service.Valid()
    modifies service
    ensures service.Valid()
    ensures found == Find(old(service.store), id)
    ensures service.cache == map[id := found]
  {
    service.EvictCache();
    found := service.Read(id);
  }

  /**
   * Delete a stored customer, then list and read: one row fewer, and the
   * read of the deleted id finds nothing.
   */
  method DeleteThenRead(service: CustomerServiceImpl, id: CustomerId)
    returns (count: nat, readBack: Option<Customer>)
    requires service.Valid()
    requires id in service.store
    modifies service
    ensures service.Valid()
    ensures count == |old(service.store)| - 1
    ensures readBack.None?
  {
    var deleted := service.Delete(id);
    var all := service.ReadAll();
    count := |all|;
    readBack := service.Read(id);
  }

  /**
   * DELETE /address/{id} beside the customer controller: an address some
   * customer still points at is not deleted and reads back afterwards, and
   * either way every customer's link still names a stored address.
   */
  method DeleteAddress(rest: CustomerRest, id: AddressId) returns (deleted: Outcome<Error>, readBack: Option<Address>)
    requires rest.Valid()
    modifies rest.addresses
    ensures rest.Valid()
    ensures id in old(rest.addresses.store) && Referenced(rest.customers.store, id) ==>
      deleted == Fail(IntegrityViolation) && readBack == Some(old(rest.addresses.store)[id])
    ensures deleted.Pass? ==> readBack.None?
  {
    deleted := rest.addresses.Delete(id, rest.customers.store);
    readBack := rest.addresses.Read(id);
  }
}
