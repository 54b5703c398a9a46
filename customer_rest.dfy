/**
 * The customer REST controller: the logic between the HTTP request and the
 * two services. It re-resolves a posted customer's embedded address by id,
 * relinks a customer to an address, and maps service results to HTTP
 * statuses. Routing and JSON mapping are not modelled.
 */
module CustomerController {
  import opened Model
  import opened Tables
  import opened AddressService
  import opened CustomerService

  type HttpStatus = nat

  const OK: HttpStatus := 200
  const CREATED: HttpStatus := 201
  const NO_CONTENT: HttpStatus := 204
  const NOT_FOUND: HttpStatus := 404
  /** Every exception that reaches the controller unhandled. */
  const INTERNAL_SERVER_ERROR: HttpStatus := 500

  /** An HTTP response: a status and, possibly, a JSON body. */
  datatype Response<+T> = Response(status: HttpStatus, body: Option<T>)

  /** A customer as a client posts it: the address arrives as a whole embedded record. */
  datatype CustomerBody = CustomerBody(
    customerId: Option<CustomerId>,
    name: Option<string>,
    telephoneNumber: Option<string>,
    address: Option<Address>)

  /** An embedded address in a posted body carries an id, or there is none. */
  predicate EmbeddedHasId(body: CustomerBody)
  {
    body.address.Some? ==> body.address.value.addressId.Some?
  }

  /**
   * The row the ORM saves for a posted body: the embedded address counts
   * only through its id (the association is not cascaded).
   */
  function AsRow(body: CustomerBody): Customer
    requires EmbeddedHasId(body)
  {
    Customer(body.customerId, body.name, body.telephoneNumber,
             if body.address.None? then None else body.address.value.addressId)
  }

  /**
   * The address link that reading `id` through the address service yields:
   * the id itself when an address is stored under it, and null otherwise.
   */
  function ResolveLink(id: AddressId, addresses: map<AddressId, Address>): (link: Option<AddressId>)
    ensures link.Some? <==> id in addresses
    ensures link.Some? ==> link.value == id
  {
    if id in addresses then Some(id) else None
  }

  /** `getCustomer`'s status: 404 with no body when the read found nothing, else 200 with the record. */
  function ReadResponse(found: Option<Customer>): (resp: Response<Customer>)
    ensures resp.status == NOT_FOUND <==> found.None?
    ensures resp.status == OK <==> found.Some?
    ensures resp.body == found
  {
    match found
    case None => Response(NOT_FOUND, None)
    case Some(c) => Response(OK, Some(c))
  }

  /**
   * `updateCustomer`'s status: 200 with the updated record, 500 with no body
   * when the service produced nothing (it threw, or returned null).
   */
  function UpdateResponse(updated: Result<Customer, Error>): (resp: Response<Customer>)
    ensures resp.status == OK <==> updated.Success?
    ensures resp.status == INTERNAL_SERVER_ERROR <==> updated.Failure?
    ensures updated.Success? ==> resp.body == Some(updated.value)
    ensures updated.Failure? ==> resp.body.None?
  {
    match updated
    case Failure(_) => Response(INTERNAL_SERVER_ERROR, None)
    case Success(c) => Response(OK, Some(c))
  }

  class CustomerRest {
    const customers: CustomerServiceImpl
    const addresses: AddressServiceImpl

    /** Both services are consistent and every customer's link names a stored address. */
    ghost predicate Valid()
      reads this, customers, addresses
    {
      && customers.Valid()
      && addresses.Valid()
      && Linked(customers.store, addresses.store)
    }

    constructor (customers: CustomerServiceImpl, addresses: AddressServiceImpl)
      requires customers.Valid() && addresses.Valid()
      requires Linked(customers.store, addresses.store)
      ensures Valid()
      ensures this.customers == customers && this.addresses == addresses
    {
      this.customers := customers;
      this.addresses := addresses;
    }

    /** GET /customer: 200 with every stored customer (possibly none). */
    method GetCustomers() returns (resp: Response<set<Customer>>)
      requires Valid()
      ensures resp.status == OK
      ensures resp.body.Some? && resp.body.value == customers.store.Values
      ensures |resp.body.value| == |customers.store|
    {
      var all := customers.ReadAll();
      resp := Response(OK, Some(all));
    }

    /** GET /customer/{id}: 200 with the stored customer, or 404 with no body. */
    method GetCustomer(id: CustomerId) returns (resp: Response<Customer>)
      requires Valid()
      modifies customers
      ensures Valid()
      ensures id in customers.store ==> resp == Response(OK, Some(customers.store[id]))
      ensures id !in customers.store ==> resp == Response(NOT_FOUND, None)
      ensures customers.store == old(customers.store) && customers.nextId == old(customers.nextId)
      ensures customers.cache == old(customers.cache)[id := Find(customers.store, id)]
    {
      var found := customers.Read(id);
      resp := ReadResponse(found);
    }

    /**
     * POST /customer: an embedded address is replaced by what the address
     * service reads under its id (the id when stored, null otherwise); its
     * other fields are discarded. The customer is then created: 201 with the
     * record, or 500 when the body carries a customer id or an embedded
     * address without an id.
     */
    method CreateCustomer(body: CustomerBody) returns (resp: Response<Customer>)
      requires Valid()
      modifies customers, addresses
      ensures Valid()
      ensures addresses.store == old(addresses.store) && addresses.nextId == old(addresses.nextId)
      ensures addresses.cache ==
        if body.address.Some? && body.address.value.addressId.Some?
        then old(addresses.cache)[body.address.value.addressId.value :=
                                  Find(addresses.store, body.address.value.addressId.value)]
        else old(addresses.cache)
      ensures resp.status == CREATED <==> body.customerId.None? && EmbeddedHasId(body)
      ensures resp.status != CREATED ==>
        && resp == Response(INTERNAL_SERVER_ERROR, None)
        && unchanged(customers)
      ensures resp.status == CREATED ==>
        && resp.body.Some?
        && var c := resp.body.value;
        && c.customerId.Some?
        && c.customerId.value !in old(customers.store)
        && old(customers.nextId) <= c.customerId.value < customers.nextId
        && c.name == body.name
        && c.telephoneNumber == body.telephoneNumber
        && c.address == (if body.address.None? then None
                         else ResolveLink(body.address.value.addressId.value, addresses.store))
        && customers.store == old(customers.store)[c.customerId.value := c]
        && customers.cache == old(customers.cache)[c.customerId.value := Some(c)]
    {
      var link: Option<AddressId> := None;
      if body.address.Some? {
        var embedded := body.address.value;
        if embedded.addressId.None? {
          return Response(INTERNAL_SERVER_ERROR, None);
        }
        var found := addresses.Read(embedded.addressId.value);
        link := if found.Some? then embedded.addressId else None;
      }
      var customer := Customer(body.customerId, body.name, body.telephoneNumber, link);
      var created := customers.Create(customer, addresses.store.Keys);
      if created.Failure? {
        return Response(INTERNAL_SERVER_ERROR, None);
      }
      resp := Response(CREATED, Some(created.value));
    }

    /**
     * PUT /customer: a full replacement through the service; 200 with the
     * record, or 500 when the id is null or unknown, the embedded address has
     * no id (the ORM refuses the unsaved reference), or the link names no
     * stored address.
     */
    method UpdateCustomer(body: CustomerBody) returns (resp: Response<Customer>)
      requires Valid()
      modifies customers
      ensures Valid()
      ensures resp.status == OK <==>
        && EmbeddedHasId(body)
        && body.customerId.Some?
        && body.customerId.value in old(customers.store)
        && LinkAllowed(AsRow(body), addresses.store.Keys)
      ensures resp.status == OK ==>
        && var row := AsRow(body);
        && row.customerId == body.customerId
        && row.name == body.name
        && row.telephoneNumber == body.telephoneNumber
        && resp.body == Some(row)
        && customers.store == old(customers.store)[body.customerId.value := row]
        && customers.cache == old(customers.cache)[body.customerId.value := Some(row)]
        && customers.nextId == old(customers.nextId)
      ensures resp.status != OK ==>
        resp == Response(INTERNAL_SERVER_ERROR, None) && unchanged(customers)
    {
      if !EmbeddedHasId(body) {
        return Response(INTERNAL_SERVER_ERROR, None);
      }
      var updated := customers.Update(AsRow(body), addresses.store.Keys);
      resp := UpdateResponse(updated);
    }

    /**
     * PUT /customer/{customerId}/address/{addressId}: an unknown customer
     * gives 500 and nothing is saved. Otherwise the customer's link becomes
     * what the address service reads under `addressId` (null when nothing is
     * stored there), every other field is kept, the record is saved through
     * `update`, and the response is 200 with it.
     */
    method UpdateCustomerAddress(customerId: CustomerId, addressId: AddressId) returns (resp: Response<Customer>)
      requires Valid()
      modifies customers, addresses
      ensures Valid()
      ensures addresses.store == old(addresses.store) && addresses.nextId == old(addresses.nextId)
      ensures customers.nextId == old(customers.nextId)
      ensures customerId !in old(customers.store) ==>
        && resp == Response(INTERNAL_SERVER_ERROR, None)
        && customers.store == old(customers.store)
        && customers.cache == old(customers.cache)[customerId := None]
        && addresses.cache == old(addresses.cache)
      ensures customerId in old(customers.store) ==>
        addresses.cache == old(addresses.cache)[addressId := Find(addresses.store, addressId)]
      ensures customerId in old(customers.store) ==>
        && var before := old(customers.store)[customerId];
        && var after := before.(address := ResolveLink(addressId, addresses.store));
        && after.customerId == Some(customerId)
        && resp == Response(OK, Some(after))
        && customers.store == old(customers.store)[customerId := after]
        && customers.cache == old(customers.cache)[customerId := Some(after)]
    {
      var current := customers.Read(customerId);
      if current.None? {
        return Response(INTERNAL_SERVER_ERROR, None);
      }
      var found := addresses.Read(addressId);
      var relinked := current.value.(address := if found.Some? then Some(addressId) else None);
      var updated := customers.Update(relinked, addresses.store.Keys);
      resp := Response(OK, Some(updated.value));
    }

    /**
     * DELETE /customer/{id}: 204 with no body once the row is gone; a stored
     * customer is always removed.
     */
    method DeleteCustomer(id: CustomerId) returns (resp: Response<Customer>)
      requires Valid()
      modifies customers
      ensures Valid()
      ensures id in old(customers.store) ==> resp == Response(NO_CONTENT, None)
      ensures resp.status == NO_CONTENT ==>
        && resp.body.None?
        && customers.store == old(customers.store) - {id}
        && customers.cache == old(customers.cache) - {id}
        && customers.nextId == old(customers.nextId)
        && id !in customers.store
      ensures resp.status != NO_CONTENT ==>
        resp == Response(INTERNAL_SERVER_ERROR, None) && unchanged(customers)
    {
      var deleted := customers.Delete(id);
      if deleted.Fail? {
        return Response(INTERNAL_SERVER_ERROR, None);
      }
      resp := Response(NO_CONTENT, None);
    }
  }
}
