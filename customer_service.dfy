/**
 * The customer service: the customer table, the "customers" cache in front
 * of it (entries also expire after ten idle minutes) and the identity
 * generator. Writes go through the storage layer, which keeps the customer's
 * ADDRESS_ID foreign key pointing at a stored address.
 */
module CustomerService {
  import opened Model
  import opened Tables

  /** The foreign key allows no address, or the id of a stored address. */
  predicate LinkAllowed(customer: Customer, addressIds: set<AddressId>)
  {
    customer.address.Some? ==> customer.address.value in addressIds
  }

  class CustomerServiceImpl {
    /** The customer table, keyed by CUSTOMER_ID. */
    var store: map<CustomerId, Customer>
    /** The "customers" cache; a cached `None` remembers a read that found nothing. */
    var cache: map<CustomerId, Option<Customer>>
    /** The next identity the generator hands out; identities are never reused. */
    var nextId: CustomerId

    /**
     * Each row is stored under its own id, every id was handed out by the
     * generator, and the cache agrees with the table.
     */
    ghost predicate Valid()
      reads this
    {
      && (forall id :: id in store ==> store[id].customerId == Some(id) && id < nextId)
      && Coherent(store, cache)
    }

    constructor ()
      ensures Valid()
      ensures store == map[] && cache == map[]
    {
      store := map[];
      cache := map[];
      nextId := 1;
    }

    /** `readAll`: every stored customer, one per row. */
    method ReadAll() returns (all: set<Customer>)
      requires Valid()
      ensures all == store.Values
      ensures |all| == |store|
    {
      DistinctValuesCount(store);
      all := store.Values;
    }

    /**
     * `read`: the customer stored under `id`, or `None`. A miss goes to the
     * table and its answer, null included, is cached under `id`.
     */
    method Read(id: CustomerId) returns (found: Option<Customer>)
      requires Valid()
      modifies this
      ensures Valid()
      ensures found == Find(store, id)
      ensures found.Some? ==> found.value.customerId == Some(id)
      ensures store == old(store) && nextId == old(nextId)
      ensures cache == old(cache)[id := found]
    {
      if id in cache {
        found := cache[id];
      } else {
        found := Find(store, id);
        cache := cache[id := found];
      }
    }

    /**
     * `create`: a record that already carries an id is refused before any
     * write; otherwise it is saved under a new id, keeping its name,
     * telephone number and address link, and cached under that id. The save
     * fails if the link names an address that is not in `addressIds` (the
     * keys of the address table).
     */
    method Create(customer: Customer, addressIds: set<AddressId>) returns (r: Result<Customer, Error>)
      requires Valid()
      modifies this
      ensures Valid()
      ensures customer.customerId.Some? ==> r == Failure(AlreadyExists) && unchanged(this)
      ensures customer.customerId.None? && !LinkAllowed(customer, addressIds) ==>
        r == Failure(IntegrityViolation) && unchanged(this)
      ensures customer.customerId.None? && LinkAllowed(customer, addressIds) ==>
        && r.Success?
        && r.value.customerId.Some?
        && var id := r.value.customerId.value;
        && id !in old(store)
        && old(nextId) <= id < nextId
        && r.value == customer.(customerId := Some(id))
        && store == old(store)[id := r.value]
        && |store| == |old(store)| + 1
        && cache == old(cache)[id := Some(r.value)]
    {
      if customer.customerId.Some? {
        return Failure(AlreadyExists);
      }
      if !LinkAllowed(customer, addressIds) {
        return Failure(IntegrityViolation);
      }
      var id := nextId;
      var saved := customer.(customerId := Some(id));
      store := store[id := saved];
      nextId := nextId + 1;
      cache := cache[id := Some(saved)];
      r := Success(saved);
    }

    /**
     * `update`: the id must already be stored (checked against the table,
     * before any write); the whole record is then replaced under that id and
     * the cache entry refreshed. The save fails if the link names an address
     * that is not in `addressIds`.
     */
    method Update(customer: Customer, addressIds: set<AddressId>) returns (r: Result<Customer, Error>)
      requires Valid()
      modifies this
      ensures Valid()
      ensures customer.customerId.None? ==> r == Failure(NullId) && unchanged(this)
      ensures customer.customerId.Some? && customer.customerId.value !in old(store) ==>
        r == Failure(NotFound) && unchanged(this)
      ensures customer.customerId.Some? && customer.customerId.value in old(store)
              && !LinkAllowed(customer, addressIds) ==>
        r == Failure(IntegrityViolation) && unchanged(this)
      ensures customer.customerId.Some? && customer.customerId.value in old(store)
              && LinkAllowed(customer, addressIds) ==>
        && var id := customer.customerId.value;
        && r == Success(customer)
        && store == old(store)[id := customer]
        && |store| == |old(store)|
        && cache == old(cache)[id := Some(customer)]
        && nextId == old(nextId)
    {
      if customer.customerId.None? {
        return Failure(NullId);
      }
      var id := customer.customerId.value;
      if id !in store {
        return Failure(NotFound);
      }
      if !LinkAllowed(customer, addressIds) {
        return Failure(IntegrityViolation);
      }
      store := store[id := customer];
      cache := cache[id := Some(customer)];
      r := Success(customer);
    }

    /**
     * `delete`: removes the row and evicts its cache entry. Nothing refers
     * to a customer, so a stored customer is always removed.
     */
    method Delete(id: CustomerId) returns (r: Outcome<Error>)
      requires Valid()
      modifies this
      ensures Valid()
      ensures id in old(store) ==> r == Pass
      ensures r.Pass? ==>
        && id in old(store)
        && store == old(store) - {id}
        && |store| == |old(store)| - 1
        && cache == old(cache) - {id}
        && nextId == old(nextId)
      ensures r.Fail? ==> unchanged(this)
    {
      if id !in store {
        return Fail(NotFound);
      }
      store := store - {id};
      cache := cache - {id};
      r := Pass;
    }

    /** `evictCache`: drops every cached customer; the table is untouched. */
    method EvictCache()
      requires Valid()
      modifies this
      ensures Valid()
      ensures cache == map[]
      ensures store == old(store) && nextId == old(nextId)
    {
      cache := map[];
    }

    /**
     * The cache's expiry after ten minutes without access: the entries in
     * `idle` (whichever the clock has made stale) are dropped.
     */
    method ExpireIdle(idle: set<CustomerId>)
      requires Valid()
      modifies this
      ensures Valid()
      ensures cache == old(cache) - idle
      ensures store == old(store) && nextId == old(nextId)
    {
      cache := cache - idle;
    }
  }
}
