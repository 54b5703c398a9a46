/**
 * The address service: the address table, the "addresses" cache in front of
 * it (no expiry) and the identity generator, with the create-versus-update
 * rules the service layer adds to the repository's upsert.
 */
module AddressService {
  import opened Model
  import opened Tables

  class AddressServiceImpl {
    /** The address table, keyed by ADDRESS_ID. */
    var store: map<AddressId, Address>
    /** The "addresses" cache; a cached `None` remembers a read that found nothing. */
    var cache: map<AddressId, Option<Address>>
    /** The next identity the generator hands out; identities are never reused. */
    var nextId: AddressId

    /**
     * Each row is stored under its own id, every id was handed out by the
     * generator, and the cache agrees with the table.
     */
    ghost predicate Valid()
      reads this
    {
      && (forall id :: id in store ==> store[id].addressId == Some(id) && id < nextId)
      && Coherent(store, cache)
    }

    constructor ()
      ensures Valid()
      ensures store == map[] && cache == map[]
    {
      store := map[];
      cache := map[];
      nextId := 1;
    }

    /** `readAll`: every stored address, one per row. */
    method ReadAll() returns (all: set<Address>)
      requires Valid()
      ensures all == store.Values
      ensures |all| == |store|
    {
      DistinctValuesCount(store);
      all := store.Values;
    }

    /**
     * `read`: the address stored under `id`, or `None`. A miss goes to the
     * table and its answer, null included, is cached under `id`.
     */
    method Read(id: AddressId) returns (found: Option<Address>)
      requires Valid()
      modifies this
      ensures Valid()
      ensures found == Find(store, id)
      ensures store == old(store) && nextId == old(nextId)
      ensures cache == old(cache)[id := found]
    {
      if id in cache {
        found := cache[id];
      } else {
        found := Find(store, id);
        cache := cache[id := found];
      }
    }

    /**
     * `create`: a record that already carries an id is refused before any
     * write; otherwise it is saved under a new id and cached under that id.
     */
    method Create(address: Address) returns (r: Result<Address, Error>)
      requires Valid()
      modifies this
      ensures Valid()
      ensures address.addressId.Some? ==> r == Failure(AlreadyExists) && unchanged(this)
      ensures address.addressId.None? ==>
        && r.Success?
        && r.value.addressId.Some?
        && var id := r.value.addressId.value;
        && id !in old(store)
        && old(nextId) <= id < nextId
        && r.value == address.(addressId := Some(id))
        && store == old(store)[id := r.value]
        && |store| == |old(store)| + 1
        && cache == old(cache)[id := Some(r.value)]
    {
      if address.addressId.Some? {
        return Failure(AlreadyExists);
      }
      var id := nextId;
      var saved := address.(addressId := Some(id));
      store := store[id := saved];
      nextId := nextId + 1;
      cache := cache[id := Some(saved)];
      r := Success(saved);
    }

    /**
     * `update`: the id must already be stored (checked against the table,
     * before any write); the whole record is then replaced under that id and
     * the cache entry refreshed.
     */
    method Update(address: Address) returns (r: Result<Address, Error>)
      requires Valid()
      modifies this
      ensures Valid()
      ensures address.addressId.None? ==> r == Failure(NullId) && unchanged(this)
      ensures address.addressId.Some? && address.addressId.value !in old(store) ==>
        r == Failure(NotFound) && unchanged(this)
      ensures address.addressId.Some? && address.addressId.value in old(store) ==>
        && var id := address.addressId.value;
        && r == Success(address)
        && store == old(store)[id := address]
        && |store| == |old(store)|
        && cache == old(cache)[id := Some(address)]
        && nextId == old(nextId)
    {
      if address.addressId.None? {
        return Failure(NullId);
      }
      var id := address.addressId.value;
      if id !in store {
        return Failure(NotFound);
      }
      store := store[id := address];
      cache := cache[id := Some(address)];
      r := Success(address);
    }

    /**
     * `delete`: removes the row and evicts its cache entry. The storage layer
     * refuses while some row of `customers` (the customer table) still points
     * at the address; the refusal leaves table and cache as they were.
     */
    method Delete(id: AddressId, customers: map<CustomerId, Customer>) returns (r: Outcome<Error>)
      requires Valid()
      modifies this
      ensures Valid()
      ensures id in old(store) && Referenced(customers, id) ==> r == Fail(IntegrityViolation)
      ensures id in old(store) && !Referenced(customers, id) ==> r == Pass
      ensures r.Pass? ==>
        && id in old(store)
        && store == old(store) - {id}
        && |store| == |old(store)| - 1
        && cache == old(cache) - {id}
        && nextId == old(nextId)
      ensures r.Fail? ==> unchanged(this)
    {
      if id !in store {
        return Fail(NotFound);
      }
      if Referenced(customers, id) {
        return Fail(IntegrityViolation);
      }
      store := store - {id};
      cache := cache - {id};
      r := Pass;
    }

    /** `evictCache`: drops every cached address; the table is untouched. */
    method EvictCache()
      requires Valid()
      modifies this
      ensures Valid()
      ensures cache == map[]
      ensures store == old(store) && nextId == old(nextId)
    {
      cache := map[];
    }
  }
}
