# REST CRUD service for customers and addresses — a Dafny model

A model of the service and controller logic of a Spring Boot CRUD service
over two tables, `address` and `customer`. A customer optionally points at
an address through the ADDRESS_ID foreign key.

- `model.dfy` (module `Model`): the `Address` and `Customer` records. The
  customer's address is an `Option<AddressId>` foreign-key value, not an
  embedded copy. Also here: the service errors, and the foreign-key
  predicates `Referenced` and `Linked`.
- `tables.dfy` (module `Tables`): a repository table as a `map` from id to
  row. `Find` is `findOne`, `Values` is `findAll`, update is `save`,
  removal is `delete`. `Coherent` relates a table to the cache in front of
  it. A cache maps an id to an `Option`: Spring's `@Cacheable` over a Guava
  cache also remembers a `null` answer.
- `address_service.dfy` (class `AddressService.AddressServiceImpl`) and
  `customer_service.dfy` (class `CustomerService.CustomerServiceImpl`): each
  service is a class whose fields are its table, its cache and its identity
  generator. Methods change them in place.
  - `Valid()` says three things: each row is stored under its own id, every
    id is below the generator, and the cache is coherent with the table.
  - A call that throws changes nothing. `@CachePut` and `@CacheEvict` run
    only after a method returns normally. A foreign-key refusal is treated as
    a throw too (see "## Left out").
  - `update` checks existence against the table, not the cache. Its call
    to `read` is a self-call, so it bypasses the caching proxy.
- `customer_rest.dfy` (class `CustomerController.CustomerRest`): the
  controller holds both services. Its invariant adds referential integrity:
  every customer's link names a stored address. Status selection is done by
  plain functions of the service result.
- `scenarios.dfy` (module `Scenarios`): call sequences from the service
  tests and the documented address-delete behaviour. They are proved from
  the contracts alone.

The storage layer enforces the foreign key in both directions:
- `AddressServiceImpl.Delete` is given the customer table and refuses while
  any customer still points at the address.
- `CustomerServiceImpl.Create` and `Update` are given the set of address ids
  and refuse a link to an address that is not stored.

Status codes:
- Every service exception reaches the client as HTTP 500, including create
  with a preset id. The 409 handlers (AddressREST.java:196-200,
  CustomerREST.java:237-241) catch exception classes the services never
  throw.
- A posted customer's embedded address is re-resolved in `createCustomer`
  (CustomerREST.java:120-127).
- `updateCustomerAddress` on an unknown customer returns 500 with no body
  (CustomerREST.java:186-190).

## Model

| member | source | states |
|---|---|---|
| `Model.RemoveAddressKeepsLinked` | src/main/java/com/teo/crud/data/model/Customer.java:13-14 | removing a stored address keeps every customer link valid exactly when no customer references it |
| `Tables.Find` | src/main/java/com/teo/crud/data/service/AddressServiceImpl.java:66 | `findOne` finds a row exactly when the id is stored, and then returns that row |
| `Tables.DistinctValuesCount` | src/main/java/com/teo/crud/data/service/AddressServiceImpl.java:44-51 | when no two keys hold the same row, `findAll` returns exactly as many rows as the table holds |
| `AddressService.AddressServiceImpl.ReadAll` | src/main/java/com/teo/crud/data/service/AddressServiceImpl.java:42-51 | returns exactly the stored addresses, one per row, so its size is the table's size |
| `AddressService.AddressServiceImpl.Read` | src/main/java/com/teo/crud/data/service/AddressServiceImpl.java:60-70 | returns the stored address or `None`, never fails; table unchanged; the answer (null included) is cached under the id; coherence kept |
| `AddressService.AddressServiceImpl.Create` | src/main/java/com/teo/crud/data/service/AddressServiceImpl.java:79-98 | a preset id fails with AlreadyExists and nothing changes; otherwise the record gets an id not previously stored, every other field is kept, the table grows by one and the cache maps the new id to the result |
| `AddressService.AddressServiceImpl.Update` | src/main/java/com/teo/crud/data/service/AddressServiceImpl.java:116-137 | a null or unknown id fails (NullId / NotFound) with nothing changed; a stored id has its whole record replaced, no other row changes, size kept, cache entry refreshed |
| `AddressService.AddressServiceImpl.Delete` | src/main/java/com/teo/crud/data/service/AddressServiceImpl.java:144-153 | a stored address referenced by a customer fails with IntegrityViolation and stays stored; an unreferenced one is removed from table and cache, the table shrinks by one; any failure changes nothing |
| `AddressService.AddressServiceImpl.EvictCache` | src/main/java/com/teo/crud/data/service/AddressServiceImpl.java:155-160 | empties the cache and leaves the table and generator unchanged |
| `CustomerService.CustomerServiceImpl.ReadAll` | src/main/java/com/teo/crud/data/service/CustomerServiceImpl.java:50-58 | returns exactly the stored customers, one per row, so its size is the table's size |
| `CustomerService.CustomerServiceImpl.Read` | src/main/java/com/teo/crud/data/service/CustomerServiceImpl.java:67-76 | returns the customer whose `customerId` is the id, or `None`; table unchanged; the answer is cached; coherence kept |
| `CustomerService.CustomerServiceImpl.Create` | src/main/java/com/teo/crud/data/service/CustomerServiceImpl.java:85-104 | a preset id fails with AlreadyExists and nothing is stored or cached; a dangling address link fails at the foreign key; otherwise a fresh id, name/telephone/link kept, the table grows by one and the cache maps the new id to the result |
| `CustomerService.CustomerServiceImpl.Update` | src/main/java/com/teo/crud/data/service/CustomerServiceImpl.java:122-143 | a null or unknown id fails with nothing changed; a dangling link fails at the foreign key; otherwise the record is fully replaced under its id, other customers untouched, cache entry refreshed |
| `CustomerService.CustomerServiceImpl.Delete` | src/main/java/com/teo/crud/data/service/CustomerServiceImpl.java:150-159 | a stored customer is always removed from table and cache (no integrity failure); the table shrinks by one |
| `CustomerService.CustomerServiceImpl.EvictCache` | src/main/java/com/teo/crud/data/service/CustomerServiceImpl.java:168-173 | empties only the customer cache; the table is unchanged |
| `CustomerService.CustomerServiceImpl.ExpireIdle` | src/main/java/com/teo/crud/Application.java:68-72 | the idle-expiry drop of cache entries removes exactly the given entries and keeps coherence |
| `CustomerController.ResolveLink` | src/main/java/com/teo/crud/controller/rest/CustomerREST.java:120-127 | reading an address id through the address service yields a link to it when it is stored, and null otherwise |
| `CustomerController.ReadResponse` | src/main/java/com/teo/crud/controller/rest/CustomerREST.java:80-86 | 404 with an empty body exactly when the read found nothing, 200 with the record otherwise |
| `CustomerController.UpdateResponse` | src/main/java/com/teo/crud/controller/rest/CustomerREST.java:152-158 | 200 with the updated record exactly when the service succeeded, 500 with no body otherwise |
| `CustomerController.CustomerRest.GetCustomers` | src/main/java/com/teo/crud/controller/rest/CustomerREST.java:55-63 | 200 with exactly the stored customers, as many as the table holds |
| `CustomerController.CustomerRest.GetCustomer` | src/main/java/com/teo/crud/controller/rest/CustomerREST.java:76-87 | 200 with the stored customer, or 404 with no body for an unknown id (negative ids included); the table and generator are unchanged and the answer is cached under the id |
| `CustomerController.CustomerRest.CreateCustomer` | src/main/java/com/teo/crud/controller/rest/CustomerREST.java:116-131 | 201 exactly when no customer id is posted and any embedded address has an id; the stored link is then the embedded id when that address is stored and null otherwise, so the client's address fields never reach the store; name and telephone are kept, the id comes fresh from the generator, and the store and cache gain the new row; otherwise 500 and the customer service is unchanged; the address read caches its answer, and the address table and generator are unchanged |
| `CustomerController.CustomerRest.UpdateCustomer` | src/main/java/com/teo/crud/controller/rest/CustomerREST.java:148-159 | 200 with the record exactly when any embedded address has an id, the customer id is stored and the link names a stored address; the row is then replaced (id, name, telephone from the body, the embedded address only through its id), cache refreshed, generator unchanged; otherwise 500 and the customer service is unchanged |
| `CustomerController.CustomerRest.UpdateCustomerAddress` | src/main/java/com/teo/crud/controller/rest/CustomerREST.java:181-199 | an unknown customer gives 500, no row changes, the address service is untouched and only the remembered null read is cached; a known one gets the link to the address when it is stored and null otherwise, keeps its id, name and telephone, is saved and cached, and the response is 200 with it; the address read caches its answer; both generators are unchanged; referential integrity is kept |
| `CustomerController.CustomerRest.DeleteCustomer` | src/main/java/com/teo/crud/controller/rest/CustomerREST.java:221-229 | a stored customer gives 204 with no body, afterwards is not stored and its cache entry is evicted, generator unchanged; a failure gives 500 and changes nothing |
| `Scenarios.CreateThenRead` | src/test/java/com/teo/crud/data/service/AddressServiceTest.java:76-94 | after creating an id-less address, the new id reads back as the created record, the street name is kept, and the listing has one more row |
| `Scenarios.ReadTwice` | src/main/java/com/teo/crud/data/service/AddressServiceImpl.java:60-70 | two reads of one id with no write between them agree |
| `Scenarios.EvictThenRead` | src/main/java/com/teo/crud/data/service/AddressServiceImpl.java:155-160 | after eviction a read reflects the table, whatever had been cached |
| `Scenarios.DeleteThenRead` | src/test/java/com/teo/crud/data/service/CustomerServiceTest.java:167-186 | deleting a stored customer leaves one row fewer and a later read finds nothing |
| `Scenarios.DeleteAddress` | src/main/java/com/teo/crud/controller/rest/AddressREST.java:166-182 | deleting an address a customer references fails with IntegrityViolation and the address still reads back; a successful delete reads back as absent; referential integrity holds either way |

## Left out

- HTTP routing, JSON (de)serialisation, dependency injection and logging.
  Requests are method calls; a response is a status and an optional body.
- `AddressREST`: it passes each call straight to the address service and
  maps results to statuses in the same way. Only its delete path appears,
  in `Scenarios.DeleteAddress`.
- `@Transactional`, multi-threaded request handling and races on the
  shared caches. The model is sequential.
- Identity generation is "the next id never handed out" (an unbounded
  counter). Ids are unbounded integers, negative ones included; Hibernate's
  generation strategy and the 64-bit range of `Long` are not modelled.
- `ExpireIdle` takes the set of expired entries as a parameter. The clock,
  and the refresh of an entry's idle time on each access, are not modelled.
- The repository library is not visible. `findOne`, `findAll`, `save` and
  `delete` are map operations.
- Looking up a null id is refused by the cache key and by the repository.
  The model returns the `NullId` error instead of the library's exception.
- `AddressService.AddressServiceImpl.Delete`: a delete of an id that is not
  stored fails and changes nothing. The kind of failure is not stated,
  because it comes from the repository library.
- `CustomerService.CustomerServiceImpl.Delete`: the same for an id that is
  not stored.
- The foreign key on customer writes is a storage-layer check. The code does
  not make it; the model adds it.
- AddressService.AddressServiceImpl.Delete: the foreign-key refusal may only
  surface when the surrounding transaction commits, after the method body
  has returned. Whether the `@CacheEvict` has run by then depends on the
  order of the caching and transaction advice, which the source leaves at
  its default. The model assumes the eviction does not run when the commit
  fails. Coherence holds under either order.
- CustomerService.CustomerServiceImpl.Update: the same for a foreign-key
  refusal of `save` at commit and the `@CachePut`. The model assumes the
  cache is not refreshed when the commit fails.
- `AddressAlreadyExistsException`, `CustomerAlreadyExistsException` and
  their 409 handlers: the services never throw these, so the handlers
  cannot run.
- The service interfaces' comment that `create` returns null for a preset
  id: the implementations throw.
- Records are values. The source changes the customer object it has just
  read, possibly the instance held in the cache. Cached customers also
  carry copies of their address that go stale after an address update. The
  id link models neither.
- The null check in `updateCustomer` never fires: the service throws rather
  than return null. `UpdateResponse` maps both outcomes to 500.
