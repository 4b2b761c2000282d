# Merchello product filter-group query and order indexer, modelled in Dafny

This project models the two parts of the Merchello e-commerce plugin set that have logic of
their own:

- **`ProductFilterGroupQuery`** (module `Search`, `product_filter_group_query.dfy`). This
  facade fetches entity filter groups from the entity-collection service. It exposes a group
  as a *product* filter group only when the group's entity type is Product and its
  `IsFilter` flag is set; every other group is dropped without an error. `GetAll` and the
  two product-containment queries check the request cache first. On a miss, `GetAll`
  computes its answer and stores nothing. The containment queries compute their answer,
  store it under their cache key and return it.
- **`OrderIndexer`** (module `ExamineProviders`, `order_indexer.dfy`). This index provider
  has a fixed table of 15 field indexing policies and a policy lookup that falls back to
  `ANALYZED` for unknown fields. It also makes guarded submissions to the index engine: the
  bulk pass, the rebuild, and adding or deleting a single order.

`core.dfy` (module `Core`) holds the shared value types: the 128-bit `Guid`, `Option` (a
reference that may be null) and `Result` (a value, or the runtime fault raised instead).

How the model is built:

- **Service.** The entity-collection service is a value made of four total functions, one
  per query the facade makes. Each call the facade makes is appended to a ghost log,
  `serviceCalls`. "A cache hit makes no service call" is stated as "the log is unchanged".
- **Cache keys.** The base class's cache-key builder is a function-valued field,
  `cacheKeyOf`. Injectivity is a separate predicate, `Injective`. It is assumed only where a
  property needs it: that the three operation names never share a cache entry, and that a
  store keeps the cache coherent.
- **`Coherent()`.** This predicate says that every cached entry under one of the three
  operations equals what a direct computation would return. Each query proves two things
  about it. If the cache was coherent, the query returns the directly computed answer. The
  containment queries also keep the cache coherent, given an injective builder.
- **`Valid()`.** This predicate says that every service query was passed the provider keys
  that `Initialize` set during construction. No method other than `Initialize` can change
  those keys.
- **Index engine.** The index engine is not modelled. `OrderIndexer` appends each call it
  makes (ensure index, add a batch of nodes, delete a node id) to a ghost log,
  `indexCalls`. Each method's contract gives the new log as the old log plus a function of
  its inputs. Lemmas about that function state what the source promises.

Four behaviours of the code are worth noting:

- `GetByKey` applies `Map` to whatever the service lookup returns. `Map` reads
  `group.EntityTfKey`, so an absent group raises a null-reference fault, not a null result.
  This is recorded under "## Findings". The class's `GetByKey` uses the corrected lookup.
- `GetAll` never writes to the cache, on either branch. Its hit branch can only see entries
  stored by some other code. The model keeps this and proves that `GetAll` leaves the cache
  unchanged.
- The filter provider keys are an ordered array. The model keeps them as a sequence,
  because nothing writes to the array after `Initialize`.
- `OrderIndexer.PerformIndexAll` takes its nodes from the *invoice* data service and tags
  the batch as invoices, although its guard accepts only the order index type. The model
  keeps this as it is.

## Model

| member | source | states |
|---|---|---|
| `Search.MapGroup` | src/Merchello.Web/Search/ProductFilterGroupQuery.cs:200-205 | The result is non-null exactly when the entity type is Product and `IsFilter` is set; the non-null result wraps that same group and keeps its key |
| `Search.MapGroups` | src/Merchello.Web/Search/ProductFilterGroupQuery.cs:217-220 | The result contains no null (every element is a wrapper); it is never longer than the input; every element passes the mapping rule |
| `Search.MapGroupsSound` | src/Merchello.Web/Search/ProductFilterGroupQuery.cs:219 | Every mapped element wraps a group taken from the input |
| `Search.MapGroupsComplete` | src/Merchello.Web/Search/ProductFilterGroupQuery.cs:219 | Every input group that passes the mapping rule appears, wrapped, in the result |
| `Search.MapGroupsMembership` | src/Merchello.Web/Search/ProductFilterGroupQuery.cs:217-220 | A wrapper is in the result if and only if its group is in the input and passes the rule |
| `Search.MapGroupsOrdered` | src/Merchello.Web/Search/ProductFilterGroupQuery.cs:219 | The groups behind the result are a subsequence of the input, so the original relative order is kept |
| `Search.MapGroupsAppend` | src/Merchello.Web/Search/ProductFilterGroupQuery.cs:219 | Mapping a concatenation gives the concatenation of the mapped parts: each group is kept or dropped on its own, in place |
| `Search.MapGroupsAllPass` | src/Merchello.Web/Search/ProductFilterGroupQuery.cs:219 | When every input group passes the rule, the result wraps exactly the input, element by element |
| `Search.WhereKeyIn` | src/Merchello.Web/Search/ProductFilterGroupQuery.cs:135 | The key restriction keeps only groups whose key is listed and is never longer than its input |
| `Search.WhereKeyInSound` | src/Merchello.Web/Search/ProductFilterGroupQuery.cs:135 | Every kept group comes from the input and has a listed key |
| `Search.WhereKeyInComplete` | src/Merchello.Web/Search/ProductFilterGroupQuery.cs:135 | Every input group with a listed key is kept |
| `Search.MapGroupsWhereWithin` | src/Merchello.Web/Search/ProductFilterGroupQuery.cs:134-136 | Restricting by keys and then mapping gives a subsequence of mapping without the restriction |
| `Search.GetAllMiss` | src/Merchello.Web/Search/ProductFilterGroupQuery.cs:132-136 | On a miss, `GetAll` returns no more groups than the filter providers hold; every returned group passes the mapping rule and, when keys are given, has a listed key |
| `Search.GetAllMissMembership` | src/Merchello.Web/Search/ProductFilterGroupQuery.cs:132-136 | On a miss, a product filter group is returned if and only if its group came from the filter providers, passes the rule, and (when keys are given) has a listed key |
| `Search.GetAllMissWithinAll` | src/Merchello.Web/Search/ProductFilterGroupQuery.cs:134-136 | On a miss, the result with keys is a subsequence of the result without keys, and no longer |
| `Search.MapLookup` | src/Merchello.Web/Search/ProductFilterGroupQuery.cs:110-114 | Corrected single lookup: non-null exactly when the service found a group that passes the rule, and then it wraps that group |
| `Search.MapLookupAsWritten` | src/Merchello.Web/Search/ProductFilterGroupQuery.cs:113 | The lookup as written: a null-reference fault when the service finds nothing, otherwise the single-group mapping |
| `Search.AbsentGroupFaultsAsWritten` | src/Merchello.Web/Search/ProductFilterGroupQuery.cs:113 | For an absent group, the code as written faults where the corrected lookup returns null |
| `Search.MapLookupAgreesWhenFound` | src/Merchello.Web/Search/ProductFilterGroupQuery.cs:113 | The code as written faults exactly when nothing is found; otherwise it agrees with the corrected lookup |
| `Search.OperationKeysDistinct` | src/Merchello.Web/Search/ProductFilterGroupQuery.cs:127 | With an injective key builder, the keys of "GetAll", "GetFilterGroupsContainingProduct" and "GetFilterGroupsNotContainingProduct" never coincide, and each containment key (containing or not containing) determines its product key |
| `Search.ProductFilterGroupQuery.constructor` | src/Merchello.Web/Search/ProductFilterGroupQuery.cs:81-86 | The new facade keeps the service, key builder and request cache it was given, has made no service calls, and holds the resolver's provider keys |
| `Search.ProductFilterGroupQuery.Initialize` | src/Merchello.Web/Search/ProductFilterGroupQuery.cs:228-231 | The filter provider keys become the keys the resolver reports; nothing else changes |
| `Search.ProductFilterGroupQuery.GetByKey` | src/Merchello.Web/Search/ProductFilterGroupQuery.cs:110-114 | One uncached service lookup; the result is the corrected mapping of what it returns, so it is null exactly when the group is absent or fails the rule |
| `Search.ProductFilterGroupQuery.GetAll` | src/Merchello.Web/Search/ProductFilterGroupQuery.cs:125-137 | The cache never changes. A hit returns the cached value and makes no service call. A miss makes one call with the filter provider keys and returns the mapped groups, restricted to `keys` when any are given. Under a coherent cache, the result equals the direct computation |
| `Search.ProductFilterGroupQuery.GetFilterGroupsContainingProduct` | src/Merchello.Web/Search/ProductFilterGroupQuery.cs:148-163 | A hit returns the cached value with no call and no cache change. A miss makes one call with the filter provider keys; the cache then maps that one key to the mapped result, which is also returned, and every other entry is unchanged. Coherence is preserved under an injective builder |
| `Search.ProductFilterGroupQuery.GetFilterGroupsNotContainingProduct` | src/Merchello.Web/Search/ProductFilterGroupQuery.cs:174-189 | The same read-through discipline as the containing query, over the service's not-containing query |
| `ExamineProviders.FieldsNamed` | src/Merchello.Examine/Providers/OrderIndexer.cs:107 | The filter keeps only entries with the requested name and is never longer than the table |
| `ExamineProviders.FieldsNamedAbsent` | src/Merchello.Examine/Providers/OrderIndexer.cs:107-108 | A name that no entry has gives an empty match |
| `ExamineProviders.FieldsNamedUnique` | src/Merchello.Examine/Providers/OrderIndexer.cs:107-108 | In a table without duplicate names, the match for an entry's name is exactly that entry |
| `ExamineProviders.Single` | src/Merchello.Examine/Providers/OrderIndexer.cs:108 | `Single()` succeeds exactly on a one-element sequence, with that element; otherwise it faults |
| `ExamineProviders.PolicyLookupSpec` | src/Merchello.Examine/Providers/OrderIndexer.cs:105-109 | Over a table without duplicate names, the lookup never faults; it gives the matching entry's index type, or `ANALYZED` when no entry matches |
| `ExamineProviders.PolicyLookup` | src/Merchello.Examine/Providers/OrderIndexer.cs:107-108 | The lookup faults with an invalid-operation error if and only if more than one entry has the name; with no entry it gives `ANALYZED`, with exactly one it gives that entry's index type |
| `ExamineProviders.DuplicateNameFaults` | src/Merchello.Examine/Providers/OrderIndexer.cs:107-108 | For any table that lists some name twice, there is a name whose lookup faults in `Single()` |
| `ExamineProviders.PolicyNamesDistinct` | src/Merchello.Examine/Providers/OrderIndexer.cs:66-84 | The 15 field names of the policy table are pairwise distinct |
| `ExamineProviders.GetPolicy` | src/Merchello.Examine/Providers/OrderIndexer.cs:105-109 | The lookup never faults; it returns the index type of the table entry with that name, or `ANALYZED` when the table has no such entry |
| `ExamineProviders.TotalPolicy` | src/Merchello.Examine/Providers/OrderIndexer.cs:78 | "total" is the single entry (ANALYZED, sortable, "DOUBLE"), and its policy is ANALYZED |
| `ExamineProviders.OrderDatePolicy` | src/Merchello.Examine/Providers/OrderIndexer.cs:74 | "orderDate" is the single entry (ANALYZED, sortable, "DATETIME") |
| `ExamineProviders.VersionKeyPolicy` | src/Merchello.Examine/Providers/OrderIndexer.cs:76 | "versionKey" is the single entry (NOT_ANALYZED, not sortable, no type), and its policy is NOT_ANALYZED |
| `ExamineProviders.UnknownFieldPolicy` | src/Merchello.Examine/Providers/OrderIndexer.cs:107-108 | An unlisted field ("foo") matches nothing and gets the ANALYZED policy |
| `ExamineProviders.SupportedTypes` | src/Merchello.Examine/Providers/OrderIndexer.cs:61-64 | A type is listed as supported if and only if it is the order index type |
| `ExamineProviders.SupportedTypesAreOrdersOnly` | src/Merchello.Examine/Providers/OrderIndexer.cs:61-64 | The supported types are exactly the order index type |
| `ExamineProviders.InvoiceNodes` | src/Merchello.Examine/Providers/OrderIndexer.cs:23 | There is one node per invoice, in input order, each that invoice's node |
| `ExamineProviders.IndexAllCalls` | src/Merchello.Examine/Providers/OrderIndexer.cs:17-25 | A bulk pass submits at most one batch, and any batch it submits is tagged as invoices and holds one node per invoice |
| `ExamineProviders.IndexAllCallsSpec` | src/Merchello.Examine/Providers/OrderIndexer.cs:15-26 | A bulk pass submits nothing if and only if the type is not supported or there are no invoices. Otherwise it submits one batch, tagged as invoices, holding one node per invoice in input order |
| `ExamineProviders.NatToDecimal` | src/Merchello.Examine/Providers/OrderIndexer.cs:56 | The decimal rendering of a natural number is a non-empty string of digits, with no leading zero unless the number is zero |
| `ExamineProviders.IntToDecimal` | src/Merchello.Examine/Providers/OrderIndexer.cs:56 | The rendering of an integer is non-empty and starts with a minus sign if and only if the integer is negative |
| `ExamineProviders.NatDecimalRoundTrip` | src/Merchello.Examine/Providers/OrderIndexer.cs:56 | Reading back the decimal rendering of a natural number gives that number |
| `ExamineProviders.IntDecimalRoundTrip` | src/Merchello.Examine/Providers/OrderIndexer.cs:56 | Reading back the invariant-culture rendering of any integer, sign included, gives that integer |
| `ExamineProviders.NodeIdsDistinct` | src/Merchello.Examine/Providers/OrderIndexer.cs:56 | Orders with different examine ids are deleted under different node ids |
| `ExamineProviders.OrderIndexer.PerformIndexAll` | src/Merchello.Examine/Providers/OrderIndexer.cs:15-26 | The engine log grows by exactly the bulk-pass submissions for this type and the data service's invoices; an unsupported type or an empty invoice list leaves it unchanged |
| `ExamineProviders.OrderIndexer.RebuildIndex` | src/Merchello.Examine/Providers/OrderIndexer.cs:28-36 | The log grows by a forced index creation, then by the bulk-pass submissions for the order type, in that order |
| `ExamineProviders.OrderIndexer.AddOrderToIndex` | src/Merchello.Examine/Providers/OrderIndexer.cs:43-47 | The log grows by one batch holding exactly the order's node, tagged as an order |
| `ExamineProviders.OrderIndexer.DeleteOrderFromIndex` | src/Merchello.Examine/Providers/OrderIndexer.cs:54-57 | The log grows by one deletion of exactly the node id that is the decimal rendering of the order's examine id |

## Findings

| source | as written | input that shows it | evidently intended | confidence | as-written member | corrected member |
|---|---|---|---|---|---|---|
| src/Merchello.Web/Search/ProductFilterGroupQuery.cs:113 | `Map(GetEntityFilterGroup(key))`: the single-group `Map` reads `group.EntityTfKey` without a null check | a key for which the entity-collection service finds no filter group, so its lookup returns null | `GetByKey` returns null, as it already does for a group that fails the mapping rule | medium, not executed; it depends on the service returning null for an unknown key, and that service is not part of this model | `Search.MapLookupAsWritten` (shown by `Search.AbsentGroupFaultsAsWritten`) | `Search.MapLookup` |

## Left out

- `GetCollectionProviders` is left out. It only passes the resolver's provider attributes through, and the resolver is not part of this model.
- The product service argument is left out, with its `Ensure.ParameterNotNull` check. The facade never uses it, and Dafny references cannot be null.
- The constructor chain through `MerchelloContext.Current` and `EntityCollectionProviderResolver.Current` is left out. The model's constructor takes the service, the key builder, the request cache and the resolver's provider keys as parameters.
- The base class's `GetCacheKey` is not part of this model. It is an abstract function field, and injectivity is an explicit assumption. The model takes the argument list as the sequence of keys. Whether the builder renders a `Guid[]` element by element is not modelled.
- Cache provider internals are left out: expiry, eviction, and the casts of cached objects. The request cache is modelled as a map from key to a sequence of product filter groups. Entries of other types stored by other code are not modelled.
- The second lookup inside the get-or-compute call is always a miss in this single-threaded model, so the supplier runs. Concurrent requests and cache stampedes are out of scope.
- The downcast of the service to the concrete `EntityCollectionService` (ProductFilterGroupQuery.cs:113, 132, 160, 186) is left out. The code throws an invalid-cast exception when the constructor is given any other implementation of the service interface; the model has one service type, so no call can fail that way.
- Deferred LINQ evaluation is left out. `GetAll` returns an unevaluated query (ProductFilterGroupQuery.cs:135), the containment queries cache one, and the mapping at line 219 runs again on each enumeration. The model computes every result as a finished sequence, which is what each enumeration yields while the service's answers do not change.
- Failures raised by the collection service, the cache provider or the index engine are not modelled. The service is a set of total functions.
- `SerializeToXml` is left out. A node stands for the root element of the serialised entity.
- The index engine is left out (`AddNodesToIndex`, `DeleteFromIndex`, `EnsureIndex`). Only the calls it receives are recorded, so the model cannot state that a deleted order is no longer found.
- `GetIndexerData` and `ToIndexCriteria` belong to the engine's configuration and are left out.
- The verbose log entry written by `RebuildIndex` is left out, because it is logging only.
- The cast `(Order)order` in `DeleteOrderFromIndex` is left out. The model has a single order type, so the cast cannot fail.
- The payment gateway adapter (`BraintreeApiProviderBase`) is not part of this model. It only delegates to the payment SDK and casts values read from the runtime cache.
- `ProductEntityTfKey`: the value of `Constants.TypeFieldKeys.Entity.ProductKey` is not part of this model. The constant holds a placeholder, and no property depends on its value.
- `IndexType`: the string values of `IndexTypes` are not part of this model. `OtherIndex` stands for every type name other than order and invoice, and carries no name.
- `ExamineProviders.FieldIndexType` has only the two members the table uses, `ANALYZED` and `NOT_ANALYZED`.
