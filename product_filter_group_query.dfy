/**
 * The product filter-group query facade: entity filter groups fetched from the
 * entity-collection service are exposed as product filter groups, and the results
 * of the three list queries go through the request cache.
 */
module Search {
  import opened Core

  /** The type-field key of the Product entity type. */
  const ProductEntityTfKey: Guid := 0x9142_efef_4a50_4b16_a5e5_4951_c8a9_d12f

  /** An entity collection that groups filters, as the entity-collection service returns it. */
  datatype EntityFilterGroup = EntityFilterGroup(
    key: Guid,
    entityTfKey: Guid,   // the entity type the collection holds
    isFilter: bool,
    name: string,
    filters: seq<Guid>)  // keys of the child filter collections

  /** The product-facing wrapper built around an entity filter group. */
  datatype ProductFilterGroup = ProductFilterGroup(group: EntityFilterGroup) {
    function Key(): Guid { group.key }
  }

  /** The mapping rule: only a filter group over products is exposed. */
  predicate IsProductFilterGroup(g: EntityFilterGroup) {
    g.entityTfKey == ProductEntityTfKey && g.isFilter
  }

  /** Single-group `Map`: a wrapper for a product filter group, null (None) otherwise. */
  function MapGroup(g: EntityFilterGroup): (r: Option<ProductFilterGroup>)
    ensures r.Some? <==> g.entityTfKey == ProductEntityTfKey && g.isFilter
    ensures r.Some? ==> r.value.group == g && r.value.Key() == g.key
  {
    if IsProductFilterGroup(g) then Some(ProductFilterGroup(g)) else None
  }

  /** Sequence `Map`: select every group through `MapGroup`, then drop the nulls. */
  function MapGroups(gs: seq<EntityFilterGroup>): (r: seq<ProductFilterGroup>)
    ensures |r| <= |gs|
    ensures forall i :: 0 <= i < |r| ==> IsProductFilterGroup(r[i].group)
  {
    if gs == [] then []
    else
      var head := match MapGroup(gs[0]) case Some(p) => [p] case None => [];
      head + MapGroups(gs[1..])
  }

  /** The entity groups behind a sequence of product filter groups. */
  function Groups(ps: seq<ProductFilterGroup>): (r: seq<EntityFilterGroup>)
    ensures |r| == |ps| && forall i :: 0 <= i < |ps| ==> r[i] == ps[i].group
  {
    seq(|ps|, i requires 0 <= i < |ps| => ps[i].group)
  }

  /** `xs` is `ys` with some elements left out, the rest kept in their order. */
  ghost predicate IsSubsequence<T>(xs: seq<T>, ys: seq<T>)
    decreases |ys|
  {
    xs == [] ||
    (ys != [] &&
      ((xs[0] == ys[0] && IsSubsequence(xs[1..], ys[1..])) || IsSubsequence(xs, ys[1..])))
  }

  lemma {:induction false} MapGroupsAppend(a: seq<EntityFilterGroup>, b: seq<EntityFilterGroup>)
    ensures MapGroups(a + b) == MapGroups(a) + MapGroups(b)
  {
    if a == [] {
      assert a + b == b;
    } else {
      assert (a + b)[0] == a[0];
      assert (a + b)[1..] == a[1..] + b;
      MapGroupsAppend(a[1..], b);
    }
  }

  /** Every product filter group of the input is kept. */
  lemma {:induction false} MapGroupsComplete(gs: seq<EntityFilterGroup>, g: EntityFilterGroup)
    requires g in gs && IsProductFilterGroup(g)
    ensures ProductFilterGroup(g) in MapGroups(gs)
  {
    if gs[0] != g {
      assert g in gs[1..];
      MapGroupsComplete(gs[1..], g);
    }
  }

  /** Nothing appears in the mapped sequence that was not in the input. */
  lemma {:induction false} MapGroupsSound(gs: seq<EntityFilterGroup>, p: ProductFilterGroup)
    requires p in MapGroups(gs)
    ensures p.group in gs
  {
    if p != ProductFilterGroup(gs[0]) {
      assert p in MapGroups(gs[1..]);
      MapGroupsSound(gs[1..], p);
    }
  }

  /** Membership in the mapped sequence, both directions. */
  lemma MapGroupsMembership(gs: seq<EntityFilterGroup>, p: ProductFilterGroup)
    ensures p in MapGroups(gs) <==> p.group in gs && IsProductFilterGroup(p.group)
  {
    if p.group in gs && IsProductFilterGroup(p.group) {
      MapGroupsComplete(gs, p.group);
    }
    if p in MapGroups(gs) {
      MapGroupsSound(gs, p);
    }
  }

  /** The kept groups stay in their original relative order. */
  lemma {:induction false} MapGroupsOrdered(gs: seq<EntityFilterGroup>)
    ensures IsSubsequence(Groups(MapGroups(gs)), gs)
  {
    if gs != [] {
      MapGroupsOrdered(gs[1..]);
      var rest := Groups(MapGroups(gs[1..]));
      if IsProductFilterGroup(gs[0]) {
        assert Groups(MapGroups(gs)) == [gs[0]] + rest;
      } else {
        assert Groups(MapGroups(gs)) == rest;
      }
    }
  }

  /** A group that passes the mapping rule is never dropped: all-pass input maps one to one. */
  lemma {:induction false} MapGroupsAllPass(gs: seq<EntityFilterGroup>)
    requires forall i :: 0 <= i < |gs| ==> IsProductFilterGroup(gs[i])
    ensures Groups(MapGroups(gs)) == gs
  {
    if gs != [] {
      MapGroupsAllPass(gs[1..]);
      assert Groups(MapGroups(gs)) == [gs[0]] + Groups(MapGroups(gs[1..]));
    }
  }

  /** The groups whose key is listed, in input order. */
  function WhereKeyIn(gs: seq<EntityFilterGroup>, keys: seq<Guid>): (r: seq<EntityFilterGroup>)
    ensures |r| <= |gs|
    ensures forall i :: 0 <= i < |r| ==> r[i].key in keys
  {
    if gs == [] then []
    else (if gs[0].key in keys then [gs[0]] else []) + WhereKeyIn(gs[1..], keys)
  }

  lemma {:induction false} WhereKeyInSound(gs: seq<EntityFilterGroup>, keys: seq<Guid>, g: EntityFilterGroup)
    requires g in WhereKeyIn(gs, keys)
    ensures g in gs && g.key in keys
  {
    if g != gs[0] {
      assert g in WhereKeyIn(gs[1..], keys);
      WhereKeyInSound(gs[1..], keys, g);
    }
  }

  lemma {:induction false} WhereKeyInComplete(gs: seq<EntityFilterGroup>, keys: seq<Guid>, g: EntityFilterGroup)
    requires g in gs && g.key in keys
    ensures g in WhereKeyIn(gs, keys)
  {
    if gs[0] != g {
      assert g in gs[1..];
      WhereKeyInComplete(gs[1..], keys, g);
    }
  }

  lemma {:induction false} SubsequenceCons<T>(xs: seq<T>, y: T, ys: seq<T>)
    requires IsSubsequence(xs, ys)
    ensures IsSubsequence(xs, [y] + ys) && IsSubsequence([y] + xs, [y] + ys)
  {
    assert ([y] + ys)[1..] == ys;
    assert ([y] + xs)[1..] == xs;
  }

  /** Restricting by keys before mapping keeps a subsequence of the unrestricted result. */
  lemma {:induction false} MapGroupsWhereWithin(gs: seq<EntityFilterGroup>, keys: seq<Guid>)
    ensures IsSubsequence(MapGroups(WhereKeyIn(gs, keys)), MapGroups(gs))
  {
    if gs != [] {
      var g, rest := gs[0], gs[1..];
      MapGroupsWhereWithin(rest, keys);
      var tail := MapGroups(WhereKeyIn(rest, keys));
      var all := MapGroups(rest);
      var p := ProductFilterGroup(g);
      SubsequenceCons(tail, p, all);
      var lhs := MapGroups(WhereKeyIn(gs, keys));
      if g.key in keys {
        assert WhereKeyIn(gs, keys) == [g] + WhereKeyIn(rest, keys);
        MapGroupsCons(g, WhereKeyIn(rest, keys));
        if IsProductFilterGroup(g) {
          assert lhs == [p] + tail;
        } else {
          assert lhs == tail;
        }
      } else {
        assert WhereKeyIn(gs, keys) == WhereKeyIn(rest, keys);
      }
      if IsProductFilterGroup(g) {
        assert MapGroups(gs) == [p] + all;
      } else {
        assert MapGroups(gs) == all;
        assert lhs == tail;
      }
    }
  }

  lemma MapGroupsCons(g: EntityFilterGroup, rest: seq<EntityFilterGroup>)
    ensures MapGroups([g] + rest) ==
      (if IsProductFilterGroup(g) then [ProductFilterGroup(g)] else []) + MapGroups(rest)
  {
    assert ([g] + rest)[0] == g && ([g] + rest)[1..] == rest;
  }

  lemma WhereKeyInCons(g: EntityFilterGroup, rest: seq<EntityFilterGroup>, keys: seq<Guid>)
    ensures WhereKeyIn([g] + rest, keys) == (if g.key in keys then [g] else []) + WhereKeyIn(rest, keys)
  {
    assert ([g] + rest)[0] == g && ([g] + rest)[1..] == rest;
  }

  /** What `GetAll(keys)` computes on a cache miss from the groups of the filter providers. */
  function GetAllMiss(collections: seq<EntityFilterGroup>, keys: seq<Guid>): (r: seq<ProductFilterGroup>)
    ensures |r| <= |collections|
    ensures forall i :: 0 <= i < |r| ==> IsProductFilterGroup(r[i].group) && (keys != [] ==> r[i].Key() in keys)
  {
    var candidates := if |keys| > 0 then WhereKeyIn(collections, keys) else collections;
    var r := MapGroups(candidates);
    assert forall i :: 0 <= i < |r| ==> r[i].group in candidates by {
      forall i | 0 <= i < |r| ensures r[i].group in candidates {
        MapGroupsSound(candidates, r[i]);
      }
    }
    assert keys != [] ==> forall i :: 0 <= i < |r| ==> r[i].Key() in keys by {
      forall i | 0 <= i < |r| && keys != [] ensures r[i].Key() in keys {
        WhereKeyInSound(collections, keys, r[i].group);
      }
    }
    r
  }

  /** Soundness and completeness of `GetAll` on a miss: exactly the mapped groups with a listed key. */
  lemma GetAllMissMembership(collections: seq<EntityFilterGroup>, keys: seq<Guid>, p: ProductFilterGroup)
    ensures p in GetAllMiss(collections, keys) <==>
      p.group in collections && IsProductFilterGroup(p.group) && (keys == [] || p.Key() in keys)
  {
    MapGroupsMembership(if |keys| > 0 then WhereKeyIn(collections, keys) else collections, p);
    if keys != [] && p.group in WhereKeyIn(collections, keys) {
      WhereKeyInSound(collections, keys, p.group);
    }
    if keys != [] && p.group in collections && p.Key() in keys {
      WhereKeyInComplete(collections, keys, p.group);
    }
  }

  /** With keys, `GetAll` returns a subsequence of what it returns without keys. */
  lemma GetAllMissWithinAll(collections: seq<EntityFilterGroup>, keys: seq<Guid>)
    ensures IsSubsequence(GetAllMiss(collections, keys), GetAllMiss(collections, []))
    ensures |GetAllMiss(collections, keys)| <= |GetAllMiss(collections, [])|
  {
    MapGroupsWhereWithin(collections, keys);
    SubsequenceLength(MapGroups(WhereKeyIn(collections, keys)), MapGroups(collections));
    if keys == [] {
      SubsequenceReflexive(MapGroups(collections));
    }
  }

  lemma {:induction false} SubsequenceLength<T>(xs: seq<T>, ys: seq<T>)
    requires IsSubsequence(xs, ys)
    ensures |xs| <= |ys|
    decreases |ys|
  {
    if xs != [] {
      if xs[0] == ys[0] && IsSubsequence(xs[1..], ys[1..]) {
        SubsequenceLength(xs[1..], ys[1..]);
      } else {
        SubsequenceLength(xs, ys[1..]);
      }
    }
  }

  lemma {:induction false} SubsequenceReflexive<T>(xs: seq<T>)
    ensures IsSubsequence(xs, xs)
  {
    if xs != [] {
      SubsequenceReflexive(xs[1..]);
    }
  }

  /**
   * `GetByKey` as written: `Map` is applied to whatever the service lookup returns, and
   * `Map` reads `group.EntityTfKey`, so an absent group raises a null-reference fault.
   */
  function MapLookupAsWritten(found: Option<EntityFilterGroup>): (r: Result<Option<ProductFilterGroup>>)
    ensures found.None? ==> r == Failure(NullReference)
    ensures found.Some? ==> r.Success? && (r.value.Some? <==> IsProductFilterGroup(found.value))
  {
    match found
    case None => Failure(NullReference)
    case Some(g) => Success(MapGroup(g))
  }

  /** `GetByKey` as intended: null when the group is absent or fails the mapping rule. */
  function MapLookup(found: Option<EntityFilterGroup>): (r: Option<ProductFilterGroup>)
    ensures r.Some? <==> found.Some? && IsProductFilterGroup(found.value)
    ensures r.Some? ==> r.value.group == found.value
  {
    match found
    case None => None
    case Some(g) => MapGroup(g)
  }

  /** An unknown key makes the code as written fault, where null is the intended answer. */
  lemma AbsentGroupFaultsAsWritten()
    ensures MapLookupAsWritten(None) == Failure(NullReference)
    ensures MapLookup(None) == None
  {
  }

  /** Wherever the code as written does not fault, it agrees with the corrected lookup. */
  lemma MapLookupAgreesWhenFound(found: Option<EntityFilterGroup>)
    ensures MapLookupAsWritten(found).Success? <==> found.Some?
    ensures found.Some? ==> MapLookupAsWritten(found) == Success(MapLookup(found))
  {
  }

  /** The entity-collection service queries the facade delegates to. */
  datatype EntityCollectionService = EntityCollectionService(
    getEntityFilterGroup: Guid -> Option<EntityFilterGroup>,
    getByProviderKeys: seq<Guid> -> seq<EntityFilterGroup>,
    getContainingProduct: (seq<Guid>, Guid) -> seq<EntityFilterGroup>,
    getNotContainingProduct: (seq<Guid>, Guid) -> seq<EntityFilterGroup>)

  /** One call into the entity-collection service, with the arguments it was passed. */
  datatype ServiceCall =
    | GetEntityFilterGroup(key: Guid)
    | GetEntityFilterGroupsByProviderKeys(providerKeys: seq<Guid>)
    | GetEntityFilterGroupsContainingProduct(providerKeys: seq<Guid>, productKey: Guid)
    | GetEntityFilterGroupsNotContainingProduct(providerKeys: seq<Guid>, productKey: Guid)

  /** A call that takes provider keys was passed exactly `providerKeys`. */
  predicate PassesProviderKeys(c: ServiceCall, providerKeys: seq<Guid>) {
    !c.GetEntityFilterGroup? ==> c.providerKeys == providerKeys
  }

  type CacheKey = string

  const GetAllName: string := "GetAll"
  const ContainingName: string := "GetFilterGroupsContainingProduct"
  const NotContainingName: string := "GetFilterGroupsNotContainingProduct"

  /** The cache-key builder never maps two different (operation, arguments) pairs to one key. */
  ghost predicate Injective(keyOf: (string, seq<Guid>) -> CacheKey) {
    forall m1, a1, m2, a2 :: keyOf(m1, a1) == keyOf(m2, a2) ==> m1 == m2 && a1 == a2
  }

  /** With an injective builder, the three cached operations never share a cache entry. */
  lemma OperationKeysDistinct(keyOf: (string, seq<Guid>) -> CacheKey, a: seq<Guid>, b: seq<Guid>)
    requires Injective(keyOf)
    ensures keyOf(GetAllName, a) != keyOf(ContainingName, b)
    ensures keyOf(GetAllName, a) != keyOf(NotContainingName, b)
    ensures keyOf(ContainingName, a) != keyOf(NotContainingName, b)
    ensures keyOf(ContainingName, a) == keyOf(ContainingName, b) ==> a == b
    ensures keyOf(NotContainingName, a) == keyOf(NotContainingName, b) ==> a == b
  {
    assert GetAllName != ContainingName && GetAllName != NotContainingName;
    assert ContainingName[15] != NotContainingName[15];
  }

  class ProductFilterGroupQuery {
    const service: EntityCollectionService
    const cacheKeyOf: (string, seq<Guid>) -> CacheKey
    /** Keys of the providers whose collections are filters; set once, by `Initialize`. */
    var filterProviderKeys: seq<Guid>
    /** The request cache, as seen by this facade. */
    var cache: map<CacheKey, seq<ProductFilterGroup>>
    /** Every call made into the entity-collection service, in order. */
    ghost var serviceCalls: seq<ServiceCall>

    /** Every service query so far was passed the provider keys set at construction. */
    ghost predicate Valid()
      reads this
    {
      forall i :: 0 <= i < |serviceCalls| ==> PassesProviderKeys(serviceCalls[i], filterProviderKeys)
    }

    /** Every cached entry of the three list queries equals what a direct computation gives. */
    ghost predicate Coherent()
      reads this
    {
      && (forall args :: cacheKeyOf(GetAllName, args) in cache ==>
            cache[cacheKeyOf(GetAllName, args)] ==
            GetAllMiss(service.getByProviderKeys(filterProviderKeys), args))
      && (forall args :: |args| == 1 && cacheKeyOf(ContainingName, args) in cache ==>
            cache[cacheKeyOf(ContainingName, args)] ==
            MapGroups(service.getContainingProduct(filterProviderKeys, args[0])))
      && (forall args :: |args| == 1 && cacheKeyOf(NotContainingName, args) in cache ==>
            cache[cacheKeyOf(NotContainingName, args)] ==
            MapGroups(service.getNotContainingProduct(filterProviderKeys, args[0])))
    }

    constructor (service: EntityCollectionService, cacheKeyOf: (string, seq<Guid>) -> CacheKey,
                 requestCache: map<CacheKey, seq<ProductFilterGroup>>, resolverProviderKeys: seq<Guid>)
      ensures Valid()
      ensures this.service == service && this.cacheKeyOf == cacheKeyOf
      ensures cache == requestCache && serviceCalls == []
      ensures filterProviderKeys == resolverProviderKeys
    {
      this.service := service;
      this.cacheKeyOf := cacheKeyOf;
      cache := requestCache;
      serviceCalls := [];
      filterProviderKeys := [];
      new;
      Initialize(resolverProviderKeys);
    }

    /** Records the entity-filter-group provider keys the resolver reports; runs during construction. */
    method Initialize(resolverProviderKeys: seq<Guid>)
      requires serviceCalls == []
      modifies this`filterProviderKeys
      ensures Valid()
      ensures filterProviderKeys == resolverProviderKeys
    {
      filterProviderKeys := resolverProviderKeys;
    }

    /** One uncached lookup, mapped; null when the group is absent or is not a product filter group. */
    method GetByKey(key: Guid) returns (r: Option<ProductFilterGroup>)
      requires Valid()
      modifies this`serviceCalls
      ensures Valid()
      ensures serviceCalls == old(serviceCalls) + [GetEntityFilterGroup(key)]
      ensures r == MapLookup(service.getEntityFilterGroup(key))
      ensures r.Some? <==>
        service.getEntityFilterGroup(key).Some? && IsProductFilterGroup(service.getEntityFilterGroup(key).value)
    {
      var found := service.getEntityFilterGroup(key);
      serviceCalls := serviceCalls + [GetEntityFilterGroup(key)];
      r := MapLookup(found);
    }

    /** All product filter groups of the filter providers, restricted to `keys` when any are given. */
    method GetAll(keys: seq<Guid>) returns (r: seq<ProductFilterGroup>)
      requires Valid()
      modifies this`serviceCalls
      ensures Valid()
      ensures cache == old(cache)
      ensures cacheKeyOf(GetAllName, keys) in cache ==>
        r == cache[cacheKeyOf(GetAllName, keys)] && serviceCalls == old(serviceCalls)
      ensures cacheKeyOf(GetAllName, keys) !in cache ==>
        && serviceCalls == old(serviceCalls) + [GetEntityFilterGroupsByProviderKeys(filterProviderKeys)]
        && r == GetAllMiss(service.getByProviderKeys(filterProviderKeys), keys)
      ensures Coherent() ==> r == GetAllMiss(service.getByProviderKeys(filterProviderKeys), keys)
    {
      var cacheKey := cacheKeyOf(GetAllName, keys);
      if cacheKey in cache {
        return cache[cacheKey];
      }
      var collections := service.getByProviderKeys(filterProviderKeys);
      serviceCalls := serviceCalls + [GetEntityFilterGroupsByProviderKeys(filterProviderKeys)];
      r := MapGroups(if |keys| > 0 then WhereKeyIn(collections, keys) else collections);
    }

    /** The product filter groups with at least one filter holding the product; read through the cache. */
    method GetFilterGroupsContainingProduct(productKey: Guid) returns (r: seq<ProductFilterGroup>)
      requires Valid()
      modifies this`cache, this`serviceCalls
      ensures Valid()
      ensures var k := cacheKeyOf(ContainingName, [productKey]);
        if k in old(cache) then
          r == old(cache)[k] && cache == old(cache) && serviceCalls == old(serviceCalls)
        else
          && r == MapGroups(service.getContainingProduct(filterProviderKeys, productKey))
          && cache == old(cache)[k := r]
          && serviceCalls == old(serviceCalls) +
               [GetEntityFilterGroupsContainingProduct(filterProviderKeys, productKey)]
      ensures old(Coherent()) ==> r == MapGroups(service.getContainingProduct(filterProviderKeys, productKey))
      ensures Injective(cacheKeyOf) && old(Coherent()) ==> Coherent()
    {
      var cacheKey := cacheKeyOf(ContainingName, [productKey]);
      if cacheKey in cache {
        assert [productKey][0] == productKey;
        return cache[cacheKey];
      }
      // The get-or-compute call: the entry is still absent, so the supplier runs and its result is stored.
      var groups := service.getContainingProduct(filterProviderKeys, productKey);
      serviceCalls := serviceCalls + [GetEntityFilterGroupsContainingProduct(filterProviderKeys, productKey)];
      r := MapGroups(groups);
      cache := cache[cacheKey := r];
    }

    /** The product filter groups none of whose filters holds the product; read through the cache. */
    method GetFilterGroupsNotContainingProduct(productKey: Guid) returns (r: seq<ProductFilterGroup>)
      requires Valid()
      modifies this`cache, this`serviceCalls
      ensures Valid()
      ensures var k := cacheKeyOf(NotContainingName, [productKey]);
        if k in old(cache) then
          r == old(cache)[k] && cache == old(cache) && serviceCalls == old(serviceCalls)
        else
          && r == MapGroups(service.getNotContainingProduct(filterProviderKeys, productKey))
          && cache == old(cache)[k := r]
          && serviceCalls == old(serviceCalls) +
               [GetEntityFilterGroupsNotContainingProduct(filterProviderKeys, productKey)]
      ensures old(Coherent()) ==> r == MapGroups(service.getNotContainingProduct(filterProviderKeys, productKey))
      ensures Injective(cacheKeyOf) && old(Coherent()) ==> Coherent()
    {
      var cacheKey := cacheKeyOf(NotContainingName, [productKey]);
      if cacheKey in cache {
        assert [productKey][0] == productKey;
        return cache[cacheKey];
      }
      // The get-or-compute call: the entry is still absent, so the supplier runs and its result is stored.
      var groups := service.getNotContainingProduct(filterProviderKeys, productKey);
      serviceCalls := serviceCalls + [GetEntityFilterGroupsNotContainingProduct(filterProviderKeys, productKey)];
      r := MapGroups(groups);
      cache := cache[cacheKey := r];
    }
  }
}
