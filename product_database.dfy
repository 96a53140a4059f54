/**
 * The genuine-product catalog (anti_piracy_system/product_database.py): a dictionary
 * from product id to record, kept in insertion order, with name and keyword search,
 * the official-shop test and per-platform / per-category statistics.
 * Loading and saving the JSON file is not modelled; the constructor receives the
 * table that loading produced.
 */
module ProductDatabase {
  import opened Wrappers
  import opened Text
  import opened Seqs

  /** A genuine catalog record. */
  datatype GenuineProduct = GenuineProduct(
    productId: string,
    productName: string,
    shopName: string,
    officialShops: seq<string>,
    originalPrice: real,
    platform: string,
    category: string,
    description: Option<string>,
    keywords: seq<string>,
    createdAt: string,
    updatedAt: string)

  /**
   * Building a record: missing timestamps become `now`, missing keywords the empty list
   * (the dataclass's `__post_init__`).
   */
  function NewGenuineProduct(productId: string, productName: string, shopName: string,
                             officialShops: seq<string>, originalPrice: real, platform: string,
                             category: string, description: Option<string>,
                             keywords: Option<seq<string>>, createdAt: Option<string>,
                             updatedAt: Option<string>, now: string): (p: GenuineProduct)
    ensures keywords.None? ==> p.keywords == []
    ensures keywords.Some? ==> p.keywords == keywords.value
    ensures p.createdAt == createdAt.GetOr(now) && p.updatedAt == updatedAt.GetOr(now)
    ensures p.productId == productId && p.productName == productName && p.shopName == shopName
    ensures p.officialShops == officialShops && p.originalPrice == originalPrice
    ensures p.platform == platform && p.category == category && p.description == description
  {
    GenuineProduct(productId, productName, shopName, officialShops, originalPrice, platform, category,
                   description, keywords.GetOr([]), createdAt.GetOr(now), updatedAt.GetOr(now))
  }

  /** The shop is one of the record's authorised shops or its own shop (exact names). */
  predicate OfficialFor(p: GenuineProduct, shop: string)
  {
    shop in p.officialShops || shop == p.shopName
  }

  /** `product_name.lower() in product.product_name.lower()` */
  predicate NameHit(query: string, p: GenuineProduct)
  {
    Contains(Lower(p.productName), Lower(query))
  }

  function NameFilter(query: string): GenuineProduct -> bool
  {
    p => NameHit(query, p)
  }

  /** A record with keywords whose space-joined, lower-cased list contains some lower-cased query keyword. */
  predicate KeywordHit(kws: seq<string>, p: GenuineProduct)
  {
    p.keywords != [] && exists i | 0 <= i < |kws| :: Contains(Lower(Join(p.keywords, " ")), Lower(kws[i]))
  }

  function KeywordFilter(kws: seq<string>): GenuineProduct -> bool
  {
    p => KeywordHit(kws, p)
  }

  function PlatformOf(p: GenuineProduct): string { p.platform }

  function CategoryOf(p: GenuineProduct): string { p.category }

  /** The result of `get_stats`. */
  datatype Stats = Stats(totalProducts: nat, platforms: seq<Entry>, categories: seq<Entry>)

  /** The catalog's contents: the dictionary and the order its keys were inserted in. */
  datatype Catalog = Catalog(order: seq<string>, products: map<string, GenuineProduct>)
  {
    ghost predicate Valid()
    {
      (forall i, j :: 0 <= i < j < |order| ==> order[i] != order[j])
      && (forall id :: id in products <==> id in order)
    }

    /** `self.products.values()`, in insertion order. */
    function Values(): (vs: seq<GenuineProduct>)
      requires Valid()
      ensures |vs| == |order|
      ensures forall i :: 0 <= i < |order| ==> vs[i] == products[order[i]]
    {
      seq(|order|, i requires 0 <= i < |order| => products[order[i]])
    }

    /** `self.products.get(product_id)` */
    function Get(id: string): (r: Option<GenuineProduct>)
      ensures r.Some? <==> id in products
      ensures r.Some? ==> r.value == products[id]
    {
      if id in products then Some(products[id]) else None
    }

    function NameMatches(query: string): seq<GenuineProduct>
      requires Valid()
    {
      Filter(Values(), NameFilter(query))
    }

    function KeywordMatches(kws: seq<string>): seq<GenuineProduct>
      requires Valid()
    {
      Filter(Values(), KeywordFilter(kws))
    }

    /**
     * `is_official_shop`: with a (non-empty) product id, only that record decides and an
     * unknown id gives false; with no id, or the empty id, any record may vouch for the shop.
     */
    function IsOfficialShop(shop: string, productId: Option<string>): bool
      requires Valid()
    {
      if Truthy(productId) then
        (match Get(productId.value)
         case Some(p) => OfficialFor(p, shop)
         case None => false)
      else
        exists i | 0 <= i < |order| :: OfficialFor(Values()[i], shop)
    }

    function Summary(): Stats
      requires Valid()
    {
      Stats(|products|, TallyOf(MapSeq(Values(), PlatformOf)), TallyOf(MapSeq(Values(), CategoryOf)))
    }
  }

  /** The keys of a table with distinct keys, minus one key, keep their order and stay distinct. */
  function RemoveKey(order: seq<string>, id: string): (r: seq<string>)
    ensures forall k :: k in r <==> k in order && k != id
    ensures (forall i, j :: 0 <= i < j < |order| ==> order[i] != order[j]) ==>
              forall i, j :: 0 <= i < j < |r| ==> r[i] != r[j]
  {
    if order == [] then []
    else
      var rest := RemoveKey(order[1..], id);
      assert forall k :: k in order <==> k == order[0] || k in order[1..];
      assert (forall i, j :: 0 <= i < j < |order| ==> order[i] != order[j]) ==> order[0] !in rest;
      if order[0] == id then rest else [order[0]] + rest
  }

  /** The map of a valid table has as many entries as the key order. */
  lemma TableSize(c: Catalog)
    requires c.Valid()
    ensures |c.products| == |c.order|
  {
    DistinctCard(c.order);
    assert c.products.Keys == set x | x in c.order;
  }

  class ProductDatabase {
    var order: seq<string>
    var products: map<string, GenuineProduct>

    function Table(): Catalog
      reads this
    {
      Catalog(order, products)
    }

    ghost predicate Valid()
      reads this
    {
      Table().Valid()
    }

    /** The database as `load()` left it. */
    constructor(loaded: Catalog)
      requires loaded.Valid()
      ensures Valid() && Table() == loaded
    {
      order := loaded.order;
      products := loaded.products;
    }

    /**
     * `add_product`: stores the record under its id, refreshing `updated_at` when the id
     * was already present (that key keeps its place); always succeeds.
     */
    method AddProduct(product: GenuineProduct, now: string) returns (ok: bool)
      requires Valid()
      modifies this
      ensures Valid() && ok
      ensures var stored := if product.productId in old(products) then product.(updatedAt := now) else product;
              products == old(products)[product.productId := stored]
      ensures order == if product.productId in old(products) then old(order) else old(order) + [product.productId]
    {
      var stored := product;
      if product.productId in products {
        stored := product.(updatedAt := now);
      } else {
        order := order + [product.productId];
      }
      products := products[product.productId := stored];
      ok := true;
    }

    /** `get_product` */
    function GetProduct(id: string): (r: Option<GenuineProduct>)
      reads this
      ensures r.Some? <==> id in products
      ensures r.Some? ==> r.value == products[id]
    {
      Table().Get(id)
    }

    /** `get_all_products` */
    function GetAllProducts(): (r: seq<GenuineProduct>)
      reads this
      requires Valid()
      ensures forall p :: p in r <==> exists id :: id in products && products[id] == p
    {
      assert forall p :: p in Table().Values() <==> exists i :: 0 <= i < |order| && products[order[i]] == p;
      Table().Values()
    }

    /** `search_by_name`: the records whose lower-cased name contains the lower-cased query, in table order. */
    method SearchByName(query: string) returns (results: seq<GenuineProduct>)
      requires Valid()
      ensures results == Table().NameMatches(query)
    {
      var vals := Table().Values();
      results := [];
      var i := 0;
      while i < |order|
        invariant 0 <= i <= |order|
        invariant results == Filter(vals[..i], NameFilter(query))
      {
        var p := products[order[i]];
        FilterSnoc(vals, i, NameFilter(query));
        if Contains(Lower(p.productName), Lower(query)) {
          results := results + [p];
        }
        i := i + 1;
      }
      assert vals[..i] == vals;
    }

    /** `search_by_keywords`: records with keywords that some query keyword matches, in table order. */
    method SearchByKeywords(kws: seq<string>) returns (results: seq<GenuineProduct>)
      requires Valid()
      ensures results == Table().KeywordMatches(kws)
    {
      var vals := Table().Values();
      results := [];
      var i := 0;
      while i < |order|
        invariant 0 <= i <= |order|
        invariant results == Filter(vals[..i], KeywordFilter(kws))
      {
        var p := products[order[i]];
        FilterSnoc(vals, i, KeywordFilter(kws));
        if p.keywords != [] {
          if exists j | 0 <= j < |kws| :: Contains(Lower(Join(p.keywords, " ")), Lower(kws[j])) {
            results := results + [p];
          }
        }
        i := i + 1;
      }
      assert vals[..i] == vals;
    }

    /** `is_official_shop`, scanning the records in order and stopping at the first that vouches for the shop. */
    method IsOfficialShop(shop: string, productId: Option<string>) returns (b: bool)
      requires Valid()
      ensures b == Table().IsOfficialShop(shop, productId)
    {
      if Truthy(productId) {
        var p := GetProduct(productId.value);
        if p.Some? {
          return shop in p.value.officialShops || shop == p.value.shopName;
        }
        return false;
      }
      var vals := Table().Values();
      var i := 0;
      while i < |order|
        invariant 0 <= i <= |order|
        invariant forall j :: 0 <= j < i ==> !OfficialFor(vals[j], shop)
      {
        var p := products[order[i]];
        if shop in p.officialShops || shop == p.shopName {
          return true;
        }
        i := i + 1;
      }
      return false;
    }

    /** `delete_product`: removes a present id (the other keys keep their order) and reports whether it was present. */
    method DeleteProduct(id: string) returns (ok: bool)
      requires Valid()
      modifies this
      ensures Valid()
      ensures ok == (id in old(products))
      ensures products == old(products) - {id}
      ensures order == if ok then RemoveKey(old(order), id) else old(order)
    {
      if id in products {
        products := products - {id};
        order := RemoveKey(order, id);
        return true;
      }
      return false;
    }

    /** `get_stats`: the table size and the per-platform and per-category count dictionaries. */
    method GetStats() returns (s: Stats)
      requires Valid()
      ensures s == Table().Summary()
    {
      var vals := Table().Values();
      var platforms: seq<Entry> := [];
      var categories: seq<Entry> := [];
      var i := 0;
      while i < |order|
        invariant 0 <= i <= |order|
        invariant platforms == TallyOf(MapSeq(vals[..i], PlatformOf))
        invariant categories == TallyOf(MapSeq(vals[..i], CategoryOf))
      {
        var p := products[order[i]];
        MapSeqSnoc(vals, i, PlatformOf);
        MapSeqSnoc(vals, i, CategoryOf);
        platforms := Bump(platforms, p.platform);
        categories := Bump(categories, p.category);
        i := i + 1;
      }
      assert vals[..i] == vals;
      s := Stats(|products|, platforms, categories);
    }
  }

  /** `search_by_name` returns exactly the records whose lower-cased name contains the lower-cased query. */
  lemma NameMatchesExactly(c: Catalog, query: string)
    requires c.Valid()
    ensures forall p :: p in c.NameMatches(query) <==> p in c.Values() && NameHit(query, p)
  {
    FilterMembers(c.Values(), NameFilter(query));
  }

  /**
   * `search_by_keywords` never returns a record with empty keywords, and returns a record
   * iff some lower-cased query keyword occurs in its lower-cased, space-joined keywords.
   */
  lemma KeywordMatchesExactly(c: Catalog, kws: seq<string>)
    requires c.Valid()
    ensures forall p :: p in c.KeywordMatches(kws) ==> p.keywords != []
    ensures forall p :: p in c.KeywordMatches(kws) <==>
              p in c.Values() && p.keywords != [] &&
              exists i :: 0 <= i < |kws| && Contains(Lower(Join(p.keywords, " ")), Lower(kws[i]))
  {
    FilterMembers(c.Values(), KeywordFilter(kws));
  }

  /** With no keywords to look for, keyword search finds nothing. */
  lemma NoKeywordsNoMatch(c: Catalog)
    requires c.Valid()
    ensures c.KeywordMatches([]) == []
  {
    FilterEmpty(c.Values(), KeywordFilter([]));
  }

  /** With a product id, only that record decides; an unknown id is never official. */
  lemma OfficialById(c: Catalog, shop: string, id: string)
    requires c.Valid() && id != ""
    ensures id !in c.products ==> !c.IsOfficialShop(shop, Some(id))
    ensures id in c.products ==>
              (c.IsOfficialShop(shop, Some(id)) <==> shop in c.products[id].officialShops || shop == c.products[id].shopName)
  {
  }

  /** Without a product id (or with the empty one), a shop is official iff some record vouches for it. */
  lemma OfficialWithoutId(c: Catalog, shop: string, productId: Option<string>)
    requires c.Valid() && (productId == None || productId == Some(""))
    ensures c.IsOfficialShop(shop, productId) <==> exists p :: p in c.Values() && OfficialFor(p, shop)
  {
    var vs := c.Values();
    if exists p :: p in vs && OfficialFor(p, shop) {
      var p :| p in vs && OfficialFor(p, shop);
      var i :| 0 <= i < |vs| && vs[i] == p;
      assert OfficialFor(c.Values()[i], shop);
    }
  }

  /** `total_products` is the number of records, and each count dictionary adds up to it. */
  lemma StatsAddUp(c: Catalog)
    requires c.Valid()
    ensures c.Summary().totalProducts == |c.Values()|
    ensures Total(c.Summary().platforms) == c.Summary().totalProducts
    ensures Total(c.Summary().categories) == c.Summary().totalProducts
  {
    TableSize(c);
    TallyTotal(MapSeq(c.Values(), PlatformOf));
    TallyTotal(MapSeq(c.Values(), CategoryOf));
  }

  /** Each platform's count is the number of records on that platform. */
  lemma StatsCountPlatform(c: Catalog, platform: string)
    requires c.Valid()
    ensures CountOf(c.Summary().platforms, platform) == multiset(MapSeq(c.Values(), PlatformOf))[platform]
    ensures KeysDistinct(c.Summary().platforms)
  {
    TallyCounts(MapSeq(c.Values(), PlatformOf), platform);
  }
}
