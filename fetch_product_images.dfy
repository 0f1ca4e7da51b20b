/** The offline script that caches one image URL per product display name: it
    collects the distinct names of the stored orders, skips the names the cache
    already holds a URL for, and searches Shopify for each remaining name's base
    title, caching the featured image's URL or `null`. */
module FetchProductImages {
  import opened Common
  import opened Shopify
  import opened Ranking
  import opened FetchShopifyProducts

  // ---------------------------------------------------------------------------
  // The search query

  /** `title.replace(/"/g, '\\"')`. */
  function EscapeQuotes(title: string): string {
    if title == [] then []
    else (if title[0] == '"' then ['\\', '"'] else [title[0]]) + EscapeQuotes(title[1..])
  }

  /** The search text sent for a title. */
  function Query(title: string): (q: string)
    ensures |q| >= 8 && q[..7] == "title:\"" && q[|q| - 1] == '"'
  {
    "title:\"" + EscapeQuotes(title) + "\""
  }

  /** Reading the escape back: `\"` stands for `"`, every other character for
      itself. */
  function UnescapeQuotes(s: string): string {
    if s == [] then []
    else if |s| >= 2 && s[0] == '\\' && s[1] == '"' then ['"'] + UnescapeQuotes(s[2..])
    else [s[0]] + UnescapeQuotes(s[1..])
  }

  /** The escape of a title starts with a backslash or the title's own first
      character, never with a quote. */
  lemma EscapeStart(title: string)
    requires title != []
    ensures EscapeQuotes(title) != []
    ensures EscapeQuotes(title)[0] == if title[0] == '"' then '\\' else title[0]
    ensures EscapeQuotes(title)[0] != '"'
  {
  }

  /** Every quote of the escaped title is preceded by a backslash. */
  lemma {:induction false} EscapedQuotes(title: string)
    ensures forall i :: 0 <= i < |EscapeQuotes(title)| && EscapeQuotes(title)[i] == '"' ==>
              i > 0 && EscapeQuotes(title)[i - 1] == '\\'
  {
    if title != [] {
      var rest := EscapeQuotes(title[1..]);
      EscapedQuotes(title[1..]);
      var head: string := if title[0] == '"' then ['\\', '"'] else [title[0]];
      var e := EscapeQuotes(title);
      assert e == head + rest;
      forall i | 0 <= i < |e|
        ensures e[i] == '"' ==> i > 0 && e[i - 1] == '\\'
      {
        if i >= |head| {
          assert e[i] == rest[i - |head|];
          if i == |head| {
            EscapeStart(title[1..]);
          } else {
            assert e[i - 1] == rest[i - 1 - |head|];
          }
        }
      }
    }
  }

  /** The escape loses nothing: reading it back gives the title. */
  lemma {:induction false} EscapeRoundTrip(title: string)
    ensures UnescapeQuotes(EscapeQuotes(title)) == title
  {
    if title != [] {
      EscapeRoundTrip(title[1..]);
      var rest := EscapeQuotes(title[1..]);
      if title[0] == '"' {
        assert EscapeQuotes(title) == ['\\', '"'] + rest;
        assert (['\\', '"'] + rest)[2..] == rest;
      } else {
        assert EscapeQuotes(title) == [title[0]] + rest;
        assert ([title[0]] + rest)[1..] == rest;
        if title[0] == '\\' && rest != [] {
          EscapeStart(title[1..]);
        }
      }
      assert title == [title[0]] + title[1..];
    }
  }

  // ---------------------------------------------------------------------------
  // The base title

  /** `name.split(' - ')[0]`: the text before the first " - ", or the whole name. */
  function BaseTitle(name: string): string {
    if |name| < 3 then name
    else if name[..3] == " - " then ""
    else [name[0]] + BaseTitle(name[1..])
  }

  /** Whether " - " occurs in `s` at `i`. */
  predicate SeparatorAt(s: string, i: int) {
    0 <= i && i + 3 <= |s| && s[i..i + 3] == " - "
  }

  /** The base title is a prefix of the name that contains no separator; it is
      the whole name when the name has none, and is followed by one otherwise. */
  lemma BaseTitleSpec(name: string)
    ensures |BaseTitle(name)| <= |name| && BaseTitle(name) == name[..|BaseTitle(name)|]
    ensures forall i :: 0 <= i < |BaseTitle(name)| ==> !SeparatorAt(name, i)
    ensures BaseTitle(name) == name || SeparatorAt(name, |BaseTitle(name)|)
  {
    BaseTitlePrefix(name);
    BaseTitleClean(name);
    BaseTitleStops(name);
  }

  lemma {:induction false} BaseTitlePrefix(name: string)
    ensures |BaseTitle(name)| <= |name| && BaseTitle(name) == name[..|BaseTitle(name)|]
  {
    if |name| >= 3 && name[..3] != " - " {
      BaseTitlePrefix(name[1..]);
    }
  }

  lemma {:induction false} BaseTitleClean(name: string)
    ensures forall i :: 0 <= i < |BaseTitle(name)| ==> !SeparatorAt(name, i)
  {
    if |name| >= 3 && name[..3] != " - " {
      var rest := name[1..];
      BaseTitleClean(rest);
      var b := BaseTitle(name);
      assert b == [name[0]] + BaseTitle(rest);
      forall i | 0 <= i < |b|
        ensures !SeparatorAt(name, i)
      {
        if i > 0 {
          assert SeparatorAt(name, i) ==> SeparatorAt(rest, i - 1) by {
            if SeparatorAt(name, i) {
              assert rest[i - 1..i + 2] == name[i..i + 3];
            }
          }
        } else {
          assert name[0..3] == name[..3];
        }
      }
    }
  }

  lemma {:induction false} BaseTitleStops(name: string)
    ensures BaseTitle(name) == name || SeparatorAt(name, |BaseTitle(name)|)
  {
    if |name| >= 3 && name[..3] != " - " {
      var rest := name[1..];
      BaseTitleStops(rest);
      BaseTitlePrefix(rest);
      var b := BaseTitle(name);
      assert b == [name[0]] + BaseTitle(rest);
      if b != name {
        assert BaseTitle(rest) != rest;
        assert rest[|BaseTitle(rest)|..|BaseTitle(rest)| + 3] == name[|b|..|b| + 3];
      }
    } else if |name| >= 3 {
      assert name[0..3] == name[..3];
    }
  }

  /** Up to its first separator, the name is its base title. */
  lemma {:induction false} BaseTitleAt(s: string, k: nat)
    requires forall i :: 0 <= i < k ==> !SeparatorAt(s, i)
    requires SeparatorAt(s, k)
    ensures BaseTitle(s) == s[..k]
  {
    if k == 0 {
      assert s[0..3] == s[..3];
    } else {
      assert !SeparatorAt(s, 0);
      assert s[0..3] == s[..3];
      var rest := s[1..];
      forall i | 0 <= i < k - 1
        ensures !SeparatorAt(rest, i)
      {
        assert rest[i..i + 3] == s[i + 1..i + 4];
        assert !SeparatorAt(s, i + 1);
      }
      assert rest[k - 1..k + 2] == s[k..k + 3];
      BaseTitleAt(rest, k - 1);
      assert s[..k] == [s[0]] + rest[..k - 1];
    }
  }

  /** A display name splits back into its product title, unless the title
      contains " - ", or ends in " -" and so makes one with the separator. */
  lemma {:induction false} BaseTitleOfFullName(title: string, variantTitle: string)
    requires forall i :: 0 <= i < |title| ==> !SeparatorAt(title + " -", i)
    ensures BaseTitle(FullName(title, variantTitle)) == title
  {
    if variantTitle != "" {
      var s := title + " - " + variantTitle;
      forall i | 0 <= i < |title|
        ensures !SeparatorAt(s, i)
      {
        assert s[..|title| + 2] == title + " -";
        assert s[i..i + 3] == (title + " -")[i..i + 3];
        assert !SeparatorAt(title + " -", i);
      }
      assert s[|title|..|title| + 3] == " - ";
      BaseTitleAt(s, |title|);
      assert s[..|title|] == title;
    } else {
      forall i | 0 <= i < |title|
        ensures !SeparatorAt(title, i)
      {
        assert !SeparatorAt(title + " -", i);
        if i + 3 <= |title| {
          assert (title + " -")[i..i + 3] == title[i..i + 3];
        }
      }
      BaseOfPlain(title);
    }
  }

  lemma {:induction false} BaseOfPlain(title: string)
    requires forall i :: 0 <= i < |title| ==> !SeparatorAt(title, i)
    ensures BaseTitle(title) == title
  {
    if |title| >= 3 {
      assert !SeparatorAt(title, 0);
      assert title[0..3] == title[..3];
      forall i | 0 <= i < |title[1..]|
        ensures !SeparatorAt(title[1..], i)
      {
        assert !SeparatorAt(title, i + 1);
        if i + 3 <= |title[1..]| {
          assert title[i + 1..i + 4] == title[1..][i..i + 3];
        }
      }
      BaseOfPlain(title[1..]);
      assert title == [title[0]] + title[1..];
    }
  }

  // ---------------------------------------------------------------------------
  // The search reply

  datatype ImageNode = ImageNode(url: Option<string>)
  datatype ProductNode = ProductNode(featuredImage: Option<ImageNode>)
  /** The JSON of a search: whether it has `errors`, and the first product found. */
  datatype SearchBody = SearchBody(hasErrors: bool, firstProduct: Option<ProductNode>)
  /** A search request: it threw, or a reply came back with `ok` and a body that
      parses (`Some`) or not (`None`). */
  datatype SearchResponse = SearchThrew | SearchReply(ok: bool, body: Option<SearchBody>)

  /** `fetchProductImage`: the featured image's URL, or `None` for a failed
      request, a reply that is not ok or does not parse, GraphQL errors, no
      product or no featured image. */
  function ImageFrom(r: SearchResponse): (url: Option<string>)
    ensures url.Some? ==> r.SearchReply? && r.ok && r.body.Some? && !r.body.value.hasErrors
  {
    match r
    case SearchThrew => None
    case SearchReply(ok, body) =>
      if !ok || body.None? || body.value.hasErrors then None
      else
        match body.value.firstProduct
        case Some(ProductNode(Some(image))) => image.url
        case _ => None
  }

  // ---------------------------------------------------------------------------
  // The unique names and the names to fetch

  /** Every product's display name, orders and products in order. */
  function AllNames(orders: seq<StoredOrder>): seq<string> {
    if orders == [] then []
    else AllNames(orders[..|orders| - 1]) + ProductNames(orders[|orders| - 1].products)
  }

  function ProductNames(products: seq<ProductRecord>): seq<string> {
    seq(|products|, k requires 0 <= k < |products| => FullName(products[k].title, products[k].variantTitle))
  }

  /** `uniqueProducts`: the set, in insertion order. */
  method UniqueProducts(orders: seq<StoredOrder>) returns (unique: seq<string>)
    ensures unique == FirstOccurrences(AllNames(orders))
  {
    unique := [];
    for i := 0 to |orders|
      invariant unique == FirstOccurrences(AllNames(orders[..i]))
    {
      assert orders[..i + 1][..i] == orders[..i];
      unique := AddNames(unique, orders[i].products, AllNames(orders[..i]));
    }
    assert orders[..|orders|] == orders;
  }

  /** `order.products.forEach(...)`: each display name is added to the set. */
  method AddNames(unique: seq<string>, products: seq<ProductRecord>, ghost prior: seq<string>) returns (r: seq<string>)
    requires unique == FirstOccurrences(prior)
    ensures r == FirstOccurrences(prior + ProductNames(products))
  {
    r := unique;
    ghost var seen := prior;
    assert prior + ProductNames(products)[..0] == prior;
    for k := 0 to |products|
      invariant seen == prior + ProductNames(products)[..k]
      invariant r == FirstOccurrences(seen)
    {
      var product := products[k];
      var fullName := if product.variantTitle != "" then product.title + " - " + product.variantTitle else product.title;
      NamesStep(prior, products, k);
      FirstOccurrencesSnoc(seen, fullName);
      if fullName !in r {
        r := r + [fullName];
      }
      seen := seen + [fullName];
    }
    assert ProductNames(products)[..|products|] == ProductNames(products);
  }

  lemma NamesStep(prior: seq<string>, products: seq<ProductRecord>, k: nat)
    requires k < |products|
    ensures prior + ProductNames(products)[..k + 1] ==
            (prior + ProductNames(products)[..k]) + [FullName(products[k].title, products[k].variantTitle)]
  {
    assert ProductNames(products)[..k + 1] == ProductNames(products)[..k] + [ProductNames(products)[k]];
  }

  /** Whether `imageCache[p]` is truthy for the loaded cache: a URL stored under
      `p`, or an inherited member of Object.prototype. */
  predicate HasImage(cache: map<string, Option<string>>, p: string) {
    if p in cache then Truthy(cache[p]) else p in InheritedNames
  }

  /** `productsToFetch`. */
  function ToFetch(unique: seq<string>, cache: map<string, Option<string>>): (r: seq<string>)
    ensures forall p :: p in r <==> p in unique && !HasImage(cache, p)
    ensures |r| <= |unique|
  {
    if unique == [] then []
    else
      var p := unique[|unique| - 1];
      ToFetch(unique[..|unique| - 1], cache) + (if HasImage(cache, p) then [] else [p])
  }

  /** A name cached as a miss (`null`) is fetched again, as is a name not cached. */
  lemma MissesRefetched(unique: seq<string>, cache: map<string, Option<string>>, p: string)
    requires p in unique && p !in InheritedNames
    requires p !in cache || cache[p] == None || cache[p] == Some("")
    ensures p in ToFetch(unique, cache)
  {
  }

  lemma {:induction false} ToFetchDistinct(unique: seq<string>, cache: map<string, Option<string>>)
    requires forall i, j :: 0 <= i < j < |unique| ==> unique[i] != unique[j]
    ensures forall i, j :: 0 <= i < j < |ToFetch(unique, cache)| ==> ToFetch(unique, cache)[i] != ToFetch(unique, cache)[j]
  {
    if unique != [] {
      ToFetchDistinct(unique[..|unique| - 1], cache);
    }
  }

  // ---------------------------------------------------------------------------
  // The fetch loop

  /** The image found for a name: the search for its base title. */
  function Lookup(name: string, search: string -> SearchResponse): Option<string> {
    ImageFrom(search(Query(BaseTitle(name))))
  }

  /** What a found URL writes: the URL when it is truthy, else `null`. */
  function Cached(url: Option<string>): Option<string> {
    if Truthy(url) then url else None
  }

  /** The cache after fetching the names in order. */
  function FetchAll(cache: map<string, Option<string>>, names: seq<string>, search: string -> SearchResponse): map<string, Option<string>> {
    if names == [] then cache
    else
      var name := names[|names| - 1];
      FetchAll(cache, names[..|names| - 1], search)[name := Cached(Lookup(name, search))]
  }

  /** How many of the names get a URL. */
  function Found(names: seq<string>, search: string -> SearchResponse): nat {
    if names == [] then 0
    else Found(names[..|names| - 1], search) + (if Truthy(Lookup(names[|names| - 1], search)) then 1 else 0)
  }

  /** The loop over `productsToFetch` with its `fetched` and `failed` counters. */
  method FetchImages(cache: map<string, Option<string>>, productsToFetch: seq<string>, search: string -> SearchResponse)
    returns (imageCache: map<string, Option<string>>, fetched: nat, failed: nat)
    ensures imageCache == FetchAll(cache, productsToFetch, search)
    ensures fetched == Found(productsToFetch, search)
    ensures fetched + failed == |productsToFetch|
  {
    imageCache, fetched, failed := cache, 0, 0;
    for i := 0 to |productsToFetch|
      invariant imageCache == FetchAll(cache, productsToFetch[..i], search)
      invariant fetched == Found(productsToFetch[..i], search)
      invariant fetched + failed == i
    {
      assert productsToFetch[..i + 1][..i] == productsToFetch[..i];
      var productName := productsToFetch[i];
      var baseTitle := BaseTitle(productName);
      var imageUrl := ImageFrom(search(Query(baseTitle)));
      if Truthy(imageUrl) {
        imageCache := imageCache[productName := imageUrl];
        fetched := fetched + 1;
      } else {
        imageCache := imageCache[productName := None];
        failed := failed + 1;
      }
    }
    assert productsToFetch[..|productsToFetch|] == productsToFetch;
  }

  /** After the loop every fetched name is cached with a URL or `null`, and
      every other entry is as it was. */
  lemma {:induction false} FetchAllSpec(cache: map<string, Option<string>>, names: seq<string>, search: string -> SearchResponse)
    ensures FetchAll(cache, names, search).Keys == cache.Keys + set p | p in names
    ensures forall p :: p in names ==>
              FetchAll(cache, names, search)[p] == Cached(Lookup(p, search)) &&
              (FetchAll(cache, names, search)[p].None? || Truthy(FetchAll(cache, names, search)[p]))
    ensures forall p :: p in cache && p !in names ==> FetchAll(cache, names, search)[p] == cache[p]
  {
    if names != [] {
      FetchAllSpec(cache, names[..|names| - 1], search);
      assert forall p :: p in names <==> p in names[..|names| - 1] || p == names[|names| - 1];
    }
  }

  /** `cacheProductImages` between reading its files and writing the cache:
      with nothing to fetch the loaded cache is returned as it is. */
  method CacheProductImages(orders: seq<StoredOrder>, cache: map<string, Option<string>>, search: string -> SearchResponse)
    returns (imageCache: map<string, Option<string>>, fetched: nat, failed: nat)
    ensures var toFetch := ToFetch(FirstOccurrences(AllNames(orders)), cache);
      && imageCache == FetchAll(cache, toFetch, search)
      && fetched == Found(toFetch, search)
      && fetched + failed == |toFetch|
  {
    var uniqueProducts := UniqueProducts(orders);
    var productsToFetch := ToFetch(uniqueProducts, cache);
    if |productsToFetch| == 0 {
      return cache, 0, 0;
    }
    imageCache, fetched, failed := FetchImages(cache, productsToFetch, search);
  }

  /** A cached URL is never replaced: the names that have one are not fetched. */
  lemma CachedUrlsKept(orders: seq<StoredOrder>, cache: map<string, Option<string>>, search: string -> SearchResponse, p: string)
    requires p in cache && Truthy(cache[p])
    ensures var toFetch := ToFetch(FirstOccurrences(AllNames(orders)), cache);
      p in FetchAll(cache, toFetch, search) && FetchAll(cache, toFetch, search)[p] == cache[p]
  {
    FetchAllSpec(cache, ToFetch(FirstOccurrences(AllNames(orders)), cache), search);
  }
}
