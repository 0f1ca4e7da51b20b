/** The aggregation helpers of the top-products job: extractProducts,
    calculateTopModels and the capped, chunked fetch loop. The request handler
    and the queue consumer carry identical copies of them. */
module Aggregation {
  import opened Common
  import opened Shopify
  import opened Ranking
  import opened StableSort

  /** One purchased unit of a product: `{fullName, imageUrl}`. */
  datatype Unit = Unit(fullName: string, imageUrl: Option<string>)

  /** One ranked product: `{rank, name, count, image}`. */
  datatype TopModel = TopModel(rank: nat, name: string, count: nat, image: Option<string>)

  /** The number of turns of `for (let i = 0; i < q; i++)`. */
  function Turns(q: int): nat {
    if q < 0 then 0 else q
  }

  function UnitOf(item: LineItem): Unit
    requires Kept(item)
  {
    var v := item.variant.value;
    var p := v.product.value;
    Unit(DisplayName(p.title, v.title), ImageOf(v, p))
  }

  /** The units a line item contributes: `quantity` copies of its unit when kept. */
  function ItemUnits(item: LineItem): seq<Unit> {
    if Kept(item) then seq(Turns(item.quantity), _ => UnitOf(item)) else []
  }

  function ItemsUnits(items: seq<LineItem>): seq<Unit> {
    if items == [] then [] else ItemsUnits(items[..|items| - 1]) + ItemUnits(items[|items| - 1])
  }

  function OrderUnits(order: Order): seq<Unit> {
    match order.lineItems
    case None => []
    case Some(items) => ItemsUnits(items)
  }

  function Names(units: seq<Unit>): seq<string> {
    seq(|units|, i requires 0 <= i < |units| => units[i].fullName)
  }

  /** How many units a name gets from a list of line items: the quantities of
      the kept items that bear that name. */
  function QuantityOf(items: seq<LineItem>, n: string): nat {
    if items == [] then 0
    else
      var item := items[|items| - 1];
      QuantityOf(items[..|items| - 1], n) + (if Kept(item) && UnitOf(item).fullName == n then Turns(item.quantity) else 0)
  }

  /** extractProducts: one unit per purchased piece of every kept line item. */
  method ExtractProducts(order: Order) returns (units: seq<Unit>)
    ensures units == OrderUnits(order)
  {
    units := [];
    if order.lineItems.None? {
      return;
    }
    var items := order.lineItems.value;
    for k := 0 to |items|
      invariant units == ItemsUnits(items[..k])
    {
      var item := items[k];
      assert items[..k + 1][..k] == items[..k];
      if item.variant.Some? && item.variant.value.product.Some? {
        var v := item.variant.value;
        var p := v.product.value;
        var imageUrl := ImageOf(v, p);
        var fullName := DisplayName(p.title, v.title);
        var i := 0;
        while i < item.quantity
          invariant 0 <= i <= Turns(item.quantity)
          invariant units == ItemsUnits(items[..k]) + seq(i, _ => Unit(fullName, imageUrl))
        {
          units := units + [Unit(fullName, imageUrl)];
          i := i + 1;
        }
      }
    }
    assert items[..|items|] == items;
  }

  lemma NamesAppend(a: seq<Unit>, b: seq<Unit>)
    ensures Names(a + b) == Names(a) + Names(b)
  {
  }

  /** Each name gets exactly the quantities of the kept line items bearing it;
      items without a product contribute nothing. */
  lemma {:induction false} ExtractedCounts(items: seq<LineItem>, n: string)
    ensures Occurrences(Names(ItemsUnits(items)), n) == QuantityOf(items, n)
  {
    if items != [] {
      var init := items[..|items| - 1];
      var item := items[|items| - 1];
      ExtractedCounts(init, n);
      NamesAppend(ItemsUnits(init), ItemUnits(item));
      OccurrencesAppend(Names(ItemsUnits(init)), Names(ItemUnits(item)), n);
      UnitCopies(Names(ItemUnits(item)), if Kept(item) then UnitOf(item).fullName else "", n);
    }
  }

  lemma {:induction false} UnitCopies(names: seq<string>, name: string, n: string)
    requires forall i :: 0 <= i < |names| ==> names[i] == name
    ensures Occurrences(names, n) == if name == n then |names| else 0
  {
    if names != [] {
      UnitCopies(names[..|names| - 1], name, n);
    }
  }

  /** Every extracted unit comes from a kept line item, with that item's display
      name and preferred image. */
  lemma {:induction false} ExtractedUnitsOrigin(items: seq<LineItem>, u: Unit)
    requires u in ItemsUnits(items)
    ensures exists k :: 0 <= k < |items| && Kept(items[k]) && u == UnitOf(items[k])
  {
    var init := items[..|items| - 1];
    var item := items[|items| - 1];
    if u in ItemsUnits(init) {
      ExtractedUnitsOrigin(init, u);
      var k :| 0 <= k < |init| && Kept(init[k]) && u == UnitOf(init[k]);
      assert items[k] == init[k];
    } else {
      assert u in ItemUnits(item);
    }
  }

  // ---------------------------------------------------------------------------
  // calculateTopModels

  /** The first image URL JavaScript treats as true among the units named `n`. */
  function FirstImage(units: seq<Unit>, n: string): Option<string> {
    if units == [] then None
    else
      var prior := FirstImage(units[..|units| - 1], n);
      var u := units[|units| - 1];
      if prior.Some? then prior else if u.fullName == n && Truthy(u.imageUrl) then u.imageUrl else None
  }

  /** The ranked list calculateTopModels returns. */
  function TopModelsOf(units: seq<Unit>): seq<TopModel> {
    var top := TopThree(Names(units));
    seq(|top|, i requires 0 <= i < |top| => TopModel(i + 1, top[i].name, top[i].count, FirstImage(units, top[i].name)))
  }

  predicate PlainNames(units: seq<Unit>) {
    forall i :: 0 <= i < |units| ==> PlainKey(units[i].fullName)
  }

  /** The tally loop of calculateTopModels: `productCounts` holds each name's
      number of units, its keys in first-seen order; `productImages` the first
      image URL JavaScript treats as true for each name that has one. */
  method Tally(units: seq<Unit>) returns (productCounts: Dict<nat>, productImages: map<string, string>)
    ensures productCounts.Valid()
    ensures productCounts.keys == FirstOccurrences(Names(units))
    ensures forall n :: n in productCounts.values ==> productCounts.values[n] == Occurrences(Names(units), n)
    ensures forall n :: n in productImages <==> FirstImage(units, n).Some?
    ensures forall n :: n in productImages ==> FirstImage(units, n) == Some(productImages[n])
  {
    productCounts := EmptyDict();
    productImages := map[];
    for i := 0 to |units|
      invariant Tallied(productCounts, Names(units[..i]))
      invariant ImagesOf(productImages, units[..i])
    {
      var p := units[i];
      assert Names(units[..i + 1]) == Names(units[..i]) + [p.fullName];
      TallyName(productCounts, Names(units[..i]), p.fullName);
      ImageUnit(productImages, units, i);
      var c := if p.fullName in productCounts.values then productCounts.values[p.fullName] else 0;
      productCounts := productCounts.Put(p.fullName, c + 1);
      if Truthy(p.imageUrl) && p.fullName !in productImages {
        productImages := productImages[p.fullName := p.imageUrl.value];
      }
    }
    assert units[..|units|] == units;
  }

  /** `productCounts` holds the tally of `names`: one key per distinct name, in
      order of first occurrence, mapped to its number of occurrences. */
  ghost predicate Tallied(productCounts: Dict<nat>, names: seq<string>) {
    && productCounts.Valid()
    && productCounts.keys == FirstOccurrences(names)
    && forall n :: n in productCounts.values ==> productCounts.values[n] == Occurrences(names, n)
  }

  /** `productCounts[name] = (productCounts[name] || 0) + 1` tallies one more name. */
  lemma TallyName(productCounts: Dict<nat>, names: seq<string>, x: string)
    requires Tallied(productCounts, names)
    ensures Tallied(productCounts.Put(x, (if x in productCounts.values then productCounts.values[x] else 0) + 1), names + [x])
  {
    var t := names + [x];
    assert t[..|t| - 1] == names;
    FirstOccurrencesSpec(names);
    OccurrencesPositive(names, x);
  }

  /** `productImages` holds the first image of each name of `units`. */
  ghost predicate ImagesOf(productImages: map<string, string>, units: seq<Unit>) {
    && (forall n :: n in productImages <==> FirstImage(units, n).Some?)
    && (forall n :: n in productImages ==> FirstImage(units, n) == Some(productImages[n]))
  }

  lemma ImageUnit(productImages: map<string, string>, units: seq<Unit>, i: nat)
    requires i < |units| && ImagesOf(productImages, units[..i])
    ensures var p := units[i];
      ImagesOf(if Truthy(p.imageUrl) && p.fullName !in productImages then productImages[p.fullName := p.imageUrl.value]
               else productImages, units[..i + 1])
  {
    TallyStep(units, i);
  }

  /** What one more unit does to the tally's specification. */
  lemma TallyStep(units: seq<Unit>, i: nat)
    requires i < |units|
    ensures forall n :: FirstImage(units[..i + 1], n) ==
              if FirstImage(units[..i], n).Some? then FirstImage(units[..i], n)
              else if units[i].fullName == n && Truthy(units[i].imageUrl) then units[i].imageUrl else None
  {
    assert units[..i + 1][..i] == units[..i];
  }

  /** calculateTopModels: tally the units in a plain object, sort the entries by
      count, cut to three and number the ranks. */
  method CalculateTopModels(units: seq<Unit>) returns (models: seq<TopModel>)
    requires PlainNames(units)
    ensures models == TopModelsOf(units)
  {
    var productCounts, productImages := Tally(units);
    var keys := productCounts.keys;
    var entries := seq(|keys|, k requires 0 <= k < |keys| => Entry(keys[k], productCounts.values[keys[k]]));
    assert entries == Entries(Names(units));
    var sorted := SortDesc(entries, CountKey);
    var top := sorted[..Min(3, |sorted|)];
    models := seq(|top|, k requires 0 <= k < |top| =>
      TopModel(k + 1, top[k].name, top[k].count,
               if top[k].name in productImages then Some(productImages[top[k].name]) else None));
  }

  /** Each ranked image is the first URL seen for that name that JavaScript
      treats as true, and null only when no unit of that name has one. */
  lemma FirstImageSpec(units: seq<Unit>, n: string)
    ensures FirstImage(units, n).None? ==>
              forall k :: 0 <= k < |units| && units[k].fullName == n ==> !Truthy(units[k].imageUrl)
    ensures FirstImage(units, n).Some? ==>
              exists k :: && 0 <= k < |units| && units[k].fullName == n
                          && units[k].imageUrl == FirstImage(units, n) && Truthy(units[k].imageUrl)
                          && forall j :: 0 <= j < k && units[j].fullName == n ==> !Truthy(units[j].imageUrl)
  {
    FirstImageNone(units, n);
    FirstImageSome(units, n);
  }

  lemma {:induction false} FirstImageNone(units: seq<Unit>, n: string)
    ensures FirstImage(units, n).None? ==>
              forall k :: 0 <= k < |units| && units[k].fullName == n ==> !Truthy(units[k].imageUrl)
  {
    if units != [] {
      var init := units[..|units| - 1];
      FirstImageNone(init, n);
      assert forall k :: 0 <= k < |init| ==> units[k] == init[k];
    }
  }

  lemma {:induction false} FirstImageSome(units: seq<Unit>, n: string)
    ensures FirstImage(units, n).Some? ==>
              exists k :: && 0 <= k < |units| && units[k].fullName == n
                          && units[k].imageUrl == FirstImage(units, n) && Truthy(units[k].imageUrl)
                          && forall j :: 0 <= j < k && units[j].fullName == n ==> !Truthy(units[j].imageUrl)
  {
    if units != [] {
      var init := units[..|units| - 1];
      if FirstImage(init, n).Some? {
        FirstImageSome(init, n);
        var k :| && 0 <= k < |init| && init[k].fullName == n
                 && init[k].imageUrl == FirstImage(init, n) && Truthy(init[k].imageUrl)
                 && forall j :: 0 <= j < k && init[j].fullName == n ==> !Truthy(init[j].imageUrl);
        assert units[k] == init[k];
        assert forall j :: 0 <= j < k ==> units[j] == init[j];
      } else if FirstImage(units, n).Some? {
        FirstImageNone(init, n);
        assert forall j :: 0 <= j < |init| ==> units[j] == init[j];
      }
    }
  }

  /** What calculateTopModels promises: at most three entries ranked 1..k, each
      with its name's number of units, counts non-increasing, equal counts in
      first-seen order, and every unranked name behind all three ranked ones. */
  lemma TopModelsRanked(units: seq<Unit>)
    ensures var r := TopModelsOf(units);
      && |r| == Min(3, |FirstOccurrences(Names(units))|)
      && (forall i :: 0 <= i < |r| ==> r[i].rank == i + 1)
      && (forall i :: 0 <= i < |r| ==>
            r[i].name in Names(units) && r[i].count == Occurrences(Names(units), r[i].name) && r[i].count > 0)
      && (forall i, j :: 0 <= i < j < |r| ==> r[i].name != r[j].name && r[i].count >= r[j].count)
      && (forall i, j :: 0 <= i < j < |r| && r[i].count == r[j].count ==>
            FirstIndex(Names(units), r[i].name) < FirstIndex(Names(units), r[j].name))
  {
    TopThreeOrdered(Names(units));
  }

  /** A name missing from the ranking has no more units than any ranked one. */
  lemma TopModelsComplete(units: seq<Unit>, n: string)
    requires n in Names(units)
    requires forall i :: 0 <= i < |TopModelsOf(units)| ==> TopModelsOf(units)[i].name != n
    ensures |TopModelsOf(units)| == 3
    ensures forall i :: 0 <= i < 3 ==> TopModelsOf(units)[i].count >= Occurrences(Names(units), n)
  {
    assert forall i :: 0 <= i < |TopModelsOf(units)| ==> TopModelsOf(units)[i].name == TopThree(Names(units))[i].name;
    TopThreeComplete(Names(units), n);
  }

  // ---------------------------------------------------------------------------
  // The fetch loop

  /** At most this many referred orders are fetched. */
  const MaxOrders: nat := 50

  /** Orders are fetched this many at a time. */
  const BatchSize: nat := 10

  function OrderUnitsOf(o: Option<Order>): seq<Unit> {
    match o
    case None => []
    case Some(order) => OrderUnits(order)
  }

  /** The units one order id yields: none when its fetch fails. */
  function Fetched(id: string, fetch: string -> ShopifyResponse): seq<Unit> {
    OrderUnitsOf(HandlerOrder(fetch(OrderGid(id))))
  }

  /** The concatenation of `f(id)` over the ids, in order. */
  function ConcatMap(ids: seq<string>, f: string -> seq<Unit>): seq<Unit> {
    if ids == [] then [] else ConcatMap(ids[..|ids| - 1], f) + f(ids[|ids| - 1])
  }

  /** The units of the orders that fetch successfully, in order-id order. */
  function FetchedUnits(ids: seq<string>, fetch: string -> ShopifyResponse): seq<Unit> {
    ConcatMap(ids, FetchedOf(fetch))
  }

  function FetchedOf(fetch: string -> ShopifyResponse): string -> seq<Unit> {
    id => Fetched(id, fetch)
  }

  /** The concatenation of the batches. */
  function Flatten(batches: seq<seq<string>>): seq<string> {
    if batches == [] then [] else batches[0] + Flatten(batches[1..])
  }

  /** `ids` cut into consecutive batches of `BatchSize`, the last one shorter. */
  function Chunks(ids: seq<string>): seq<seq<string>>
    decreases |ids|
  {
    if ids == [] then [] else [ids[..Min(BatchSize, |ids|)]] + Chunks(ids[Min(BatchSize, |ids|)..])
  }

  /** One batch: its orders fetched together, the products of each successful
      one appended in batch order. */
  method FetchBatch(batch: seq<string>, fetch: string -> ShopifyResponse) returns (units: seq<Unit>)
    ensures units == FetchedUnits(batch, fetch)
  {
    var batchResults := seq(|batch|, k requires 0 <= k < |batch| => HandlerOrder(fetch(OrderGid(batch[k]))));
    units := [];
    for k := 0 to |batchResults|
      invariant units == FetchedUnits(batch[..k], fetch)
    {
      assert batch[..k + 1][..k] == batch[..k];
      match batchResults[k]
      case Some(order) =>
        var products := ExtractProducts(order);
        units := units + products;
      case None =>
    }
    assert batch[..|batch|] == batch;
  }

  /** The fetch loop: the first 50 order ids in consecutive batches of 10, a
      pause only between two batches, failed fetches dropped. `batches` and
      `pauses` record the requests and the waits. */
  method FetchOrders(referred: seq<string>, fetch: string -> ShopifyResponse)
    returns (units: seq<Unit>, batches: seq<seq<string>>, pauses: nat)
    ensures batches == Chunks(referred[..Min(MaxOrders, |referred|)])
    ensures pauses == if batches == [] then 0 else |batches| - 1
    ensures units == FetchedUnits(referred[..Min(MaxOrders, |referred|)], fetch)
  {
    var orderIds := referred[..Min(MaxOrders, |referred|)];
    var n := |orderIds|;
    units, batches, pauses := [], [], 0;
    var i := 0;
    ghost var done := 0;
    while i < n
      invariant 0 <= done <= n && done == Min(i, n) && (i == 0 <==> batches == [])
      invariant batches + Chunks(orderIds[done..]) == Chunks(orderIds)
      invariant pauses == if batches == [] then 0 else if i < n then |batches| else |batches| - 1
      invariant units == FetchedUnits(orderIds[..done], fetch)
    {
      var end := Min(i + BatchSize, n);
      var batch := orderIds[i..end];
      var fetched := FetchBatch(batch, fetch);
      ChunkStep(orderIds, i);
      FetchStep(orderIds, i, end, fetch);
      assert batches + [batch] + Chunks(orderIds[end..]) == batches + ([batch] + Chunks(orderIds[end..]));
      units := units + fetched;
      batches := batches + [batch];
      if i + BatchSize < n {
        pauses := pauses + 1;
      }
      i := i + BatchSize;
      done := end;
    }
    assert orderIds[n..] == [];
    assert orderIds[..n] == orderIds;
  }

  /** The batch starting at `i` is the next chunk. */
  lemma ChunkStep(ids: seq<string>, i: nat)
    requires i < |ids|
    ensures Chunks(ids[i..]) == [ids[i..Min(i + BatchSize, |ids|)]] + Chunks(ids[Min(i + BatchSize, |ids|)..])
  {
    var end := Min(i + BatchSize, |ids|);
    var rest := ids[i..];
    var k := Min(BatchSize, |rest|);
    assert rest[..k] == ids[i..end];
    assert rest[k..] == ids[end..];
    assert Chunks(rest) == [rest[..k]] + Chunks(rest[k..]);
  }

  /** The units fetched so far grow by the batch's units. */
  lemma FetchStep(ids: seq<string>, i: nat, end: nat, fetch: string -> ShopifyResponse)
    requires i <= end <= |ids|
    ensures FetchedUnits(ids[..end], fetch) == FetchedUnits(ids[..i], fetch) + FetchedUnits(ids[i..end], fetch)
  {
    var a, b := ids[..i], ids[i..end];
    assert a + b == ids[..end];
    ConcatMapSplit(a, b, FetchedOf(fetch));
  }

  /** Fetching is a concatenation over the ids: any split gives the same units. */
  lemma {:induction false} ConcatMapSplit(a: seq<string>, b: seq<string>, f: string -> seq<Unit>)
    ensures ConcatMap(a + b, f) == ConcatMap(a, f) + ConcatMap(b, f)
  {
    if b == [] {
      assert a + b == a;
    } else {
      var init := b[..|b| - 1];
      ConcatMapSplit(a, init, f);
      assert (a + b)[..|a + b| - 1] == a + init;
    }
  }

  /** The batches partition the ids, in order. */
  lemma {:induction false} ChunksFlatten(ids: seq<string>)
    ensures Flatten(Chunks(ids)) == ids
    decreases |ids|
  {
    if ids != [] {
      var k := Min(BatchSize, |ids|);
      ChunksFlatten(ids[k..]);
      assert Chunks(ids)[1..] == Chunks(ids[k..]);
      assert ids == ids[..k] + ids[k..];
    }
  }

  /** Every batch holds between one and ten ids, all but the last exactly ten,
      and there are as many batches as ten goes into the ids, rounded up. */
  lemma {:induction false} ChunksSizes(ids: seq<string>)
    ensures |Chunks(ids)| == (|ids| + BatchSize - 1) / BatchSize
    ensures forall b :: 0 <= b < |Chunks(ids)| ==> 0 < |Chunks(ids)[b]| <= BatchSize
    ensures forall b :: 0 <= b < |Chunks(ids)| - 1 ==> |Chunks(ids)[b]| == BatchSize
    decreases |ids|
  {
    if ids != [] {
      var k := Min(BatchSize, |ids|);
      ChunksSizes(ids[k..]);
      var c := Chunks(ids);
      assert c[1..] == Chunks(ids[k..]);
      forall b | 0 <= b < |c| ensures 0 < |c[b]| <= BatchSize && (b < |c| - 1 ==> |c[b]| == BatchSize) {
        if b > 0 {
          assert c[b] == Chunks(ids[k..])[b - 1];
        }
      }
    }
  }

  /** At most 50 orders are fetched, in at most five batches and four pauses. */
  lemma FetchBounds(referred: seq<string>)
    ensures |Chunks(referred[..Min(MaxOrders, |referred|)])| <= 5
  {
    ChunksSizes(referred[..Min(MaxOrders, |referred|)]);
  }

  /** Every order the store returns names its products with plain keys. */
  ghost predicate PlainCatalogue(fetch: string -> ShopifyResponse) {
    forall id :: PlainNames(Fetched(id, fetch))
  }

  lemma {:induction false} FetchedUnitsPlain(ids: seq<string>, fetch: string -> ShopifyResponse)
    requires PlainCatalogue(fetch)
    ensures PlainNames(FetchedUnits(ids, fetch))
  {
    if ids != [] {
      FetchedUnitsPlain(ids[..|ids| - 1], fetch);
      var a := FetchedUnits(ids[..|ids| - 1], fetch);
      var b := Fetched(ids[|ids| - 1], fetch);
      assert FetchedUnits(ids, fetch) == a + b;
      assert PlainNames(b);
      forall i | 0 <= i < |a + b| ensures PlainKey((a + b)[i].fullName) {
        if i >= |a| {
          assert (a + b)[i] == b[i - |a|];
        }
      }
    }
  }

  /** Orders whose fetch fails contribute nothing. */
  lemma {:induction false} FailedFetchesContributeNothing(ids: seq<string>, fetch: string -> ShopifyResponse)
    requires forall i :: 0 <= i < |ids| ==> HandlerOrder(fetch(OrderGid(ids[i]))).None?
    ensures FetchedUnits(ids, fetch) == []
  {
    if ids != [] {
      FailedFetchesContributeNothing(ids[..|ids| - 1], fetch);
    }
  }
}
