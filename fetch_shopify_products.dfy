/** The offline fetch script: it groups the referral spreadsheet's rows by
    order id, skips the orders an earlier run already stored, fetches the rest
    from Shopify one at a time and stores the products of each order that comes
    back, with the emails of the ambassadors it is credited to. */
module FetchShopifyProducts {
  import opened Common
  import opened Shopify
  import opened Ranking

  /** A stored product line: `quantity` is kept as one number, not expanded.
      `productType` and `vendor` are not modelled. */
  datatype ProductRecord = ProductRecord(title: string, variantTitle: string, quantity: int, imageUrl: Option<string>)

  /** A spreadsheet row: `order_id` already turned into text, `affiliate_email`
      and `order_name`; `None` where the cell is empty. */
  datatype Row = Row(orderId: Option<string>, email: Option<string>, orderName: Option<string>)

  /** A row with its id trimmed and its email lower-cased and trimmed. */
  datatype Referred = Referred(orderId: string, email: string, orderName: Option<string>)

  /** An entry of `orderMap`: the emails in the order they were added to the set. */
  datatype OrderInfo = OrderInfo(orderId: string, emails: seq<string>, orderName: Option<string>)

  /** An entry of `order-products.json`. */
  datatype StoredOrder = StoredOrder(orderId: string, products: seq<ProductRecord>, emails: seq<string>)

  // ---------------------------------------------------------------------------
  // extractProducts

  /** The record of a line item that has a product. */
  function RecordOf(item: LineItem): ProductRecord
    requires item.variant.Some? && item.variant.value.product.Some?
  {
    var v := item.variant.value;
    var p := v.product.value;
    ProductRecord(p.title, StoredVariantTitle(v.title), item.quantity, ImageOf(v, p))
  }

  /** One record per line item with a product, in order. */
  function RecordsOf(items: seq<LineItem>): seq<ProductRecord> {
    if items == [] then []
    else
      var item := items[|items| - 1];
      RecordsOf(items[..|items| - 1]) +
        (if item.variant.Some? && item.variant.value.product.Some? then [RecordOf(item)] else [])
  }

  /** This script's extractProducts. */
  method ExtractRecords(order: Order) returns (products: seq<ProductRecord>)
    ensures order.lineItems.None? ==> products == []
    ensures order.lineItems.Some? ==> products == RecordsOf(order.lineItems.value)
  {
    products := [];
    if order.lineItems.None? {
      return;
    }
    var items := order.lineItems.value;
    for k := 0 to |items|
      invariant products == RecordsOf(items[..k])
    {
      assert items[..k + 1][..k] == items[..k];
      var item := items[k];
      if item.variant.Some? && item.variant.value.product.Some? {
        var v := item.variant.value;
        var p := v.product.value;
        products := products + [ProductRecord(p.title, if v.title != DefaultTitle then v.title else "", item.quantity, ImageOf(v, p))];
      }
    }
    assert items[..|items|] == items;
  }

  /** How many of the items carry a product. */
  function KeptCount(items: seq<LineItem>): nat {
    if items == [] then 0 else KeptCount(items[..|items| - 1]) + (if Kept(items[|items| - 1]) then 1 else 0)
  }

  /** The records are exactly one per item carrying a product, in item order:
      the item at `k` gives the record at the number of such items before it.
      Nothing else is recorded; "Default Title" is never stored, and the image
      is a truthy URL or null. */
  lemma RecordsOfSpec(items: seq<LineItem>)
    ensures |RecordsOf(items)| == KeptCount(items) <= |items|
    ensures forall k :: 0 <= k < |items| && Kept(items[k]) ==>
              KeptCount(items[..k]) < |RecordsOf(items)| && RecordsOf(items)[KeptCount(items[..k])] == RecordOf(items[k])
    ensures forall r :: r in RecordsOf(items) ==>
              exists k :: 0 <= k < |items| && items[k].variant.Some? && items[k].variant.value.product.Some? &&
                          r == RecordOf(items[k])
    ensures forall r :: r in RecordsOf(items) ==> r.variantTitle != DefaultTitle && (r.imageUrl.None? || Truthy(r.imageUrl))
  {
    RecordsCount(items);
    RecordsPositions(items);
    RecordsOrigin(items);
  }

  lemma {:induction false} RecordsCount(items: seq<LineItem>)
    ensures |RecordsOf(items)| == KeptCount(items) <= |items|
  {
    if items != [] {
      RecordsCount(items[..|items| - 1]);
    }
  }

  /** The records of a prefix of the items are a prefix of the records. */
  lemma {:induction false} RecordsPrefix(items: seq<LineItem>, m: nat)
    requires m <= |items|
    ensures |RecordsOf(items[..m])| <= |RecordsOf(items)|
    ensures RecordsOf(items[..m]) == RecordsOf(items)[..|RecordsOf(items[..m])|]
    decreases |items|
  {
    if m < |items| {
      var init := items[..|items| - 1];
      assert init[..m] == items[..m];
      RecordsPrefix(init, m);
    } else {
      assert items[..m] == items;
    }
  }

  lemma RecordsPositions(items: seq<LineItem>)
    ensures forall k :: 0 <= k < |items| && Kept(items[k]) ==>
              KeptCount(items[..k]) < |RecordsOf(items)| && RecordsOf(items)[KeptCount(items[..k])] == RecordOf(items[k])
  {
    forall k | 0 <= k < |items| && Kept(items[k])
      ensures KeptCount(items[..k]) < |RecordsOf(items)| && RecordsOf(items)[KeptCount(items[..k])] == RecordOf(items[k])
    {
      assert items[..k + 1][..k] == items[..k];
      RecordsCount(items[..k]);
      RecordsPrefix(items, k + 1);
      assert RecordsOf(items[..k + 1]) == RecordsOf(items[..k]) + [RecordOf(items[k])];
    }
  }

  lemma {:induction false} RecordsOrigin(items: seq<LineItem>)
    ensures forall r :: r in RecordsOf(items) ==>
              exists k :: 0 <= k < |items| && items[k].variant.Some? && items[k].variant.value.product.Some? &&
                          r == RecordOf(items[k])
    ensures forall r :: r in RecordsOf(items) ==> r.variantTitle != DefaultTitle && (r.imageUrl.None? || Truthy(r.imageUrl))
  {
    if items != [] {
      var init := items[..|items| - 1];
      RecordsOrigin(init);
      forall r | r in RecordsOf(items)
        ensures exists k :: 0 <= k < |items| && items[k].variant.Some? && items[k].variant.value.product.Some? &&
                            r == RecordOf(items[k])
      {
        if r in RecordsOf(init) {
          var k :| 0 <= k < |init| && init[k].variant.Some? && init[k].variant.value.product.Some? && r == RecordOf(init[k]);
          assert items[k] == init[k];
        }
      }
    }
  }

  /** A stored variant title is empty exactly when Shopify calls the variant
      "Default Title" (or gives it no title at all). */
  lemma StoredVariantTitleSpec(title: string)
    ensures StoredVariantTitle(title) == "" <==> title == DefaultTitle || title == ""
    ensures StoredVariantTitle(title) != "" ==> StoredVariantTitle(title) == title
  {
  }

  // ---------------------------------------------------------------------------
  // orderMap

  /** A row normalised, or `None` when its trimmed id or its normalised email
      is empty. */
  function Normalized(r: Row): Option<Referred> {
    var id := if r.orderId.Some? then Trim(r.orderId.value) else "";
    var email := if r.email.Some? then NormalizeEmail(r.email.value) else "";
    if id != "" && email != "" then Some(Referred(id, email, r.orderName)) else None
  }

  /** The usable rows, normalised, in sheet order. */
  function Normalize(rows: seq<Row>): seq<Referred> {
    if rows == [] then []
    else
      var r := Normalized(rows[|rows| - 1]);
      Normalize(rows[..|rows| - 1]) + (if r.Some? then [r.value] else [])
  }

  function IdsOf(refs: seq<Referred>): seq<string> {
    seq(|refs|, i requires 0 <= i < |refs| => refs[i].orderId)
  }

  /** The emails of the rows for `id`, in sheet order. */
  function EmailsOf(refs: seq<Referred>, id: string): seq<string> {
    if refs == [] then []
    else EmailsOf(refs[..|refs| - 1], id) + (if refs[|refs| - 1].orderId == id then [refs[|refs| - 1].email] else [])
  }

  /** The order name of the first row for `id`. */
  function FirstName(refs: seq<Referred>, id: string): Option<string> {
    if refs == [] then None
    else if id in IdsOf(refs[..|refs| - 1]) then FirstName(refs[..|refs| - 1], id)
    else if refs[|refs| - 1].orderId == id then refs[|refs| - 1].orderName
    else None
  }

  /** What `orderMap` holds for an id. */
  function InfoOf(refs: seq<Referred>, id: string): OrderInfo {
    OrderInfo(id, FirstOccurrences(EmailsOf(refs, id)), FirstName(refs, id))
  }

  lemma IdsOfSnoc(refs: seq<Referred>, x: Referred)
    ensures IdsOf(refs + [x]) == IdsOf(refs) + [x.orderId]
  {
  }

  /** The invariant of the grouping loop: `orderMap` holds one entry per
      distinct id of `refs`, in order of first occurrence. */
  ghost predicate Grouped(m: Dict<OrderInfo>, refs: seq<Referred>) {
    && m.Valid()
    && m.keys == FirstOccurrences(IdsOf(refs))
    && forall id :: id in m.values ==> m.values[id] == InfoOf(refs, id)
  }

  /** One row added to `orderMap`. */
  function AddRow(m: Dict<OrderInfo>, x: Referred): Dict<OrderInfo>
    requires m.Valid()
  {
    if x.orderId !in m.values then m.Put(x.orderId, OrderInfo(x.orderId, [x.email], x.orderName))
    else
      var info := m.values[x.orderId];
      m.Put(x.orderId, info.(emails := if x.email in info.emails then info.emails else info.emails + [x.email]))
  }

  lemma GroupStep(m: Dict<OrderInfo>, refs: seq<Referred>, x: Referred)
    requires Grouped(m, refs)
    ensures Grouped(AddRow(m, x), refs + [x])
  {
    GroupKeys(refs, x);
    var m' := AddRow(m, x);
    forall id | id in m'.values
      ensures m'.values[id] == InfoOf(refs + [x], id)
    {
      InfoSnoc(refs, x, id);
    }
  }

  /** Building `orderMap`: a new id gets an entry with a one-email set and the
      row's order name; a known id gets the email added to its set. */
  method GroupByOrder(rows: seq<Row>) returns (orderMap: Dict<OrderInfo>)
    ensures Grouped(orderMap, Normalize(rows))
  {
    orderMap := EmptyDict();
    for i := 0 to |rows|
      invariant Grouped(orderMap, Normalize(rows[..i]))
    {
      var ref := rows[i];
      assert rows[..i + 1][..i] == rows[..i];
      var orderId := if ref.orderId.Some? then Trim(ref.orderId.value) else "";
      var email := if ref.email.Some? then NormalizeEmail(ref.email.value) else "";
      if orderId != "" && email != "" {
        ghost var x := Referred(orderId, email, ref.orderName);
        assert Normalized(ref) == Some(x);
        assert Normalize(rows[..i + 1]) == Normalize(rows[..i]) + [x];
        GroupStep(orderMap, Normalize(rows[..i]), x);
        ghost var prev := orderMap;
        if orderId !in orderMap.values {
          orderMap := orderMap.Put(orderId, OrderInfo(orderId, [email], ref.orderName));
        } else {
          var info := orderMap.values[orderId];
          var emails := if email in info.emails then info.emails else info.emails + [email];
          orderMap := orderMap.Put(orderId, info.(emails := emails));
        }
        assert orderMap == AddRow(prev, x);
      } else {
        assert Normalized(ref).None?;
        assert Normalize(rows[..i + 1]) == Normalize(rows[..i]);
      }
    }
    assert rows[..|rows|] == rows;
  }

  /** The distinct ids after one more row. */
  lemma GroupKeys(refs: seq<Referred>, x: Referred)
    ensures x.orderId in FirstOccurrences(IdsOf(refs)) <==> x.orderId in IdsOf(refs)
    ensures FirstOccurrences(IdsOf(refs + [x])) ==
            if x.orderId in IdsOf(refs) then FirstOccurrences(IdsOf(refs)) else FirstOccurrences(IdsOf(refs)) + [x.orderId]
  {
    FirstOccurrencesSpec(IdsOf(refs));
    assert IdsOf(refs + [x]) == IdsOf(refs) + [x.orderId];
    assert (IdsOf(refs) + [x.orderId])[..|refs|] == IdsOf(refs);
  }

  /** An id's entry after one more row: a new id starts with the row's email
      and order name, a known id gains the email unless it has it already. */
  lemma InfoSnoc(refs: seq<Referred>, x: Referred, id: string)
    ensures InfoOf(refs + [x], id) ==
            if id != x.orderId then InfoOf(refs, id)
            else if id !in IdsOf(refs) then OrderInfo(id, [x.email], x.orderName)
            else
              var info := InfoOf(refs, id);
              info.(emails := if x.email in info.emails then info.emails else info.emails + [x.email])
  {
    var all := refs + [x];
    assert all[..|all| - 1] == refs;
    assert IdsOf(all)[..|refs|] == IdsOf(refs);
    assert all[|all| - 1] == x;
    if id != x.orderId {
      assert EmailsOf(all, id) == EmailsOf(refs, id);
      if id in IdsOf(refs) {
        assert FirstName(all, id) == FirstName(refs, id);
      } else {
        EmailsAbsent(refs, id);
      }
    } else if id !in IdsOf(refs) {
      EmailsAbsent(refs, id);
      assert EmailsOf(all, id) == [x.email];
      assert [x.email][..0] == [];
      assert FirstOccurrences([x.email]) == [x.email];
      assert FirstName(all, id) == x.orderName;
    } else {
      assert EmailsOf(all, id) == EmailsOf(refs, id) + [x.email];
      assert (EmailsOf(refs, id) + [x.email])[..|EmailsOf(refs, id)|] == EmailsOf(refs, id);
      assert FirstName(all, id) == FirstName(refs, id);
    }
  }

  lemma {:induction false} EmailsAbsent(refs: seq<Referred>, id: string)
    requires id !in IdsOf(refs)
    ensures EmailsOf(refs, id) == [] && FirstName(refs, id) == None
  {
    if refs != [] {
      assert IdsOf(refs[..|refs| - 1]) == IdsOf(refs)[..|refs| - 1];
      assert IdsOf(refs)[|refs| - 1] == refs[|refs| - 1].orderId;
      EmailsAbsent(refs[..|refs| - 1], id);
    }
  }

  /** One entry per distinct id; its emails are those of the rows for it, each
      once; its order name is the first row's. */
  lemma {:induction false} InfoOfSpec(refs: seq<Referred>, id: string)
    requires id in IdsOf(refs)
    ensures forall e :: e in InfoOf(refs, id).emails <==> exists k :: 0 <= k < |refs| && refs[k].orderId == id && refs[k].email == e
    ensures FirstIndex(IdsOf(refs), id) < |refs|
    ensures InfoOf(refs, id).orderName == refs[FirstIndex(IdsOf(refs), id)].orderName
  {
    EmailsOfSpec(refs, id);
    FirstOccurrencesSpec(EmailsOf(refs, id));
    FirstNameSpec(refs, id);
  }

  lemma {:induction false} EmailsOfSpec(refs: seq<Referred>, id: string)
    ensures forall e :: e in EmailsOf(refs, id) <==> exists k :: 0 <= k < |refs| && refs[k].orderId == id && refs[k].email == e
  {
    if refs != [] {
      var init := refs[..|refs| - 1];
      EmailsOfSpec(init, id);
      forall e ensures e in EmailsOf(refs, id) <==> exists k :: 0 <= k < |refs| && refs[k].orderId == id && refs[k].email == e {
        if exists k :: 0 <= k < |init| && init[k].orderId == id && init[k].email == e {
          var k :| 0 <= k < |init| && init[k].orderId == id && init[k].email == e;
          assert refs[k] == init[k];
        }
        if exists k :: 0 <= k < |refs| && refs[k].orderId == id && refs[k].email == e {
          var k :| 0 <= k < |refs| && refs[k].orderId == id && refs[k].email == e;
          if k < |init| {
            assert init[k] == refs[k];
          }
        }
      }
    }
  }

  lemma {:induction false} FirstNameSpec(refs: seq<Referred>, id: string)
    requires id in IdsOf(refs)
    ensures FirstIndex(IdsOf(refs), id) < |refs|
    ensures FirstName(refs, id) == refs[FirstIndex(IdsOf(refs), id)].orderName
  {
    var init := refs[..|refs| - 1];
    assert IdsOf(init) == IdsOf(refs)[..|refs| - 1];
    if id in IdsOf(init) {
      FirstNameSpec(init, id);
      FirstIndexIsFirst(IdsOf(init), id);
    }
  }

  // ---------------------------------------------------------------------------
  // Resuming and fetching

  /** `orders.filter(o => !orderProducts[o.orderId])`: the orders not stored by an
      earlier run (inherited property names count as stored). */
  function ToProcess(orders: seq<OrderInfo>, progress: map<string, StoredOrder>): (r: seq<OrderInfo>)
    ensures forall o :: o in r <==> o in orders && !InheritedOrPresent(progress, o.orderId)
    ensures |r| <= |orders|
  {
    if orders == [] then []
    else
      var o := orders[|orders| - 1];
      ToProcess(orders[..|orders| - 1], progress) + (if InheritedOrPresent(progress, o.orderId) then [] else [o])
  }

  /** What the script stores for an order: nothing when its fetch fails. */
  function StoredOf(o: OrderInfo, fetch: string -> ShopifyResponse): Option<StoredOrder> {
    var order := ScriptOrder(fetch(OrderGid(o.orderId)));
    if order.Some? then Some(StoredOrder(o.orderId, ScriptRecords(order.value), o.emails)) else None
  }

  /** The orders of `toProcess` whose fetch succeeds, as stored. */
  function Fetched(toProcess: seq<OrderInfo>, fetch: string -> ShopifyResponse): seq<StoredOrder> {
    if toProcess == [] then []
    else
      var s := StoredOf(toProcess[|toProcess| - 1], fetch);
      Fetched(toProcess[..|toProcess| - 1], fetch) + (if s.Some? then [s.value] else [])
  }

  function ScriptRecords(order: Order): seq<ProductRecord> {
    if order.lineItems.None? then [] else RecordsOf(order.lineItems.value)
  }

  /** The progress map with the stored orders written in. */
  function StoreAll(progress: map<string, StoredOrder>, stored: seq<StoredOrder>): map<string, StoredOrder> {
    if stored == [] then progress
    else StoreAll(progress, stored[..|stored| - 1])[stored[|stored| - 1].orderId := stored[|stored| - 1]]
  }

  /** The sequential fetch loop with its `completed` and `failed` counters. */
  method FetchRemaining(toProcess: seq<OrderInfo>, progress: map<string, StoredOrder>, fetch: string -> ShopifyResponse)
    returns (orderProducts: map<string, StoredOrder>, completed: nat, failed: nat)
    ensures orderProducts == StoreAll(progress, Fetched(toProcess, fetch))
    ensures completed == |Fetched(toProcess, fetch)|
    ensures completed + failed == |toProcess|
  {
    orderProducts, completed, failed := progress, 0, 0;
    for i := 0 to |toProcess|
      invariant FetchedSoFar(orderProducts, completed, failed, toProcess[..i], progress, fetch)
    {
      orderProducts, completed, failed := FetchOne(orderProducts, completed, failed, toProcess[i], toProcess[..i], progress, fetch);
      assert toProcess[..i] + [toProcess[i]] == toProcess[..i + 1];
    }
    assert toProcess[..|toProcess|] == toProcess;
  }

  /** The loop's state after the orders `done`: the map with their stored
      orders written in, and the two counters. */
  ghost predicate FetchedSoFar(orderProducts: map<string, StoredOrder>, completed: nat, failed: nat,
                               done: seq<OrderInfo>, progress: map<string, StoredOrder>, fetch: string -> ShopifyResponse)
  {
    && orderProducts == StoreAll(progress, Fetched(done, fetch))
    && completed == |Fetched(done, fetch)|
    && completed + failed == |done|
  }

  /** One iteration: the order is stored and counted as completed when its
      fetch succeeds, and counted as failed otherwise. */
  method FetchOne(orderProducts: map<string, StoredOrder>, completed: nat, failed: nat, orderInfo: OrderInfo,
                  ghost done: seq<OrderInfo>, ghost progress: map<string, StoredOrder>, fetch: string -> ShopifyResponse)
    returns (orderProducts': map<string, StoredOrder>, completed': nat, failed': nat)
    requires FetchedSoFar(orderProducts, completed, failed, done, progress, fetch)
    ensures FetchedSoFar(orderProducts', completed', failed', done + [orderInfo], progress, fetch)
  {
    FetchedSnoc(done, orderInfo, progress, fetch);
    orderProducts', completed', failed' := orderProducts, completed, failed;
    var order := ScriptOrder(fetch(OrderGid(orderInfo.orderId)));
    if order.Some? {
      var products := ExtractRecords(order.value);
      completed' := completed + 1;
      orderProducts' := orderProducts[orderInfo.orderId := StoredOrder(orderInfo.orderId, products, orderInfo.emails)];
    } else {
      failed' := failed + 1;
    }
  }

  lemma FetchedSnoc(done: seq<OrderInfo>, o: OrderInfo, progress: map<string, StoredOrder>, fetch: string -> ShopifyResponse)
    ensures var s := StoredOf(o, fetch);
      && Fetched(done + [o], fetch) == Fetched(done, fetch) + (if s.Some? then [s.value] else [])
      && StoreAll(progress, Fetched(done + [o], fetch)) ==
         (if s.Some? then StoreAll(progress, Fetched(done, fetch))[s.value.orderId := s.value]
          else StoreAll(progress, Fetched(done, fetch)))
  {
    var t := done + [o];
    assert t[..|t| - 1] == done && t[|t| - 1] == o;
    var f := Fetched(done, fetch);
    var s := StoredOf(o, fetch);
    if s.Some? {
      var g := f + [s.value];
      assert g[..|g| - 1] == f && g[|g| - 1] == s.value;
    } else {
      assert f + [] == f;
    }
  }

  /** A stored order is one of the orders processed, stored under its own id,
      and an order whose fetch fails is not stored. */
  lemma {:induction false} FetchedSpec(toProcess: seq<OrderInfo>, fetch: string -> ShopifyResponse)
    ensures forall s :: s in Fetched(toProcess, fetch) ==>
              exists o :: o in toProcess && s.orderId == o.orderId && s.emails == o.emails &&
                          ScriptOrder(fetch(OrderGid(o.orderId))).Some?
    ensures forall o :: o in toProcess && ScriptOrder(fetch(OrderGid(o.orderId))).Some? ==>
              exists s :: s in Fetched(toProcess, fetch) && s.orderId == o.orderId
  {
    if toProcess != [] {
      var init := toProcess[..|toProcess| - 1];
      FetchedSpec(init, fetch);
      assert forall o :: o in init ==> o in toProcess;
      var o := toProcess[|toProcess| - 1];
      forall o' | o' in toProcess && ScriptOrder(fetch(OrderGid(o'.orderId))).Some?
        ensures exists s :: s in Fetched(toProcess, fetch) && s.orderId == o'.orderId
      {
        if o' != o {
          assert o' in init;
        } else {
          var order := ScriptOrder(fetch(OrderGid(o.orderId)));
          assert StoredOrder(o.orderId, ScriptRecords(order.value), o.emails) in Fetched(toProcess, fetch);
        }
      }
    }
  }

  /** Writing orders in keeps what was stored before under every other id. */
  lemma {:induction false} StoreAllKeeps(progress: map<string, StoredOrder>, stored: seq<StoredOrder>, id: string)
    requires id in progress
    requires forall s :: s in stored ==> s.orderId != id
    ensures id in StoreAll(progress, stored) && StoreAll(progress, stored)[id] == progress[id]
  {
    if stored != [] {
      StoreAllKeeps(progress, stored[..|stored| - 1], id);
    }
  }

  // ---------------------------------------------------------------------------
  // The whole run

  /** `Array.from(orderMap.values())` for the rows `refs`. */
  function OrdersOf(refs: seq<Referred>): (r: seq<OrderInfo>)
    ensures |r| == |FirstOccurrences(IdsOf(refs))|
  {
    var ids := FirstOccurrences(IdsOf(refs));
    seq(|ids|, i requires 0 <= i < |ids| => InfoOf(refs, ids[i]))
  }

  /** `processReferrals`, given the sheet's rows, the progress file's entries
      (`{}` when there is none) and the Shopify oracle; the file writes are left
      out. */
  method ProcessReferrals(rows: seq<Row>, progress: map<string, StoredOrder>, fetch: string -> ShopifyResponse)
    returns (orderProducts: map<string, StoredOrder>, completed: nat, failed: nat)
    ensures var toProcess := ToProcess(OrdersOf(Normalize(rows)), progress);
      && orderProducts == StoreAll(progress, Fetched(toProcess, fetch))
      && completed == |Fetched(toProcess, fetch)|
      && completed + failed == |toProcess|
  {
    var orderMap := GroupByOrder(rows);
    ghost var all := OrdersOf(Normalize(rows));
    var orders: seq<OrderInfo> := [];
    for k := 0 to |orderMap.keys|
      invariant orders == all[..k]
    {
      assert orderMap.keys[k] in orderMap.values;
      assert all[..k + 1] == all[..k] + [all[k]];
      orders := orders + [orderMap.values[orderMap.keys[k]]];
    }
    assert orders == all;
    var toProcess := ToProcess(orders, progress);
    orderProducts, completed, failed := FetchRemaining(toProcess, progress, fetch);
  }
}
