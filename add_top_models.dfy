/** The offline script that adds each ambassador's three most bought products
    to the year-in-review data: it expands the stored orders into one piece per
    unit for every email credited with the order, tallies each email's pieces
    by display name and writes the top three into that ambassador's record. */
module AddTopModels {
  import opened Common
  import opened Shopify
  import opened Ranking
  import opened StableSort
  import Aggregation
  import opened FetchShopifyProducts

  /** One unit credited to an email: `{title, variant, fullName}`. */
  datatype Piece = Piece(title: string, variant: string, fullName: string)

  /** One entry of a record's `topModels`: `{name, count, image}`. */
  datatype ScriptModel = ScriptModel(name: string, count: nat, image: Option<string>)

  /** An ambassador record of the data file; only `topModels` is modelled. */
  datatype Record = Record(topModels: Option<seq<ScriptModel>>)

  // ---------------------------------------------------------------------------
  // ambassadorProducts

  function PieceOf(p: ProductRecord): Piece {
    Piece(p.title, p.variantTitle, FullName(p.title, p.variantTitle))
  }

  /** `quantity` copies of each product's piece, products in order. */
  function Expand(products: seq<ProductRecord>): seq<Piece> {
    if products == [] then []
    else
      var p := products[|products| - 1];
      Expand(products[..|products| - 1]) + seq(Aggregation.Turns(p.quantity), _ => PieceOf(p))
  }

  /** The pushes of `order.products.forEach(...)` onto one email's list. */
  method PushProducts(list: seq<Piece>, products: seq<ProductRecord>) returns (r: seq<Piece>)
    ensures r == list + Expand(products)
  {
    r := list;
    for k := 0 to |products|
      invariant r == list + Expand(products[..k])
    {
      assert products[..k + 1][..k] == products[..k];
      var product := products[k];
      var i := 0;
      while i < product.quantity
        invariant 0 <= i <= Aggregation.Turns(product.quantity)
        invariant r == list + Expand(products[..k]) + seq(i, _ => PieceOf(product))
      {
        assert seq(i + 1, _ => PieceOf(product)) == seq(i, _ => PieceOf(product)) + [PieceOf(product)];
        r := r + [Piece(product.title, product.variantTitle,
                        if product.variantTitle != "" then product.title + " - " + product.variantTitle else product.title)];
        i := i + 1;
      }
      assert i == Aggregation.Turns(product.quantity);
    }
    assert products[..|products|] == products;
  }

  /** One push of an order's pieces onto the list of one (normalised) email. */
  datatype Push = Push(email: string, pieces: seq<Piece>)

  function PushesOf(o: StoredOrder): seq<Push> {
    seq(|o.emails|, j requires 0 <= j < |o.emails| => Push(NormalizeEmail(o.emails[j]), Expand(o.products)))
  }

  /** Every push, in the order the nested loops make them. */
  function Pushes(orders: seq<StoredOrder>): seq<Push> {
    if orders == [] then [] else Pushes(orders[..|orders| - 1]) + PushesOf(orders[|orders| - 1])
  }

  function PushEmails(s: seq<Push>): seq<string> {
    seq(|s|, i requires 0 <= i < |s| => s[i].email)
  }

  /** The pieces pushed onto `e`'s list. */
  function Collected(s: seq<Push>, e: string): seq<Piece> {
    if s == [] then [] else Collected(s[..|s| - 1], e) + (if s[|s| - 1].email == e then s[|s| - 1].pieces else [])
  }

  /** The invariant of the building loops: one list per email pushed to, in
      first-push order, holding that email's pieces. */
  ghost predicate Built(ap: Dict<seq<Piece>>, s: seq<Push>) {
    && ap.Valid()
    && ap.keys == FirstOccurrences(PushEmails(s))
    && forall e :: e in ap.values ==> ap.values[e] == Collected(s, e)
  }

  function AddPush(ap: Dict<seq<Piece>>, x: Push): Dict<seq<Piece>>
    requires ap.Valid()
  {
    ap.Put(x.email, (if x.email in ap.values then ap.values[x.email] else []) + x.pieces)
  }

  lemma {:induction false} CollectedAbsent(s: seq<Push>, e: string)
    requires e !in PushEmails(s)
    ensures Collected(s, e) == []
  {
    if s != [] {
      assert PushEmails(s[..|s| - 1]) == PushEmails(s)[..|s| - 1];
      assert PushEmails(s)[|s| - 1] == s[|s| - 1].email;
      CollectedAbsent(s[..|s| - 1], e);
    }
  }

  lemma CollectedSnoc(s: seq<Push>, x: Push, e: string)
    ensures Collected(s + [x], e) == Collected(s, e) + (if x.email == e then x.pieces else [])
  {
    var t := s + [x];
    assert t[..|t| - 1] == s && t[|t| - 1] == x;
  }

  lemma BuildStep(ap: Dict<seq<Piece>>, s: seq<Push>, x: Push)
    requires Built(ap, s)
    ensures Built(AddPush(ap, x), s + [x])
  {
    BuildKeys(ap, s, x);
    var m := AddPush(ap, x);
    forall e | e in m.values
      ensures m.values[e] == Collected(s + [x], e)
    {
      BuildValue(ap, s, x, e);
    }
  }

  lemma BuildKeys(ap: Dict<seq<Piece>>, s: seq<Push>, x: Push)
    requires Built(ap, s)
    ensures AddPush(ap, x).keys == FirstOccurrences(PushEmails(s + [x]))
  {
    assert PushEmails(s + [x]) == PushEmails(s) + [x.email];
    FirstOccurrencesSnoc(PushEmails(s), x.email);
  }

  lemma BuildValue(ap: Dict<seq<Piece>>, s: seq<Push>, x: Push, e: string)
    requires Built(ap, s)
    requires e in AddPush(ap, x).values
    ensures AddPush(ap, x).values[e] == Collected(s + [x], e)
  {
    CollectedSnoc(s, x, e);
    if e == x.email && x.email !in ap.values {
      FirstOccurrencesSpec(PushEmails(s));
      CollectedAbsent(s, e);
    }
  }

  /** Normalised emails are the keys of a plain object here. */
  predicate PlainEmails(orders: seq<StoredOrder>) {
    forall i, j :: 0 <= i < |orders| && 0 <= j < |orders[i].emails| ==> PlainKey(NormalizeEmail(orders[i].emails[j]))
  }

  /** Building `ambassadorProducts` from the stored orders, in the order the
      loaded object enumerates them. */
  method BuildAmbassadorProducts(orders: seq<StoredOrder>) returns (ap: Dict<seq<Piece>>)
    requires PlainEmails(orders)
    ensures Built(ap, Pushes(orders))
  {
    ap := EmptyDict();
    for i := 0 to |orders|
      invariant Built(ap, Pushes(orders[..i]))
    {
      assert orders[..i + 1][..i] == orders[..i];
      ap := CreditOrder(ap, orders[i], Pushes(orders[..i]));
    }
    assert orders[..|orders|] == orders;
  }

  /** `order.emails.forEach(...)`: each email's list, taken as empty when
      missing, gets the order's pieces. */
  method CreditOrder(ap: Dict<seq<Piece>>, order: StoredOrder, ghost prior: seq<Push>) returns (r: Dict<seq<Piece>>)
    requires Built(ap, prior)
    ensures Built(r, prior + PushesOf(order))
  {
    r := ap;
    assert prior + PushesOf(order)[..0] == prior;
    for j := 0 to |order.emails|
      invariant Built(r, prior + PushesOf(order)[..j])
    {
      var normalizedEmail := NormalizeEmail(order.emails[j]);
      ghost var x := Push(normalizedEmail, Expand(order.products));
      assert prior + PushesOf(order)[..j + 1] == (prior + PushesOf(order)[..j]) + [x];
      BuildStep(r, prior + PushesOf(order)[..j], x);
      var list := if normalizedEmail in r.values then r.values[normalizedEmail] else [];
      list := PushProducts(list, order.products);
      r := r.Put(normalizedEmail, list);
    }
    assert PushesOf(order)[..|order.emails|] == PushesOf(order);
  }

  // ---------------------------------------------------------------------------
  // What an email is credited with

  function NormEmails(emails: seq<string>): seq<string> {
    seq(|emails|, j requires 0 <= j < |emails| => NormalizeEmail(emails[j]))
  }

  /** How many of an order's emails normalise to `e`. */
  function MatchCount(emails: seq<string>, e: string): nat {
    Occurrences(NormEmails(emails), e)
  }

  /** How many units of the products bear the display name `n`. */
  function NameQuantity(products: seq<ProductRecord>, n: string): nat {
    if products == [] then 0
    else
      var p := products[|products| - 1];
      NameQuantity(products[..|products| - 1], n) + (if PieceOf(p).fullName == n then Aggregation.Turns(p.quantity) else 0)
  }

  /** Reference count: every order gives each of its products' units to every
      email credited with it (twice to an email listed twice). */
  function Credited(orders: seq<StoredOrder>, e: string, n: string): nat {
    if orders == [] then 0
    else
      var o := orders[|orders| - 1];
      MulNat(MatchCount(o.emails, e), NameQuantity(o.products, n));
      Credited(orders[..|orders| - 1], e, n) + MatchCount(o.emails, e) * NameQuantity(o.products, n)
  }

  function PieceNames(pieces: seq<Piece>): seq<string> {
    seq(|pieces|, i requires 0 <= i < |pieces| => pieces[i].fullName)
  }

  lemma PieceNamesAppend(a: seq<Piece>, b: seq<Piece>)
    ensures PieceNames(a + b) == PieceNames(a) + PieceNames(b)
  {
  }

  lemma {:induction false} CollectedAppend(s: seq<Push>, t: seq<Push>, e: string)
    ensures Collected(s + t, e) == Collected(s, e) + Collected(t, e)
  {
    if t == [] {
      assert s + t == s;
    } else {
      assert (s + t)[..|s + t| - 1] == s + t[..|t| - 1];
      assert (s + t)[|s + t| - 1] == t[|t| - 1];
      CollectedAppend(s, t[..|t| - 1], e);
    }
  }

  lemma {:induction false} ExpandCounts(products: seq<ProductRecord>, n: string)
    ensures Occurrences(PieceNames(Expand(products)), n) == NameQuantity(products, n)
  {
    if products != [] {
      var p := products[|products| - 1];
      var copies := seq(Aggregation.Turns(p.quantity), _ => PieceOf(p));
      ExpandCounts(products[..|products| - 1], n);
      PieceNamesAppend(Expand(products[..|products| - 1]), copies);
      OccurrencesAppend(PieceNames(Expand(products[..|products| - 1])), PieceNames(copies), n);
      Aggregation.UnitCopies(PieceNames(copies), PieceOf(p).fullName, n);
    }
  }

  /** Pushes that all carry the same pieces give an email those pieces once
      per push to it. */
  lemma {:induction false} UniformCounts(s: seq<Push>, e: string, n: string, pieces: seq<Piece>)
    requires forall i :: 0 <= i < |s| ==> s[i].pieces == pieces
    ensures Occurrences(PieceNames(Collected(s, e)), n) == Occurrences(PushEmails(s), e) * Occurrences(PieceNames(pieces), n)
  {
    if s != [] {
      var init := s[..|s| - 1];
      UniformCounts(init, e, n, pieces);
      assert PushEmails(s)[..|s| - 1] == PushEmails(init);
      var k := Occurrences(PushEmails(init), e);
      var c := Occurrences(PieceNames(pieces), n);
      if s[|s| - 1].email == e {
        PieceNamesAppend(Collected(init, e), pieces);
        OccurrencesAppend(PieceNames(Collected(init, e)), PieceNames(pieces), n);
        assert Occurrences(PushEmails(s), e) == k + 1;
        MulSucc(k, c);
      } else {
        assert Collected(s, e) == Collected(init, e) + [];
        assert Collected(init, e) + [] == Collected(init, e);
        assert Occurrences(PushEmails(s), e) == k;
      }
    }
  }

  lemma MulNat(a: nat, b: nat)
    ensures a * b >= 0
  {
  }

  lemma MulSucc(k: nat, c: nat)
    ensures (k + 1) * c == k * c + c
  {
  }

  /** Each order gives every email credited with it `quantity` units of each of
      its products, under the product's display name. */
  lemma {:induction false} CreditedCounts(orders: seq<StoredOrder>, e: string, n: string)
    ensures Occurrences(PieceNames(Collected(Pushes(orders), e)), n) == Credited(orders, e, n)
  {
    if orders != [] {
      var init := orders[..|orders| - 1];
      var o := orders[|orders| - 1];
      CreditedCounts(init, e, n);
      CollectedAppend(Pushes(init), PushesOf(o), e);
      PieceNamesAppend(Collected(Pushes(init), e), Collected(PushesOf(o), e));
      OccurrencesAppend(PieceNames(Collected(Pushes(init), e)), PieceNames(Collected(PushesOf(o), e)), n);
      UniformCounts(PushesOf(o), e, n, Expand(o.products));
      assert PushEmails(PushesOf(o)) == NormEmails(o.emails);
      ExpandCounts(o.products, n);
    }
  }

  /** Some order lists an email that normalises to `e`. */
  ghost predicate Listed(orders: seq<StoredOrder>, e: string) {
    exists i, j :: 0 <= i < |orders| && 0 <= j < |orders[i].emails| && NormalizeEmail(orders[i].emails[j]) == e
  }

  /** The emails with a list are exactly the normalised emails of the orders. */
  lemma {:induction false} PushEmailsSpec(orders: seq<StoredOrder>, e: string)
    ensures e in PushEmails(Pushes(orders)) <==> Listed(orders, e)
  {
    if orders != [] {
      var init := orders[..|orders| - 1];
      var o := orders[|orders| - 1];
      PushEmailsSpec(init, e);
      assert PushEmails(Pushes(orders)) == PushEmails(Pushes(init)) + PushEmails(PushesOf(o));
      ListedSnoc(orders, e);
    }
  }

  /** An email is listed by some order exactly when an earlier order lists it
      or the last order pushes to it. */
  lemma ListedSnoc(orders: seq<StoredOrder>, e: string)
    requires orders != []
    ensures Listed(orders, e) <==> Listed(orders[..|orders| - 1], e) || e in PushEmails(PushesOf(orders[|orders| - 1]))
  {
    if Listed(orders, e) {
      ListedSplit(orders, e);
    }
    if Listed(orders[..|orders| - 1], e) {
      ListedEarlier(orders, e);
    }
    if e in PushEmails(PushesOf(orders[|orders| - 1])) {
      ListedLast(orders, e);
    }
  }

  lemma ListedSplit(orders: seq<StoredOrder>, e: string)
    requires orders != [] && Listed(orders, e)
    ensures Listed(orders[..|orders| - 1], e) || e in PushEmails(PushesOf(orders[|orders| - 1]))
  {
    var init := orders[..|orders| - 1];
    var o := orders[|orders| - 1];
    var i, j :| 0 <= i < |orders| && 0 <= j < |orders[i].emails| && NormalizeEmail(orders[i].emails[j]) == e;
    if i == |orders| - 1 {
      assert PushEmails(PushesOf(o))[j] == e;
    } else {
      assert init[i] == orders[i];
    }
  }

  lemma ListedEarlier(orders: seq<StoredOrder>, e: string)
    requires orders != [] && Listed(orders[..|orders| - 1], e)
    ensures Listed(orders, e)
  {
    var init := orders[..|orders| - 1];
    var i, j :| 0 <= i < |init| && 0 <= j < |init[i].emails| && NormalizeEmail(init[i].emails[j]) == e;
    assert orders[i] == init[i];
  }

  lemma ListedLast(orders: seq<StoredOrder>, e: string)
    requires orders != [] && e in PushEmails(PushesOf(orders[|orders| - 1]))
    ensures Listed(orders, e)
  {
    var o := orders[|orders| - 1];
    var j :| 0 <= j < |o.emails| && PushEmails(PushesOf(o))[j] == e;
    assert NormalizeEmail(orders[|orders| - 1].emails[j]) == e;
  }

  // ---------------------------------------------------------------------------
  // The per-ambassador ranking

  /** `imageCache[name] || null`. */
  function CachedImage(cache: map<string, Option<string>>, name: string): Option<string> {
    if name in cache && Truthy(cache[name]) then cache[name] else None
  }

  /** The `topProducts` of one email's pieces. */
  function ModelsFor(pieces: seq<Piece>, cache: map<string, Option<string>>): seq<ScriptModel> {
    var top := TopThree(PieceNames(pieces));
    seq(|top|, i requires 0 <= i < |top| => ScriptModel(top[i].name, top[i].count, CachedImage(cache, top[i].name)))
  }

  predicate PlainPieceNames(pieces: seq<Piece>) {
    forall i :: 0 <= i < |pieces| ==> PlainKey(pieces[i].fullName)
  }

  /** The `productCounts` tally of one email's pieces. */
  method CountPieces(products: seq<Piece>) returns (productCounts: Dict<nat>)
    ensures productCounts.Valid()
    ensures productCounts.keys == FirstOccurrences(PieceNames(products))
    ensures forall n :: n in productCounts.values ==> productCounts.values[n] == Occurrences(PieceNames(products), n)
  {
    productCounts := EmptyDict();
    for i := 0 to |products|
      invariant Aggregation.Tallied(productCounts, PieceNames(products[..i]))
    {
      var key := products[i].fullName;
      assert PieceNames(products[..i + 1]) == PieceNames(products[..i]) + [key];
      Aggregation.TallyName(productCounts, PieceNames(products[..i]), key);
      var c := if key in productCounts.values then productCounts.values[key] else 0;
      productCounts := productCounts.Put(key, c + 1);
    }
    assert products[..|products|] == products;
  }

  /** The tally, sorted by count (stable), cut to three, images from the cache. */
  method TopProducts(products: seq<Piece>, cache: map<string, Option<string>>) returns (topProducts: seq<ScriptModel>)
    requires PlainPieceNames(products)
    ensures topProducts == ModelsFor(products, cache)
  {
    var productCounts := CountPieces(products);
    var keys := productCounts.keys;
    var entries := seq(|keys|, k requires 0 <= k < |keys| => Entry(keys[k], productCounts.values[keys[k]]));
    assert entries == Entries(PieceNames(products));
    var sorted := SortDesc(entries, CountKey);
    var top := sorted[..Min(3, |sorted|)];
    topProducts := seq(|top|, k requires 0 <= k < |top| =>
      ScriptModel(top[k].name, top[k].count,
                  if top[k].name in cache && Truthy(cache[top[k].name]) then cache[top[k].name] else None));
  }

  /** What the script promises of `topProducts`: at most three, each with its
      name's number of pieces, counts non-increasing with equal counts in
      first-seen order, the image from the cache or null; and it is empty
      exactly when the email has no pieces. */
  lemma ModelsForSpec(pieces: seq<Piece>, cache: map<string, Option<string>>)
    ensures var r := ModelsFor(pieces, cache);
      && |r| == Min(3, |FirstOccurrences(PieceNames(pieces))|)
      && (|r| == 0 <==> pieces == [])
      && (forall i :: 0 <= i < |r| ==>
            r[i].name in PieceNames(pieces) && r[i].count == Occurrences(PieceNames(pieces), r[i].name) &&
            r[i].image == CachedImage(cache, r[i].name))
      && (forall i, j :: 0 <= i < j < |r| ==> r[i].name != r[j].name && r[i].count >= r[j].count)
      && (forall i, j :: 0 <= i < j < |r| && r[i].count == r[j].count ==>
            FirstIndex(PieceNames(pieces), r[i].name) < FirstIndex(PieceNames(pieces), r[j].name))
  {
    TopThreeOrdered(PieceNames(pieces));
    FirstOccurrencesSpec(PieceNames(pieces));
    if pieces != [] {
      assert PieceNames(pieces)[0] in FirstOccurrences(PieceNames(pieces));
    }
  }

  // ---------------------------------------------------------------------------
  // Updating the ambassador records

  /** The data and the two counters. */
  datatype Assigned = Assigned(data: map<string, Record>, updated: nat, noProducts: nat)

  /** `emailLookup[email]`, `None` when the email has no entry. */
  function UuidOf(lookup: map<string, string>, email: string): Option<string> {
    if email in lookup then Some(lookup[email]) else None
  }

  /** One entry of `Object.entries(ambassadorProducts)`. An email without a
      uuid, or whose uuid has no record, changes nothing; otherwise a non-empty
      ranking is written into the record, and an empty one only counted. A uuid
      naming an inherited member of Object.prototype passes the record check,
      but the write does not reach the data. */
  function AssignOne(a: Assigned, email: string, pieces: seq<Piece>, lookup: map<string, string>,
                     cache: map<string, Option<string>>): Assigned {
    var uuid := UuidOf(lookup, email);
    if !Truthy(uuid) || !InheritedOrPresent(a.data, uuid.value) then a
    else
      var models := ModelsFor(pieces, cache);
      if |models| > 0 then
        var u := uuid.value;
        a.(data := if u in a.data then a.data[u := a.data[u].(topModels := Some(models))] else a.data,
           updated := a.updated + 1)
      else a.(noProducts := a.noProducts + 1)
  }

  /** The entries of `ambassadorProducts` handled in order. */
  function AssignAll(a: Assigned, ap: Dict<seq<Piece>>, keys: seq<string>, lookup: map<string, string>,
                     cache: map<string, Option<string>>): Assigned
    requires forall k :: k in keys ==> k in ap.values
  {
    if keys == [] then a
    else
      var email := keys[|keys| - 1];
      AssignOne(AssignAll(a, ap, keys[..|keys| - 1], lookup, cache), email, ap.values[email], lookup, cache)
  }

  predicate PlainLists(ap: Dict<seq<Piece>>) {
    forall e :: e in ap.values ==> PlainPieceNames(ap.values[e])
  }

  /** The loop over `Object.entries(ambassadorProducts)`. */
  method AssignTopModels(ap: Dict<seq<Piece>>, emailLookup: map<string, string>, ambassadorData: map<string, Record>,
                         imageCache: map<string, Option<string>>)
    returns (data: map<string, Record>, updatedCount: nat, noProductsCount: nat)
    requires ap.Valid() && PlainLists(ap)
    ensures Assigned(data, updatedCount, noProductsCount) ==
            AssignAll(Assigned(ambassadorData, 0, 0), ap, ap.keys, emailLookup, imageCache)
  {
    data, updatedCount, noProductsCount := ambassadorData, 0, 0;
    for k := 0 to |ap.keys|
      invariant Assigned(data, updatedCount, noProductsCount) ==
                AssignAll(Assigned(ambassadorData, 0, 0), ap, ap.keys[..k], emailLookup, imageCache)
    {
      AssignSnoc(Assigned(ambassadorData, 0, 0), ap, k, emailLookup, imageCache);
      var email := ap.keys[k];
      data, updatedCount, noProductsCount :=
        AssignEntry(data, updatedCount, noProductsCount, email, ap.values[email], emailLookup, imageCache);
    }
    assert ap.keys[..|ap.keys|] == ap.keys;
  }

  lemma AssignSnoc(a: Assigned, ap: Dict<seq<Piece>>, k: nat, lookup: map<string, string>,
                   cache: map<string, Option<string>>)
    requires ap.Valid() && k < |ap.keys|
    ensures AssignAll(a, ap, ap.keys[..k + 1], lookup, cache) ==
            AssignOne(AssignAll(a, ap, ap.keys[..k], lookup, cache), ap.keys[k], ap.values[ap.keys[k]], lookup, cache)
  {
    assert ap.keys[..k + 1][..k] == ap.keys[..k];
  }

  /** The body of that loop for one email and its products. */
  method AssignEntry(data: map<string, Record>, updatedCount: nat, noProductsCount: nat, email: string,
                     products: seq<Piece>, emailLookup: map<string, string>, imageCache: map<string, Option<string>>)
    returns (data': map<string, Record>, updatedCount': nat, noProductsCount': nat)
    requires PlainPieceNames(products)
    ensures Assigned(data', updatedCount', noProductsCount') ==
            AssignOne(Assigned(data, updatedCount, noProductsCount), email, products, emailLookup, imageCache)
  {
    data', updatedCount', noProductsCount' := data, updatedCount, noProductsCount;
    var uuid := UuidOf(emailLookup, email);
    if !Truthy(uuid) || !(uuid.value in data || uuid.value in InheritedNames) {
      return;
    }
    var topProducts := TopProducts(products, imageCache);
    if |topProducts| > 0 {
      if uuid.value in data {
        data' := data[uuid.value := data[uuid.value].(topModels := Some(topProducts))];
      }
      updatedCount' := updatedCount + 1;
    } else {
      noProductsCount' := noProductsCount + 1;
    }
  }

  /** The whole script between reading its files and writing the data back. */
  method AddTopModelsToData(orders: seq<StoredOrder>, emailLookup: map<string, string>,
                            ambassadorData: map<string, Record>, imageCache: map<string, Option<string>>)
    returns (data: map<string, Record>, updatedCount: nat, noProductsCount: nat)
    requires PlainEmails(orders)
    requires forall i, k :: 0 <= i < |orders| && 0 <= k < |orders[i].products| ==>
               PlainKey(PieceOf(orders[i].products[k]).fullName)
    ensures exists ap :: Built(ap, Pushes(orders)) &&
              Assigned(data, updatedCount, noProductsCount) ==
              AssignAll(Assigned(ambassadorData, 0, 0), ap, ap.keys, emailLookup, imageCache)
  {
    var ap := BuildAmbassadorProducts(orders);
    forall e | e in ap.values
      ensures PlainPieceNames(ap.values[e])
    {
      CollectedPlain(orders, Pushes(orders), e);
    }
    data, updatedCount, noProductsCount := AssignTopModels(ap, emailLookup, ambassadorData, imageCache);
  }

  lemma CollectedPlain(orders: seq<StoredOrder>, s: seq<Push>, e: string)
    requires forall i, k :: 0 <= i < |orders| && 0 <= k < |orders[i].products| ==>
               PlainKey(PieceOf(orders[i].products[k]).fullName)
    requires s == Pushes(orders)
    ensures PlainPieceNames(Collected(s, e))
  {
    forall p | p in Collected(s, e)
      ensures PlainKey(p.fullName)
    {
      CollectedOrigin(orders, e, p);
    }
  }

  /** Every piece credited to an email is the piece of a product of some order. */
  lemma {:induction false} CollectedOrigin(orders: seq<StoredOrder>, e: string, p: Piece)
    requires p in Collected(Pushes(orders), e)
    ensures exists i, k :: 0 <= i < |orders| && 0 <= k < |orders[i].products| && p == PieceOf(orders[i].products[k])
  {
    var init := orders[..|orders| - 1];
    var o := orders[|orders| - 1];
    CollectedAppend(Pushes(init), PushesOf(o), e);
    if p in Collected(Pushes(init), e) {
      CollectedOrigin(init, e, p);
      var i, k :| 0 <= i < |init| && 0 <= k < |init[i].products| && p == PieceOf(init[i].products[k]);
      assert orders[i] == init[i];
    } else {
      CollectedOfOrder(PushesOf(o), e, p, Expand(o.products));
      ExpandOrigin(o.products, p);
      var k :| 0 <= k < |o.products| && p == PieceOf(o.products[k]);
      assert orders[|orders| - 1] == o;
    }
  }

  lemma {:induction false} CollectedOfOrder(s: seq<Push>, e: string, p: Piece, pieces: seq<Piece>)
    requires forall i :: 0 <= i < |s| ==> s[i].pieces == pieces
    requires p in Collected(s, e)
    ensures p in pieces
  {
    if p !in Collected(s[..|s| - 1], e) {
    } else {
      CollectedOfOrder(s[..|s| - 1], e, p, pieces);
    }
  }

  lemma {:induction false} ExpandOrigin(products: seq<ProductRecord>, p: Piece)
    requires p in Expand(products)
    ensures exists k :: 0 <= k < |products| && p == PieceOf(products[k])
  {
    var init := products[..|products| - 1];
    if p in Expand(init) {
      ExpandOrigin(init, p);
      var k :| 0 <= k < |init| && p == PieceOf(init[k]);
      assert products[k] == init[k];
    }
  }

  // ---------------------------------------------------------------------------
  // Properties of the update

  /** An email with no uuid, or whose uuid has no record, leaves the data and
      both counters untouched. */
  lemma SkippedUntouched(a: Assigned, email: string, pieces: seq<Piece>, lookup: map<string, string>,
                         cache: map<string, Option<string>>)
    requires email !in lookup || lookup[email] == "" || !InheritedOrPresent(a.data, lookup[email])
    ensures AssignOne(a, email, pieces, lookup, cache) == a
  {
  }

  /** A known ambassador gets a non-empty ranking and counts as updated exactly
      when the email has pieces; otherwise only `noProductsCount` grows. */
  lemma KnownAmbassador(a: Assigned, email: string, pieces: seq<Piece>, lookup: map<string, string>,
                        cache: map<string, Option<string>>)
    requires email in lookup && lookup[email] != "" && lookup[email] in a.data
    ensures var r := AssignOne(a, email, pieces, lookup, cache);
      var u := lookup[email];
      && (pieces != [] ==> r == a.(data := a.data[u := a.data[u].(topModels := Some(ModelsFor(pieces, cache)))],
                                   updated := a.updated + 1))
      && (pieces == [] ==> r == a.(noProducts := a.noProducts + 1))
  {
    ModelsForSpec(pieces, cache);
  }

  /** The update writes only `topModels`, only of existing records, only with
      a non-empty ranking, and each entry is counted at most once. */
  lemma {:induction false} AssignAllSpec(a: Assigned, ap: Dict<seq<Piece>>, keys: seq<string>,
                                         lookup: map<string, string>, cache: map<string, Option<string>>)
    requires forall k :: k in keys ==> k in ap.values
    ensures var r := AssignAll(a, ap, keys, lookup, cache);
      && r.data.Keys == a.data.Keys
      && r.updated + r.noProducts <= a.updated + a.noProducts + |keys|
      && r.updated >= a.updated && r.noProducts >= a.noProducts
      && forall u :: u in r.data && r.data[u] != a.data[u] ==>
           r.data[u].topModels.Some? && |r.data[u].topModels.value| > 0
  {
    if keys != [] {
      var init := keys[..|keys| - 1];
      AssignAllSpec(a, ap, init, lookup, cache);
    }
  }
}
