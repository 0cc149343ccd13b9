/**
  The marketplace client: reading observed prices (one product card, or a
  supplier's catalog filtered to the requested products), pushing new list
  prices, and the reconciliation pass with its single follow-up.

  HTTP requests, the `jq` projection of their JSON bodies and `tokio::spawn`
  are not modelled as code. The `Marketplace` class holds what each endpoint
  would answer now (a missing key is a request that fails) and a ghost log of
  the calls made to it; the spawned follow-up is returned as data.
*/
module Wb {
  import opened Wrappers
  import Calc

  // ---------------------------------------------------------------------------
  // Data
  // ---------------------------------------------------------------------------

  /** A tracked product: marketplace id and price (a target net price, or a list price to push). */
  datatype Product = Product(id: int, price: int)

  /** One observed row: list price `basic` (hundredths) and net price `total` (whole units). */
  datatype ProductPrice = ProductPrice(id: int, basic: int, total: int)

  /** The projection of a marketplace response: supplier id and total if present, and the rows. */
  datatype ProductPricesPage = ProductPricesPage(supplierId: Option<int>, total: Option<int>, prices: seq<ProductPrice>)

  /** `ProductPricesPage::default()` */
  const EmptyPage := ProductPricesPage(None, None, [])

  /** One element of the upload body: `{"nmID": id, "price": price}`. */
  datatype PriceEntry = PriceEntry(nmID: int, price: int)

  /** The upload body `{"data": [...]}`. */
  datatype UploadBody = UploadBody(data: seq<PriceEntry>)

  /** A request sent to the marketplace. */
  datatype Call =
    | FetchCard(nm: int)
    | FetchCatalog(supplier: int, limit: int, page: int)
    | Upload(token: string, body: UploadBody)

  datatype FetchError = NoSupplierId | RequestFailed

  datatype TaskError = GetPricesFailed(cause: FetchError) | SetPriceFailed | RetrievePricesFailed

  /** The arguments the spawned follow-up task runs `one_more_try` with. */
  datatype FollowUp = FollowUp(supplierId: Option<int>, token: string, updated: seq<(int, Product)>)

  /**
    A row the calculator can work with: a positive net price no larger than the
    list price, so the discount fraction lies in (0, 1].
  */
  predicate WellFormed(row: ProductPrice) {
    0 < row.total <= row.basic
  }

  predicate AllWellFormed(rows: seq<ProductPrice>) {
    forall i :: 0 <= i < |rows| ==> WellFormed(rows[i])
  }

  function Min(a: int, b: int): int {
    if a <= b then a else b
  }

  function IdsOf(products: seq<Product>): (ids: seq<int>)
    ensures |ids| == |products|
    ensures forall i :: 0 <= i < |products| ==> ids[i] == products[i].id
  {
    seq(|products|, i requires 0 <= i < |products| => products[i].id)
  }

  // ---------------------------------------------------------------------------
  // ProductPricesPage::with_goods
  // ---------------------------------------------------------------------------

  /** `a` is `b` with some elements removed, the rest in their order. */
  ghost predicate IsSubsequence<T>(a: seq<T>, b: seq<T>)
    decreases |b|
  {
    if a == [] then true
    else if b == [] then false
    else (a[0] == b[0] && IsSubsequence(a[1..], b[1..])) || IsSubsequence(a, b[1..])
  }

  /** The rows whose id is in `ids`, in their order. */
  function FilterPrices(rows: seq<ProductPrice>, ids: seq<int>): (r: seq<ProductPrice>)
    ensures forall x :: x in r ==> x in rows && x.id in ids
    ensures forall x :: multiset(r)[x] == if x.id in ids then multiset(rows)[x] else 0
    ensures IsSubsequence(r, rows)
  {
    if rows == [] then []
    else
      var rest := FilterPrices(rows[1..], ids);
      assert rows == [rows[0]] + rows[1..];
      if rows[0].id in ids then [rows[0]] + rest else rest
  }

  /** A page restricted to the requested ids; supplier id and total are kept. */
  function WithGoods(page: ProductPricesPage, ids: seq<int>): (r: ProductPricesPage)
    ensures r.supplierId == page.supplierId && r.total == page.total
    ensures forall x :: x in r.prices ==> x in page.prices && x.id in ids
    ensures forall x :: multiset(r.prices)[x] == if x.id in ids then multiset(page.prices)[x] else 0
    ensures IsSubsequence(r.prices, page.prices)
  {
    ProductPricesPage(page.supplierId, page.total, FilterPrices(page.prices, ids))
  }

  lemma {:induction false} FilterPricesIdempotent(rows: seq<ProductPrice>, ids: seq<int>)
    ensures FilterPrices(FilterPrices(rows, ids), ids) == FilterPrices(rows, ids)
  {
    if rows != [] {
      FilterPricesIdempotent(rows[1..], ids);
      var rest := FilterPrices(rows[1..], ids);
      if rows[0].id in ids {
        assert ([rows[0]] + rest)[1..] == rest;
      }
    }
  }

  /** Filtering twice by the same ids is filtering once. */
  lemma WithGoodsIdempotent(page: ProductPricesPage, ids: seq<int>)
    ensures WithGoods(WithGoods(page, ids), ids) == WithGoods(page, ids)
  {
    FilterPricesIdempotent(page.prices, ids);
  }

  // ---------------------------------------------------------------------------
  // The pairing in calculate_and_set_price
  // ---------------------------------------------------------------------------

  /**
    Observed row `i` is paired with requested product `i`, by position: the new
    list price is computed for the product's target from the row's prices and
    carries the row's id.
  */
  function Pair(prices: seq<ProductPrice>, products: seq<Product>): (updated: seq<(int, Product)>)
    requires AllWellFormed(prices)
    ensures |updated| == Min(|prices|, |products|)
    ensures forall i :: 0 <= i < |updated| ==> Hits(prices[i], products[i].price, updated[i])
  {
    seq(Min(|prices|, |products|), i requires 0 <= i < Min(|prices|, |products|) =>
      var c := Calc.CountNewBasic(products[i].price, prices[i].total, prices[i].basic);
      (c.0, Product(prices[i].id, c.1)))
  }

  /**
    What pricing `row` for `target` promises about the pair `u`: it carries the
    row's id, its first component is the discounted price its list price
    yields, and that list price shows exactly `target` unless the floor clamp
    fired, in which case it is the clamp price.
  */
  predicate Hits(row: ProductPrice, target: int, u: (int, Product))
    requires WellFormed(row)
  {
    var part := Calc.EffectivePart(row.total, row.basic);
    var rub := Calc.Rubles(row.basic);
    var fires := Calc.ClampFires(Calc.Unclamped(target, row.total, row.basic), rub);
    && u.1.id == row.id
    && u.0 == Calc.Discounted(u.1.price, part)
    && (fires ==> u.1.price == Calc.ClampPrice(rub))
    && (!fires ==> Calc.Net(u.1.price, part) == target)
  }

  /** The products of the pairs: the batch that is pushed. */
  function Batch(updated: seq<(int, Product)>): (batch: seq<Product>)
    ensures |batch| == |updated|
    ensures forall i :: 0 <= i < |updated| ==> batch[i] == updated[i].1
  {
    seq(|updated|, i requires 0 <= i < |updated| => updated[i].1)
  }

  /**
    The pushed batch has one entry per pair of observed row and requested
    product; entry `i` carries row `i`'s id and a list price that makes the
    marketplace show product `i`'s target when the floor clamp does not fire,
    and is the clamp price when it does.
  */
  lemma PushedBatch(prices: seq<ProductPrice>, products: seq<Product>)
    requires AllWellFormed(prices)
    ensures |Batch(Pair(prices, products))| == Min(|prices|, |products|)
    ensures forall i :: 0 <= i < |Batch(Pair(prices, products))| ==>
      var row, b := prices[i], Batch(Pair(prices, products))[i];
      var part := Calc.EffectivePart(row.total, row.basic);
      var fires := Calc.ClampFires(Calc.Unclamped(products[i].price, row.total, row.basic), Calc.Rubles(row.basic));
      && b.id == row.id
      && Pair(prices, products)[i].0 == Calc.Discounted(b.price, part)
      && (fires ==> b.price == Calc.ClampPrice(Calc.Rubles(row.basic)))
      && (!fires ==> Calc.Net(b.price, part) == products[i].price)
  {
  }

  // ---------------------------------------------------------------------------
  // The selection in one_more_try
  // ---------------------------------------------------------------------------

  /** The drift test: the observed net price divided by 100 differs from the predicted discounted price. */
  predicate Drifted(row: ProductPrice, u: (int, Product)) {
    Calc.DivTrunc(row.total, 100) != u.0
  }

  /**
    A non-negative observed net price counts as drifted exactly when it lies
    outside the hundred `[100 * u.0, 100 * u.0 + 100)` named by the prediction.
  */
  lemma DriftedOutsideHundred(row: ProductPrice, u: (int, Product))
    requires 0 <= row.total
    ensures Drifted(row, u) <==> !(100 * u.0 <= row.total < 100 * u.0 + 100)
  {
    var k := Calc.DivTrunc(row.total, 100);
    assert 100 * k <= row.total < 100 * k + 100;
    if 100 * u.0 <= row.total < 100 * u.0 + 100 {
      assert u.0 <= k && k <= u.0;
    }
  }

  /** The positions `i >= j` of the zipped rows whose pair drifted, ascending. */
  function Selected(prices: seq<ProductPrice>, updated: seq<(int, Product)>, j: nat): (idx: seq<nat>)
    requires j <= Min(|prices|, |updated|)
    ensures forall k :: 0 <= k < |idx| ==>
      j <= idx[k] < Min(|prices|, |updated|) && Drifted(prices[idx[k]], updated[idx[k]])
    ensures forall k, l :: 0 <= k < l < |idx| ==> idx[k] < idx[l]
    ensures forall i :: j <= i < Min(|prices|, |updated|) && Drifted(prices[i], updated[i]) ==> i in idx
    decreases Min(|prices|, |updated|) - j
  {
    if j == Min(|prices|, |updated|) then []
    else
      var rest := Selected(prices, updated, j + 1);
      if Drifted(prices[j], updated[j]) then
        var idx := [j] + rest;
        assert forall k :: 1 <= k < |idx| ==> idx[k] == rest[k - 1];
        idx
      else rest
  }

  /** A fresh list price for a drifted pair: the pushed list price is taken as the target. */
  function Reprice(row: ProductPrice, u: (int, Product)): (p: Product)
    requires WellFormed(row)
    ensures var part := Calc.EffectivePart(row.total, row.basic);
      var rub := Calc.Rubles(row.basic);
      var fires := Calc.ClampFires(Calc.Unclamped(u.1.price, row.total, row.basic), rub);
      && p.id == row.id
      && (fires ==> p.price == Calc.ClampPrice(rub))
      && (!fires ==> Calc.Net(p.price, part) == u.1.price)
  {
    Product(row.id, Calc.CountNewBasic(u.1.price, row.total, row.basic).1)
  }

  /** The batch the follow-up pushes: the drifted pairs, repriced, in order. */
  function Retry(prices: seq<ProductPrice>, updated: seq<(int, Product)>): (batch: seq<Product>)
    requires AllWellFormed(prices)
    ensures |batch| == |Selected(prices, updated, 0)|
    ensures forall k :: 0 <= k < |batch| ==>
      batch[k] == Reprice(prices[Selected(prices, updated, 0)[k]], updated[Selected(prices, updated, 0)[k]])
  {
    var idx := Selected(prices, updated, 0);
    seq(|idx|, k requires 0 <= k < |idx| => Reprice(prices[idx[k]], updated[idx[k]]))
  }

  /**
    The follow-up pushes nothing exactly when no pair drifted, every entry it
    pushes is a drifted pair, repriced, and every drifted pair is repriced.
  */
  lemma RetrySelectsDrifted(prices: seq<ProductPrice>, updated: seq<(int, Product)>)
    requires AllWellFormed(prices)
    ensures Retry(prices, updated) == [] <==>
      forall i :: 0 <= i < Min(|prices|, |updated|) ==> !Drifted(prices[i], updated[i])
    ensures forall k :: 0 <= k < |Retry(prices, updated)| ==>
      exists i :: 0 <= i < Min(|prices|, |updated|) && Drifted(prices[i], updated[i])
                  && Retry(prices, updated)[k] == Reprice(prices[i], updated[i])
    ensures forall i :: 0 <= i < Min(|prices|, |updated|) && Drifted(prices[i], updated[i]) ==>
      Reprice(prices[i], updated[i]) in Retry(prices, updated)
  {
    var idx := Selected(prices, updated, 0);
    var batch := Retry(prices, updated);
    if idx != [] {
      assert Drifted(prices[idx[0]], updated[idx[0]]);
    }
    forall k | 0 <= k < |batch|
      ensures exists i :: 0 <= i < Min(|prices|, |updated|) && Drifted(prices[i], updated[i])
                          && batch[k] == Reprice(prices[i], updated[i])
    {
      var i := idx[k];
      assert batch[k] == Reprice(prices[i], updated[i]);
    }
    DriftedRepriced(prices, updated);
  }

  /** Every drifted pair appears, repriced, in the follow-up batch. */
  lemma DriftedRepriced(prices: seq<ProductPrice>, updated: seq<(int, Product)>)
    requires AllWellFormed(prices)
    ensures forall i :: 0 <= i < Min(|prices|, |updated|) && Drifted(prices[i], updated[i]) ==>
      Reprice(prices[i], updated[i]) in Retry(prices, updated)
  {
    var idx := Selected(prices, updated, 0);
    var batch := Retry(prices, updated);
    forall i | 0 <= i < Min(|prices|, |updated|) && Drifted(prices[i], updated[i])
      ensures Reprice(prices[i], updated[i]) in batch
    {
      var k :| 0 <= k < |idx| && idx[k] == i;
      assert batch[k] == Reprice(prices[i], updated[i]);
    }
  }

  /**
    After pushing list price 106289 for a target of 1000, the marketplace
    shows exactly 1000; the drift test still fires (1000 / 100 is not 1031),
    and the follow-up reprices with the list price 106289 as its target.
  */
  lemma ExampleFollowUpRepushes()
    ensures var row := ProductPrice(42, 106289, 1000);
      var u := (1031, Product(42, 106289));
      Retry([row], [u]) == [Product(42, Calc.CountNewBasic(106289, 1000, 106289).1)]
  {
    var row := ProductPrice(42, 106289, 1000);
    var u := (1031, Product(42, 106289));
    assert Drifted(row, u);
    assert Selected([row], [u], 1) == [];
    assert Selected([row], [u], 0) == [0];
  }

  // ---------------------------------------------------------------------------
  // The upload body in set_price
  // ---------------------------------------------------------------------------

  function Entries(products: seq<Product>): (entries: seq<PriceEntry>)
    ensures |entries| == |products|
    ensures forall i :: 0 <= i < |products| ==> entries[i] == PriceEntry(products[i].id, products[i].price)
  {
    if products == [] then []
    else [PriceEntry(products[0].id, products[0].price)] + Entries(products[1..])
  }

  /** Each product, in order, as `{"nmID": id, "price": price}` under `data`. */
  function Payload(products: seq<Product>): (body: UploadBody)
    ensures |body.data| == |products|
    ensures forall i :: 0 <= i < |products| ==> body.data[i] == PriceEntry(products[i].id, products[i].price)
  {
    UploadBody(Entries(products))
  }

  /** Reads the products back out of an upload body. */
  function Unpack(body: UploadBody): (products: seq<Product>)
    ensures |products| == |body.data|
  {
    ProductsOf(body.data)
  }

  function ProductsOf(entries: seq<PriceEntry>): (products: seq<Product>)
    ensures |products| == |entries|
  {
    if entries == [] then []
    else [Product(entries[0].nmID, entries[0].price)] + ProductsOf(entries[1..])
  }

  /** The body carries exactly the products, in order: reading it back gives them. */
  lemma {:induction false} PayloadRoundTrip(products: seq<Product>)
    ensures Unpack(Payload(products)) == products
  {
    if products != [] {
      PayloadRoundTrip(products[1..]);
    }
  }

  lemma {:induction false} UnpackRoundTrip(body: UploadBody)
    ensures Payload(Unpack(body)) == body
    decreases |body.data|
  {
    if body.data != [] {
      UnpackRoundTrip(UploadBody(body.data[1..]));
    }
  }

  // ---------------------------------------------------------------------------
  // The call log
  // ---------------------------------------------------------------------------

  function Uploads(calls: seq<Call>): nat {
    if calls == [] then 0
    else (if calls[0].Upload? then 1 else 0) + Uploads(calls[1..])
  }

  lemma {:induction false} UploadsAppend(a: seq<Call>, b: seq<Call>)
    ensures Uploads(a + b) == Uploads(a) + Uploads(b)
  {
    if a != [] {
      assert (a + b)[0] == a[0];
      assert (a + b)[1..] == a[1..] + b;
      UploadsAppend(a[1..], b);
      assert Uploads(a + b) == (if a[0].Upload? then 1 else 0) + Uploads(a[1..] + b);
    } else {
      assert a + b == b;
    }
  }

  /** The requests `get_prices` sends for a list of ids. */
  function FetchCalls(supplierId: Option<int>, ids: seq<int>): (calls: seq<Call>)
    ensures Uploads(calls) == 0
  {
    if |ids| == 0 then []
    else if |ids| == 1 then [FetchCard(ids[0])]
    else if supplierId.None? then []
    else [FetchCatalog(supplierId.value, 300, 1)]
  }

  // ---------------------------------------------------------------------------
  // The marketplace and the orchestration
  // ---------------------------------------------------------------------------

  class Marketplace {
    /** What the product-card endpoint answers now, per product id. */
    var cards: map<int, ProductPricesPage>
    /** What the catalog endpoint answers now, per (supplier, limit, page). */
    var catalogs: map<(int, int, int), ProductPricesPage>
    /** Whether an upload request reaches the marketplace now. */
    var uploadsDelivered: bool
    /** Every request sent, in order. */
    ghost var calls: seq<Call>

    /** The marketplace reports positive net prices no larger than list prices. */
    ghost predicate Valid()
      reads this`cards, this`catalogs
    {
      && (forall id :: id in cards ==> AllWellFormed(cards[id].prices))
      && (forall key :: key in catalogs ==> AllWellFormed(catalogs[key].prices))
    }

    constructor (cards: map<int, ProductPricesPage>, catalogs: map<(int, int, int), ProductPricesPage>, uploadsDelivered: bool)
      ensures this.cards == cards && this.catalogs == catalogs && this.uploadsDelivered == uploadsDelivered
      ensures calls == []
    {
      this.cards := cards;
      this.catalogs := catalogs;
      this.uploadsDelivered := uploadsDelivered;
      calls := [];
    }

    /** What `get_prices` yields for `ids` given the endpoints' current answers. */
    function Fetched(supplierId: Option<int>, ids: seq<int>): (r: Result<ProductPricesPage, FetchError>)
      reads this`cards, this`catalogs
      ensures |ids| == 0 ==> r == Ok(EmptyPage)
      ensures |ids| >= 2 && supplierId.None? ==> r == Err(NoSupplierId)
      ensures |ids| >= 2 && r.Ok? ==> forall x :: x in r.value.prices ==> x.id in ids
      ensures Valid() && r.Ok? ==> AllWellFormed(r.value.prices)
    {
      if |ids| == 0 then Ok(EmptyPage)
      else if |ids| == 1 then
        var id := ids[0];
        if id in cards then Ok(cards[id]) else Err(RequestFailed)
      else if supplierId.None? then Err(NoSupplierId)
      else
        var key := (supplierId.value, 300, 1);
        if key in catalogs then
          var page := WithGoods(catalogs[key], ids);
          assert forall i :: 0 <= i < |page.prices| ==> page.prices[i] in catalogs[key].prices;
          Ok(page)
        else Err(RequestFailed)
    }

    /** `get_one_price` */
    method GetOnePrice(id: int) returns (r: Result<ProductPricesPage, FetchError>)
      modifies this`calls
      ensures calls == old(calls) + [FetchCard(id)]
      ensures r == if id in cards then Ok(cards[id]) else Err(RequestFailed)
    {
      calls := calls + [FetchCard(id)];
      if id in cards {
        r := Ok(cards[id]);
      } else {
        r := Err(RequestFailed);
      }
    }

    /** `get_supplier_catalog`: limit and page default to 300 and 1. */
    method GetSupplierCatalog(supplier: int, limit: Option<int>, page: Option<int>) returns (r: Result<ProductPricesPage, FetchError>)
      modifies this`calls
      ensures var key := (supplier, if limit.Some? then limit.value else 300, if page.Some? then page.value else 1);
        calls == old(calls) + [FetchCatalog(key.0, key.1, key.2)]
        && r == if key in catalogs then Ok(catalogs[key]) else Err(RequestFailed)
    {
      var key := (supplier, if limit.Some? then limit.value else 300, if page.Some? then page.value else 1);
      calls := calls + [FetchCatalog(key.0, key.1, key.2)];
      if key in catalogs {
        r := Ok(catalogs[key]);
      } else {
        r := Err(RequestFailed);
      }
    }

    /**
      `get_prices`: no ids gives the empty page without a request; one id asks
      the card endpoint; several ids need a supplier id (else fail before any
      request) and ask for the catalog, filtered to the ids.
    */
    method GetPrices(supplierId: Option<int>, ids: seq<int>) returns (r: Result<ProductPricesPage, FetchError>)
      modifies this`calls
      ensures r == Fetched(supplierId, ids)
      ensures calls == old(calls) + FetchCalls(supplierId, ids)
    {
      if |ids| == 0 {
        r := Ok(EmptyPage);
      } else if |ids| == 1 {
        r := GetOnePrice(ids[0]);
      } else if supplierId.None? {
        r := Err(NoSupplierId);
      } else {
        var catalog := GetSupplierCatalog(supplierId.value, None, None);
        if catalog.Ok? {
          r := Ok(WithGoods(catalog.value, ids));
        } else {
          r := Err(catalog.error);
        }
      }
    }

    /** `set_price`: one upload of the payload; it fails only when the request does not get through. */
    method SetPrice(token: string, products: seq<Product>) returns (r: Result<(), TaskError>)
      modifies this`calls
      ensures calls == old(calls) + [Upload(token, Payload(products))]
      ensures r == if uploadsDelivered then Ok(()) else Err(SetPriceFailed)
    {
      calls := calls + [Upload(token, Payload(products))];
      if uploadsDelivered {
        r := Ok(());
      } else {
        r := Err(SetPriceFailed);
      }
    }

    /**
      `calculate_and_set_price`: fetch, pair by position, push the batch, and
      hand back the observed supplier id, the batch and the follow-up's data.
    */
    method CalculateAndSetPrice(supplierId: Option<int>, token: string, products: seq<Product>)
      returns (r: Result<(Option<int>, seq<Product>, FollowUp), TaskError>)
      requires var f := Fetched(supplierId, IdsOf(products)); f.Ok? ==> AllWellFormed(f.value.prices)
      modifies this`calls
      ensures var f := Fetched(supplierId, IdsOf(products));
        f.Err? ==> r == Err(GetPricesFailed(f.error)) && calls == old(calls) + FetchCalls(supplierId, IdsOf(products))
      ensures var f := Fetched(supplierId, IdsOf(products));
        f.Ok? ==>
          var updated := Pair(f.value.prices, products);
          && calls == old(calls) + FetchCalls(supplierId, IdsOf(products)) + [Upload(token, Payload(Batch(updated)))]
          && r == if uploadsDelivered
                  then Ok((f.value.supplierId, Batch(updated), FollowUp(f.value.supplierId, token, updated)))
                  else Err(SetPriceFailed)
    {
      var page := GetPrices(supplierId, IdsOf(products));
      if page.Err? {
        return Err(GetPricesFailed(page.error));
      }
      var updated := Pair(page.value.prices, products);
      var toUpdate := Batch(updated);
      var pushed := SetPrice(token, toUpdate);
      if pushed.Err? {
        return Err(SetPriceFailed);
      }
      r := Ok((page.value.supplierId, toUpdate, FollowUp(page.value.supplierId, token, updated)));
    }

    /**
      `one_more_try`: fetch the pushed products again and push, once, new list
      prices for the pairs whose net price drifted; nothing is pushed when none did.
    */
    method OneMoreTry(supplierId: Option<int>, token: string, updated: seq<(int, Product)>) returns (r: Result<(), TaskError>)
      requires var f := Fetched(supplierId, IdsOf(Batch(updated))); f.Ok? ==> AllWellFormed(f.value.prices)
      modifies this`calls
      ensures var f := Fetched(supplierId, IdsOf(Batch(updated)));
        f.Err? ==> r == Err(RetrievePricesFailed) && calls == old(calls) + FetchCalls(supplierId, IdsOf(Batch(updated)))
      ensures var f := Fetched(supplierId, IdsOf(Batch(updated)));
        f.Ok? ==>
          var again := Retry(f.value.prices, updated);
          && calls == old(calls) + FetchCalls(supplierId, IdsOf(Batch(updated)))
                      + (if again == [] then [] else [Upload(token, Payload(again))])
          && r == if again != [] && !uploadsDelivered then Err(SetPriceFailed) else Ok(())
      ensures Uploads(calls) <= Uploads(old(calls)) + 1
    {
      var ids := IdsOf(Batch(updated));
      var page := GetPrices(supplierId, ids);
      UploadsAppend(old(calls), FetchCalls(supplierId, ids));
      if page.Err? {
        return Err(RetrievePricesFailed);
      }
      var products := Retry(page.value.prices, updated);
      if products != [] {
        ghost var before := calls;
        var pushed := SetPrice(token, products);
        UploadsAppend(before, [Upload(token, Payload(products))]);
        if pushed.Err? {
          return Err(SetPriceFailed);
        }
      }
      r := Ok(());
    }
  }

  /** With several products, only requested ids are ever pushed. */
  lemma CatalogPushesOnlyRequested(m: Marketplace, supplierId: Option<int>, products: seq<Product>)
    requires |products| >= 2
    requires m.Fetched(supplierId, IdsOf(products)).Ok?
    requires AllWellFormed(m.Fetched(supplierId, IdsOf(products)).value.prices)
    ensures var page := m.Fetched(supplierId, IdsOf(products)).value;
      forall p :: p in Batch(Pair(page.prices, products)) ==> p.id in IdsOf(products)
  {
    var page := m.Fetched(supplierId, IdsOf(products)).value;
    var batch := Batch(Pair(page.prices, products));
    forall p | p in batch
      ensures p.id in IdsOf(products)
    {
      var i :| 0 <= i < |batch| && batch[i] == p;
      assert page.prices[i] in page.prices;
    }
  }
}
