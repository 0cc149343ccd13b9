# Price calculator and marketplace client of wb-price-changer

A merchant declares, per product, the net price buyers should see after the
marketplace's discount and a 3% rebate. The service computes the list price
that yields that net price, pushes it to the marketplace, and 10 seconds later
re-reads the prices and pushes once more for the products whose price drifted.

This Dafny project models two parts of that service:

- `calc.dfy`, module `Calc`, models the price calculator `count_new_basic` with
  `correct_part` and `correct`. These are pure functions over exact reals, with
  lemmas for the properties below.
- `wb.dfy`, module `Wb`, models the marketplace client:
  - `with_goods` and the `zip`/`filter`/`map` pipelines of
    `calculate_and_set_price`, `one_more_try` and `set_price` are pure
    functions over sequences;
  - `get_prices`, `calculate_and_set_price`, `one_more_try` and `set_price` are
    methods of the class `Marketplace`.
- `wrappers.dfy` defines `Option` and `Result`.

The class `Marketplace` holds what each marketplace endpoint would answer now.
A missing key stands for a request that fails. The class also holds a ghost log
of every request sent. Each method states exactly which requests it appends to
the log. That is how the model shows two rules:
- an upload happens only after a successful fetch;
- the follow-up uploads at most once, and not at all when nothing drifted.

Numbers: `part` and the factor 0.97 are exact `real`s. `.floor()` is `Floor`,
and `as i32` on a real truncates toward zero. `.round()` rounds halves away
from zero. Integer `/` and `%` truncate toward zero.

The model follows the code as written, including these behaviours:

- The clamp test is strict (`< 0.3`). It compares the new list price, which is
  in hundredths, with `current_basic / 100`, which is in whole units.
- The seed list price is truncated, not rounded.
- A target of 1000 for a row showing 970 at list price 100000 moves the list
  price to 106289: the result is `(1031, 106289)` (`Calc.ExampleTarget1000`).
- A target of 200 on those prices is not clamped to 400: it gets a list price
  that shows exactly 200 (`Calc.ExampleTarget200`).
- The follow-up's drift test compares `total / 100` with the predicted
  discounted price, not with the net price.
- The follow-up's recomputation takes the pushed list price as its target, not
  the merchant's target (`Wb.ExampleFollowUpRepushes`).
- Rows are paired with requested products by position, not by id.

## Model

| member | source | states |
|---|---|---|
| `Calc.CorrectPart` | src/calc.rs:17-26 | returns the rounded thousandth `round(start*1000)/1000` exactly when its last digit is 5, otherwise `start`; the result is `start` or a whole number of thousandths ending in 5, within 0.0005 of `start` |
| `Calc.CorrectPartIdempotent` | src/calc.rs:17-26 | snapping an already snapped fraction changes nothing |
| `Calc.CorrectPartInUnit` | src/calc.rs:18-25 | a fraction in (0, 1] stays in (0, 1] after snapping |
| `Calc.EffectivePart` | src/calc.rs:2-3 | the snapped fraction `current_discounted / current_basic` lies in (0, 1] when `0 < current_discounted <= current_basic` |
| `Calc.Discounted` | src/calc.rs:29 | for a non-negative list price and a fraction in (0, 1], the discounted price lies between 0 and the list price |
| `Calc.Net` | src/calc.rs:29-30 | the 3% rebate never raises the discounted price and never makes a non-negative one negative |
| `Calc.NetStep` | src/calc.rs:29-30 | raising the list price by one raises the net price `floor(floor(b*part)*0.97)` by 0 or 1 when `0 < part <= 1` |
| `Calc.NetMonotone` | src/calc.rs:29-30 | the net price never falls as the list price rises |
| `Calc.Correct` | src/calc.rs:28-39 | terminates for `0 < part <= 1` and returns a list price whose net price is `target`; returns `base` itself when `base` already hits the target; walking down, every price it passed was above target; walking up, every price it passed was below target |
| `Calc.SeedNearTarget` | src/calc.rs:5-6 | for a non-negative target, the seed `(target / 0.97 / part) as i32` already shows a net price between `target - 2` and `target` |
| `Calc.Rubles` | src/calc.rs:9 | `current_basic / 100` is the list price in whole units: `100 * rub <= current_basic < 100 * rub + 100` for non-negative prices, and the mirror for negative ones |
| `Calc.ClampFiresBelowThreeTenths` | src/calc.rs:10 | for a positive visible price `rub` the clamp fires exactly when `10 * new_price < 3 * rub`, and for a negative one exactly when `10 * new_price > 3 * rub` |
| `Calc.ClampPrice` | src/calc.rs:11 | the replacement list price is the whole number nearest to 40% of `rub`, halves away from zero |
| `Calc.CountNewBasic` | src/calc.rs:1-15 | the first component is `floor(new_price*part)`; when the clamp does not fire, the new list price makes the net price exactly `target`; when it fires, the list price is `round(rub*0.4)` with `rub = current_basic/100` |
| `Calc.CountNewBasicMonotone` | src/calc.rs:5-14 | for fixed current prices and neither result clamped, a larger target never gives a smaller list price |
| `Calc.ClampIgnoresTarget` | src/calc.rs:9-12 | two targets that both trigger the clamp give the same result |
| `Calc.ExamplePart` | src/calc.rs:2-3 | 970/100000 gives the fraction 0.0097 unsnapped (its rounded thousandth is 10) |
| `Calc.ExampleTarget1000` | src/calc.rs:1-15 | target 1000 at net 970 and list 100000 gives `(1031, 106289)`: the seed 106281 is walked up to the first list price showing 1000 |
| `Calc.ExampleTarget0` | src/calc.rs:8-14 | target 0 on the same prices is found at list price 0 and clamped to 400, predicted 3 |
| `Calc.ExampleUnclamped200` | src/calc.rs:8-12 | for target 200 on the same prices the search ends at a list price of at least 300, so the clamp does not fire |
| `Calc.ExampleTarget200` | src/calc.rs:8-12 | target 200 on the same prices is not clamped: the list price is not 400 and shows exactly 200 |
| `Wb.FilterPrices` | src/wb.rs:96-101 | keeps exactly the rows whose id is requested, each as often as in the input, in their original order (a subsequence of the input) |
| `Wb.WithGoods` | src/wb.rs:92-103 | keeps supplier id and total and filters the rows as `FilterPrices` does |
| `Wb.FilterPricesIdempotent` | src/wb.rs:96-101 | filtering the rows twice by the same ids is filtering once |
| `Wb.WithGoodsIdempotent` | src/wb.rs:92-103 | `with_goods` applied twice with the same ids equals applying it once |
| `Wb.Pair` | src/wb.rs:29-38 | one pair per position up to the shorter of the observed rows and the requested products; pair `i` carries row `i`'s id, a first component equal to the discounted price its list price yields at row `i`'s fraction, and a list price that shows product `i`'s target when the clamp does not fire and is the clamp price when it does |
| `Wb.Batch` | src/wb.rs:40 | the pushed batch is the products of the pairs, in order |
| `Wb.PushedBatch` | src/wb.rs:29-40 | the pushed batch is as long as the shorter of the observed rows and the requested products; entry `i` carries observed row `i`'s id; its list price is the clamp price when the clamp fires for product `i`'s target, and otherwise shows that target exactly at row `i`'s fraction; the pair's first component is the discounted price of that list price |
| `Wb.CatalogPushesOnlyRequested` | src/wb.rs:25-40 | with two or more products, every pushed id is one of the requested ids, because the catalog page was filtered |
| `Wb.DriftedOutsideHundred` | src/wb.rs:184 | a non-negative observed net price counts as drifted exactly when it lies outside `[100 * predicted, 100 * predicted + 100)` |
| `Wb.Selected` | src/wb.rs:179-184 | lists, in ascending order, exactly the paired positions where `total / 100` differs from the predicted discounted price |
| `Wb.Retry` | src/wb.rs:179-189 | the follow-up batch has one entry per selected (drifted) position, in zip order: entry `k` is the reprice of the `k`-th drifted pair |
| `Wb.Reprice` | src/wb.rs:185-187 | a drifted pair is repriced with the observed row's id, and a list price that shows the pushed list price (taken as target) unless the clamp fires, in which case it is the clamp price |
| `Wb.RetrySelectsDrifted` | src/wb.rs:179-189 | the follow-up batch is empty exactly when no pair drifted; every entry is a drifted pair repriced with the observed id, taking the pushed list price as target; and every drifted pair is repriced in it |
| `Wb.DriftedRepriced` | src/wb.rs:179-188 | every drifted pair appears, repriced, in the follow-up batch |
| `Wb.ExampleFollowUpRepushes` | src/wb.rs:179-189 | a product that shows exactly its target after the push is still selected, and is repriced for target 106289, the list price |
| `Wb.Entries` | src/wb.rs:152-156 | element `i` of the data array is `{nmID: id, price: price}` of product `i` |
| `Wb.Payload` | src/wb.rs:152-162 | the upload body holds, under `data`, one `{nmID, price}` element per product, in order |
| `Wb.PayloadRoundTrip` | src/wb.rs:152-162 | the upload body maps each product, in order, to `{nmID: id, price: price}` under `data`: reading the body back gives the products |
| `Wb.UnpackRoundTrip` | src/wb.rs:152-162 | every upload body is the payload of the products read out of it |
| `Wb.UploadsAppend` | src/wb.rs:191-195 | uploads in a concatenated log add up (used for the at-most-one-push rule) |
| `Wb.FetchCalls` | src/wb.rs:55-69 | the requests `get_prices` sends never include an upload |
| `Wb.Marketplace.Fetched` | src/wb.rs:55-69 | no ids gives the default page; two or more ids without a supplier id give the missing-supplier error; a successful many-id page holds only requested ids; pages from a well-formed marketplace are well formed |
| `Wb.Marketplace.GetOnePrice` | src/wb.rs:71-82 | one card request is logged; the result is the card endpoint's page or a failure |
| `Wb.Marketplace.GetSupplierCatalog` | src/wb.rs:113-131 | one catalog request with limit 300 and page 1 unless given is logged; the result is that page or a failure |
| `Wb.Marketplace.GetPrices` | src/wb.rs:55-69 | zero ids: default page, no request; one id: the card request; two or more ids without supplier id: failure before any request; otherwise the catalog request and the page filtered by `WithGoods` |
| `Wb.Marketplace.SetPrice` | src/wb.rs:151-167 | logs exactly one upload of `Payload(products)` with the token; fails only when the request is not delivered |
| `Wb.Marketplace.CalculateAndSetPrice` | src/wb.rs:20-53 | on a failed fetch, returns the error and uploads nothing; otherwise uploads the position-paired batch once; if the upload fails, returns an error and no follow-up; on success returns the observed supplier id (not the input one), the pushed batch and the follow-up's arguments |
| `Wb.Marketplace.OneMoreTry` | src/wb.rs:169-198 | refetches the ids of the pushed batch; on failure uploads nothing; otherwise uploads the repriced drifted pairs only if there are any, at most one upload in all |

## Left out

- HTTP requests, their 60-second timeouts and JSON decoding in `get_one_price`, `get_supplier_catalog` and `set_price` are left out. These are network I/O, so the endpoints' answers are fields of `Marketplace`.
- `SetPrice` fails only when the upload is not delivered: `send()` in the source reports only transport errors, and a non-2xx answer counts as success.
- `parse_json` and the `jq` subprocess it runs are left out. The projection they perform is represented by the `ProductPricesPage` datatype.
- The spawned follow-up is not run. The 10-second sleep and `tokio::spawn` are concurrency, so `CalculateAndSetPrice` returns the follow-up's arguments as a `FollowUp` value, and a caller runs `OneMoreTry` with them.
- The task registry, the periodic sweeper in src/update/mod.rs, the HTTP routes and middleware, the database façade and src/utils.rs are not part of this model.
- f64 rounding error and the saturation of `as i32` casts are abstracted away: the model computes with exact reals and unbounded integers.
- Calc.Correct: requires `0 < part <= 1`. Outside that range the source's recursion may never stop.
- Calc.CountNewBasic: requires `0 < current_discounted <= current_basic`, so that the fraction lies in (0, 1]. When `current_basic < 100` the divisor `rub` is 0. For that case the model keeps the f64 result of the clamp test: the quotient is +inf, NaN or -inf, so only a negative price triggers the clamp.
- Wb.Marketplace.CalculateAndSetPrice: requires that, when the fetch succeeds, every fetched row has `0 < total <= basic`. Those rows reach the calculator, which needs this to terminate. Rows that are never requested, or are filtered out, are unconstrained. Fetched rows beyond the number of products, which are never paired, are still constrained.
- Wb.Marketplace.OneMoreTry: requires the same of the rows fetched for the pushed ids. Fetched rows that are never paired, or whose pair did not drift, are still constrained.
- The catalog endpoint is keyed by (supplier, limit, page). Only the first page of up to 300 rows is ever requested, as in the source.
