/**
 * Snapshot reconcile: the LiveCoinWatch pages and how their items are
 * upserted into the catalog, as specification functions and lemmas. The
 * imperative loops that follow these functions are in module SnapshotSync.
 */
module SnapshotReconcile {
  import opened JsonValues
  import opened Coins

  /** Items per page (`limit: 100`) and number of pages (`length: 20`). */
  const PageSize: nat := 100
  const PageCount: nat := 20
  /** The part of the ranked universe that the pages request. */
  const UniverseSize: nat := PageSize * PageCount

  /** The body POSTed to the provider's coin list endpoint. */
  datatype PageRequest = PageRequest(
    currency: string, sort: string, order: string, offset: nat, limit: nat, meta: bool)

  function RequestFor(offset: nat): PageRequest {
    PageRequest("USD", "rank", "ascending", offset, PageSize, true)
  }

  /** `Array.from({ length: 20 }, (_, i) => i * 100)`. */
  function Offsets(): seq<nat> {
    seq(PageCount, i requires 0 <= i < PageCount => i * PageSize)
  }

  /** Rank position `k` (0-based) is requested by page `i`. */
  predicate InPage(i: int, k: int) {
    0 <= i < |Offsets()| && Offsets()[i] <= k < Offsets()[i] + RequestFor(Offsets()[i]).limit
  }

  /** The page that holds position `k`. */
  function PageIndexOf(k: nat): nat {
    k / PageSize
  }

  /**
   * The offsets are 0, 100, ..., 1900, and the pages they request tile
   * the positions [0, 2000) exactly: each position lies in one page, and
   * only in that one.
   */
  lemma PageLayout()
    ensures |Offsets()| == PageCount == 20
    ensures Offsets()[0] == 0 && Offsets()[PageCount - 1] == 1900
    ensures forall i :: 0 <= i < |Offsets()| ==> Offsets()[i] == 100 * i
    ensures forall k: nat :: k < UniverseSize ==> InPage(PageIndexOf(k), k)
    ensures forall i, k: nat :: InPage(i, k) ==> k < UniverseSize && i == PageIndexOf(k)
  {
    forall i, k: nat | InPage(i, k) ensures k < UniverseSize && i == PageIndexOf(k) {
      assert i * 100 <= k < i * 100 + 100;
    }
  }

  /** One entry of the provider's answer; `delta` holds hour/day/week. */
  datatype Item = Item(
    rank: Json, name: string, code: Json, png32: Json, rate: Json,
    delta: Json, cap: Json, volume: Json)

  /**
   * An item together with whether the catalog round trip for it (the
   * lookup and the save) succeeds.
   */
  datatype Attempt = Attempt(item: Item, storeOk: bool)

  /** What the POST yields: a transport or provider error, or the items. */
  datatype PageResponse = NetworkError | Answered(attempts: seq<Attempt>)

  /**
   * Processing the item throws: the store fails, or `item.delta` is null
   * or undefined so that reading `item.delta.hour` raises a TypeError.
   */
  predicate ItemFails(a: Attempt) {
    !a.storeOk || Nullish(a.item.delta)
  }

  /** The seven market fields of `c` are those the item carries. */
  predicate MarketFieldsFrom(c: Coin, it: Item) {
    && c.imgURL == it.png32
    && c.price == it.rate
    && c.hourlyChanged == Member(it.delta, "hour")
    && c.dailyChanged == Member(it.delta, "day")
    && c.weeklyChanged == Member(it.delta, "week")
    && c.marketCap == it.cap
    && c.volume == it.volume
  }

  /** `c` and `d` agree on every field a snapshot update leaves alone. */
  predicate SameOutsideMarket(c: Coin, d: Coin) {
    && c.name == d.name && c.rank == d.rank && c.symbol == d.symbol
    && c.priceList == d.priceList
    && c.inOutOfTheMoneyHistory == d.inOutOfTheMoneyHistory
    && c.breakEvenPriceHistory == d.breakEvenPriceHistory
    && c.volatility == d.volatility
    && c.largeTxs == d.largeTxs
  }

  /** No enrichment field is present. */
  predicate NoEnrichment(c: Coin) {
    && c.priceList == Undefined
    && c.inOutOfTheMoneyHistory == Undefined && c.breakEvenPriceHistory == Undefined
    && c.volatility == Undefined && c.largeTxs == Undefined
  }

  /** The document built for an unseen name. */
  function NewCoin(it: Item): Coin {
    Coin(it.name, it.rank, it.code, it.png32, it.rate,
         Member(it.delta, "hour"), Member(it.delta, "day"), Member(it.delta, "week"),
         it.cap, it.volume,
         Undefined, Undefined, Undefined, Undefined, Undefined)
  }

  /** The in-place update of an existing document. */
  function Overwrite(c: Coin, it: Item): Coin {
    c.(imgURL := it.png32, price := it.rate,
       hourlyChanged := Member(it.delta, "hour"),
       dailyChanged := Member(it.delta, "day"),
       weeklyChanged := Member(it.delta, "week"),
       marketCap := it.cap, volume := it.volume)
  }

  /** The upsert of one item that does not fail. */
  function ApplyItem(m: map<string, Coin>, it: Item): map<string, Coin> {
    if it.name in m then m[it.name := Overwrite(m[it.name], it)]
    else m[it.name := NewCoin(it)]
  }

  /**
   * Updating an existing name sets its seven market fields and nothing
   * else; an unseen name gains one record with rank, name, symbol and the
   * market fields. No other record changes.
   */
  lemma ApplyItemSpec(m: map<string, Coin>, it: Item)
    ensures var r := ApplyItem(m, it);
      && r.Keys == m.Keys + {it.name}
      && (forall n :: n in m && n != it.name ==> r[n] == m[n])
      && MarketFieldsFrom(r[it.name], it)
      && (it.name in m ==> SameOutsideMarket(r[it.name], m[it.name]))
      && (it.name !in m ==>
            && |r| == |m| + 1
            && r[it.name].name == it.name && r[it.name].rank == it.rank
            && r[it.name].symbol == it.code && NoEnrichment(r[it.name]))
  {
  }

  /** Items upserted one after the other. */
  function ApplyItems(m: map<string, Coin>, p: seq<Item>): map<string, Coin>
    decreases |p|
  {
    if p == [] then m else ApplyItem(ApplyItems(m, p[..|p| - 1]), p[|p| - 1])
  }

  function NamesOf(p: seq<Item>): set<string>
    decreases |p|
  {
    if p == [] then {} else NamesOf(p[..|p| - 1]) + {p[|p| - 1].name}
  }

  /** The earliest item of the given name. */
  function FirstWith(p: seq<Item>, n: string): (it: Item)
    requires n in NamesOf(p)
    ensures it.name == n && it in p
    decreases |p|
  {
    var q := p[..|p| - 1];
    if n in NamesOf(q) then FirstWith(q, n) else p[|p| - 1]
  }

  /** The latest item of the given name. */
  function LastWith(p: seq<Item>, n: string): (it: Item)
    requires n in NamesOf(p)
    ensures it.name == n && it in p
    decreases |p|
  {
    if p[|p| - 1].name == n then p[|p| - 1] else LastWith(p[..|p| - 1], n)
  }

  /**
   * The outcome of a sequence of upserts described name by name: a name
   * the items never mention keeps its record; a mentioned one gets the
   * market fields of its latest item, on top of its old record or, for an
   * unseen name, of the record its earliest item created.
   */
  function ReconciledAt(m: map<string, Coin>, p: seq<Item>, n: string): Coin
    requires n in m || n in NamesOf(p)
  {
    if n in NamesOf(p) then
      Overwrite(if n in m then m[n] else NewCoin(FirstWith(p, n)), LastWith(p, n))
    else m[n]
  }

  function Reconciled(m: map<string, Coin>, p: seq<Item>): map<string, Coin> {
    map n | n in m.Keys + NamesOf(p) :: ReconciledAt(m, p, n)
  }

  lemma {:induction false} ApplyItemsAt(m: map<string, Coin>, p: seq<Item>, n: string)
    ensures n in ApplyItems(m, p) <==> n in m || n in NamesOf(p)
    ensures n in ApplyItems(m, p) ==> ApplyItems(m, p)[n] == ReconciledAt(m, p, n)
    decreases |p|
  {
    if p != [] {
      var q, x := p[..|p| - 1], p[|p| - 1];
      ApplyItemsAt(m, q, n);
      if n in NamesOf(q) {
        assert n !in m ==> FirstWith(p, n) == FirstWith(q, n);
        assert n != x.name ==> LastWith(p, n) == LastWith(q, n);
      }
    }
  }

  lemma ApplyItemsIsReconciled(m: map<string, Coin>, p: seq<Item>)
    ensures ApplyItems(m, p) == Reconciled(m, p)
  {
    var l, r := ApplyItems(m, p), Reconciled(m, p);
    forall n ensures n in l <==> n in r {
      ApplyItemsAt(m, p, n);
    }
    forall n | n in l ensures l[n] == r[n] {
      ApplyItemsAt(m, p, n);
    }
  }

  lemma ApplyItemsKeys(m: map<string, Coin>, p: seq<Item>)
    ensures ApplyItems(m, p).Keys == m.Keys + NamesOf(p)
  {
    ApplyItemsIsReconciled(m, p);
  }

  /** Upserts keep the catalog keyed by name. */
  lemma ApplyItemsWellKeyed(m: map<string, Coin>, p: seq<Item>)
    requires WellKeyed(m)
    ensures WellKeyed(ApplyItems(m, p))
  {
    ApplyItemsIsReconciled(m, p);
  }

  /** Re-applying the same items to the result changes nothing. */
  lemma ApplyItemsIdempotent(m: map<string, Coin>, p: seq<Item>)
    ensures ApplyItems(ApplyItems(m, p), p) == ApplyItems(m, p)
  {
    var m1 := ApplyItems(m, p);
    ApplyItemsIsReconciled(m, p);
    ApplyItemsIsReconciled(m1, p);
    var m2 := Reconciled(m1, p);
    assert m2.Keys == m1.Keys;
    forall n | n in m1 ensures m2[n] == m1[n] {
    }
  }

  lemma {:induction false} ApplyItemsAppend(m: map<string, Coin>, p: seq<Item>, q: seq<Item>)
    ensures ApplyItems(m, p + q) == ApplyItems(ApplyItems(m, p), q)
    decreases |q|
  {
    if q == [] {
      assert p + q == p;
    } else {
      assert (p + q)[..|p + q| - 1] == p + q[..|q| - 1];
      ApplyItemsAppend(m, p, q[..|q| - 1]);
    }
  }

  /** The result of processing one page, and whether it threw. */
  datatype PageResult = PageResult(coins: map<string, Coin>, failed: bool)

  /**
   * The `for ... of` loop of one page: items in order, the first that
   * throws ends the page.
   */
  function ProcessAttempts(m: map<string, Coin>, a: seq<Attempt>): PageResult
    decreases |a|
  {
    if a == [] then PageResult(m, false)
    else if ItemFails(a[0]) then PageResult(m, true)
    else ProcessAttempts(ApplyItem(m, a[0].item), a[1..])
  }

  /** The number of items before the first one that fails. */
  function SurvivingPrefix(a: seq<Attempt>): (j: nat)
    ensures j <= |a|
    ensures forall k :: 0 <= k < j ==> !ItemFails(a[k])
    ensures j < |a| ==> ItemFails(a[j])
    decreases |a|
  {
    if a == [] || ItemFails(a[0]) then 0 else 1 + SurvivingPrefix(a[1..])
  }

  function ItemsOf(a: seq<Attempt>): seq<Item> {
    seq(|a|, i requires 0 <= i < |a| => a[i].item)
  }

  /**
   * A page whose item j fails leaves items 0..j-1 written, items j.. not
   * processed, and reports the failure; a page without failure writes all.
   */
  lemma {:induction false} PageStopsAtFirstFailure(m: map<string, Coin>, a: seq<Attempt>)
    ensures ProcessAttempts(m, a)
      == PageResult(ApplyItems(m, ItemsOf(a[..SurvivingPrefix(a)])), SurvivingPrefix(a) < |a|)
    decreases |a|
  {
    if a != [] && !ItemFails(a[0]) {
      var x, rest := a[0].item, a[1..];
      var j := SurvivingPrefix(rest);
      PageStopsAtFirstFailure(ApplyItem(m, x), rest);
      assert ItemsOf(a[..1 + j]) == [x] + ItemsOf(rest[..j]);
      ApplyItemsAppend(m, [x], ItemsOf(rest[..j]));
      assert ApplyItems(m, [x]) == ApplyItem(m, x) by {
        assert [x][..0] == [];
      }
    } else {
      assert ItemsOf(a[..0]) == [];
    }
  }

  /** One page: a transport error is caught like any item failure. */
  function ProcessPage(m: map<string, Coin>, resp: PageResponse): PageResult {
    match resp
    case NetworkError => PageResult(m, true)
    case Answered(a) => ProcessAttempts(m, a)
  }

  /** The items of a response that are actually written. */
  function SurvivingItems(resp: PageResponse): seq<Item> {
    match resp
    case NetworkError => []
    case Answered(a) => ItemsOf(a[..SurvivingPrefix(a)])
  }

  predicate PageFails(resp: PageResponse) {
    match resp
    case NetworkError => true
    case Answered(a) => SurvivingPrefix(a) < |a|
  }

  /** The provider, as a function from the request body to its answer. */
  type Fetch = PageRequest -> PageResponse

  /** Pages processed one after another, in the order of `offs`. */
  function RunPages(m: map<string, Coin>, offs: seq<nat>, fetch: Fetch): PageResult
    decreases |offs|
  {
    if offs == [] then PageResult(m, false)
    else
      var prev := RunPages(m, offs[..|offs| - 1], fetch);
      var page := ProcessPage(prev.coins, fetch(RequestFor(offs[|offs| - 1])));
      PageResult(page.coins, prev.failed || page.failed)
  }

  /** The surviving items of every page, in page order. */
  function Survivors(offs: seq<nat>, fetch: Fetch): seq<Item>
    decreases |offs|
  {
    if offs == [] then []
    else Survivors(offs[..|offs| - 1], fetch) + SurvivingItems(fetch(RequestFor(offs[|offs| - 1])))
  }

  /** One full snapshot run, `fetchAllData`. */
  function FetchAll(m: map<string, Coin>, fetch: Fetch): PageResult {
    RunPages(m, Offsets(), fetch)
  }

  /**
   * A failing page does not stop the others: the run writes exactly the
   * surviving items of every page.
   */
  lemma {:induction false} RunPagesIsSurvivors(m: map<string, Coin>, offs: seq<nat>, fetch: Fetch)
    ensures RunPages(m, offs, fetch).coins == ApplyItems(m, Survivors(offs, fetch))
    decreases |offs|
  {
    if offs != [] {
      var init := offs[..|offs| - 1];
      var resp := fetch(RequestFor(offs[|offs| - 1]));
      RunPagesIsSurvivors(m, init, fetch);
      var prev := RunPages(m, init, fetch);
      match resp {
        case NetworkError =>
          assert Survivors(offs, fetch) == Survivors(init, fetch);
        case Answered(a) =>
          PageStopsAtFirstFailure(prev.coins, a);
          ApplyItemsAppend(m, Survivors(init, fetch), SurvivingItems(resp));
      }
    }
  }

  /** A run reports a failure iff some page fails. */
  lemma {:induction false} RunPagesFails(m: map<string, Coin>, offs: seq<nat>, fetch: Fetch)
    ensures RunPages(m, offs, fetch).failed
      <==> exists i :: 0 <= i < |offs| && PageFails(fetch(RequestFor(offs[i])))
    decreases |offs|
  {
    if offs != [] {
      var init := offs[..|offs| - 1];
      var last := fetch(RequestFor(offs[|offs| - 1]));
      RunPagesFails(m, init, fetch);
      var prev := RunPages(m, init, fetch);
      match last {
        case NetworkError =>
        case Answered(a) =>
          PageStopsAtFirstFailure(prev.coins, a);
      }
      assert forall i :: 0 <= i < |init| ==> init[i] == offs[i];
    }
  }

  /** A second run on the same provider answers leaves the catalog as the first left it. */
  lemma FetchAllIdempotent(m: map<string, Coin>, fetch: Fetch)
    ensures FetchAll(FetchAll(m, fetch).coins, fetch).coins == FetchAll(m, fetch).coins
  {
    var p := Survivors(Offsets(), fetch);
    RunPagesIsSurvivors(m, Offsets(), fetch);
    RunPagesIsSurvivors(FetchAll(m, fetch).coins, Offsets(), fetch);
    ApplyItemsIdempotent(m, p);
  }

  /** A run only adds names, those of the items it writes, and keeps the catalog keyed by name. */
  lemma FetchAllKeys(m: map<string, Coin>, fetch: Fetch)
    ensures FetchAll(m, fetch).coins.Keys == m.Keys + NamesOf(Survivors(Offsets(), fetch))
    ensures WellKeyed(m) ==> WellKeyed(FetchAll(m, fetch).coins)
  {
    RunPagesIsSurvivors(m, Offsets(), fetch);
    ApplyItemsKeys(m, Survivors(Offsets(), fetch));
    if WellKeyed(m) {
      ApplyItemsWellKeyed(m, Survivors(Offsets(), fetch));
    }
  }

  lemma {:induction false} NamesOfHas(p: seq<Item>, it: Item)
    requires it in p
    ensures it.name in NamesOf(p)
    decreases |p|
  {
    if p[|p| - 1] != it {
      assert it in p[..|p| - 1];
      NamesOfHas(p[..|p| - 1], it);
    }
  }

  lemma {:induction false} SurvivorsHas(offs: seq<nat>, fetch: Fetch, i: nat, it: Item)
    requires i < |offs|
    requires it in SurvivingItems(fetch(RequestFor(offs[i])))
    ensures it in Survivors(offs, fetch)
    decreases |offs|
  {
    if i < |offs| - 1 {
      assert offs[..|offs| - 1][i] == offs[i];
      SurvivorsHas(offs[..|offs| - 1], fetch, i, it);
    }
  }

  /**
   * Every item that survives on any page is in the catalog after the run,
   * whatever other pages did, with the market fields of the latest
   * surviving item of its name.
   */
  lemma EverySurvivorIsWritten(m: map<string, Coin>, fetch: Fetch, i: nat, it: Item)
    requires i < PageCount
    requires it in SurvivingItems(fetch(RequestFor(Offsets()[i])))
    ensures it.name in FetchAll(m, fetch).coins
    ensures it.name in NamesOf(Survivors(Offsets(), fetch))
    ensures MarketFieldsFrom(FetchAll(m, fetch).coins[it.name],
                             LastWith(Survivors(Offsets(), fetch), it.name))
  {
    var p := Survivors(Offsets(), fetch);
    SurvivorsHas(Offsets(), fetch, i, it);
    NamesOfHas(p, it);
    RunPagesIsSurvivors(m, Offsets(), fetch);
    ApplyItemsIsReconciled(m, p);
  }
}
