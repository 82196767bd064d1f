/**
 * Enrichment reconcile: IntoTheBlock analytics fetched symbol by symbol,
 * strictly in list order, upserted by the name the provider returns, with
 * a 3000 ms pause after every symbol and no error handling.
 */
module Enrichment {
  import opened JsonValues
  import opened Optional
  import opened Coins

  const Host: string := "https://api.intotheblock.com/"
  /** The `setTimeout` after each symbol. */
  const DelayMs: nat := 3000

  /** The `dateRange` argument of `callIntotheBlockAPI`. */
  datatype DateRange = DateRange(since: string, until: string)

  /** The fixed window `updateIntotheBlockCoins` passes. */
  const FixedRange: DateRange := DateRange("2023-03-07", "2023-03-08")

  /** `toLowerCase` on one character, restricted to ASCII letters. */
  function LowerChar(c: char): char {
    if 'A' <= c <= 'Z' then (c as int + 32) as char else c
  }

  function ToLower(s: string): (r: string)
    ensures |r| == |s|
    ensures forall i :: 0 <= i < |s| ==> r[i] == LowerChar(s[i])
    decreases |s|
  {
    if s == [] then [] else [LowerChar(s[0])] + ToLower(s[1..])
  }

  /** A GET request: the lower-cased symbol in the path and the window in the query. */
  datatype SymbolRequest = SymbolRequest(path: string, range: DateRange)

  function RequestFor(symbol: string, range: DateRange): SymbolRequest {
    SymbolRequest(ToLower(symbol), range)
  }

  function QuerySuffix(range: DateRange): string {
    "/financial?since=" + range.since + "&until=" + range.until
  }

  /** The URL text of a request. */
  function RequestUrl(r: SymbolRequest): string {
    Host + r.path + QuerySuffix(r.range)
  }

  lemma SameMiddle(p: string, x: string, y: string, q: string)
    ensures p + x + q == p + y + q <==> x == y
  {
    if p + x + q == p + y + q {
      assert |x| == |y|;
      assert (p + x + q)[|p|..|p| + |x|] == x by {
        assert (p + x + q)[|p|..|p| + |x|] == (p + x)[|p|..];
      }
      assert (p + y + q)[|p|..|p| + |y|] == y by {
        assert (p + y + q)[|p|..|p| + |y|] == (p + y)[|p|..];
      }
    }
  }

  /**
   * The URL depends on the symbol only through its lower-cased form: two
   * symbols share a URL iff they agree up to case.
   */
  lemma RequestUrlCaseInsensitive(a: string, b: string, range: DateRange)
    ensures RequestUrl(RequestFor(a, range)) == RequestUrl(RequestFor(b, range))
      <==> ToLower(a) == ToLower(b)
  {
    SameMiddle(Host, ToLower(a), ToLower(b), QuerySuffix(range));
  }

  /** The symbol part of the URL, right after the host, holds no upper-case letter. */
  lemma LowerPartOfUrl(a: string, range: DateRange)
    ensures forall i :: |Host| <= i < |Host| + |a| ==>
      !('A' <= RequestUrl(RequestFor(a, range))[i] <= 'Z')
  {
    var la := ToLower(a);
    forall i | |Host| <= i < |Host| + |a|
      ensures !('A' <= RequestUrl(RequestFor(a, range))[i] <= 'Z')
    {
      assert RequestUrl(RequestFor(a, range)) == Host + la + QuerySuffix(range);
      assert (Host + la + QuerySuffix(range))[i] == la[i - |Host|];
    }
  }

  /**
   * `coins.map(coin => coin.symbol)` over the parsed reference list: reading
   * `.symbol` of a null entry throws, so the run then fails before any request.
   */
  function SymbolsOf(entries: seq<Json>): (r: Option<seq<Json>>)
    ensures r.Some? <==> forall i :: 0 <= i < |entries| ==> !Nullish(entries[i])
    ensures r.Some? ==> (|r.value| == |entries|
      && forall i :: 0 <= i < |entries| ==> r.value[i] == Member(entries[i], "symbol"))
    decreases |entries|
  {
    if entries == [] then Some([])
    else if Nullish(entries[0]) then None
    else match SymbolsOf(entries[1..])
      case None => None
      case Some(rest) => Some([Member(entries[0], "symbol")] + rest)
  }

  /** The fields of `response.data` the source reads. */
  datatype Info = Info(
    name: string, price: Json, rank: Json,
    inOutOfTheMoneyHistory: Json, breakEvenPriceHistory: Json,
    volatility: Json, largeTxs: Json)

  /** `x || []`: a falsy source value becomes the empty array. */
  predicate Normalised(stored: Json, source: Json) {
    (Truthy(source) ==> stored == source) && (!Truthy(source) ==> stored == Arr([]))
  }

  /** No snapshot field is present. */
  predicate NoMarketFields(c: Coin) {
    && c.symbol == Undefined && c.imgURL == Undefined && c.price == Undefined
    && c.hourlyChanged == Undefined && c.dailyChanged == Undefined
    && c.weeklyChanged == Undefined && c.marketCap == Undefined && c.volume == Undefined
  }

  /** `c` carries the seven enrichment keys built from `doc`. */
  predicate EnrichmentKeysFrom(c: Coin, doc: Coin) {
    && c.name == doc.name && c.rank == doc.rank && c.priceList == doc.priceList
    && c.inOutOfTheMoneyHistory == doc.inOutOfTheMoneyHistory
    && c.breakEvenPriceHistory == doc.breakEvenPriceHistory
    && c.volatility == doc.volatility && c.largeTxs == doc.largeTxs
  }

  /** `c` and `d` agree on the snapshot fields. */
  predicate SameMarketFields(c: Coin, d: Coin) {
    && c.symbol == d.symbol && c.imgURL == d.imgURL && c.price == d.price
    && c.hourlyChanged == d.hourlyChanged && c.dailyChanged == d.dailyChanged
    && c.weeklyChanged == d.weeklyChanged && c.marketCap == d.marketCap && c.volume == d.volume
  }

  /**
   * The `coin` object: the provider's price goes under `priceList`, never
   * `price`, and each history field is defaulted to `[]` when falsy.
   */
  function EnrichedCoin(info: Info): (c: Coin)
    ensures c.name == info.name && c.rank == info.rank && c.priceList == info.price
    ensures Normalised(c.inOutOfTheMoneyHistory, info.inOutOfTheMoneyHistory)
    ensures Normalised(c.breakEvenPriceHistory, info.breakEvenPriceHistory)
    ensures Normalised(c.volatility, info.volatility)
    ensures Normalised(c.largeTxs, info.largeTxs)
    ensures NoMarketFields(c)
  {
    Coin(info.name, info.rank, Undefined, Undefined, Undefined,
         Undefined, Undefined, Undefined, Undefined, Undefined,
         info.price,
         OrEmpty(info.inOutOfTheMoneyHistory), OrEmpty(info.breakEvenPriceHistory),
         OrEmpty(info.volatility), OrEmpty(info.largeTxs))
  }

  /**
   * What `findOneAndUpdate(filter, coin)` does with a plain object depends
   * on store settings the source does not show: either only the given keys
   * are set, or the document is replaced by them.
   */
  datatype UpdatePolicy = SetGivenKeys | ReplaceDocument

  function ApplyUpdate(existing: Coin, doc: Coin, policy: UpdatePolicy): Coin {
    match policy
    case SetGivenKeys =>
      existing.(name := doc.name, rank := doc.rank, priceList := doc.priceList,
                inOutOfTheMoneyHistory := doc.inOutOfTheMoneyHistory,
                breakEvenPriceHistory := doc.breakEvenPriceHistory,
                volatility := doc.volatility, largeTxs := doc.largeTxs)
    case ReplaceDocument => doc
  }

  /** The upsert by the name the provider returned. */
  function EnrichUpsert(m: map<string, Coin>, doc: Coin, policy: UpdatePolicy): map<string, Coin> {
    if doc.name in m then m[doc.name := ApplyUpdate(m[doc.name], doc, policy)]
    else m[doc.name := doc]
  }

  /**
   * An existing record is updated and no second one appears; an unseen
   * name gets a record of the enrichment keys only; every other record is
   * untouched.
   */
  lemma EnrichUpsertSpec(m: map<string, Coin>, doc: Coin, policy: UpdatePolicy)
    ensures var r := EnrichUpsert(m, doc, policy);
      && r.Keys == m.Keys + {doc.name}
      && (forall n :: n in m && n != doc.name ==> r[n] == m[n])
      && EnrichmentKeysFrom(r[doc.name], doc)
      && (doc.name in m && policy == SetGivenKeys ==> SameMarketFields(r[doc.name], m[doc.name]))
      && (doc.name in m && policy == ReplaceDocument ==> r[doc.name] == doc)
      && (doc.name !in m ==> |r| == |m| + 1 && r[doc.name] == doc)
  {
  }

  /** What `axios.get` yields, and whether the catalog round trip then succeeds. */
  datatype SymbolOutcome = RequestFailed | Responded(info: Info, storeOk: bool)

  /** The provider, as a function from the request to its answer. */
  type Fetch = SymbolRequest -> SymbolOutcome

  datatype StepResult =
    | Aborted(requested: seq<SymbolRequest>)
    | Completed(coins: map<string, Coin>, requested: seq<SymbolRequest>)

  /**
   * One symbol: a non-string symbol throws in `toLowerCase` before any
   * request; otherwise one request, then the upsert unless something throws.
   */
  function EnrichStep(m: map<string, Coin>, symbol: Json, range: DateRange, fetch: Fetch, policy: UpdatePolicy): StepResult {
    match symbol
    case Str(s) =>
      var req := RequestFor(s, range);
      (match fetch(req)
       case RequestFailed => Aborted([req])
       case Responded(info, storeOk) =>
         if storeOk then Completed(EnrichUpsert(m, EnrichedCoin(info), policy), [req])
         else Aborted([req]))
    case _ => Aborted([])
  }

  /** The requests for the string symbols, in order. */
  function RequestsOf(symbols: seq<Json>, range: DateRange): seq<SymbolRequest>
    decreases |symbols|
  {
    if symbols == [] then []
    else
      (if symbols[0].Str? then [RequestFor(symbols[0].s, range)] else [])
        + RequestsOf(symbols[1..], range)
  }

  datatype RunResult = RunResult(
    coins: map<string, Coin>, requested: seq<SymbolRequest>, completed: nat, ok: bool)

  /** A step over the catalog for one symbol, with everything else fixed. */
  type Step = (map<string, Coin>, Json) -> StepResult

  function Stepper(range: DateRange, fetch: Fetch, policy: UpdatePolicy): Step {
    (m: map<string, Coin>, symbol: Json) => EnrichStep(m, symbol, range, fetch, policy)
  }

  /** The `for` loop with no `catch`: steps in order until the first one that throws. */
  function RunSteps(m: map<string, Coin>, symbols: seq<Json>, step: Step): RunResult
    decreases |symbols|
  {
    if symbols == [] then RunResult(m, [], 0, true)
    else match step(m, symbols[0])
      case Aborted(req) => RunResult(m, req, 0, false)
      case Completed(m', req) =>
        var rest := RunSteps(m', symbols[1..], step);
        RunResult(rest.coins, req + rest.requested, rest.completed + 1, rest.ok)
  }

  /** `callIntotheBlockAPI`: the symbols in order until the first one that throws. */
  function EnrichRun(m: map<string, Coin>, symbols: seq<Json>, range: DateRange, fetch: Fetch, policy: UpdatePolicy): RunResult {
    RunSteps(m, symbols, Stepper(range, fetch, policy))
  }

  /**
   * A run completes some prefix of the list, and it succeeds iff that
   * prefix is the whole list.
   */
  lemma {:induction false} RunCompletes(m: map<string, Coin>, symbols: seq<Json>, step: Step)
    ensures var r := RunSteps(m, symbols, step);
      r.completed <= |symbols| && (r.ok <==> r.completed == |symbols|)
    decreases |symbols|
  {
    if symbols != [] {
      match step(m, symbols[0]) {
        case Aborted(req) =>
        case Completed(m', req) =>
          RunCompletes(m', symbols[1..], step);
      }
    }
  }

  /**
   * After a failure the catalog holds exactly what a successful run over
   * the completed symbols would leave, and the next symbol's step throws.
   */
  lemma {:induction false} RunFailureKeepsPrefix(m: map<string, Coin>, symbols: seq<Json>, step: Step)
    requires !RunSteps(m, symbols, step).ok
    ensures var r := RunSteps(m, symbols, step);
      && r.completed < |symbols|
      && RunSteps(m, symbols[..r.completed], step).ok
      && RunSteps(m, symbols[..r.completed], step).completed == r.completed
      && RunSteps(m, symbols[..r.completed], step).coins == r.coins
      && step(r.coins, symbols[r.completed]).Aborted?
    decreases |symbols|
  {
    RunCompletes(m, symbols, step);
    match step(m, symbols[0]) {
      case Aborted(req) =>
        assert symbols[..0] == [];
      case Completed(m', req) =>
        var tail := symbols[1..];
        RunFailureKeepsPrefix(m', tail, step);
        var rest := RunSteps(m', tail, step);
        assert symbols[..rest.completed + 1][0] == symbols[0];
        assert symbols[..rest.completed + 1][1..] == tail[..rest.completed];
    }
  }

  /**
   * After a failure, the rest of the list is never looked at: replacing
   * everything after the failing symbol changes nothing.
   */
  lemma {:induction false} RunAbortIgnoresRest(m: map<string, Coin>, symbols: seq<Json>, more: seq<Json>, step: Step)
    requires !RunSteps(m, symbols, step).ok
    ensures var r := RunSteps(m, symbols, step);
      r.completed < |symbols| && RunSteps(m, symbols[..r.completed + 1] + more, step) == r
    decreases |symbols|
  {
    RunCompletes(m, symbols, step);
    var r := RunSteps(m, symbols, step);
    var s := symbols[..r.completed + 1] + more;
    assert s[0] == symbols[0];
    var first := step(m, symbols[0]);
    if first.Completed? {
      var tail := symbols[1..];
      RunAbortIgnoresRest(first.coins, tail, more, step);
      var rest := RunSteps(first.coins, tail, step);
      assert s[1..] == tail[..rest.completed + 1] + more;
    }
  }

  /** The run from symbol `i` on, when that symbol's step completes. */
  lemma RunAdvance(m: map<string, Coin>, symbols: seq<Json>, i: nat, step: Step,
                   m': map<string, Coin>, req: seq<SymbolRequest>, earlier: seq<SymbolRequest>)
    requires i < |symbols| && step(m, symbols[i]) == Completed(m', req)
    ensures var rest := RunSteps(m', symbols[i + 1..], step);
      && RunSteps(m, symbols[i..], step)
        == RunResult(rest.coins, req + rest.requested, rest.completed + 1, rest.ok)
      && earlier + RunSteps(m, symbols[i..], step).requested == (earlier + req) + rest.requested
  {
    assert symbols[i..][0] == symbols[i] && symbols[i..][1..] == symbols[i + 1..];
  }

  /** The run from symbol `i` on, when that symbol's step throws. */
  lemma RunStop(m: map<string, Coin>, symbols: seq<Json>, i: nat, step: Step, req: seq<SymbolRequest>)
    requires i < |symbols| && step(m, symbols[i]) == Aborted(req)
    ensures RunSteps(m, symbols[i..], step) == RunResult(m, req, 0, false)
  {
    assert symbols[i..][0] == symbols[i];
  }

  /**
   * Requests go out in list order, one per string symbol, up to and
   * including the symbol that threw, and none after it.
   */
  lemma {:induction false} EnrichRunRequests(m: map<string, Coin>, symbols: seq<Json>, range: DateRange, fetch: Fetch, policy: UpdatePolicy)
    ensures var r := EnrichRun(m, symbols, range, fetch, policy);
      r.completed + (if r.ok then 0 else 1) <= |symbols|
      && r.requested == RequestsOf(symbols[..r.completed + if r.ok then 0 else 1], range)
    decreases |symbols|
  {
    RunCompletes(m, symbols, Stepper(range, fetch, policy));
    if symbols != [] {
      match EnrichStep(m, symbols[0], range, fetch, policy) {
        case Aborted(req) =>
          assert symbols[..1] == [symbols[0]] && [symbols[0]][1..] == [];
        case Completed(m', req) =>
          var tail := symbols[1..];
          EnrichRunRequests(m', tail, range, fetch, policy);
          var rest := EnrichRun(m', tail, range, fetch, policy);
          var k := rest.completed + if rest.ok then 0 else 1;
          assert symbols[..k + 1][0] == symbols[0];
          assert symbols[..k + 1][1..] == tail[..k];
      }
    } else {
      assert symbols[..0] == [];
    }
  }

  /** Enrichment never deletes a record, and keeps the catalog keyed by name. */
  lemma {:induction false} EnrichRunKeepsRecords(m: map<string, Coin>, symbols: seq<Json>, range: DateRange, fetch: Fetch, policy: UpdatePolicy)
    ensures m.Keys <= EnrichRun(m, symbols, range, fetch, policy).coins.Keys
    ensures WellKeyed(m) ==> WellKeyed(EnrichRun(m, symbols, range, fetch, policy).coins)
    decreases |symbols|
  {
    assert m.Keys <= EnrichRun(m, symbols, range, fetch, policy).coins.Keys by {
      EnrichRunWrites(m, symbols, range, fetch, policy);
    }
    if symbols != [] {
      match EnrichStep(m, symbols[0], range, fetch, policy) {
        case Aborted(req) =>
        case Completed(m', req) =>
          EnrichRunKeepsRecords(m', symbols[1..], range, fetch, policy);
      }
    }
  }

  /** The name in the provider's answer to a string symbol, if it answered. */
  function ReturnedName(symbol: Json, range: DateRange, fetch: Fetch): set<string> {
    if symbol.Str? then
      match fetch(RequestFor(symbol.s, range))
      case Responded(info, _) => {info.name}
      case RequestFailed => {}
    else {}
  }

  /** The names in the answers to the string symbols of the list. */
  function NamesReturned(symbols: seq<Json>, range: DateRange, fetch: Fetch): set<string>
    decreases |symbols|
  {
    if symbols == [] then {}
    else ReturnedName(symbols[0], range, fetch) + NamesReturned(symbols[1..], range, fetch)
  }

  /** A completed step adds the returned name and touches no other record. */
  lemma EnrichStepWrites(m: map<string, Coin>, symbol: Json, range: DateRange, fetch: Fetch, policy: UpdatePolicy)
    requires EnrichStep(m, symbol, range, fetch, policy).Completed?
    ensures var r := EnrichStep(m, symbol, range, fetch, policy).coins;
      && r.Keys == m.Keys + ReturnedName(symbol, range, fetch)
      && forall n :: n in m && n !in ReturnedName(symbol, range, fetch) ==> r[n] == m[n]
  {
    EnrichUpsertSpec(m, EnrichedCoin(fetch(RequestFor(symbol.s, range)).info), policy);
  }

  lemma NamesReturnedPrefix(symbols: seq<Json>, k: nat, range: DateRange, fetch: Fetch)
    requires k < |symbols|
    ensures NamesReturned(symbols[..k + 1], range, fetch)
      == ReturnedName(symbols[0], range, fetch) + NamesReturned(symbols[1..][..k], range, fetch)
  {
    assert symbols[..k + 1][0] == symbols[0];
    assert symbols[..k + 1][1..] == symbols[1..][..k];
  }

  /**
   * A run adds exactly the names returned for the completed symbols, and
   * every record under any other name is left as it was.
   */
  lemma {:induction false} EnrichRunWrites(m: map<string, Coin>, symbols: seq<Json>, range: DateRange, fetch: Fetch, policy: UpdatePolicy)
    ensures var r := EnrichRun(m, symbols, range, fetch, policy);
      && r.completed <= |symbols|
      && r.coins.Keys == m.Keys + NamesReturned(symbols[..r.completed], range, fetch)
      && forall n :: n in m && n !in NamesReturned(symbols[..r.completed], range, fetch) ==> r.coins[n] == m[n]
    decreases |symbols|
  {
    RunCompletes(m, symbols, Stepper(range, fetch, policy));
    if symbols == [] {
      assert symbols[..0] == [];
    } else {
      match EnrichStep(m, symbols[0], range, fetch, policy) {
        case Aborted(req) =>
          assert symbols[..0] == [];
        case Completed(m', req) =>
          EnrichStepWrites(m, symbols[0], range, fetch, policy);
          EnrichRunWrites(m', symbols[1..], range, fetch, policy);
          NamesReturnedPrefix(symbols, EnrichRun(m', symbols[1..], range, fetch, policy).completed, range, fetch);
      }
    }
  }

  /** A name no symbol's answer carries is not among the returned names. */
  lemma {:induction false} NamesReturnedAvoids(symbols: seq<Json>, range: DateRange, fetch: Fetch, n: string)
    requires forall j :: 0 <= j < |symbols| ==> n !in ReturnedName(symbols[j], range, fetch)
    ensures n !in NamesReturned(symbols, range, fetch)
    decreases |symbols|
  {
    if symbols != [] {
      assert n !in ReturnedName(symbols[0], range, fetch);
      forall j | 0 <= j < |symbols[1..]|
        ensures n !in ReturnedName(symbols[1..][j], range, fetch)
      {
        assert symbols[1..][j] == symbols[j + 1];
      }
      NamesReturnedAvoids(symbols[1..], range, fetch, n);
    }
  }

  /**
   * A record written by the run: the answer to completed symbol `i` is in
   * the catalog afterwards with its seven enrichment keys, as long as no
   * later completed symbol returned the same name.
   */
  lemma {:induction false} EnrichRunLatestWrite(m: map<string, Coin>, symbols: seq<Json>, range: DateRange, fetch: Fetch, policy: UpdatePolicy,
                                                i: nat, info: Info)
    requires i < EnrichRun(m, symbols, range, fetch, policy).completed
    requires i < |symbols| && symbols[i].Str?
    requires fetch(RequestFor(symbols[i].s, range)).Responded?
    requires fetch(RequestFor(symbols[i].s, range)).info == info
    requires forall j :: (i < j < EnrichRun(m, symbols, range, fetch, policy).completed && j < |symbols|
      ==> info.name !in ReturnedName(symbols[j], range, fetch))
    ensures var r := EnrichRun(m, symbols, range, fetch, policy);
      info.name in r.coins && EnrichmentKeysFrom(r.coins[info.name], EnrichedCoin(info))
    decreases |symbols|
  {
    var step := EnrichStep(m, symbols[0], range, fetch, policy);
    var tail := symbols[1..];
    assert step.Completed?;
    var rest := EnrichRun(step.coins, tail, range, fetch, policy);
    if i == 0 {
      EnrichUpsertSpec(m, EnrichedCoin(info), policy);
      EnrichRunWrites(step.coins, tail, range, fetch, policy);
      var done := tail[..rest.completed];
      forall j | 0 <= j < |done|
        ensures info.name !in ReturnedName(done[j], range, fetch)
      {
        assert done[j] == symbols[j + 1];
      }
      NamesReturnedAvoids(done, range, fetch, info.name);
    } else {
      forall j | i - 1 < j < rest.completed && j < |tail|
        ensures info.name !in ReturnedName(tail[j], range, fetch)
      {
        assert tail[j] == symbols[j + 1];
      }
      EnrichRunLatestWrite(step.coins, tail, range, fetch, policy, i - 1, info);
    }
  }

  /**
   * `callIntotheBlockAPI(symbols, dateRange)`: a `for` loop that requests,
   * upserts and then sleeps 3000 ms for every symbol, the last included;
   * anything that throws ends the loop and rejects the call (`ok` false).
   */
  method CallIntotheBlockAPI(catalog: CoinStore, symbols: seq<Json>, range: DateRange, fetch: Fetch, policy: UpdatePolicy)
    returns (requested: seq<SymbolRequest>, sleptMs: nat, completed: nat, ok: bool)
    requires catalog.Valid()
    modifies catalog
    ensures catalog.Valid()
    ensures var r := EnrichRun(old(catalog.coins), symbols, range, fetch, policy);
      && catalog.coins == r.coins && requested == r.requested
      && completed == r.completed && ok == r.ok
    ensures sleptMs == DelayMs * completed
  {
    ghost var step := Stepper(range, fetch, policy);
    requested, sleptMs, completed, ok := [], 0, 0, true;
    ghost var whole := RunSteps(catalog.coins, symbols, step);
    assert symbols[0..] == symbols;
    while completed < |symbols| && ok
      invariant completed <= |symbols|
      invariant catalog.Valid()
      invariant sleptMs == DelayMs * completed
      invariant ok ==> var rest := RunSteps(catalog.coins, symbols[completed..], step);
        whole == RunResult(rest.coins, requested + rest.requested, completed + rest.completed, rest.ok)
      invariant !ok ==> whole == RunResult(catalog.coins, requested, completed, false)
      decreases |symbols| - completed, ok
    {
      ghost var before := catalog.coins;
      var req, done := EnrichSymbol(catalog, symbols[completed], range, fetch, policy);
      if done {
        RunAdvance(before, symbols, completed, step, catalog.coins, req, requested);
        // the 3000 ms pause that follows every completed symbol
        sleptMs := sleptMs + DelayMs;
        completed := completed + 1;
      } else {
        RunStop(before, symbols, completed, step, req);
        ok := false;
      }
      requested := requested + req;
    }
  }

  /**
   * One iteration of the loop up to the pause: lower-case the symbol,
   * request it, upsert the answer. `done` is false when something threw.
   */
  method EnrichSymbol(catalog: CoinStore, symbol: Json, range: DateRange, fetch: Fetch, policy: UpdatePolicy)
    returns (requested: seq<SymbolRequest>, done: bool)
    requires catalog.Valid()
    modifies catalog
    ensures catalog.Valid()
    ensures EnrichStep(old(catalog.coins), symbol, range, fetch, policy)
      == if done then Completed(catalog.coins, requested) else Aborted(requested)
    ensures !done ==> catalog.coins == old(catalog.coins)
  {
    if !symbol.Str? {
      return [], false;
    }
    var req := RequestFor(symbol.s, range);
    var outcome := fetch(req);
    if outcome.RequestFailed? || !outcome.storeOk {
      return [req], false;
    }
    UpsertEnriched(catalog, EnrichedCoin(outcome.info), policy);
    return [req], true;
  }

  /** `Coin.findOne({ name })`, then `findOneAndUpdate` or `new Coin(coin).save()`. */
  method UpsertEnriched(catalog: CoinStore, doc: Coin, policy: UpdatePolicy)
    requires catalog.Valid()
    modifies catalog
    ensures catalog.Valid()
    ensures catalog.coins == EnrichUpsert(old(catalog.coins), doc, policy)
  {
    var existing := catalog.FindOne(doc.name);
    match existing {
      case Some(coin) =>
        catalog.Save(ApplyUpdate(coin, doc, policy));
      case None =>
        catalog.Save(doc);
    }
  }

  /**
   * `updateIntotheBlockCoins` on the parsed reference list: builds the
   * symbol list, runs the enrichment and logs completion only when every
   * symbol went through.
   */
  method UpdateIntotheBlockCoins(catalog: CoinStore, entries: seq<Json>, fetch: Fetch, policy: UpdatePolicy)
    returns (finishedLogged: bool)
    requires catalog.Valid()
    modifies catalog
    ensures catalog.Valid()
    ensures SymbolsOf(entries).None? ==> catalog.coins == old(catalog.coins) && !finishedLogged
    ensures SymbolsOf(entries).Some? ==>
      var r := EnrichRun(old(catalog.coins), SymbolsOf(entries).value, FixedRange, fetch, policy);
      catalog.coins == r.coins && finishedLogged == r.ok
  {
    var symbols := SymbolsOf(entries);
    if symbols.None? {
      finishedLogged := false;
    } else {
      var requested, sleptMs, completed, ok :=
        CallIntotheBlockAPI(catalog, symbols.value, FixedRange, fetch, policy);
      finishedLogged := ok;
    }
  }
}
