/**
 * The coin catalog: documents keyed by coin name, shared by the snapshot
 * and the enrichment pipelines.
 */
module Coins {
  import opened JsonValues
  import opened Optional

  /**
   * One catalog document. Every field but `name` may be absent
   * (`Undefined`): snapshot fields stay absent until a snapshot run touches
   * the coin, enrichment fields until an enrichment run does.
   */
  datatype Coin = Coin(
    name: string,
    rank: Json,
    symbol: Json,
    imgURL: Json,
    price: Json,
    hourlyChanged: Json,
    dailyChanged: Json,
    weeklyChanged: Json,
    marketCap: Json,
    volume: Json,
    priceList: Json,
    inOutOfTheMoneyHistory: Json,
    breakEvenPriceHistory: Json,
    volatility: Json,
    largeTxs: Json)

  /** At most one record per name: each key holds the record of that name. */
  ghost predicate WellKeyed(m: map<string, Coin>) {
    forall n :: n in m ==> m[n].name == n
  }

  /** The document store, reduced to find-by-name and save-by-name. */
  class CoinStore {
    var coins: map<string, Coin>

    ghost predicate Valid()
      reads this
    {
      WellKeyed(coins)
    }

    constructor ()
      ensures Valid() && coins == map[]
    {
      coins := map[];
    }

    /** `Coin.findOne({ name })`. */
    method FindOne(name: string) returns (found: Option<Coin>)
      requires Valid()
      ensures found.Some? <==> name in coins
      ensures found.Some? ==> found.value == coins[name] && found.value.name == name
    {
      found := if name in coins then Some(coins[name]) else None;
    }

    /** `doc.save()`, or an update by name: the document replaces the one of its name. */
    method Save(doc: Coin)
      requires Valid()
      modifies this
      ensures Valid()
      ensures coins == old(coins)[doc.name := doc]
    {
      coins := coins[doc.name := doc];
    }
  }
}
