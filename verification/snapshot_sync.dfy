/**
 * The LiveCoinWatch side as the source runs it: `fetchCoinData` loops over
 * one page, `fetchAllData` over the twenty offsets, and the interval timer
 * re-runs everything every five minutes until some page fails.
 */
module SnapshotSync {
  import opened Coins
  import opened SnapshotReconcile

  /** `setInterval(fetchAllData, 300000)`. */
  const IntervalMs: nat := 300000

  /** What a sequence of scheduled runs leaves behind. */
  datatype ScheduleResult = ScheduleResult(
    coins: map<string, Coin>,
    starts: seq<nat>,      // when each run began, in milliseconds after start-up
    failures: seq<bool>,   // whether some page of that run failed
    intervalActive: bool)

  /**
   * The immediate run with the answers `first`, then one run per timer
   * tick `later[k]` (at `(k + 1) * IntervalMs`) for as long as no run has
   * cleared the interval.
   */
  function Schedule(m: map<string, Coin>, first: Fetch, later: seq<Fetch>): ScheduleResult
    decreases |later|
  {
    if later == [] then
      var r := FetchAll(m, first);
      ScheduleResult(r.coins, [0], [r.failed], !r.failed)
    else
      var prev := Schedule(m, first, later[..|later| - 1]);
      if !prev.intervalActive then prev
      else
        var r := FetchAll(prev.coins, later[|later| - 1]);
        ScheduleResult(r.coins, prev.starts + [|later| * IntervalMs],
                       prev.failures + [r.failed], !r.failed)
  }

  /**
   * Runs start at 0 and then every 300000 ms; every run but the last
   * succeeded; the interval is still active iff the last run succeeded,
   * and then every tick has run.
   */
  lemma {:induction false} ScheduleTiming(m: map<string, Coin>, first: Fetch, later: seq<Fetch>)
    ensures var s := Schedule(m, first, later);
      && 1 <= |s.starts| == |s.failures| <= |later| + 1
      && (forall k :: 0 <= k < |s.starts| ==> s.starts[k] == k * IntervalMs)
      && (forall k :: 0 <= k < |s.failures| - 1 ==> !s.failures[k])
      && (s.intervalActive <==> !s.failures[|s.failures| - 1])
      && (s.intervalActive ==> |s.starts| == |later| + 1)
    decreases |later|
  {
    if later != [] {
      ScheduleTiming(m, first, later[..|later| - 1]);
    }
  }

  /** Once the interval is cleared, no later tick runs or changes anything. */
  lemma {:induction false} ScheduleStopIsSticky(m: map<string, Coin>, first: Fetch, later: seq<Fetch>, more: seq<Fetch>)
    requires !Schedule(m, first, later).intervalActive
    ensures Schedule(m, first, later + more) == Schedule(m, first, later)
    decreases |more|
  {
    if more != [] {
      assert (later + more)[..|later + more| - 1] == later + more[..|more| - 1];
      ScheduleStopIsSticky(m, first, later, more[..|more| - 1]);
    } else {
      assert later + more == later;
    }
  }

  /**
   * The closure of `getLiveCoinWatchData`: the shared catalog and whether
   * `intervalId` still denotes an active timer.
   */
  class LiveCoinWatch {
    const catalog: CoinStore
    var intervalActive: bool

    constructor (catalog: CoinStore)
      ensures this.catalog == catalog && !intervalActive
    {
      this.catalog := catalog;
      intervalActive := false;
    }

    /**
     * `fetchCoinData(offset)`: upserts the page's items in order; the first
     * failure ends the page and clears the interval.
     */
    method FetchCoinData(offset: nat, fetch: Fetch)
      requires catalog.Valid()
      modifies this`intervalActive, catalog
      ensures catalog.Valid()
      ensures var r := ProcessPage(old(catalog.coins), fetch(RequestFor(offset)));
        catalog.coins == r.coins && intervalActive == (old(intervalActive) && !r.failed)
    {
      var response := fetch(RequestFor(offset));
      match response
      case NetworkError =>
        intervalActive := false;
      case Answered(attempts) =>
        var failed := UpsertItems(attempts);
        if failed {
          intervalActive := false;
        }
    }

    /**
     * The `for ... of` loop over `response.data`: find by name, then update
     * in place or insert; returns whether an item threw.
     */
    method UpsertItems(attempts: seq<Attempt>) returns (failed: bool)
      requires catalog.Valid()
      modifies catalog
      ensures catalog.Valid()
      ensures ProcessAttempts(old(catalog.coins), attempts) == PageResult(catalog.coins, failed)
    {
      var i := 0;
      while i < |attempts|
        invariant 0 <= i <= |attempts|
        invariant catalog.Valid()
        invariant ProcessAttempts(catalog.coins, attempts[i..])
          == ProcessAttempts(old(catalog.coins), attempts)
      {
        var attempt := attempts[i];
        ghost var before := catalog.coins;
        assert attempts[i..][0] == attempt && attempts[i..][1..] == attempts[i + 1..];
        var existing := catalog.FindOne(attempt.item.name);
        if ItemFails(attempt) {
          return true;
        }
        match existing {
          case Some(coin) =>
            catalog.Save(Overwrite(coin, attempt.item));
          case None =>
            catalog.Save(NewCoin(attempt.item));
        }
        assert catalog.coins == ApplyItem(before, attempt.item);
        i := i + 1;
      }
      return false;
    }

    /** `fetchAllData`: every page, one after another, in offset order. */
    method FetchAllData(fetch: Fetch)
      requires catalog.Valid()
      modifies this`intervalActive, catalog
      ensures catalog.Valid()
      ensures var r := FetchAll(old(catalog.coins), fetch);
        catalog.coins == r.coins && intervalActive == (old(intervalActive) && !r.failed)
    {
      var offsets := Offsets();
      var i := 0;
      while i < |offsets|
        invariant 0 <= i <= |offsets|
        invariant catalog.Valid()
        invariant var r := RunPages(old(catalog.coins), offsets[..i], fetch);
          catalog.coins == r.coins && intervalActive == (old(intervalActive) && !r.failed)
      {
        assert offsets[..i + 1][..i] == offsets[..i];
        FetchCoinData(offsets[i], fetch);
        i := i + 1;
      }
      assert offsets[..i] == offsets;
    }

    /**
     * `getLiveCoinWatchData`: an immediate run, then one run per tick of
     * the interval while it is active. The first run's pages settle only
     * after `setInterval` has returned, so its failures clear the interval
     * too; the model therefore activates the interval before that run.
     */
    method GetLiveCoinWatchData(first: Fetch, later: seq<Fetch>) returns (starts: seq<nat>)
      requires catalog.Valid()
      modifies this`intervalActive, catalog
      ensures catalog.Valid()
      ensures var s := Schedule(old(catalog.coins), first, later);
        catalog.coins == s.coins && starts == s.starts && intervalActive == s.intervalActive
    {
      intervalActive := true;
      starts := [0];
      FetchAllData(first);
      var k := 0;
      while k < |later| && intervalActive
        invariant 0 <= k <= |later|
        invariant catalog.Valid()
        invariant var s := Schedule(old(catalog.coins), first, later[..k]);
          catalog.coins == s.coins && starts == s.starts && intervalActive == s.intervalActive
      {
        assert later[..k + 1][..k] == later[..k];
        starts := starts + [(k + 1) * IntervalMs];
        FetchAllData(later[k]);
        k := k + 1;
      }
      if k < |later| {
        ScheduleStopIsSticky(old(catalog.coins), first, later[..k], later[k..]);
        assert later[..k] + later[k..] == later;
      } else {
        assert later[..k] == later;
      }
    }
  }
}
