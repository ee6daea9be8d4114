/**
 * The exchange-client wrapper: price of an asset in AUD terms, balance and
 * market lookups over the lists the exchange returns, and the trade-history
 * table built from one page of trades.
 */
module ClientWrapper {
  import opened Wrappers

  datatype WrapperError =
    /** "we couldn't find price for this asset" */
    | PriceNotFound(asset: string)
    /** "Trading pair is not valid for btc markets" */
    | InvalidTradingPair(tradingPair: string)
    /** "We couldn't fetch trades for this trading pair ..." */
    | NoTradesFound(symbol: string)

  // ---------------------------------------------------------------------------
  // usd_price_for

  const StableCoins: seq<string> := ["AUD"]

  /**
   * usd_price_for. `lastPrice` stands for the ticker call and the parse of its
   * `lastPrice` field, None where either raises.
   */
  function UsdPriceFor(asset: string, lastPrice: string -> Option<real>): (r: Result<real, WrapperError>)
    ensures asset == "AUD" ==> r == Success(1.0)
    ensures asset != "AUD" && lastPrice(asset + "-AUD").Some? ==> r == Success(lastPrice(asset + "-AUD").value)
    ensures asset != "AUD" && lastPrice(asset + "-AUD").None? ==> r == Failure(PriceNotFound(asset))
  {
    if asset in StableCoins then Success(1.0)
    else match lastPrice(asset + "-AUD")
      case Some(p) => Success(p)
      case None => Failure(PriceNotFound(asset))
  }

  /**
   * The price of AUD never depends on the client. This only restates, for two
   * clients side by side, the first ensures of UsdPriceFor.
   */
  lemma AudPriceIgnoresClient(p1: string -> Option<real>, p2: string -> Option<real>)
    ensures UsdPriceFor("AUD", p1) == UsdPriceFor("AUD", p2) == Success(1.0)
  {
  }

  // ---------------------------------------------------------------------------
  // get_asset_balance and symbol_info: linear scans with early return

  /** One entry of the balance list, its balance already read as a number. */
  datatype BalanceEntry = BalanceEntry(assetName: string, balance: real)

  ghost predicate FirstBalanceFor(asset: string, balances: seq<BalanceEntry>, i: int)
  {
    0 <= i < |balances| && balances[i].assetName == asset
    && forall j :: 0 <= j < i ==> balances[j].assetName != asset
  }

  /** get_asset_balance: the balance of the first entry for the asset, 0.0 when there is none. */
  method GetAssetBalance(asset: string, balances: seq<BalanceEntry>) returns (amount: real)
    ensures (forall i :: 0 <= i < |balances| ==> balances[i].assetName != asset) ==> amount == 0.0
    ensures (exists i :: 0 <= i < |balances| && balances[i].assetName == asset) ==>
              exists i :: FirstBalanceFor(asset, balances, i) && amount == balances[i].balance
  {
    for i := 0 to |balances|
      invariant forall j :: 0 <= j < i ==> balances[j].assetName != asset
    {
      if asset == balances[i].assetName {
        assert FirstBalanceFor(asset, balances, i);
        return balances[i].balance;
      }
    }
    return 0.0;
  }

  /** One entry of the market list. */
  datatype MarketEntry = MarketEntry(marketId: string, baseAssetName: string, quoteAssetName: string)

  ghost predicate FirstMarketFor(tradingPair: string, markets: seq<MarketEntry>, i: int)
  {
    0 <= i < |markets| && markets[i].marketId == tradingPair
    && forall j :: 0 <= j < i ==> markets[j].marketId != tradingPair
  }

  /** symbol_info: base and quote asset of the first matching market; fails iff none matches. */
  method SymbolInfo(tradingPair: string, markets: seq<MarketEntry>)
    returns (r: Result<(string, string), WrapperError>)
    ensures r.Failure? <==> forall i :: 0 <= i < |markets| ==> markets[i].marketId != tradingPair
    ensures r.Failure? ==> r.error == InvalidTradingPair(tradingPair)
    ensures r.Success? ==>
              exists i :: FirstMarketFor(tradingPair, markets, i)
                       && r.value == (markets[i].baseAssetName, markets[i].quoteAssetName)
  {
    for i := 0 to |markets|
      invariant forall j :: 0 <= j < i ==> markets[j].marketId != tradingPair
    {
      if markets[i].marketId == tradingPair {
        var info := markets[i];
        assert FirstMarketFor(tradingPair, markets, i);
        return Success((info.baseAssetName, info.quoteAssetName));
      }
    }
    return Failure(InvalidTradingPair(tradingPair));
  }

  // ---------------------------------------------------------------------------
  // get_trades and format_data

  /**
   * One trade of the trade-history endpoint, under the exchange's field names,
   * with its timestamp already in epoch milliseconds and its numbers parsed.
   * `others` holds the remaining fields (orderId, liquidityType, ...).
   */
  datatype RawTrade = RawTrade(
    id: string, timestamp: int, price: real, amount: real, fee: real,
    valueInQuoteAsset: real, side: string, others: map<string, string>)

  /** A row of the frame after get_trades' renames and added columns, indexed by id. */
  datatype FrameRow = FrameRow(
    id: string, timestamp: int, price: real, qty: real, commission: real,
    commissionAssetUsdPrice: real, side: string, others: map<string, string>,
    dateTime: int, quoteQty: real, commissionAsset: string)

  /** A row of the table get_trades returns: the index and the eight columns, in column order. */
  datatype TradeRecord = TradeRecord(
    id: string, price: real, qty: real, quoteQty: real, commission: real,
    commissionAsset: string, side: string, commissionAssetUsdPrice: real, dateTime: int)

  /** What the one trade request of get_trades produced. */
  datatype FetchOutcome = Fetched(rows: seq<RawTrade>) | FetchFailed(code: int)

  const RateLimitCode: int := -1003
  const RateLimitPause: nat := 61

  /** The side token of the exchange turned into the canonical one; other tokens pass through. */
  function CanonicalSide(side: string): (s: string)
    ensures side == "Ask" ==> s == "sell"
    ensures side == "Bid" ==> s == "buy"
    ensures side != "Ask" && side != "Bid" ==> s == side
    ensures s == "buy" || s == "sell" <==> side in {"Ask", "Bid", "buy", "sell"}
  {
    if side == "Ask" then "sell" else if side == "Bid" then "buy" else side
  }

  /** Normalising a side twice changes nothing more. */
  lemma CanonicalSideIdempotent(side: string)
    ensures CanonicalSide(CanonicalSide(side)) == CanonicalSide(side)
  {
  }

  /** Reference definition: the record one raw trade becomes. */
  function Normalize(t: RawTrade): TradeRecord
  {
    TradeRecord(t.id, t.price, t.amount, 1.0, t.fee, "AUD", CanonicalSide(t.side), t.valueInQuoteAsset, t.timestamp)
  }

  ghost predicate Descending(s: seq<RawTrade>)
  {
    forall i, j :: 0 <= i < j < |s| ==> s[i].timestamp >= s[j].timestamp
  }

  /** The rows kept by `df_res["timestamp"] <= end_date`, in their order. */
  function Kept(rows: seq<RawTrade>, endDate: int): (k: seq<RawTrade>)
    ensures forall i :: 0 <= i < |k| ==> k[i].timestamp <= endDate
    ensures |k| <= |rows|
  {
    if rows == [] then []
    else (if rows[0].timestamp <= endDate then [rows[0]] else []) + Kept(rows[1..], endDate)
  }

  /** The filter keeps every row at or before the end date, as often as it occurs, and no other. */
  lemma {:induction false} KeptExactly(rows: seq<RawTrade>, endDate: int, x: RawTrade)
    ensures multiset(Kept(rows, endDate))[x] == if x.timestamp <= endDate then multiset(rows)[x] else 0
  {
    if rows != [] {
      assert rows == [rows[0]] + rows[1..];
      KeptExactly(rows[1..], endDate, x);
    }
  }

  /** Every row of `s` is at or before `t`. */
  ghost predicate NoLaterThan(s: seq<RawTrade>, t: int)
  {
    forall k :: 0 <= k < |s| ==> s[k].timestamp <= t
  }

  /** Inserts a row into a descending sequence, before the first row that is not later. */
  function InsertDescending(x: RawTrade, s: seq<RawTrade>): (r: seq<RawTrade>)
    ensures |r| == |s| + 1
  {
    if s == [] || x.timestamp >= s[0].timestamp then [x] + s
    else [s[0]] + InsertDescending(x, s[1..])
  }

  /** `sort_values("timestamp", ascending=False)`, here by insertion. */
  function SortDescending(s: seq<RawTrade>): (r: seq<RawTrade>)
    ensures |r| == |s|
  {
    if s == [] then [] else InsertDescending(s[0], SortDescending(s[1..]))
  }

  lemma {:induction false} InsertNoLaterThan(x: RawTrade, s: seq<RawTrade>, t: int)
    requires NoLaterThan(s, t) && x.timestamp <= t
    ensures NoLaterThan(InsertDescending(x, s), t)
  {
    if s != [] && x.timestamp < s[0].timestamp {
      InsertNoLaterThan(x, s[1..], t);
    }
  }

  lemma {:induction false} InsertKeepsDescending(x: RawTrade, s: seq<RawTrade>)
    requires Descending(s)
    ensures Descending(InsertDescending(x, s))
  {
    if s != [] && x.timestamp < s[0].timestamp {
      var rest := InsertDescending(x, s[1..]);
      InsertKeepsDescending(x, s[1..]);
      InsertNoLaterThan(x, s[1..], s[0].timestamp);
      assert NoLaterThan(rest, s[0].timestamp);
    }
  }

  lemma {:induction false} InsertAddsOne(x: RawTrade, s: seq<RawTrade>)
    ensures multiset(InsertDescending(x, s)) == multiset(s) + multiset{x}
  {
    if s != [] && x.timestamp < s[0].timestamp {
      assert s == [s[0]] + s[1..];
      InsertAddsOne(x, s[1..]);
    }
  }

  /** The sort returns the rows latest first. */
  lemma {:induction false} SortIsDescending(s: seq<RawTrade>)
    ensures Descending(SortDescending(s))
  {
    if s != [] {
      SortIsDescending(s[1..]);
      InsertKeepsDescending(s[0], SortDescending(s[1..]));
    }
  }

  /** The sort returns a permutation of its input. */
  lemma {:induction false} SortIsPermutation(s: seq<RawTrade>)
    ensures multiset(SortDescending(s)) == multiset(s)
  {
    if s != [] {
      assert s == [s[0]] + s[1..];
      SortIsPermutation(s[1..]);
      InsertAddsOne(s[0], SortDescending(s[1..]));
    }
  }

  /** get_trades' column operations on one row: date_time, the renames, quoteQty, commissionAsset. */
  function Renamed(t: RawTrade): FrameRow
  {
    FrameRow(t.id, t.timestamp, t.price, t.amount, t.fee, t.valueInQuoteAsset, t.side, t.others,
             t.timestamp, 1.0, "AUD")
  }

  /** `df.loc[df["side"] == from, "side"] = to`. */
  function ReplaceSide(df: seq<FrameRow>, from: string, to: string): (r: seq<FrameRow>)
  {
    seq(|df|, i requires 0 <= i < |df| => if df[i].side == from then df[i].(side := to) else df[i])
  }

  /** The projection onto the eight output columns. */
  function Project(row: FrameRow): TradeRecord
  {
    TradeRecord(row.id, row.price, row.qty, row.quoteQty, row.commission, row.commissionAsset,
                row.side, row.commissionAssetUsdPrice, row.dateTime)
  }

  /** The table steps of get_trades and format_data, taken together, are the per-record normalisation. */
  lemma FormattedIsNormalized(t: RawTrade)
    ensures Project(Renamed(t).(side := CanonicalSide(Renamed(t).side))) == Normalize(t)
  {
  }

  /** format_data: side mapping, then the fixed column selection. */
  method FormatData(frame: seq<FrameRow>) returns (table: seq<TradeRecord>)
    ensures |table| == |frame|
    ensures forall i :: 0 <= i < |frame| ==>
              table[i] == Project(frame[i].(side := CanonicalSide(frame[i].side)))
  {
    var df := frame;
    df := ReplaceSide(df, "Ask", "sell");
    df := ReplaceSide(df, "Bid", "buy");
    table := seq(|df|, i requires 0 <= i < |df| => Project(df[i]));
  }

  /**
   * The part of get_trades after the empty check: date_time, the renames,
   * the constant columns and the index, then format_data.
   */
  method TradeTable(trades: seq<RawTrade>) returns (table: seq<TradeRecord>)
    ensures |table| == |trades|
    ensures forall i :: 0 <= i < |trades| ==> table[i] == Normalize(trades[i])
  {
    var frame := seq(|trades|, i requires 0 <= i < |trades| => Renamed(trades[i]));
    table := FormatData(frame);
    forall i | 0 <= i < |trades|
      ensures table[i] == Normalize(trades[i])
    {
      FormattedIsNormalized(trades[i]);
    }
  }

  /**
   * get_trades for one page of trades (fetched with startTime = startDate).
   * `pause` is the length of the sleep after a rate-limit error; `ranked` is
   * the filtered page in the order sort_values gave it.
   */
  method GetTrades(symbol: string, startDate: int, endDate: int, fetch: FetchOutcome)
    returns (result: Result<seq<TradeRecord>, WrapperError>, pause: nat, ghost ranked: seq<RawTrade>)
    ensures pause == if startDate <= endDate && fetch == FetchFailed(RateLimitCode) then RateLimitPause else 0
    ensures result.Failure? <==> startDate > endDate || fetch.FetchFailed? || Kept(fetch.rows, endDate) == []
    ensures result.Failure? ==> result.error == NoTradesFound(symbol)
    // the rows at or before the end date, each once, latest first
    ensures result.Success? ==>
              && fetch.Fetched?
              && Descending(ranked)
              && multiset(ranked) == multiset(Kept(fetch.rows, endDate))
              && |result.value| == |ranked|
              && forall i :: 0 <= i < |ranked| ==> result.value[i] == Normalize(ranked[i])
    ensures result.Success? ==>
              forall i, j :: 0 <= i < j < |result.value| ==> result.value[i].dateTime >= result.value[j].dateTime
    ensures result.Success? ==>
              forall i :: 0 <= i < |result.value| ==>
                result.value[i].quoteQty == 1.0 && result.value[i].commissionAsset == "AUD"
  {
    var trades: seq<RawTrade> := [];
    pause := 0;
    if startDate <= endDate {
      match fetch
      case Fetched(rows) =>
        var kept := Kept(rows, endDate);
        var page := SortDescending(kept);
        SortIsDescending(kept);
        SortIsPermutation(kept);
        trades := page + trades;
        assert trades == page;
      case FetchFailed(code) =>
        if code == RateLimitCode {
          pause := RateLimitPause;
        }
    }
    ranked := trades;
    if |trades| == 0 {
      return Failure(NoTradesFound(symbol)), pause, ranked;
    }
    var table := TradeTable(trades);
    result := Success(table);
  }
}
