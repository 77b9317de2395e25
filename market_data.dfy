/** The backend's market-data controller over rows already read from the
    database: the instrument list, the index listings and a user's open
    positions with their profit and loss. Query results are parameters, in
    the order the database returns them. */
module MarketData {
  import opened Util
  import opened ChartMath

  /** A row of the instruments table. */
  datatype InstrumentRow = InstrumentRow(instrumentToken: int, tradingSymbol: string, name: string,
                                         segment: string, exchange: string)

  /** The record the API returns for an instrument; the trading symbol goes
      out under the key `tradingsymbol`. */
  datatype InstrumentRecord = InstrumentRecord(instrumentToken: int, tradingsymbol: string, name: string,
                                               segment: string, exchange: string)

  /** `get_instruments`: one record per row, in row order, each field copied. */
  function GetInstruments(rows: seq<InstrumentRow>): (r: seq<InstrumentRecord>)
    ensures |r| == |rows|
    ensures forall i :: 0 <= i < |rows| ==>
      && r[i].instrumentToken == rows[i].instrumentToken
      && r[i].tradingsymbol == rows[i].tradingSymbol
      && r[i].name == rows[i].name
      && r[i].segment == rows[i].segment
      && r[i].exchange == rows[i].exchange
  {
    seq(|rows|, i requires 0 <= i < |rows| =>
      InstrumentRecord(rows[i].instrumentToken, rows[i].tradingSymbol, rows[i].name, rows[i].segment, rows[i].exchange))
  }

  /** `get_historical_data`: no historical source is wired in, so whatever
      the instrument, interval or dates, the answer is an empty list. */
  function GetHistoricalData(instrumentToken: int, interval: string, fromDate: string, toDate: string): (r: seq<Candle>)
    ensures |r| == 0
  {
    []
  }

  /** A row of the stocks table. */
  datatype Stock = Stock(id: int, symbol: string, name: string, segment: string, lastPrice: real)

  /** A row of an index listing. */
  datatype ListingRow = ListingRow(id: int, instrumentToken: int, name: string, price: real,
                                   position: string, candles: seq<Candle>)

  const Nifty50: string := "NIFTY50"
  const BankNifty: string := "BANKNIFTY"
  const NeutralPosition: string := "Neutral"

  /** The listing row of one stock: its id doubles as the instrument token,
      its last price is the price, the position is "Neutral" and no candles
      are attached. */
  function ListingFor(s: Stock): (row: ListingRow)
    ensures row.id == s.id && row.instrumentToken == s.id
    ensures row.name == s.name && row.price == s.lastPrice
    ensures row.position == NeutralPosition && row.candles == []
  {
    ListingRow(s.id, s.id, s.name, s.lastPrice, NeutralPosition, [])
  }

  /** The stocks the segment query returns, in table order. */
  function StocksIn(stocks: seq<Stock>, segment: string): seq<Stock> {
    Filter(stocks, (s: Stock) => s.segment == segment)
  }

  /** The listing of a segment, one row per stock of that segment. */
  function ListingsOf(stocks: seq<Stock>, segment: string): seq<ListingRow> {
    var selected := StocksIn(stocks, segment);
    seq(|selected|, i requires 0 <= i < |selected| => ListingFor(selected[i]))
  }

  /** A listing holds the row of every stock of the segment and no other
      row, and is empty exactly when the segment has no stock. */
  lemma ListingsOfSegment(stocks: seq<Stock>, segment: string)
    ensures forall s :: s in stocks && s.segment == segment ==> ListingFor(s) in ListingsOf(stocks, segment)
    ensures forall row :: row in ListingsOf(stocks, segment) ==>
      exists s :: s in stocks && s.segment == segment && row == ListingFor(s)
    ensures ListingsOf(stocks, segment) == [] <==> forall s :: s in stocks ==> s.segment != segment
  {
    var selected := StocksIn(stocks, segment);
    var rows := ListingsOf(stocks, segment);
    forall s | s in stocks && s.segment == segment
      ensures ListingFor(s) in rows
    {
      var i :| 0 <= i < |selected| && selected[i] == s;
      assert rows[i] == ListingFor(s);
    }
    forall row | row in rows
      ensures exists s :: s in stocks && s.segment == segment && row == ListingFor(s)
    {
      var i :| 0 <= i < |rows| && rows[i] == row;
      assert selected[i] in selected;
    }
    if selected != [] {
      assert selected[0] in selected;
    }
  }

  /** The loop shared by `get_nifty50` and `get_banknifty`: an empty query
      result gives an empty list, otherwise one appended row per stock. */
  method GetSegmentListing(stocks: seq<Stock>, segment: string) returns (results: seq<ListingRow>)
    ensures results == ListingsOf(stocks, segment)
  {
    var selected := StocksIn(stocks, segment);
    if selected == [] {
      return [];
    }
    results := [];
    var i := 0;
    while i < |selected|
      invariant 0 <= i <= |selected| && |results| == i
      invariant forall k :: 0 <= k < i ==> results[k] == ListingFor(selected[k])
    {
      results := results + [ListingFor(selected[i])];
      i := i + 1;
    }
  }

  /** `get_nifty50`: the listing of the "NIFTY50" segment. */
  method GetNifty50(stocks: seq<Stock>) returns (results: seq<ListingRow>)
    ensures results == ListingsOf(stocks, Nifty50)
  {
    results := GetSegmentListing(stocks, Nifty50);
  }

  /** `get_banknifty`: the listing of the "BANKNIFTY" segment. */
  method GetBankNifty(stocks: seq<Stock>) returns (results: seq<ListingRow>)
    ensures results == ListingsOf(stocks, BankNifty)
  {
    results := GetSegmentListing(stocks, BankNifty);
  }

  /** A row of the positions table. */
  datatype Position = Position(id: int, userId: int, stockSymbol: string, kind: string,
                               quantity: int, averagePrice: real, currentPrice: real)

  /** A row of the positions answer. */
  datatype PositionRow = PositionRow(id: int, instrument: string, kind: string, qty: int,
                                     avgPrice: real, ltp: real, pnl: real)

  const Buy: string := "BUY"

  /** `query(Stock).filter(symbol == ...).first()`: the first stock with the
      symbol, if any. */
  function FirstStockBySymbol(stocks: seq<Stock>, symbol: string): (r: Option<Stock>)
    ensures r.None? <==> forall s :: s in stocks ==> s.symbol != symbol
    ensures r.Some? ==> r.value.symbol == symbol
    ensures r.Some? ==> exists i :: 0 <= i < |stocks| && stocks[i] == r.value && (forall j :: 0 <= j < i ==> stocks[j].symbol != symbol)
  {
    var k := FirstIndex(stocks, (s: Stock) => s.symbol == symbol);
    if k >= 0 then Some(stocks[k]) else None
  }

  /** Profit and loss of a position: a long ('BUY') position gains when the
      price rises above the average, any other kind is treated as short. */
  function Pnl(kind: string, ltp: real, averagePrice: real, quantity: int): real {
    if kind == Buy then (ltp - averagePrice) * quantity as real
    else (averagePrice - ltp) * quantity as real
  }

  /** A long and a short position of the same size at the same prices have
      opposite profit and loss. */
  lemma PnlLongShortOpposite(kind: string, ltp: real, averagePrice: real, quantity: int)
    requires kind != Buy
    ensures Pnl(Buy, ltp, averagePrice, quantity) == -Pnl(kind, ltp, averagePrice, quantity)
  {
  }

  /** For a positive quantity a long position is in profit exactly when the
      price is above the average, a short one exactly when it is below; a
      price at the average is flat either way. */
  lemma PnlSign(kind: string, ltp: real, averagePrice: real, quantity: int)
    requires quantity > 0
    ensures kind == Buy ==> (Pnl(kind, ltp, averagePrice, quantity) > 0.0 <==> ltp > averagePrice)
    ensures kind != Buy ==> (Pnl(kind, ltp, averagePrice, quantity) > 0.0 <==> ltp < averagePrice)
    ensures ltp == averagePrice ==> Pnl(kind, ltp, averagePrice, quantity) == 0.0
  {
    var q := quantity as real;
    assert q > 0.0;
    if kind == Buy {
      assert (ltp - averagePrice) * q > 0.0 <==> ltp - averagePrice > 0.0;
    } else {
      assert (averagePrice - ltp) * q > 0.0 <==> averagePrice - ltp > 0.0;
    }
  }

  /** The answer row of one position. */
  function PositionRowFor(pos: Position, stocks: seq<Stock>): PositionRow {
    var stock := FirstStockBySymbol(stocks, pos.stockSymbol);
    var ltp := if stock.Some? then stock.value.lastPrice else pos.currentPrice;
    PositionRow(pos.id, if stock.Some? then stock.value.name else pos.stockSymbol,
                pos.kind, pos.quantity, pos.averagePrice, ltp, Pnl(pos.kind, ltp, pos.averagePrice, pos.quantity))
  }

  /** A position's row copies its id, kind, quantity and average price; the
      first stock with the position's symbol supplies the name and last
      traded price, and without one the symbol and the stored current price
      stand in; the profit and loss is taken at that price. */
  lemma PositionRowSpec(pos: Position, stocks: seq<Stock>)
    ensures var row := PositionRowFor(pos, stocks);
      && row.id == pos.id && row.kind == pos.kind && row.qty == pos.quantity && row.avgPrice == pos.averagePrice
      && ((exists s :: s in stocks && s.symbol == pos.stockSymbol) ==>
            row.ltp == FirstStockBySymbol(stocks, pos.stockSymbol).value.lastPrice
            && row.instrument == FirstStockBySymbol(stocks, pos.stockSymbol).value.name)
      && ((forall s :: s in stocks ==> s.symbol != pos.stockSymbol) ==>
            row.ltp == pos.currentPrice && row.instrument == pos.stockSymbol)
      && row.pnl == Pnl(pos.kind, row.ltp, pos.averagePrice, pos.quantity)
  {
  }

  /** The positions the user query returns, in table order. */
  function PositionsOfUser(positions: seq<Position>, userId: int): seq<Position> {
    Filter(positions, (p: Position) => p.userId == userId)
  }

  /** The query returns every position of the user, as often as it is
      stored, and no position of anyone else. */
  lemma PositionsOfUserExactly(positions: seq<Position>, userId: int)
    ensures forall p :: p in PositionsOfUser(positions, userId) <==> p in positions && p.userId == userId
    ensures forall p: Position :: p.userId == userId ==>
      multiset(PositionsOfUser(positions, userId))[p] == multiset(positions)[p]
  {
    forall p: Position | p.userId == userId
      ensures multiset(PositionsOfUser(positions, userId))[p] == multiset(positions)[p]
    {
      FilterKeepsMatchingCopies(positions, (q: Position) => q.userId == userId, p);
    }
  }

  /** `get_positions`: an empty query result gives an empty list, otherwise
      one row per position of the user, in query order. */
  method GetPositions(positions: seq<Position>, stocks: seq<Stock>, userId: int) returns (results: seq<PositionRow>)
    ensures |results| == |PositionsOfUser(positions, userId)|
    ensures forall i :: 0 <= i < |results| ==> results[i] == PositionRowFor(PositionsOfUser(positions, userId)[i], stocks)
  {
    var mine := PositionsOfUser(positions, userId);
    results := [];
    if mine != [] {
      var i := 0;
      while i < |mine|
        invariant 0 <= i <= |mine| && |results| == i
        invariant forall k :: 0 <= k < i ==> results[k] == PositionRowFor(mine[k], stocks)
      {
        results := results + [PositionRowFor(mine[i], stocks)];
        i := i + 1;
      }
    }
  }
}
