/**
 * The deterministic part of the Flask backend: the symbol table built from the
 * CSV rows, the headline filter, the text handed to the prediction model and
 * the `/api/symbols/<symbol>` handler. Files, HTTP, HTML parsing and the model
 * itself are outside: their results are parameters.
 */
module Backend {
  import opened Wrappers
  import opened Text
  import opened Api

  /** A CSV row, as `csv.reader` yields it. */
  type Row = seq<string>

  /** The exception that aborts the table construction. */
  datatype LoadError =
    | IndexError  // a row with fewer than three columns
    | KeyError    // no row had the header key, so the final `del` fails

  /** The key of the CSV header row, removed once all rows are in. */
  const HeaderKey := "Symbol"

  /** Every row has the three columns the loop reads. */
  predicate WellFormedRows(rows: seq<Row>)
  {
    forall i :: 0 <= i < |rows| ==> |rows[i]| >= 3
  }

  /** The dictionary after assigning the rows in order: a later row overwrites an earlier one. */
  function Assign(rows: seq<Row>): (table: map<string, Entry>)
    requires WellFormedRows(rows)
    ensures forall i :: 0 <= i < |rows| ==> rows[i][0] in table
    ensures rows != [] ==> table[rows[|rows| - 1][0]] == Entry(rows[|rows| - 1][1], rows[|rows| - 1][2])
  {
    if rows == [] then map[]
    else
      var last := rows[|rows| - 1];
      Assign(rows[..|rows| - 1])[last[0] := Entry(last[1], last[2])]
  }

  /** The outcome of the module-level table construction. */
  function LoadSymbols(rows: seq<Row>): (r: Result<map<string, Entry>, LoadError>)
    ensures r.Ok? ==> WellFormedRows(rows) && HeaderKey !in r.value
    ensures r.Ok? ==> forall i :: 0 <= i < |rows| && rows[i][0] != HeaderKey ==> rows[i][0] in r.value
    ensures !WellFormedRows(rows) <==> r == Err(IndexError)
  {
    if !WellFormedRows(rows) then Err(IndexError)
    else
      var table := Assign(rows);
      if HeaderKey !in table then Err(KeyError) else Ok(table - {HeaderKey})
  }

  /** The construction loop: assign row by row, then delete the header key. */
  method BuildSymbols(rows: seq<Row>) returns (r: Result<map<string, Entry>, LoadError>)
    ensures r == LoadSymbols(rows)
  {
    var symbols: map<string, Entry> := map[];
    var i := 0;
    while i < |rows|
      invariant 0 <= i <= |rows|
      invariant WellFormedRows(rows[..i])
      invariant symbols == Assign(rows[..i])
    {
      var row := rows[i];
      if |row| < 3 {
        return Err(IndexError);
      }
      assert rows[..i + 1][..i] == rows[..i];
      symbols := symbols[row[0] := Entry(row[1], row[2])];
      i := i + 1;
    }
    assert rows[..i] == rows;
    if HeaderKey !in symbols {
      return Err(KeyError);
    }
    r := Ok(symbols - {HeaderKey});
  }

  /** The keys of the assigned dictionary are the first columns of the rows. */
  lemma {:induction false} AssignKeys(rows: seq<Row>)
    requires WellFormedRows(rows)
    ensures Assign(rows).Keys == set i | 0 <= i < |rows| :: rows[i][0]
  {
    if rows != [] {
      var n := |rows| - 1;
      var front := rows[..n];
      assert WellFormedRows(front);
      AssignKeys(front);
      assert (set i | 0 <= i < |rows| :: rows[i][0])
          == (set i | 0 <= i < n :: front[i][0]) + {rows[n][0]};
    }
  }

  /** Each key holds the entry of the LAST row with that key. */
  lemma {:induction false} AssignLastWins(rows: seq<Row>, j: nat)
    requires WellFormedRows(rows)
    requires j < |rows|
    requires forall k :: j < k < |rows| ==> rows[k][0] != rows[j][0]
    ensures rows[j][0] in Assign(rows)
    ensures Assign(rows)[rows[j][0]] == Entry(rows[j][1], rows[j][2])
  {
    var n := |rows| - 1;
    if j < n {
      var front := rows[..n];
      assert WellFormedRows(front);
      AssignLastWins(front, j);
    }
  }

  /** A successful load has exactly the rows' keys, without the header key. */
  lemma LoadKeys(rows: seq<Row>)
    requires LoadSymbols(rows).Ok?
    ensures LoadSymbols(rows).value.Keys == (set i | 0 <= i < |rows| :: rows[i][0]) - {HeaderKey}
    ensures HeaderKey !in LoadSymbols(rows).value
  {
    AssignKeys(rows);
  }

  /** After a successful load, every non-header key maps to its last row's name and sector. */
  lemma LoadLastWins(rows: seq<Row>, j: nat)
    requires LoadSymbols(rows).Ok?
    requires j < |rows| && rows[j][0] != HeaderKey
    requires forall k :: j < k < |rows| ==> rows[k][0] != rows[j][0]
    ensures rows[j][0] in LoadSymbols(rows).value
    ensures LoadSymbols(rows).value[rows[j][0]] == Entry(rows[j][1], rows[j][2])
  {
    AssignLastWins(rows, j);
  }

  /**
   * The construction fails with IndexError iff some row is short, and with
   * KeyError iff all rows are complete and none has the header key.
   */
  lemma LoadErrors(rows: seq<Row>)
    ensures LoadSymbols(rows) == Err(IndexError) <==> exists i :: 0 <= i < |rows| && |rows[i]| < 3
    ensures LoadSymbols(rows) == Err(KeyError)
        <==> WellFormedRows(rows) && forall i :: 0 <= i < |rows| ==> rows[i][0] != HeaderKey
  {
    if WellFormedRows(rows) {
      AssignKeys(rows);
      if forall i :: 0 <= i < |rows| ==> rows[i][0] != HeaderKey {
        assert HeaderKey !in Assign(rows);
      }
    }
  }

  /** `get_news_titles` keeps a stripped headline when `title and len(title) > 10`. */
  function KeepTitle(title: string): (keep: bool)
    ensures keep <==> |title| > 10
  {
    title != "" && |title| > 10
  }

  /** The headlines that pass the filter, in page order. */
  function KeptTitles(headlines: seq<string>): (titles: seq<string>)
    ensures |titles| <= |headlines|
    ensures forall k :: 0 <= k < |titles| ==> |titles[k]| > 10
  {
    if headlines == [] then []
    else
      var n := |headlines| - 1;
      KeptTitles(headlines[..n]) + (if KeepTitle(headlines[n]) then [headlines[n]] else [])
  }

  /** The `titles.append` loop of `get_news_titles`, over the stripped headline texts of the page. */
  method GetNewsTitles(headlines: seq<string>) returns (titles: seq<string>)
    ensures titles == KeptTitles(headlines)
    ensures forall t :: t in titles <==> t in headlines && |t| > 10
  {
    titles := [];
    var i := 0;
    while i < |headlines|
      invariant 0 <= i <= |headlines|
      invariant titles == KeptTitles(headlines[..i])
    {
      var title := headlines[i];
      assert headlines[..i + 1][..i] == headlines[..i];
      if title != "" && |title| > 10 {
        titles := titles + [title];
      }
      i := i + 1;
    }
    assert headlines[..i] == headlines;
    KeptTitlesMembers(headlines);
  }

  /** A title is kept iff it is among the headlines and passes the filter. */
  lemma {:induction false} KeptTitlesMembers(headlines: seq<string>)
    ensures forall t :: t in KeptTitles(headlines) <==> t in headlines && KeepTitle(t)
  {
    if headlines != [] {
      var n := |headlines| - 1;
      KeptTitlesMembers(headlines[..n]);
      assert headlines == headlines[..n] + [headlines[n]];
    }
  }

  /** The indices of the kept headlines, in increasing order. */
  ghost function KeptIndices(headlines: seq<string>): seq<nat>
  {
    if headlines == [] then []
    else
      var n := |headlines| - 1;
      KeptIndices(headlines[..n]) + (if KeepTitle(headlines[n]) then [n] else [])
  }

  /**
   * The kept titles are exactly the passing headlines in their original order:
   * the k-th kept title is the headline at the k-th passing index, the indices
   * increase, and every headline at an index not listed fails the filter.
   */
  lemma {:induction false} KeptTitlesInOrder(headlines: seq<string>)
    ensures |KeptIndices(headlines)| == |KeptTitles(headlines)|
    ensures forall k :: 0 <= k < |KeptIndices(headlines)| ==>
      KeptIndices(headlines)[k] < |headlines| &&
      KeptTitles(headlines)[k] == headlines[KeptIndices(headlines)[k]]
    ensures forall k, l :: 0 <= k < l < |KeptIndices(headlines)| ==>
      KeptIndices(headlines)[k] < KeptIndices(headlines)[l]
    ensures forall i :: 0 <= i < |headlines| ==> (KeepTitle(headlines[i]) <==> i in KeptIndices(headlines))
  {
    if headlines != [] {
      var n := |headlines| - 1;
      var front := headlines[..n];
      KeptTitlesInOrder(front);
      assert forall i :: 0 <= i < n ==> headlines[i] == front[i];
    }
  }

  /** Filtering the kept titles again changes nothing. */
  lemma {:induction false} KeptTitlesIdempotent(headlines: seq<string>)
    ensures KeptTitles(KeptTitles(headlines)) == KeptTitles(headlines)
  {
    if headlines != [] {
      var n := |headlines| - 1;
      var front := headlines[..n];
      KeptTitlesIdempotent(front);
      KeptTitlesAppend(KeptTitles(front), if KeepTitle(headlines[n]) then [headlines[n]] else []);
    }
  }

  /** Filtering distributes over concatenation. */
  lemma {:induction false} KeptTitlesAppend(a: seq<string>, b: seq<string>)
    ensures KeptTitles(a + b) == KeptTitles(a) + KeptTitles(b)
    decreases |b|
  {
    if b == [] {
      assert a + b == a;
    } else {
      var n := |b| - 1;
      KeptTitlesAppend(a, b[..n]);
      assert (a + b)[..|a + b| - 1] == a + b[..n];
    }
  }

  /** The text handed to the model: `';'.join(titles[:5])`. */
  function PredictionText(titles: seq<string>): (text: string)
    ensures titles == [] ==> text == ""
    ensures titles != [] ==> titles[0] <= text
  {
    Join(';', titles[..Min(5, |titles|)])
  }

  /**
   * With titles free of ';', the model text carries exactly k - 1 separators
   * for the k = min(5, |titles|) titles it joins, and splitting it at ';' gives
   * back those first titles.
   */
  lemma PredictionTextParts(titles: seq<string>)
    requires titles != []
    requires forall k :: 0 <= k < |titles| ==> ';' !in titles[k]
    ensures multiset(PredictionText(titles))[';'] == Min(5, |titles|) - 1
    ensures Split(';', PredictionText(titles)) == titles[..Min(5, |titles|)]
  {
    var first := titles[..Min(5, |titles|)];
    JoinSeparatorCount(';', first);
    SplitJoin(';', first);
  }

  /** What the handler asks of the outside world, in order. */
  datatype Call =
    | NewsPage(url: string)      // the MarketWatch page of the symbol
    | EndOfDay(symbol: string)   // the marketstack end-of-day prices
    | Predict(input: ModelInput) // the sentence-embedding model

  /** The model's input: the joined titles and the newest day's raw prices. */
  datatype ModelInput = ModelInput(text: string, open: real, high: real, low: real, close: real)

  /** The HTTP reply of `get_data`. */
  datatype Reply =
    | NotFound(status: int, message: string)
    | ServerError(status: int)   // `prices[0]` raised IndexError, or a zero open price ZeroDivisionError
    | Found(payload: SeriesPayload)

  datatype Exchange = Exchange(calls: seq<Call>, reply: Reply)

  const NewsBaseUrl := "https://www.marketwatch.com/investing/stock/"

  /**
   * `get_data(symbol)`: `headlines` is the scraped page, `prices` the
   * provider's list (newest first), `predict` the model.
   */
  function GetData(symbols: map<string, Entry>, symbol: string, headlines: seq<string>,
                   prices: seq<PriceRecord>, predict: ModelInput -> real): (e: Exchange)
    ensures symbol !in symbols <==> e.reply == NotFound(404, "symbol not found")
    ensures symbol !in symbols ==> e.calls == []
    ensures symbol in symbols ==>
      |e.calls| >= 2 && e.calls[..2] == [NewsPage(NewsBaseUrl + Lower(symbol)), EndOfDay(symbol)]
    ensures e.reply.Found? <==> symbol in symbols && prices != [] && prices[0].open != 0.0
    ensures symbol in symbols && !e.reply.Found? ==> e.reply == ServerError(500) && |e.calls| == 2
    ensures e.reply.Found? ==>
      && |e.calls| == 3
      && e.calls[2] == Predict(ModelInput(PredictionText(KeptTitles(headlines)),
                                          prices[0].open, prices[0].high, prices[0].low, prices[0].close))
      && e.reply.payload.name == symbols[symbol].name
      && e.reply.payload.news == KeptTitles(headlines)
      && e.reply.payload.prices == prices
      && e.reply.payload.prediction == predict(e.calls[2].input)
  {
    if symbol !in symbols then
      Exchange([], NotFound(404, "symbol not found"))
    else
      var titles := KeptTitles(headlines);
      var fetches := [NewsPage(NewsBaseUrl + Lower(symbol)), EndOfDay(symbol)];
      if prices == [] then
        Exchange(fetches, ServerError(500))
      else
        var last := prices[0];
        if last.open == 0.0 then
          // `price_high / price_open` raises ZeroDivisionError before the model runs
          Exchange(fetches, ServerError(500))
        else
          var input := ModelInput(PredictionText(titles), last.open, last.high, last.low, last.close);
          Exchange(fetches + [Predict(input)],
                   Found(SeriesPayload(symbols[symbol].name, titles, prices, predict(input))))
  }

  /** For an unknown symbol the reply does not depend on anything that would have been fetched. */
  lemma UnknownSymbolFetchesNothing(symbols: map<string, Entry>, symbol: string,
                                    h1: seq<string>, p1: seq<PriceRecord>, f1: ModelInput -> real,
                                    h2: seq<string>, p2: seq<PriceRecord>, f2: ModelInput -> real)
    requires symbol !in symbols
    ensures GetData(symbols, symbol, h1, p1, f1) == GetData(symbols, symbol, h2, p2, f2)
  {
  }

  /**
   * The model's text is empty when no headline was kept and, when the
   * headlines are free of ';', splits back into the first (at most five)
   * kept titles.
   */
  lemma ModelInputOfFound(symbols: map<string, Entry>, symbol: string, headlines: seq<string>,
                          prices: seq<PriceRecord>, predict: ModelInput -> real)
    requires GetData(symbols, symbol, headlines, prices, predict).reply.Found?
    ensures var text := GetData(symbols, symbol, headlines, prices, predict).calls[2].input.text;
      && (KeptTitles(headlines) == [] ==> text == "")
      && (KeptTitles(headlines) != [] && (forall t :: t in headlines ==> ';' !in t) ==>
            Split(';', text) == KeptTitles(headlines)[..Min(5, |KeptTitles(headlines)|)])
  {
    var titles := KeptTitles(headlines);
    if titles != [] && forall t :: t in headlines ==> ';' !in t {
      KeptTitlesMembers(headlines);
      PredictionTextParts(titles);
    }
  }
}
