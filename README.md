# Stock dashboard core, modelled in Dafny

The repository is a stock dashboard: a React component (`src/App.js`) that
lists the known ticker symbols in a searchable dropdown, fetches the chosen
symbol's price history, headlines and predicted direction, and shows them as a
candlestick chart, a prediction panel and a news timeline; and a Flask backend
(`backend/app.py`) that serves the symbol table read from a CSV file and, per
symbol, scraped headlines, end-of-day prices and a model's prediction.

This project models the deterministic core of both and proves what it
promises:

- `api.dfy` (module `Api`): the JSON payloads passed between the two sides.
- `dashboard.dfy` (module `Dashboard`):
  - the series builder of `updateData`, a loop walking the newest-first price list backwards;
  - `getOption`, the chart configuration;
  - the `name (symbol)` caption;
  - the dropdown options and `filterOption`;
  - the prediction panel;
  - the component state as class `App`, whose methods are the state updates.
  Each asynchronous `.then` callback is its own method:
  - `SymbolsLoaded` for `componentDidMount`'s callback;
  - `SeriesLoaded` for `updateData`'s callback.
  `UpdateData` is the synchronous part of `updateData`. It returns the path it would request.
- `backend.dfy` (module `Backend`):
  - the module-level symbol-table loop with its final `del`; a symbol entry carries `name` and `sector`;
  - the headline filter of `get_news_titles`;
  - the model text `';'.join(titles[:5])`;
  - the `get_data` handler.
  The handler is a function. Its inputs are the scraped headlines, the provider's price list and the model, passed as a function. It returns the outside calls it makes, in order, and the reply.
- `text.dfy` (module `Text`): ASCII lower-casing, JavaScript `indexOf`,
  Python `join`/`split` on one character, and lexicographic string order.
- `wrappers.dfy` (module `Wrappers`): `Option` and `Result`.

## Model

| member | source | states |
|---|---|---|
| `Dashboard.SeriesUrl` | src/App.js:100 | the series request path is `/api/symbols/` followed by exactly the symbol |
| `Dashboard.Caption` | src/App.js:116 | the caption is the name, then ` (`, then the symbol, then `)` |
| `Dashboard.CaptionDeterminesParts` | src/App.js:147 | when symbols hold no `(`, equal captions have equal names and equal symbols |
| `Dashboard.CaptionParen` | src/App.js:147 | the `(` the template inserts is the last `(` of the caption |
| `Dashboard.DateLabel` | src/App.js:108 | the label is a prefix of the date of length min(10, length of date) |
| `Dashboard.DateLabelOrder` | src/App.js:108 | truncating two timestamps to their dates keeps their order |
| `Dashboard.Candle` | src/App.js:109-114 | the point has four values: adjusted open, close, low, high, in that order |
| `Dashboard.SeriesOf` | src/App.js:103-115 | labels, points and input have the same length |
| `Dashboard.SeriesOfAt` | src/App.js:107-115 | position i of labels and points comes from input record N-1-i |
| `Dashboard.SeriesOfAppend` | src/App.js:107-115 | the series of `a + b` is the series of `b` followed by the series of `a` (reversal) |
| `Dashboard.SeriesOfChronological` | src/App.js:107-115 | newest-first dates give labels in oldest-first order |
| `Dashboard.SeriesOfPairOrder` | src/App.js:107-115 | two positions of the series are in chronological order |
| `Dashboard.BuildSeries` | src/App.js:103-115 | the loop's arrays are the reversed labels and points, with index correspondence N-1-i; an empty input gives empty arrays |
| `Dashboard.SeriesOfExample` | src/App.js:103-115 | two newest-first records give `["2024-01-01","2024-01-02"]` and `[[8,10,7,11],[10,12,9,13]]` |
| `Dashboard.GetOption` | src/App.js:40-96 | title text, x-axis data and series data are the given ones; both zooms run from 50 to 100; fixed colours; x-axis from dataMin to dataMax |
| `Dashboard.GetOptionWellFormed` | src/App.js:40-96 | the option of any price list has one candlestick series with a point per category and two 50-100 zooms |
| `Dashboard.OptionLabels` | src/App.js:144-149 | one option per symbol key, labelled with the caption of its name and key |
| `Dashboard.OptionLabelsDistinct` | src/App.js:144-149 | different keys without `(` never share a label |
| `Dashboard.FilterOption` | src/App.js:140-142 | an option passes iff the lower-cased input is a substring of the lower-cased label |
| `Dashboard.FilterCaseInsensitive` | src/App.js:140-142 | lower-casing the input or the label does not change the verdict |
| `Dashboard.VisibleOptions` | src/App.js:140-149 | the visible options are the symbol keys whose label contains the lower-cased input |
| `Dashboard.EmptyInputShowsAll` | src/App.js:140-142 | the empty input shows every option |
| `Dashboard.ViewPrediction` | src/App.js:172-182 | up colour and up glyph iff p > 0.5 strictly; percentage is max(p, 1-p)·100, between 50 and 100 for p in [0,1] |
| `Dashboard.ViewPredictionSymmetric` | src/App.js:178-181 | p and 1-p show the same percentage and, except at 0.5, opposite trends |
| `Dashboard.App.constructor` | src/App.js:17-27 | initial state: loading symbols, no symbols, loading data, no chart, no news, prediction 0.5 |
| `Dashboard.App.SymbolsLoaded` | src/App.js:29-37 | stores the symbols, clears loadingSymbols, sets loadingData, requests the AAPL series, and keeps the chart, news and prediction |
| `Dashboard.App.UpdateData` | src/App.js:98-100 | sets loadingData, requests the symbol's path, and leaves everything else unchanged |
| `Dashboard.App.SeriesLoaded` | src/App.js:101-123 | clears loadingData, sets the chart built from the reversed series with the caption title, replaces news and prediction, and keeps the symbols and loadingSymbols |
| `Dashboard.App.Options` | src/App.js:144-149 | one option per stored symbol; none while the symbols are loading |
| `Dashboard.App.Panel` | src/App.js:173 | the panel shows up iff the stored prediction exceeds 0.5 |
| `Text.LowerChar` | src/App.js:141 | only A-Z change, each to its lower-case letter; no upper-case letter remains |
| `Text.Lower` | backend/app.py:36 | same length; each character lower-cased |
| `Text.LowerIdempotent` | src/App.js:141 | lower-casing twice equals lower-casing once |
| `Text.IndexOfFrom` | src/App.js:141 | the result is -1 or the first occurrence at or after the start |
| `Text.IndexOf` | src/App.js:141 | the result is non-negative iff the needle occurs; then it is the first occurrence |
| `Text.Join` | backend/app.py:73 | the empty list joins to the empty string; a single part joins to itself; the first part is a prefix |
| `Text.Split` | backend/app.py:73 | Python `str.split`, the inverse of the join there (the source itself never splits), used to state the round trip; always yields at least one piece (`""` splits to `[""]`) |
| `Text.SplitPlain` | backend/app.py:73 | (inverse of the join, not a source call) a piece without separators splits to itself |
| `Text.SplitFirst` | backend/app.py:73 | (inverse of the join, not a source call) a separator-free head is split off first |
| `Text.SplitJoin` | backend/app.py:73 | splitting a join of separator-free parts gives back the parts: the join loses nothing |
| `Text.JoinSeparatorCount` | backend/app.py:73 | a join of k separator-free parts has k-1 separators |
| `Text.LexLePrefix` | src/App.js:108 | cutting two ordered strings to the same length keeps them ordered |
| `Backend.Assign` | backend/app.py:19-23 | the dictionary after assigning the rows in order: every row's first column is a key, and the last row's key holds the last row's name and sector |
| `Backend.LoadSymbols` | backend/app.py:16-24 | the outcome of the table construction: IndexError iff some row is short; on success all rows are complete, `Symbol` is absent and every other first column is a key |
| `Backend.BuildSymbols` | backend/app.py:16-24 | the loop and the `del` produce exactly the specified load outcome, including both errors |
| `Backend.AssignKeys` | backend/app.py:19-23 | the keys assigned are the first columns of the rows |
| `Backend.AssignLastWins` | backend/app.py:19-23 | each key holds the name and sector of the last row with that key |
| `Backend.LoadKeys` | backend/app.py:16-24 | after a load the keys are the first columns minus `Symbol` |
| `Backend.LoadLastWins` | backend/app.py:17-24 | after a load every non-header key maps to its last row's `{name, sector}` |
| `Backend.LoadErrors` | backend/app.py:19-24 | IndexError iff some row has fewer than 3 columns; KeyError iff all rows are complete and none has key `Symbol` |
| `Backend.KeepTitle` | backend/app.py:50 | a title is kept iff it is longer than 10; the emptiness test is implied |
| `Backend.KeptTitles` | backend/app.py:47-52 | the headlines passing the filter, in page order: never more than the headlines, each longer than 10 |
| `Backend.GetNewsTitles` | backend/app.py:47-52 | the append loop yields the filtered list; a title is in it iff it is a headline longer than 10 |
| `Backend.KeptTitlesMembers` | backend/app.py:47-52 | a title is kept iff it is among the headlines and passes the filter |
| `Backend.KeptTitlesInOrder` | backend/app.py:47-52 | the kept titles are the passing headlines at increasing indices; every headline left out fails the filter |
| `Backend.KeptTitlesIdempotent` | backend/app.py:50-51 | filtering twice equals filtering once |
| `Backend.KeptTitlesAppend` | backend/app.py:47-51 | filtering distributes over concatenation |
| `Backend.PredictionText` | backend/app.py:73 | no titles give the empty text; otherwise the first title leads |
| `Backend.PredictionTextParts` | backend/app.py:73 | with `;`-free titles the text has min(5, k)-1 separators and splits back into the first min(5, k) titles |
| `Backend.GetData` | backend/app.py:88-119 | unknown symbol: 404 `symbol not found` and no calls. Known symbol: the news page (lower-cased symbol), then the prices. Found iff known, prices non-empty and the newest open price non-zero; otherwise 500 after the two fetches. When found: the model is called on the joined first five kept titles and the newest day's raw open, high, low and close; name from the table, filtered news, prices unchanged, prediction from the model |
| `Backend.UnknownSymbolFetchesNothing` | backend/app.py:89-92 | for an unknown symbol the reply does not depend on anything a fetch would return |
| `Backend.ModelInputOfFound` | backend/app.py:73-112 | the model's text is `""` when no headline is kept, and with `;`-free headlines splits back into the first (at most five) kept titles |

## Left out

- HTTP: `axios.get` (src/App.js:30, 100) and the MarketWatch and marketstack requests (backend/app.py:35-45, 98-102). Their payloads are parameters.
- Failed HTTP requests are not modelled; neither side handles them, so in the source a failed fetch never clears the loading flags.
- BeautifulSoup parsing (backend/app.py:46-49): the headlines are a list of already-stripped strings, and `strip` itself is not modelled.
- A missing `h3` or `a` element (an AttributeError in the source) is not modelled.
- The TensorFlow/Keras model and its loading (backend/app.py:59-72, 74-84): the model is a function parameter fed the raw prices. The `rel_high`/`rel_low`/`rel_close` float arithmetic happens inside it, except its one failure: a zero newest open price raises ZeroDivisionError, modelled as a 500 reply.
- `Dashboard.ViewPrediction`: the percentage is stated over reals, without `Math.round` (src/App.js:178). Floating-point rounding is not modelled.
- `Text.Lower`: lower-cases ASCII letters only. `toLowerCase` and `str.lower` also fold non-ASCII letters.
- Numbers are reals: JSON and floating-point representation are not modelled.
- The race between overlapping `updateData` requests is not modelled. A late reply overwrites a newer one. This is asynchronous interleaving; each callback is modelled as one atomic method.
- Rendering, layout, styling and the tooltip's behaviour (src/App.js:127-199) are not modelled, except the option labels, the filter and the prediction panel's colour, glyph and percentage.
- The order of `Object.keys` is not modelled: the dropdown options are a map from key to label.
- Flask setup and routing, `.env` loading, opening the CSV file, `jsonify` and `print` (backend/app.py:10-17, 27-31, 104, 122-123) are left out. The CSV rows are a `seq<seq<string>>` parameter.
- `Backend.GetData`: a reply without a `data` field from the price provider is not modelled. An empty price list is modelled as a 500 reply, because `prices[0]` raises.
