/** The single-page view-controller: the suggestion filter over the catalog
    of popular stocks, the bounded recency list, the shaping of a prediction
    into chart series, and the component state that the form handlers move
    through loading, success and error. */
module Frontend {
  import Text

  datatype Option<T> = None | Some(value: T)

  /** A catalog entry (its icon is rendering only). */
  datatype Stock = Stock(name: string, symbol: string)

  /** The fixed catalog of popular stocks, in display order. */
  const PopularStocks: seq<Stock> := [
    Stock("Apple", "AAPL"),
    Stock("Google", "GOOG"),
    Stock("Microsoft", "MSFT"),
    Stock("Amazon", "AMZN"),
    Stock("Tesla", "TSLA"),
    Stock("Meta (Facebook)", "META"),
    Stock("NVIDIA", "NVDA"),
    Stock("Netflix", "NFLX"),
    Stock("Adobe", "ADBE"),
    Stock("PayPal", "PYPL"),
    Stock("Intel", "INTC"),
    Stock("Salesforce", "CRM"),
    Stock("Visa", "V"),
    Stock("Mastercard", "MA"),
    Stock("Walmart", "WMT"),
    Stock("Coca-Cola", "KO"),
    Stock("PepsiCo", "PEP")
  ]

  /** The most entries a recency list built by the component holds. */
  const MaxRecent := 5

  /** The one message shown for every failed submission. */
  const FailureMessage := "Failed to fetch prediction. Please check the stock symbol or try again later."

  /** The history periods the date-range selector offers. */
  datatype Range = Days7 | Days30 | Days60 | Days90 {
    /** The option value sent as `date_range`. */
    function Code(): string {
      match this
      case Days7 => "7d"
      case Days30 => "30d"
      case Days60 => "60d"
      case Days90 => "90d"
    }
  }

  /** The body of the POST to the prediction service. */
  datatype Request = Request(symbol: string, dateRange: string)

  /** One element of `historical_price`: a row of values, or a bare number. */
  datatype Entry = Row(values: seq<real>) | Scalar(value: real)

  /** The response body; each field may be absent. */
  datatype Response = Response(historical: Option<seq<Entry>>, predicted: Option<seq<real>>, sentiment: Option<string>)

  /** How the request ends: the transport fails (including a non-2xx status),
      or a body is delivered. */
  datatype Reply = TransportFailure | Delivered(body: Response)

  /** The persisted `recentSymbols` key: absent (or JSON null), text that
      JSON.parse rejects, or a list of symbols. */
  datatype Stored = Missing | Corrupt | Symbols(list: seq<string>)

  // ---------------------------------------------------------------------
  // Suggestions

  /** The filter's test: the symbol starts with the (upper-cased) input, or
      the lower-cased name contains the lower-cased input. */
  predicate Matches(stock: Stock, value: string)
    ensures value == [] ==> Matches(stock, value)
  {
    Text.StartsWith(stock.symbol, value) || Text.Contains(Text.Lower(stock.name), Text.Lower(value))
  }

  /** `r` can be obtained from `s` by deleting elements (order is kept). */
  predicate IsSubsequence<T(==)>(r: seq<T>, s: seq<T>)
    decreases |s|
  {
    if r == [] then true
    else if s == [] then false
    else (r[0] == s[0] && IsSubsequence(r[1..], s[1..])) || IsSubsequence(r, s[1..])
  }

  /** Array.prototype.filter over a catalog with the suggestion test. */
  function Filter(catalog: seq<Stock>, value: string): (r: seq<Stock>)
    ensures IsSubsequence(r, catalog)
    ensures forall st :: st in r ==> st in catalog && Matches(st, value)
    ensures forall st :: st in catalog && Matches(st, value) ==> st in r
  {
    if catalog == [] then []
    else if Matches(catalog[0], value) then [catalog[0]] + Filter(catalog[1..], value)
    else Filter(catalog[1..], value)
  }

  /** The filter keeps every matching entry as often as the catalog holds
      it, and drops every other entry. */
  lemma {:induction false} FilterCount(catalog: seq<Stock>, value: string, st: Stock)
    ensures multiset(Filter(catalog, value))[st] == if Matches(st, value) then multiset(catalog)[st] else 0
  {
    if catalog != [] {
      assert catalog == [catalog[0]] + catalog[1..];
      FilterCount(catalog[1..], value, st);
    }
  }

  /** The suggestion list for an (already upper-cased) input value: empty
      for an empty value, otherwise exactly the matching catalog entries in
      catalog order. */
  function Suggestions(value: string): (r: seq<Stock>)
    ensures value == [] ==> r == []
    ensures IsSubsequence(r, PopularStocks)
    ensures value != [] ==> forall st :: st in r <==> st in PopularStocks && Matches(st, value)
  {
    if |value| == 0 then [] else Filter(PopularStocks, value)
  }

  /** Typing `raw` suggests a catalog entry exactly when `raw` is non-empty
      and the entry's symbol starts with `raw` upper-cased or its name
      contains `raw` ignoring case. */
  lemma SuggestionsForInput(raw: string, st: Stock)
    ensures st in Suggestions(Text.Upper(raw)) <==>
      && raw != []
      && st in PopularStocks
      && (Text.StartsWith(st.symbol, Text.Upper(raw)) || Text.Contains(Text.Lower(st.name), Text.Lower(raw)))
  {
    Text.LowerOfUpper(raw);
    assert |Text.Upper(raw)| == |raw|;
  }

  // ---------------------------------------------------------------------
  // Recency list

  /** No symbol appears twice. */
  ghost predicate Distinct(s: seq<string>) {
    forall i, j :: 0 <= i < j < |s| ==> s[i] != s[j]
  }

  /** A recency list as the component keeps it: bounded and duplicate-free. */
  ghost predicate WellFormed(s: seq<string>) {
    |s| <= MaxRecent && Distinct(s)
  }

  /** The recency update: a symbol already listed leaves the list as it is
      (it is not moved to the front); a new symbol is put first and, if the
      list then exceeds the bound, its last entry is dropped. */
  function Remember(recent: seq<string>, symbol: string): (r: seq<string>)
    ensures symbol in r
    ensures symbol in recent ==> r == recent
    ensures symbol !in recent ==>
      && r[0] == symbol
      && |r| == (if |recent| < MaxRecent then |recent| + 1 else |recent|)
      && r[1..] == recent[..|r| - 1]
  {
    if symbol in recent then recent
    else if |recent| + 1 > MaxRecent then [symbol] + recent[..|recent| - 1]
    else [symbol] + recent
  }

  /** A bounded, duplicate-free list stays bounded and duplicate-free. */
  lemma {:induction false} RememberKeepsWellFormed(recent: seq<string>, symbol: string)
    requires WellFormed(recent)
    ensures WellFormed(Remember(recent, symbol))
  {
    var r := Remember(recent, symbol);
    if symbol !in recent {
      forall i, j | 0 <= i < j < |r| ensures r[i] != r[j] {
        if i == 0 {
          assert r[j] == recent[j - 1];
        } else {
          assert r[i] == recent[i - 1] && r[j] == recent[j - 1];
        }
      }
    }
  }

  /** Only the oldest entry can be forgotten; everything else is kept. */
  lemma RememberKeepsRecent(recent: seq<string>, symbol: string, i: nat)
    requires i < |recent|
    requires i < |recent| - 1 || |recent| < MaxRecent || symbol in recent
    ensures recent[i] in Remember(recent, symbol)
  {
    var r := Remember(recent, symbol);
    if symbol !in recent {
      assert r[i + 1] == recent[i];
    }
  }

  /** Remembering the same symbol twice is the same as once. */
  lemma RememberIdempotent(recent: seq<string>, symbol: string)
    ensures Remember(Remember(recent, symbol), symbol) == Remember(recent, symbol)
  {
  }

  // ---------------------------------------------------------------------
  // Chart data

  /** `item[0]`: the first value of a row; undefined (None) for an empty
      row or a bare number. */
  function First(e: Entry): Option<real> {
    if e.Row? && |e.values| > 0 then Some(e.values[0]) else None
  }

  /** `Day i` / `Future i` for one ordinal. */
  function Ordinal(prefix: string, i: nat): string {
    prefix + Text.Decimal(i)
  }

  /** `prefix 1` .. `prefix n`. */
  function Ordinals(prefix: string, n: nat): (r: seq<string>)
    ensures |r| == n
    ensures forall i :: 0 <= i < n ==> r[i] == Ordinal(prefix, i + 1)
  {
    if n == 0 then [] else Ordinals(prefix, n - 1) + [Ordinal(prefix, n)]
  }

  /** `historicalPrices.map(item => item[0])`. */
  function Firsts(hist: seq<Entry>): (r: seq<Option<real>>)
    ensures |r| == |hist|
    ensures forall i :: 0 <= i < |hist| ==> r[i] == First(hist[i])
  {
    if hist == [] then [] else [First(hist[0])] + Firsts(hist[1..])
  }

  /** `new Array(n).fill(null)`. */
  function Nulls(n: nat): (r: seq<Option<real>>)
    ensures |r| == n
    ensures forall i :: 0 <= i < n ==> r[i] == None
  {
    if n == 0 then [] else Nulls(n - 1) + [None]
  }

  /** The predictions as chart points. */
  function Points(pred: seq<real>): (r: seq<Option<real>>)
    ensures |r| == |pred|
    ensures forall i :: 0 <= i < |pred| ==> r[i] == Some(pred[i])
  {
    if pred == [] then [] else [Some(pred[0])] + Points(pred[1..])
  }

  /** What the chart is given: category labels, the two datasets, and the
      x-position of the "Prediction Starts" marker. */
  datatype Chart = Chart(labels: seq<string>, historical: seq<Option<real>>, predicted: seq<Option<real>>, marker: nat)

  /** prepareChartData together with the marker position. */
  function PrepareChartData(hist: seq<Entry>, pred: seq<real>): (c: Chart)
    ensures |c.labels| == |c.predicted| == |hist| + |pred|
    ensures |c.historical| == |hist|
    ensures forall i :: 0 <= i < |hist| ==>
      c.labels[i] == Ordinal("Day ", i + 1) && c.historical[i] == First(hist[i]) && c.predicted[i] == None
    ensures forall j :: 0 <= j < |pred| ==>
      c.labels[|hist| + j] == Ordinal("Future ", j + 1) && c.predicted[|hist| + j] == Some(pred[j])
    ensures c.marker == |hist|
  {
    var realPrices := Firsts(hist);
    Chart(Ordinals("Day ", |hist|) + Ordinals("Future ", |pred|), realPrices, Nulls(|realPrices|) + Points(pred), |hist|)
  }

  /** No two chart labels are the same. */
  lemma ChartLabelsDistinct(hist: seq<Entry>, pred: seq<real>, i: nat, j: nat)
    requires i < j < |hist| + |pred|
    ensures PrepareChartData(hist, pred).labels[i] != PrepareChartData(hist, pred).labels[j]
  {
    var labels := PrepareChartData(hist, pred).labels;
    var n := |hist|;
    if j < n || n <= i {
      var p := if j < n then "Day " else "Future ";
      var a, b := if j < n then i + 1 else i - n + 1, if j < n then j + 1 else j - n + 1;
      assert labels[i] == p + Text.Decimal(a) && labels[j] == p + Text.Decimal(b);
      Text.DecimalInjective(a, b);
      assert labels[i][|p|..] == Text.Decimal(a);
      assert labels[j][|p|..] == Text.Decimal(b);
    } else {
      assert labels[i][0] == 'D' && labels[j][0] == 'F';
    }
  }

  /** The marker sits where the prediction starts: every point before it is
      null, the point at it is the first prediction, and its label is
      "Future 1". */
  lemma MarkerStartsPrediction(hist: seq<Entry>, pred: seq<real>)
    requires pred != []
    ensures var c := PrepareChartData(hist, pred);
      && c.marker < |c.labels|
      && c.predicted[c.marker] == Some(pred[0])
      && c.labels[c.marker] == "Future 1"
      && forall i :: 0 <= i < c.marker ==> c.predicted[i] == None
  {
    var c := PrepareChartData(hist, pred);
    assert c.labels[|hist| + 0] == Ordinal("Future ", 1);
  }

  /** Three historical rows and two predictions give five labels and a
      predicted series padded with three nulls. */
  lemma ChartExample()
    ensures var c := PrepareChartData([Row([100.0]), Row([101.0]), Row([102.0])], [103.0, 104.0]);
      && c.labels == ["Day 1", "Day 2", "Day 3", "Future 1", "Future 2"]
      && c.historical == [Some(100.0), Some(101.0), Some(102.0)]
      && c.predicted == [None, None, None, Some(103.0), Some(104.0)]
      && c.marker == 3
  {
    var c := PrepareChartData([Row([100.0]), Row([101.0]), Row([102.0])], [103.0, 104.0]);
    assert Text.Decimal(1) == "1" && Text.Decimal(2) == "2" && Text.Decimal(3) == "3";
    assert c.labels[0] == "Day 1" && c.labels[1] == "Day 2" && c.labels[2] == "Day 3";
    assert c.labels[3] == "Future 1" && c.labels[4] == "Future 2";
  }

  // ---------------------------------------------------------------------
  // The component

  /** The presence check on the response: both price fields must be there;
      empty arrays pass. */
  predicate Accepted(reply: Reply)
    ensures reply.TransportFailure? ==> !Accepted(reply)
    ensures reply.Delivered? && reply.body.historical == Some([]) && reply.body.predicted == Some([]) ==> Accepted(reply)
  {
    reply.Delivered? && reply.body.historical.Some? && reply.body.predicted.Some?
  }

  /** The list `JSON.parse(...) || []` yields when the stored text parses:
      it is empty only for a missing key or a stored empty list. */
  function Loaded(st: Stored): (r: seq<string>)
    requires !st.Corrupt?
    ensures r == [] <==> st.Missing? || st == Symbols([])
  {
    if st.Symbols? then st.list else []
  }

  class App {
    var historicalPrices: seq<Entry>
    var predictedPrice: seq<real>
    var symbol: string
    var recentSymbols: seq<string>
    var sentiment: Option<string>
    var dateRange: Range
    var loading: bool
    var error: string
    var suggestions: seq<Stock>
    /** The persisted `recentSymbols` entry. */
    var stored: Stored

    /** Both recency lists, in memory and persisted, are bounded and
        duplicate-free. */
    ghost predicate RecencyValid()
      reads this
    {
      WellFormed(recentSymbols) && (stored.Symbols? ==> WellFormed(stored.list))
    }

    /** The initial state: the symbol is the persisted `lastSymbol`, or
        empty; the range is 60 days; everything else is empty. */
    constructor (lastSymbol: Option<string>, persisted: Stored)
      ensures historicalPrices == [] && predictedPrice == [] && recentSymbols == []
      ensures symbol == (if lastSymbol.Some? then lastSymbol.value else "")
      ensures sentiment == Some("") && dateRange == Days60 && !loading && error == "" && suggestions == []
      ensures stored == persisted
      ensures !persisted.Symbols? || WellFormed(persisted.list) ==> RecencyValid()
    {
      historicalPrices, predictedPrice := [], [];
      symbol := if lastSymbol.Some? then lastSymbol.value else "";
      recentSymbols, sentiment, dateRange := [], Some(""), Days60;
      loading, error, suggestions := false, "", [];
      stored := persisted;
    }

    /** The mount effect: the persisted list replaces the in-memory one; a
        missing entry reads as empty; text that does not parse throws, which
        the model reports as `ok == false` with nothing changed. */
    method LoadRecent() returns (ok: bool)
      modifies this`recentSymbols
      ensures ok <==> !stored.Corrupt?
      ensures ok ==> recentSymbols == Loaded(stored)
      ensures !ok ==> recentSymbols == old(recentSymbols)
      ensures old(RecencyValid()) ==> RecencyValid()
    {
      if stored.Corrupt? {
        return false;
      }
      recentSymbols := Loaded(stored);
      ok := true;
    }

    /** handleInputChange: store the upper-cased input and recompute the
        suggestions from it. */
    method InputChange(raw: string)
      modifies this`symbol, this`suggestions
      ensures symbol == Text.Upper(raw)
      ensures suggestions == Suggestions(symbol)
      ensures raw == [] ==> suggestions == []
    {
      var value := Text.Upper(raw);
      symbol := value;
      if |value| == 0 {
        suggestions := [];
        return;
      }
      suggestions := Filter(PopularStocks, value);
    }

    /** handleSuggestionClick and handlePopularClick: set the symbol directly
        and close the suggestion list. */
    method PickSymbol(picked: string)
      modifies this`symbol, this`suggestions
      ensures symbol == picked && suggestions == []
    {
      symbol := picked;
      suggestions := [];
    }

    /** The date-range selector. */
    method SelectRange(r: Range)
      modifies this`dateRange
      ensures dateRange == r
    {
      dateRange := r;
    }

    /** handleSubmit up to the `await`: show the spinner, clear the error
        and the suggestions, and issue the request with the current symbol
        and the range code verbatim. */
    method BeginSubmit() returns (req: Request)
      modifies this`loading, this`error, this`suggestions
      ensures loading && error == "" && suggestions == []
      ensures req == Request(symbol, dateRange.Code())
    {
      loading := true;
      error := "";
      suggestions := [];
      req := Request(symbol, dateRange.Code());
    }

    /** handleSubmit after the `await`, for the request `req` it issued. A
        transport failure or a response lacking either price field sets the
        fixed message and keeps the previous result and recency list. An
        accepted response replaces prices and sentiment wholesale; then the
        persisted list is read: if it does not parse, the fixed message is
        set and the list is left alone, otherwise the request's symbol is
        remembered in both copies. The spinner is released in every case. */
    method CompleteSubmit(req: Request, reply: Reply)
      modifies this`historicalPrices, this`predictedPrice, this`sentiment
      modifies this`recentSymbols, this`stored, this`error, this`loading
      ensures !loading
      ensures !Accepted(reply) ==>
        && historicalPrices == old(historicalPrices) && predictedPrice == old(predictedPrice)
        && sentiment == old(sentiment) && recentSymbols == old(recentSymbols) && stored == old(stored)
        && error == FailureMessage
      ensures Accepted(reply) ==>
        && historicalPrices == reply.body.historical.value
        && predictedPrice == reply.body.predicted.value
        && sentiment == reply.body.sentiment
      ensures Accepted(reply) && old(stored).Corrupt? ==>
        recentSymbols == old(recentSymbols) && stored == old(stored) && error == FailureMessage
      ensures Accepted(reply) && !old(stored).Corrupt? ==>
        && recentSymbols == Remember(Loaded(old(stored)), req.symbol)
        && stored == Symbols(recentSymbols)
        && error == old(error)
      ensures old(RecencyValid()) ==> RecencyValid()
    {
      if !Accepted(reply) {
        error := FailureMessage;
      } else {
        historicalPrices := reply.body.historical.value;
        predictedPrice := reply.body.predicted.value;
        sentiment := reply.body.sentiment;
        if stored.Corrupt? {
          error := FailureMessage;
        } else {
          var recent := Loaded(stored);
          if req.symbol !in recent {
            recent := [req.symbol] + recent;
            if |recent| > MaxRecent {
              recent := recent[..|recent| - 1];
            }
          }
          ghost var valid := old(RecencyValid());
          if valid {
            RememberKeepsWellFormed(Loaded(stored), req.symbol);
          }
          stored := Symbols(recent);
          recentSymbols := recent;
        }
      }
      loading := false;
    }

    /** The whole handleSubmit when nothing else runs during the request. */
    method Submit(reply: Reply) returns (req: Request)
      modifies this`historicalPrices, this`predictedPrice, this`sentiment
      modifies this`recentSymbols, this`stored, this`error, this`loading, this`suggestions
      ensures req == Request(old(symbol), old(dateRange).Code())
      ensures !loading && suggestions == []
      ensures symbol == old(symbol) && dateRange == old(dateRange)
      ensures error == (if Accepted(reply) && !old(stored).Corrupt? then "" else FailureMessage)
      ensures !Accepted(reply) ==>
        && historicalPrices == old(historicalPrices) && predictedPrice == old(predictedPrice)
        && sentiment == old(sentiment) && recentSymbols == old(recentSymbols) && stored == old(stored)
      ensures Accepted(reply) ==>
        && historicalPrices == reply.body.historical.value
        && predictedPrice == reply.body.predicted.value
        && sentiment == reply.body.sentiment
      ensures Accepted(reply) && old(stored).Corrupt? ==>
        recentSymbols == old(recentSymbols) && stored == old(stored)
      ensures Accepted(reply) && !old(stored).Corrupt? ==>
        recentSymbols == Remember(Loaded(old(stored)), old(symbol)) && stored == Symbols(recentSymbols)
      ensures old(RecencyValid()) ==> RecencyValid()
    {
      req := BeginSubmit();
      CompleteSubmit(req, reply);
    }

    /** handleReset: clear the result, the symbol, the error and the
        sentiment; the recency list, range, suggestions and spinner stay. */
    method Reset()
      modifies this`historicalPrices, this`predictedPrice, this`symbol, this`error, this`sentiment
      ensures historicalPrices == [] && predictedPrice == [] && symbol == "" && error == "" && sentiment == Some("")
    {
      historicalPrices := [];
      predictedPrice := [];
      symbol := "";
      error := "";
      sentiment := Some("");
    }
  }
}
