/** The prediction service's core: download the closing prices, roll a
    fixed-length window of scaled values forward through the LSTM for seven
    days, and label the trend of the last fourteen closes. The download, the
    fitted min-max scaler and the LSTM are uninterpreted: they are passed in
    as functions. */
module Predict {
  import Text

  /** Number of trailing scaled closes fed to the LSTM. */
  const WindowSize := 60
  /** Number of future days predicted. */
  const Horizon := 7
  /** Number of trailing closes whose change decides the sentiment. */
  const TrendDays := 14
  /** The history period requested when the caller names none. */
  const DefaultRange := "60d"
  /** The error returned for an empty download. */
  const NoDataMessage := "No data found for ticker."

  /** What the market-data download yields: the daily closes, or an exception. */
  datatype Download = Frame(closes: seq<real>) | DownloadRaised(message: string)

  /** One call of the LSTM: a scaled prediction, or an exception. */
  datatype Step = Predicted(scaled: real) | Raised(message: string)

  /** A roll-out: the scaled predictions in generation order, or the message
      of the exception that stopped it. */
  datatype Forecast = Forecast(scaled: seq<real>) | Failed(message: string)

  datatype Sentiment = Bullish | Bearish | Neutral

  /** The dictionary the service returns: exactly the three keys of a
      prediction, or exactly the one key "error". */
  datatype Result =
    | Prediction(predicted: seq<real>, historical: seq<real>, sentiment: string)
    | Error(message: string)

  function Min(a: nat, b: nat): nat { if a <= b then a else b }

  /** The Python slice `s[-k:]`: the last min(k, |s|) elements. */
  function Last<T>(s: seq<T>, k: nat): (t: seq<T>)
    ensures |t| == Min(k, |s|)
    ensures forall i :: 0 <= i < |t| ==> t[i] == s[|s| - |t| + i]
  {
    s[|s| - Min(k, |s|)..]
  }

  /** Applies an elementwise transformation. */
  function Map(f: real -> real, s: seq<real>): (r: seq<real>)
    ensures |r| == |s|
    ensures forall i :: 0 <= i < |s| ==> r[i] == f(s[i])
  {
    if s == [] then [] else [f(s[0])] + Map(f, s[1..])
  }

  /** The text shown for each sentiment. */
  function Label(s: Sentiment): (r: string)
    ensures Text.Contains(r, "Bullish") <==> s == Bullish
  {
    match s
    case Bullish =>
      var r := "\U{1F7E2} Bullish Trend (Expected growth)";
      assert forall k :: 0 <= k < 7 ==> r[2..9][k] == r[2 + k] == "Bullish"[k];
      assert r[2..9] == "Bullish";
      Text.ContainsIffOccurs(r, "Bullish");
      assert Text.OccursAt(r, "Bullish", 2);
      r
    case Bearish =>
      var r := "\U{1F534} Bearish Trend (Expected fall)";
      NoBullishIn(r);
      r
    case Neutral =>
      var r := "\U{26AA} Neutral Trend (No significant change)";
      NoBullishIn(r);
      r
  }

  /** A text in which no 'B' is followed by 'u' does not contain "Bullish". */
  lemma {:induction false} NoBullishIn(r: string)
    requires forall i :: 0 <= i < |r| - 1 ==> !(r[i] == 'B' && r[i + 1] == 'u')
    ensures !Text.Contains(r, "Bullish")
    decreases |r|
  {
    if 7 <= |r| {
      assert r[..7][0] == r[0] && r[..7][1] == r[1];
      NoBullishIn(r[1..]);
    }
  }

  /** The sign test on the price change: exactly one label, by sign. */
  function Classify(change: real): (s: Sentiment)
    ensures s == Bullish <==> change > 0.0
    ensures s == Bearish <==> change < 0.0
    ensures s == Neutral <==> change == 0.0
  {
    if change > 0.0 then Bullish else if change < 0.0 then Bearish else Neutral
  }

  /** The change between the first and the last of the trailing closes. */
  function TrendChange(closes: seq<real>): (change: real)
    requires |closes| > 0
    ensures change == closes[|closes| - 1] - closes[|closes| - Min(TrendDays, |closes|)]
  {
    var recent := Last(closes, TrendDays);
    recent[|recent| - 1] - recent[0]
  }

  /** Prefixes the predictions already made to a roll-out's remainder. */
  function Then(done: seq<real>, rest: Forecast): Forecast {
    match rest
    case Forecast(s) => Forecast(done + s)
    case Failed(m) => Failed(m)
  }

  /** The autoregressive roll-out: predict from the window, then drop the
      window's first value and append the scaled prediction. */
  function RollOut(window: seq<real>, steps: nat, lstm: seq<real> -> Step): (f: Forecast)
    requires |window| > 0
    ensures f.Forecast? ==> |f.scaled| == steps
    decreases steps
  {
    if steps == 0 then Forecast([])
    else match lstm(window)
      case Raised(m) => Failed(m)
      case Predicted(p) => Then([p], RollOut(window[1..] + [p], steps - 1, lstm))
  }

  /** The window the LSTM sees at step i: the initial window followed by the
      first i predictions, minus the first i values. */
  function WindowAt(init: seq<real>, scaled: seq<real>, i: nat): (w: seq<real>)
    requires i <= |scaled|
    ensures |w| == |init|
  {
    (init + scaled[..i])[i..]
  }

  /** A completed roll-out is determined step by step: prediction i is what
      the LSTM returns on the window of step i, and that window always has
      the length of the initial one. */
  lemma {:induction false} RollOutSteps(init: seq<real>, steps: nat, lstm: seq<real> -> Step, i: nat)
    requires |init| > 0
    requires RollOut(init, steps, lstm).Forecast?
    requires i < steps
    ensures var s := RollOut(init, steps, lstm).scaled;
      lstm(WindowAt(init, s, i)) == Predicted(s[i])
    decreases steps
  {
    var s := RollOut(init, steps, lstm).scaled;
    var p := lstm(init).scaled;
    var next := init[1..] + [p];
    var rest := RollOut(next, steps - 1, lstm);
    assert s == [p] + rest.scaled;
    if i == 0 {
      assert WindowAt(init, s, 0) == init;
    } else {
      RollOutSteps(next, steps - 1, lstm, i - 1);
      WindowAtCons(init, p, rest.scaled, i);
    }
  }

  /** After the first prediction p, the windows are those of a roll-out
      started from the shifted window. */
  lemma WindowAtCons(init: seq<real>, p: real, s: seq<real>, j: nat)
    requires |init| > 0
    requires 0 < j <= |s| + 1
    ensures WindowAt(init, [p] + s, j) == WindowAt(init[1..] + [p], s, j - 1)
  {
    assert ([p] + s)[..j] == [p] + s[..j - 1];
  }

  /** The LSTM returns the predictions `s` on the windows they lead to and
      then raises `m` on the next one. */
  ghost predicate FailsAfter(init: seq<real>, s: seq<real>, lstm: seq<real> -> Step, m: string) {
    && (forall j :: 0 <= j < |s| ==> lstm(WindowAt(init, s, j)) == Predicted(s[j]))
    && lstm(WindowAt(init, s, |s|)) == Raised(m)
  }

  /** A failure after the first prediction is a failure of the whole roll-out. */
  lemma FailsAfterCons(init: seq<real>, p: real, s: seq<real>, lstm: seq<real> -> Step, m: string)
    requires |init| > 0
    requires lstm(init) == Predicted(p)
    requires FailsAfter(init[1..] + [p], s, lstm, m)
    ensures FailsAfter(init, [p] + s, lstm, m)
  {
    var t := [p] + s;
    forall j | 0 < j <= |t| ensures WindowAt(init, t, j) == WindowAt(init[1..] + [p], s, j - 1) {
      WindowAtCons(init, p, s, j);
    }
    assert WindowAt(init, t, 0) == init;
  }

  /** A roll-out fails only when the LSTM raises on one of the windows the
      preceding predictions lead to; the message is that exception's. */
  lemma {:induction false} RollOutFails(init: seq<real>, steps: nat, lstm: seq<real> -> Step)
    requires |init| > 0
    requires RollOut(init, steps, lstm).Failed?
    ensures exists s: seq<real> :: |s| < steps && FailsAfter(init, s, lstm, RollOut(init, steps, lstm).message)
    decreases steps
  {
    var m := RollOut(init, steps, lstm).message;
    match lstm(init)
    case Raised(_) => {
      var none: seq<real> := [];
      assert WindowAt(init, none, 0) == init;
      assert FailsAfter(init, none, lstm, m);
    }
    case Predicted(p) => {
      var next := init[1..] + [p];
      assert RollOut(init, steps, lstm) == Then([p], RollOut(next, steps - 1, lstm));
      RollOutFails(next, steps - 1, lstm);
      var s :| |s| < steps - 1 && FailsAfter(next, s, lstm, m);
      FailsAfterCons(init, p, s, lstm, m);
      assert |[p] + s| < steps;
    }
  }

  /** Conversely, a raise on a window the preceding predictions lead to,
      before the last step, makes the roll-out fail with that message. */
  lemma {:induction false} RaiseFails(init: seq<real>, steps: nat, lstm: seq<real> -> Step, s: seq<real>, m: string)
    requires |init| > 0
    requires |s| < steps
    requires FailsAfter(init, s, lstm, m)
    ensures RollOut(init, steps, lstm) == Failed(m)
    decreases |s|
  {
    assert WindowAt(init, s, 0) == init;
    if s != [] {
      var next := init[1..] + [s[0]];
      forall j | 0 <= j <= |s[1..]|
        ensures WindowAt(init, s, j + 1) == WindowAt(next, s[1..], j)
      {
        assert s == [s[0]] + s[1..];
        WindowAtCons(init, s[0], s[1..], j + 1);
      }
      assert FailsAfter(next, s[1..], lstm, m);
      RaiseFails(next, steps - 1, lstm, s[1..], m);
    }
  }

  /** One step of a roll-out that has steps left. */
  lemma RollOutUnfold(window: seq<real>, steps: nat, lstm: seq<real> -> Step)
    requires |window| > 0 && steps > 0
    ensures lstm(window).Raised? ==> RollOut(window, steps, lstm) == Failed(lstm(window).message)
    ensures lstm(window).Predicted? ==>
      RollOut(window, steps, lstm) == Then([lstm(window).scaled], RollOut(window[1..] + [lstm(window).scaled], steps - 1, lstm))
  {
  }

  lemma ThenThen(done: seq<real>, p: real, rest: Forecast)
    ensures Then(done, Then([p], rest)) == Then(done + [p], rest)
  {
    if rest.Forecast? {
      assert done + ([p] + rest.scaled) == (done + [p]) + rest.scaled;
    }
  }

  lemma MapSnoc(f: real -> real, s: seq<real>, x: real)
    ensures Map(f, s + [x]) == Map(f, s) + [f(x)]
  {
    var a, b := Map(f, s + [x]), Map(f, s) + [f(x)];
    assert |a| == |b|;
    forall i | 0 <= i < |a| ensures a[i] == b[i] {
      assert (s + [x])[i] == if i < |s| then s[i] else x;
    }
  }

  /** What predict_stock returns for a non-empty series of closes: the error
      of a failed roll-out, or the unscaled predictions, every close and the
      trend label. */
  function Response(closes: seq<real>, scale: real -> real, unscale: real -> real, lstm: seq<real> -> Step): (r: Result)
    requires |closes| > 0
    ensures r.Error? <==> RollOut(Last(Map(scale, closes), WindowSize), Horizon, lstm).Failed?
    ensures r.Prediction? ==> |r.predicted| == Horizon && r.historical == closes
    ensures r.Prediction? ==> r.sentiment == Label(Classify(TrendChange(closes)))
  {
    match RollOut(Last(Map(scale, closes), WindowSize), Horizon, lstm)
    case Failed(m) => Error(m)
    case Forecast(s) => Prediction(Map(unscale, s), closes, Label(Classify(TrendChange(closes))))
  }

  /** predict_stock. Any exception (in the download or in the LSTM) becomes
      an error result carrying its message; an empty download becomes the
      fixed no-data error before any prediction is made. Otherwise the
      result holds the seven unscaled predictions in generation order, all
      closes, and the label of the fourteen-day trend. */
  method PredictStock(
    ticker: string,
    download: (string, string) -> Download,
    scale: real -> real,
    unscale: real -> real,
    lstm: seq<real> -> Step,
    dateRange: string := DefaultRange)
    returns (r: Result)
    ensures download(ticker, dateRange).DownloadRaised? ==>
      r == Error(download(ticker, dateRange).message)
    ensures download(ticker, dateRange) == Frame([]) ==> r == Error(NoDataMessage)
    ensures download(ticker, dateRange).Frame? && download(ticker, dateRange).closes != [] ==>
      r == Response(download(ticker, dateRange).closes, scale, unscale, lstm)
    ensures r.Prediction? ==> |r.predicted| == Horizon
  {
    var data := download(ticker, dateRange);
    if data.DownloadRaised? {
      return Error(data.message);
    }
    if data.closes == [] {
      return Error(NoDataMessage);
    }
    var closes := data.closes;
    var scaled := Map(scale, closes);
    var window := Last(scaled, WindowSize);
    ghost var init := window;
    var future: seq<real> := [];
    ghost var done: seq<real> := [];
    var i := 0;
    while i < Horizon
      invariant 0 <= i <= Horizon
      invariant |window| == |init|
      invariant |done| == i
      invariant future == Map(unscale, done)
      invariant RollOut(init, Horizon, lstm) == Then(done, RollOut(window, Horizon - i, lstm))
    {
      var step := lstm(window);
      RollOutUnfold(window, Horizon - i, lstm);
      if step.Raised? {
        assert RollOut(init, Horizon, lstm) == Failed(step.message);
        return Error(step.message);
      }
      ThenThen(done, step.scaled, RollOut(window[1..] + [step.scaled], Horizon - i - 1, lstm));
      MapSnoc(unscale, done, step.scaled);
      future := future + [unscale(step.scaled)];
      done := done + [step.scaled];
      window := window[1..] + [step.scaled];
      i := i + 1;
    }
    assert done + [] == done;
    assert RollOut(init, Horizon, lstm) == Forecast(done);
    var sentiment := Label(Classify(TrendChange(closes)));
    r := Prediction(future, closes, sentiment);
  }

  /** The three sentiment labels are pairwise different. */
  lemma LabelsDistinct(a: Sentiment, b: Sentiment)
    ensures Label(a) == Label(b) <==> a == b
  {
    if a != b && a != Bullish && b != Bullish {
      assert Label(a)[0] != Label(b)[0];
    }
  }
}
