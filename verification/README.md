# ProfitPlot in Dafny

ProfitPlot is a stock-prediction web page. The user types a ticker and picks a history range. The page posts both to a prediction service and charts the returned historical and predicted prices with a sentiment label. This project models the core of that system:

- **Front-end view-controller** (`frontend.dfy`, module `Frontend`, helpers in `text.dfy`, module `Text`):
  - the suggestion filter over the catalog of 17 popular stocks;
  - the bounded recency list of the last 5 symbols, persisted under the `recentSymbols` key;
  - the shaping of a result into chart labels and series, with the "Prediction Starts" marker;
  - the component state (class `App`) that the form handlers move through loading, success and error.
- **Sliding-window builder** of the training script (`training.dfy`, module `Training`): `create_sequences`.
- **Prediction service** (`predict.dfy`, module `Predict`): the 7-step autoregressive roll-out over a window of at most 60 scaled closes, the 14-day trend label, and the result and error shapes of `predict_stock`.

`handleSubmit` is asynchronous. The model splits it at its `await` into `App.BeginSubmit` and `App.CompleteSubmit`. `App.Submit` composes the two for a submission during which nothing else runs. `CompleteSubmit` takes the request issued by `BeginSubmit`, because the recency list records the symbol that was submitted, not the one typed since. The network reply is an input: either a transport failure or a response whose three fields may each be absent. A 400 response from the service (any result with an `error` key) is a transport failure for the page.

In these places the code does something other than one might expect; the model follows the code:

- A symbol already in the recency list stays where it is. It is not moved to the front.
- The response check tests only that both price fields are present. Empty arrays pass.
- A failed submission keeps the previous prices and sentiment on screen next to the error message.
- A resubmission shows the spinner next to the previous result, because `BeginSubmit` clears only the error and the suggestions.
- Stored text that `JSON.parse` rejects does not read as an empty list. On mount the effect throws; `LoadRecent` then returns false and leaves the in-memory list as it was (see "## Left out" for what the page does next). During a submission, the prices and sentiment have already been replaced when the parse throws. The failure message is then set and the recency list is left alone.

The download, the fitted min-max scaler and the LSTM of the prediction service are uninterpreted functions passed to `Predict.PredictStock`. The LSTM may raise; so may the download. `PredictStock`'s `dateRange` parameter defaults to `"60d"`.

## Model

| member | source | states |
|---|---|---|
| Text.Upper | frontend/src/App.js:92 | upper-casing keeps the length and maps every character by the ASCII upper-case rule |
| Text.Lower | frontend/src/App.js:102 | lower-casing keeps the length and maps every character by the ASCII lower-case rule |
| Text.LowerOfUpper | frontend/src/App.js:92-102 | lower-casing the upper-cased input equals lower-casing the raw input, so the name test ignores case |
| Text.UpperIdempotent | frontend/src/App.js:92 | upper-casing an already upper-cased symbol changes nothing |
| Text.ContainsIffOccurs | frontend/src/App.js:102 | the recursive `includes` holds exactly when the substring occurs at some offset |
| Text.Decimal | frontend/src/App.js:128-129 | an ordinal renders as a non-empty string of digits with no leading zero |
| Text.ParseDecimalOfDecimal | frontend/src/App.js:128-129 | reading the rendered digits back gives the number |
| Text.DecimalInjective | frontend/src/App.js:128-129 | two numbers render alike exactly when they are equal |
| Frontend.Filter | frontend/src/App.js:100-103 | the result keeps catalog order and holds exactly the catalog entries that pass the symbol-prefix or name-substring test |
| Text.StartsWith | frontend/src/App.js:102 | `startsWith`: the prefix fits and equals the leading characters; a prefix match is also a substring match |
| Text.Contains | frontend/src/App.js:102 | `includes`: the substring is no longer than the text and matches at the front or somewhere in the tail |
| Frontend.Matches | frontend/src/App.js:101-102 | an entry matches when its symbol starts with the value or its lower-cased name contains the lower-cased value; the empty value matches every entry |
| Frontend.FilterCount | frontend/src/App.js:100-103 | the filter keeps each matching entry exactly as often as the catalog holds it and drops the others |
| Frontend.Suggestions | frontend/src/App.js:95-105 | an empty value yields no suggestions; otherwise exactly the matching catalog entries, in catalog order |
| Frontend.SuggestionsForInput | frontend/src/App.js:92-105 | typing `raw` suggests an entry iff `raw` is non-empty and the symbol starts with `raw` upper-cased or the name contains `raw` ignoring case |
| Frontend.Remember | frontend/src/App.js:73-76 | a listed symbol leaves the list unchanged; a new symbol goes first, followed by the old list with its last entry dropped once the length would exceed 5 |
| Frontend.RememberKeepsWellFormed | frontend/src/App.js:72-78 | a list of at most 5 distinct symbols stays at most 5 and distinct |
| Frontend.RememberKeepsRecent | frontend/src/App.js:74-75 | every entry except the oldest one of a full list survives the update |
| Frontend.RememberIdempotent | frontend/src/App.js:73-76 | recording the same symbol twice equals recording it once |
| Frontend.Ordinals | frontend/src/App.js:128-129 | n labels, the i-th being the prefix followed by i + 1 in decimal |
| Frontend.Firsts | frontend/src/App.js:127 | one value per history entry, each the first value of its entry |
| Frontend.Nulls | frontend/src/App.js:146 | n leading null points |
| Frontend.Points | frontend/src/App.js:146 | the `.concat(predictedPrice)` half: one present point per prediction, in order |
| Frontend.PrepareChartData | frontend/src/App.js:126-157 | labels are Day 1..Day n then Future 1..Future m; the historical series is the first value of each entry; the predicted series is n nulls then the predictions (built from Firsts, Nulls and Points); the marker is n |
| Frontend.ChartLabelsDistinct | frontend/src/App.js:128-132 | no two chart labels are equal |
| Frontend.MarkerStartsPrediction | frontend/src/App.js:184-185 | at the marker index sit the first prediction and the label "Future 1"; every predicted point before it is null |
| Frontend.ChartExample | frontend/src/App.js:126-146 | rows [100],[101],[102] and predictions 103,104 give labels Day 1..Day 3, Future 1, Future 2 and predicted series null,null,null,103,104 |
| Frontend.Accepted | frontend/src/App.js:64 | a transport failure is never accepted; a delivered body with both price fields present is, even when both arrays are empty |
| Frontend.Loaded | frontend/src/App.js:47 | the stored list as the mount effect reads it (and line 72 again) is empty exactly for a missing key or a stored empty list |
| Frontend.App.constructor | frontend/src/App.js:35-43 | the initial state: empty result, persisted last symbol or "", range 60d, no spinner, no error, no suggestions |
| Frontend.App.LoadRecent | frontend/src/App.js:46-49 | the persisted list (a missing key reads as empty) replaces the in-memory one; for unparsable text it reports failure and leaves the list as it was |
| Frontend.App.InputChange | frontend/src/App.js:91-106 | the symbol becomes the upper-cased input and the suggestions are recomputed from it; empty input clears them |
| Frontend.App.PickSymbol | frontend/src/App.js:108-116 | picking a suggestion or shortcut sets the symbol and clears the suggestions |
| Frontend.App.SelectRange | frontend/src/App.js:225 | the selector sets the date range |
| Frontend.App.BeginSubmit | frontend/src/App.js:51-61 | the spinner is on, the error and suggestions are cleared, and the request carries the symbol and the range code verbatim |
| Frontend.App.CompleteSubmit | frontend/src/App.js:62-88 | a failure or missing price field sets the fixed message and keeps result and recency list; an accepted reply replaces the result wholesale and records the submitted symbol in both list copies; the spinner is off in every case; a well-formed list stays well-formed |
| Frontend.App.Submit | frontend/src/App.js:51-89 | a whole submission ends with no spinner and no suggestions, the error empty exactly on full success, and the state of CompleteSubmit: a rejected reply or a corrupt stored list keeps the recency list and its stored copy, an accepted one records the symbol |
| Frontend.App.Reset | frontend/src/App.js:118-124 | clears prices, symbol, error and sentiment, and touches nothing else |
| Training.Column | model_training/train_model.py:27 | column 0 of a block of rows, element by element |
| Training.CreateSequences | model_training/train_model.py:23-29 | x and y both have length len(data) - seq_length (0 if negative); window k has seq_length elements and is column 0 of rows k..k+seq_length; target k is column 0 of row k+seq_length |
| Training.NextWindowShifts | model_training/train_model.py:26-28 | window k+1 is window k shifted left by one with target k appended |
| Training.TargetEndsNextWindow | model_training/train_model.py:27-28 | the target of each window but the last is the last element of the next window |
| Predict.Last | backend/predict.py:23 | the initial window is the last min(60, n) scaled values |
| Predict.TrendChange | backend/predict.py:43-45 | the change is the last close minus the close min(14, n) - 1 days before it |
| Predict.Map | backend/predict.py:19 | applying the scaler, or its inverse on line 34, keeps the length and maps every value by it |
| Predict.Label | backend/predict.py:48-52 | the label contains "Bullish" exactly for the bullish sentiment |
| Predict.Classify | backend/predict.py:47-52 | Bullish iff the change is positive, Bearish iff negative, Neutral iff zero |
| Predict.LabelsDistinct | backend/predict.py:47-52 | the three sentiment strings are pairwise different |
| Predict.RollOut | backend/predict.py:28-40 | a completed roll-out has exactly as many predictions as steps |
| Predict.WindowAt | backend/predict.py:38-40 | the window at every step has the length of the initial window |
| Predict.RollOutSteps | backend/predict.py:31-40 | prediction i is what the LSTM returns on the initial window followed by the first i predictions, minus its first i values |
| Predict.RollOutFails | backend/predict.py:31-40 | a failed roll-out is one where the LSTM raised, with that message, after some shorter run of predictions |
| Predict.RaiseFails | backend/predict.py:31-64 | conversely, an LSTM raise on a window reached before the last step makes the roll-out fail with that message |
| Predict.Response | backend/predict.py:28-60 | the result is an error exactly when the roll-out over the last 60 scaled closes fails; otherwise it has 7 predictions, every close and the label of the trend |
| Predict.PredictStock | backend/predict.py:9-64 | a raised download gives an error with its message; an empty one gives "No data found for ticker."; otherwise a failed roll-out gives its error, and a completed one gives the 7 unscaled predictions in order, every close, and the trend label |

## Left out

- Rendering: the JSX tree, styles, icons, chart options, the tooltip's two-decimal formatting, the spinner and error markup, the colour chosen by `sentiment.includes('Bullish')`, and `scrollIntoView`.
- The HTTP call: the reply is an input to `CompleteSubmit`. A body that is not an object, or a field that is present but falsy and not an array, is not modelled separately. A thrown TypeError there behaves as `TransportFailure`.
- Overlapping submissions and stale replies: the split into `BeginSubmit` and `CompleteSubmit` lets other handlers run in between, but the model claims nothing about their order.
- Frontend.App.LoadRecent: unparsable stored text makes the mount effect at frontend/src/App.js:47 throw. Nothing catches it, so React unmounts the component. `ok == false` stands for that abort; the model does not claim the page keeps running.
- The `console.error(err)` call at frontend/src/App.js:84 is logging only and is not modelled.
- Frontend.App.BeginSubmit: the `required` attribute on the input (frontend/src/App.js:221) keeps the browser from submitting an empty symbol. The model does not encode this; `BeginSubmit` and `Remember` accept `""`.
- Stored JSON that parses to something other than null or an array of strings. A failing `localStorage.setItem` is not modelled either.
- The `lastSymbol` key is only read, once, by the constructor. No code writes it.
- Text.Upper: only ASCII letters are mapped. JavaScript's full Unicode mapping can change a string's length; the model does not. Text.LowerOfUpper and Frontend.SuggestionsForInput rest on this restriction: in JavaScript `'ß'.toUpperCase().toLowerCase()` is `"ss"`, not `"ß"`.
- Text.Lower: only ASCII letters are mapped, as for `Text.Upper`.
- Predict.Classify: prices are reals. Floating-point rounding and NaN are not modelled.
- Predict.PredictStock: yfinance, the `MinMaxScaler` fit and its arithmetic, Keras and numpy reshaping are uninterpreted function parameters. The backend's rows of closes are plain numbers here. The front end's `Entry` type allows both rows and numbers. The `print` of the exception is not modelled. In the model only the download and the LSTM raise; the scaler's fit and inverse, the reshapes and `float()` inside the same `try` (backend/predict.py:10-64) could raise too and would give an error result the same way.
- Training.CreateSequences: data is a 2-D array whose rows all have a column 0, as the scaler's n-by-1 output has. `seq_length` is a natural number. The conversions to numpy arrays are not modelled.
- The rest of the training script (download, scaling, model fit and save) and the Flask wrapper `backend/app.py` are I/O and training, not modelled.
