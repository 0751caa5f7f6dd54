# Sentiment Analysis Studio — labelling and comment bookkeeping

A Dafny model of the deterministic logic in `app.py` of Sentiment Analysis
Studio, a small dashboard that labels texts from an uploaded CSV file or
from video comments as Positive, Neutral or Negative. Three parts are modelled:

- **Labelling** (`sentiment.dfy`, module `Sentiment`). This models `predict_sentiment` and
  `label_map`. A blank text gives `Neutral` before anything else is called. Otherwise
  the language detector picks the route, and a detector failure falls back to `"en"`.
  `"en"` goes to the English classifier and any other language to the multilingual one.
  The classifier sees the first 512 characters. Its tag is looked up in the six-entry
  table, and an unknown tag or a classifier failure gives `Neutral`.
  The detector and the two classifiers are parameters, bundled in the datatype
  `Engines`: total functions whose `None` result stands for "the call raised".
  The blank test is modelled exactly. It uses Python's `str.strip()` and the code
  points `str.isspace` accepts.
- **Comment bookkeeping** (`youtube.dfy`, module `YouTube`). `FetchComments` is the
  capping loop of `fetch_youtube_comments`. It appends a comment and then stops once
  the count reaches `max_comments`, so a non-empty response always gives at least one item.
  `AnalyzeProduct` is `analyze_product_youtube` from the per-video responses onward.
  It concatenates the capped lists in video order, then pairs each comment with its label.
  Both are methods with loops. Their contracts are stated against the specification
  functions `CapLength`, `Fetched` and `Flatten`.
- **Tallying** (`tally.dfy`, module `Tally`). `ValueCounts` is pandas' `value_counts` on the
  label column: one entry per label that occurs, with its count. `Summarize` gives the
  Positive count read with default 0, and the row count, used in the summary line.

`scenarios.dfy` states and proves the labeller's and the tally's results on concrete inputs with stub engines.
`wrappers.dfy` holds the `Option` type.

The result type `Sentiment` has exactly the three constructors, so "the result is
one of Positive, Neutral, Negative" holds by typing. The labeller is a total
function, so it never propagates an error.

### Behaviour worth noting

- The label table holds `LABEL_0..2` and lower-case `negative`/`neutral`/`positive`
  (app.py:56-63). Upper-case `POSITIVE`/`NEGATIVE` and star-rating tags are not in it,
  so they give `Neutral`. `Scenarios.UpperCaseTagsScenario` shows this.
- The code has no confidence gate, no aspect tagger, and no case-insensitive or fallback
  choice of the text column: the CSV path requires a column named exactly `text`.
- A failed classifier call always gives `Neutral`. `Negative` is never used as a fallback.
- API errors in `fetch_youtube_comments` are not caught in the code. A failing video
  does not just contribute zero comments; the error propagates.

## Model

| member | source | states |
|---|---|---|
| `Sentiment.LabelMapContents` | app.py:56-63 | the table has exactly the six tags `LABEL_0..2`, `negative`, `neutral`, `positive`, with `LABEL_0`/`negative` to Negative, `LABEL_1`/`neutral` to Neutral, `LABEL_2`/`positive` to Positive |
| `Sentiment.SkipSpaceForward` | app.py:69 | the first non-whitespace index at or after `i` (or the end): everything skipped is whitespace and the character there is not |
| `Sentiment.SkipSpaceBackward` | app.py:69 | going back from `j`, not below `lo`: everything skipped is whitespace and the character before the stop is not |
| `Sentiment.Strip` | app.py:69 | `strip()` gives the slice of the text after its leading whitespace, followed only by whitespace, and the slice neither starts nor ends with whitespace: only whitespace is removed, all of it at both ends |
| `Sentiment.StripEmptyIffAllSpace` | app.py:69 | `text.strip() == ""` holds exactly when every character is whitespace |
| `Sentiment.IsBlank` | app.py:69 | the short-circuit test (`not text or text.strip() == ""`) holds exactly for all-whitespace texts, the empty text included |
| `Sentiment.Truncate` | app.py:81-83 | the classifier input is the prefix of the text of length `min(len, 512)`; a text of at most 512 characters is passed unchanged |
| `Sentiment.Language` | app.py:74-77 | the route language is the detector's answer, or `"en"` when detection raises |
| `Sentiment.RouteFor` | app.py:80-83 | the English model exactly for the language `"en"`, the multilingual model for every other language |
| `Sentiment.Dispatch` | app.py:69-83 | no classifier call iff the text is blank; otherwise the call is on exactly the first `min(len, 512)` characters (at most 512) and goes to the English model iff detection failed or returned `"en"` |
| `Sentiment.Invoke` | app.py:80-83 | the English route asks `sentiment_en`, the multilingual route asks `sentiment_multi`, each on the call's input |
| `Sentiment.Normalize` | app.py:85-87 | a tag in the table yields the table's value; an unknown tag or a failed call yields Neutral |
| `Sentiment.Predict` | app.py:68-87 | an all-whitespace (or empty) text is labelled Neutral; the result is always one of the three labels |
| `Sentiment.LabelColumn` | app.py:203 | labelling a column gives one label per row, each the labeller's result on that row's text |
| `Sentiment.BlankIgnoresEngines` | app.py:69-70 | a blank text is Neutral whatever the detector and the classifiers would do, so none of them affects it |
| `Sentiment.EnglishRoute` | app.py:74-81 | a non-blank text whose detection is `"en"` or fails is labelled by the English classifier's tag on its first `min(len, 512)` characters |
| `Sentiment.MultilingualRoute` | app.py:79-85 | a non-blank text detected as any language other than `"en"` is labelled by the multilingual classifier's tag on its first `min(len, 512)` characters |
| `Sentiment.OnlyRoutedPrefixMatters` | app.py:74-85 | two engine sets that agree on the detection and on the routed classifier's answer for the 512-character prefix give the same label |
| `Sentiment.PredictByTag` | app.py:74-87 | for a non-blank text, with `tag` the routed classifier's answer on the first `min(len, 512)` characters: Positive iff `tag` is `LABEL_2` or `positive`, Negative iff it is `LABEL_0` or `negative`, Neutral iff it is any other tag or the call failed |
| `Tally.Occurrences` | app.py:211 | the count of a label is its multiplicity in the label column, and at most the column's length |
| `Tally.OccursIffPositive` | app.py:211 | a label's count is positive exactly when the label occurs in the column |
| `Tally.ValueCounts` | app.py:211 | the tally has an entry for exactly the labels that occur, each holding its positive number of occurrences |
| `Tally.CountOr` | app.py:262 | `counts.get(label, default)`: the entry when the label has one, the default otherwise |
| `Tally.OccurrencesSum` | app.py:211 | the three labels' counts sum to the number of rows |
| `Tally.CountOrZeroIsOccurrences` | app.py:262 | `counts.get(label, 0)` is the label's number of occurrences, whether or not it has an entry |
| `Tally.CountsSumToRows` | app.py:250-262 | the tally's counts, absent labels read as 0, sum to the number of rows |
| `Tally.Summarize` | app.py:262-263 | `pos` is the number of Positive rows, `total` the number of rows, `0 <= pos <= total`, and `pos == total` iff every row is Positive |
| `Tally.AllPositiveIff` | app.py:262-263 | the Positive count equals the column length iff every row is Positive |
| `YouTube.CapLength` | app.py:126-133 | the kept count is 0 iff the response is empty, is at most the response length, is 1 for a non-empty response when `max_comments <= 1`, is `max_comments` when `1 <= max_comments <= n`, and is the whole response when `max_comments` is at least its length |
| `YouTube.FetchComments` | app.py:114-133 | the fetched comments are exactly the first `CapLength(n, max_comments)` response texts, in their original order |
| `YouTube.SumLengths` | app.py:139-141 | the total number of comments is 0 exactly when every video contributed none (the empty result at app.py:241) |
| `YouTube.Flatten` | app.py:139-140 | the concatenation built by `extend` is as long as the per-video lists together |
| `YouTube.FlattenAt` | app.py:139-140 | comment `c` of video `v` sits at position (comments of the earlier videos) + `c`: video order, then comment order |
| `YouTube.FlattenSource` | app.py:139-140 | every element of the concatenation is some video's comment, at the position `FlattenAt` gives it |
| `YouTube.Fetched` | app.py:139-140 | each video contributes its response capped at the default of 50 |
| `YouTube.CollectComments` | app.py:137-140 | the `extend` loop yields exactly the concatenation of the capped per-video lists, in video order |
| `YouTube.LabelComments` | app.py:142-148 | the `append` loop yields one row per comment, in order, each holding the comment and its label |
| `YouTube.AnalyzeProduct` | app.py:135-150 | one row per fetched comment, as many rows as the per-video lists hold in all, row `j` holding the `j`-th comment of the concatenation and its label |
| `YouTube.SentimentColumn` | app.py:250 | the `Sentiment` column holds each row's label, in row order |
| `YouTube.CommentPosition` | app.py:126-148 | a comment kept by the cap for video `v` appears in the result right after the kept comments of the earlier videos |
| `YouTube.CommentSource` | app.py:126-148 | conversely, every comment of the concatenation is one the cap kept for some video |
| `YouTube.SummaryOfRows` | app.py:250-263 | the summary's total is the row count, its Positive count is at most that, and together with the Neutral and Negative counts it adds up to it |
| `Scenarios.LowerCaseLabels` | app.py:68-87 | with a stub English classifier answering `positive`/`negative`, the texts are labelled Positive, Negative, and the empty text Neutral |
| `Scenarios.UpperCaseLabels` | app.py:56-87 | with a stub answering `POSITIVE`/`NEGATIVE`, tags outside the table, every text is labelled Neutral |
| `Scenarios.LowerCaseTagsScenario` | app.py:203-211 | the lower-case stub run gives the column Positive, Negative, Neutral, one of each |
| `Scenarios.UpperCaseTagsScenario` | app.py:203-263 | the upper-case stub run gives three Neutral rows and a summary of 0 Positive out of 3 |
| `Scenarios.LongTextScenario` | app.py:79-83 | a 600-character text detected as non-English is sent to the multilingual classifier as its first 512 characters |

## Left out

- Page layout, widgets, messages, the download button, pie charts and DataFrame display (app.py:17-33, 155-273): user interface.
- `load_models` and its process-wide cache (app.py:38-51): the classifiers are parameters instead.
- The internals of the language detector and of the two classification pipelines: foreign calls, modelled only as functions that return a value or fail. The model does not say which exceptions they raise.
- `get_youtube_client`, `search_youtube_videos` and the request in `fetch_youtube_comments` (app.py:92-124): network I/O. The model takes each video's response as its sequence of comment texts. A missing `items` key is the same as an empty sequence. Its `maxResults` limits of 3 videos and 100 comments are the API's business.
- Extracting `textDisplay` from a response item (app.py:127): a malformed item raises in the code. That cannot happen to a sequence of strings.
- Reading the CSV and the check for a `text` column (app.py:196-199): file I/O. `LabelColumn` starts from the column's values, already converted with `astype(str)`.
- Sentiment.Predict: takes a string. The `not text` test on `None` or other non-string values is not modelled, because every caller passes a `str`.
- Each call to the detector and the classifiers is modelled as a function of its input alone. The language detector is randomised unless it is seeded, and `app.py` never seeds it, so two calls on the same text can route differently. The model does not capture that run-to-run variation: in the model, equal texts always get equal labels.
- Tally.ValueCounts: `value_counts` also orders its entries by descending count. A map has no order, so the model does not keep it. Only the pie chart uses that order, and the chart is not modelled.
- The percentage `round((pos / total) * 100, 1)` (app.py:264): floating point. Only the integer facts `0 <= pos <= total` are stated.
