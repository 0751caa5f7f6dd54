/**
 * Sentiment labelling: the three canonical labels, the raw-tag table, and
 * the wrapper that routes a text to one of two classifiers and normalises
 * the classifier's tag. The language detector and the two classifiers are
 * foreign calls; they are passed in as total functions whose `None` result
 * stands for "the call raised".
 */
module Sentiment {
  import opened Wrappers

  datatype Sentiment = Positive | Neutral | Negative

  /** The raw-tag table: `LABEL_0..2` from the English model and the
      lower-case tags of the multilingual model. */
  const LabelMap: map<string, Sentiment> := map[
    "LABEL_0" := Negative,
    "LABEL_1" := Neutral,
    "LABEL_2" := Positive,
    "negative" := Negative,
    "neutral" := Neutral,
    "positive" := Positive
  ]

  /** The longest prefix of a text that a classifier is given. */
  const MaxInput: nat := 512

  /** The language code a detector failure falls back to. */
  const DefaultLanguage: string := "en"

  /** The foreign collaborators of the labeller. Each returns `None` when
      the underlying call raises. A classifier's result is the `label` tag
      of its first prediction; a missing prediction or a missing tag is a
      failure as well. */
  datatype Engines = Engines(
    detect: string -> Option<string>,
    english: string -> Option<string>,
    multilingual: string -> Option<string>)

  datatype Route = English | Multilingual

  /** One classifier invocation: which model, on which string. */
  datatype Call = Call(route: Route, input: string)

  // ----- whitespace and strip -----

  /** The code points for which Python's `str.isspace` holds; these are the
      characters `str.strip()` removes. */
  predicate IsSpace(c: char) {
    || c == ' '
    || ('\t' <= c <= '\r')
    || ('\U{1C}' <= c <= '\U{1F}')
    || c == '\U{85}'
    || c == '\U{A0}'
    || c == '\U{1680}'
    || ('\U{2000}' <= c <= '\U{200A}')
    || c == '\U{2028}'
    || c == '\U{2029}'
    || c == '\U{202F}'
    || c == '\U{205F}'
    || c == '\U{3000}'
  }

  predicate AllSpace(s: string) {
    forall i :: 0 <= i < |s| ==> IsSpace(s[i])
  }

  /** The index of the first non-whitespace character at or after `i`,
      or `|s|` when there is none. */
  function SkipSpaceForward(s: string, i: nat): (k: nat)
    requires i <= |s|
    ensures i <= k <= |s|
    ensures forall m :: i <= m < k ==> IsSpace(s[m])
    ensures k < |s| ==> !IsSpace(s[k])
    decreases |s| - i
  {
    if i < |s| && IsSpace(s[i]) then SkipSpaceForward(s, i + 1) else i
  }

  /** Going back from `j` but not below `lo`: the index just after the last
      non-whitespace character, or `lo` when there is none. */
  function SkipSpaceBackward(s: string, lo: nat, j: nat): (k: nat)
    requires lo <= j <= |s|
    ensures lo <= k <= j
    ensures forall m :: k <= m < j ==> IsSpace(s[m])
    ensures k > lo ==> !IsSpace(s[k - 1])
  {
    if j > lo && IsSpace(s[j - 1]) then SkipSpaceBackward(s, lo, j - 1) else j
  }

  /** Python's `str.strip()` with no argument. The result is the slice of
      `s` that starts after the leading whitespace and is followed only by
      whitespace, and it neither starts nor ends with whitespace: only
      whitespace is removed, and all of it at both ends. */
  function Strip(s: string): (r: string)
    ensures var i := SkipSpaceForward(s, 0);
      && i + |r| <= |s| && r == s[i..i + |r|]
      && (forall k :: 0 <= k < i ==> IsSpace(s[k]))
      && (forall k :: i + |r| <= k < |s| ==> IsSpace(s[k]))
    ensures r != [] ==> !IsSpace(r[0]) && !IsSpace(r[|r| - 1])
  {
    var i := SkipSpaceForward(s, 0);
    var j := SkipSpaceBackward(s, i, |s|);
    s[i..j]
  }

  /** Stripping leaves nothing exactly when every character is whitespace. */
  lemma StripEmptyIffAllSpace(s: string)
    ensures Strip(s) == [] <==> AllSpace(s)
  {
    var i := SkipSpaceForward(s, 0);
    if AllSpace(s) {
      assert i == |s|;
    }
  }

  /** The short-circuit test of the labeller: an empty text, or one whose
      strip is empty. It holds exactly for all-whitespace texts. */
  predicate IsBlank(text: string)
    ensures IsBlank(text) <==> AllSpace(text)
  {
    StripEmptyIffAllSpace(text);
    text == [] || Strip(text) == []
  }

  // ----- the pieces of predict_sentiment -----

  /** The text cut to its first `MaxInput` characters (a Python `[:512]` slice). */
  function Truncate(text: string): (r: string)
    ensures |r| == if |text| <= MaxInput then |text| else MaxInput
    ensures r == text[..|r|]
    ensures |text| <= MaxInput ==> r == text
  {
    if |text| <= MaxInput then text else text[..MaxInput]
  }

  /** The detected language, or the default when detection raises. */
  function Language(text: string, detect: string -> Option<string>): (lang: string)
    ensures detect(text) == None ==> lang == DefaultLanguage
    ensures detect(text).Some? ==> lang == detect(text).value
  {
    detect(text).GetOr(DefaultLanguage)
  }

  /** The English model for "en", the multilingual model otherwise. */
  function RouteFor(lang: string): (r: Route)
    ensures r == English <==> lang == "en"
  {
    if lang == DefaultLanguage then English else Multilingual
  }

  /** The classifier call the labeller makes for `text`, or `None` when it
      returns before consulting the detector or a classifier. */
  function Dispatch(text: string, detect: string -> Option<string>): (c: Option<Call>)
    ensures c == None <==> AllSpace(text)
    ensures c.Some? ==> c.value.input == text[..if |text| <= MaxInput then |text| else MaxInput]
    ensures c.Some? ==> |c.value.input| <= MaxInput
    ensures c.Some? ==>
      (c.value.route == English <==> (detect(text) == None || detect(text) == Some("en")))
  {
    if IsBlank(text) then None
    else Some(Call(RouteFor(Language(text, detect)), Truncate(text)))
  }

  /** Runs the chosen classifier. */
  function Invoke(e: Engines, c: Call): (tag: Option<string>)
    ensures c.route == English ==> tag == e.english(c.input)
    ensures c.route == Multilingual ==> tag == e.multilingual(c.input)
  {
    match c.route
    case English => e.english(c.input)
    case Multilingual => e.multilingual(c.input)
  }

  /** A classifier outcome turned into a label: the table's value for a
      known tag, and `Neutral` for an unknown tag or a failed call. */
  function Normalize(tag: Option<string>): (r: Sentiment)
    ensures tag.Some? && tag.value in LabelMap ==> r == LabelMap[tag.value]
    ensures tag == None || tag.value !in LabelMap ==> r == Neutral
  {
    match tag
    case Some(t) => if t in LabelMap then LabelMap[t] else Neutral
    case None => Neutral
  }

  /** `predict_sentiment`: never fails, always one of the three labels. */
  function Predict(text: string, e: Engines): (r: Sentiment)
    ensures AllSpace(text) ==> r == Neutral
  {
    match Dispatch(text, e.detect)
    case None => Neutral
    case Some(c) => Normalize(Invoke(e, c))
  }

  /** The labeller applied to every value of a text column, row by row. */
  function LabelColumn(texts: seq<string>, e: Engines): (labels: seq<Sentiment>)
    ensures |labels| == |texts|
    ensures forall i :: 0 <= i < |texts| ==> labels[i] == Predict(texts[i], e)
  {
    seq(|texts|, i requires 0 <= i < |texts| => Predict(texts[i], e))
  }

  // ----- properties of the labeller -----

  /** The table holds exactly six tags, with these values. */
  lemma LabelMapContents()
    ensures LabelMap.Keys == {"LABEL_0", "LABEL_1", "LABEL_2", "negative", "neutral", "positive"}
    ensures LabelMap["LABEL_0"] == Negative && LabelMap["negative"] == Negative
    ensures LabelMap["LABEL_1"] == Neutral && LabelMap["neutral"] == Neutral
    ensures LabelMap["LABEL_2"] == Positive && LabelMap["positive"] == Positive
  {
  }

  /** A blank text is `Neutral` whatever the detector and the classifiers do. */
  lemma BlankIgnoresEngines(text: string, e1: Engines, e2: Engines)
    requires AllSpace(text)
    ensures Predict(text, e1) == Predict(text, e2) == Neutral
  {
  }

  /** English route: a non-blank text whose detection gives "en" or fails
      is labelled by the English classifier on its first 512 characters. */
  lemma EnglishRoute(text: string, e: Engines)
    requires !AllSpace(text)
    requires e.detect(text) == None || e.detect(text) == Some("en")
    ensures Predict(text, e) == Normalize(e.english(text[..if |text| <= 512 then |text| else 512]))
  {
  }

  /** Multilingual route: any other detected language goes to the
      multilingual classifier on the first 512 characters. */
  lemma MultilingualRoute(text: string, e: Engines)
    requires !AllSpace(text)
    requires e.detect(text).Some? && e.detect(text).value != "en"
    ensures Predict(text, e) == Normalize(e.multilingual(text[..if |text| <= 512 then |text| else 512]))
  {
  }

  /** The result depends on the classifiers only through their answers on
      the first 512 characters, and only on the classifier routed to. */
  lemma OnlyRoutedPrefixMatters(text: string, e1: Engines, e2: Engines)
    requires e1.detect(text) == e2.detect(text)
    requires e1.english(Truncate(text)) == e2.english(Truncate(text))
             || RouteFor(Language(text, e1.detect)) == Multilingual
    requires e1.multilingual(Truncate(text)) == e2.multilingual(Truncate(text))
             || RouteFor(Language(text, e1.detect)) == English
    ensures Predict(text, e1) == Predict(text, e2)
  {
  }

  /** The label of a non-blank text in terms of the tag the routed
      classifier returns on the first 512 characters: Positive exactly for
      `LABEL_2` or `positive`, Negative exactly for `LABEL_0` or `negative`,
      and Neutral for every other tag and for a failed call. */
  lemma PredictByTag(text: string, e: Engines)
    requires !AllSpace(text)
    ensures var input := text[..if |text| <= 512 then |text| else 512];
      var tag := if e.detect(text) == None || e.detect(text) == Some("en")
                 then e.english(input) else e.multilingual(input);
      && (Predict(text, e) == Positive <==> tag == Some("LABEL_2") || tag == Some("positive"))
      && (Predict(text, e) == Negative <==> tag == Some("LABEL_0") || tag == Some("negative"))
      && (Predict(text, e) == Neutral <==>
            tag !in {Some("LABEL_0"), Some("LABEL_2"), Some("negative"), Some("positive")})
  {
    LabelMapContents();
  }
}
