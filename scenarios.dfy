/**
 * The labeller's and the tally's results on concrete inputs with stub
 * engines, stated and proved as lemmas.
 */
module Scenarios {
  import opened Wrappers
  import opened Sentiment
  import opened Tally

  const Texts: seq<string> := ["I love this!", "Terrible experience", ""]

  /** A stub that detects English and answers with the multilingual
      model's lower-case vocabulary. */
  function LowerCaseStub(): Engines {
    Engines(
      s => Some("en"),
      s => if s == "I love this!" then Some("positive") else Some("negative"),
      s => None)
  }

  /** The same stub answering `POSITIVE`/`NEGATIVE`, tags the table does
      not hold. */
  function UpperCaseStub(): Engines {
    Engines(
      s => Some("en"),
      s => if s == "I love this!" then Some("POSITIVE") else Some("NEGATIVE"),
      s => None)
  }

  lemma NotBlank(text: string)
    requires |text| > 0 && !IsSpace(text[0])
    ensures !AllSpace(text)
  {
  }

  lemma LowerCaseFirst()
    ensures Predict(Texts[0], LowerCaseStub()) == Positive
  {
    var e := LowerCaseStub();
    NotBlank(Texts[0]);
    EnglishRoute(Texts[0], e);
    assert Truncate(Texts[0]) == "I love this!";
    assert e.english("I love this!") == Some("positive");
  }

  lemma LowerCaseSecond()
    ensures Predict(Texts[1], LowerCaseStub()) == Negative
  {
    var e := LowerCaseStub();
    NotBlank(Texts[1]);
    EnglishRoute(Texts[1], e);
    assert Truncate(Texts[1]) == "Terrible experience";
    assert "Terrible experience"[0] != "I love this!"[0];
    assert e.english("Terrible experience") == Some("negative");
  }

  lemma LowerCaseLabels()
    ensures Predict(Texts[0], LowerCaseStub()) == Positive
    ensures Predict(Texts[1], LowerCaseStub()) == Negative
    ensures Predict(Texts[2], LowerCaseStub()) == Neutral
  {
    LowerCaseFirst();
    LowerCaseSecond();
  }

  /** The upper-case tags differ from every key in their first character. */
  lemma UpperCaseTagsUnknown()
    ensures "POSITIVE" !in LabelMap && "NEGATIVE" !in LabelMap
  {
    LabelMapContents();
    forall k | k in LabelMap.Keys
      ensures k != "POSITIVE" && k != "NEGATIVE"
    {
      assert k[0] in {'L', 'n', 'p'};
    }
  }

  lemma UpperCaseFirst()
    ensures Predict(Texts[0], UpperCaseStub()) == Neutral
  {
    var e := UpperCaseStub();
    NotBlank(Texts[0]);
    EnglishRoute(Texts[0], e);
    assert Truncate(Texts[0]) == "I love this!";
    assert e.english("I love this!") == Some("POSITIVE");
    UpperCaseTagsUnknown();
  }

  lemma UpperCaseSecond()
    ensures Predict(Texts[1], UpperCaseStub()) == Neutral
  {
    var e := UpperCaseStub();
    NotBlank(Texts[1]);
    EnglishRoute(Texts[1], e);
    assert Truncate(Texts[1]) == "Terrible experience";
    assert "Terrible experience"[0] != "I love this!"[0];
    assert e.english("Terrible experience") == Some("NEGATIVE");
    UpperCaseTagsUnknown();
  }

  lemma UpperCaseLabels()
    ensures Predict(Texts[0], UpperCaseStub()) == Neutral
    ensures Predict(Texts[1], UpperCaseStub()) == Neutral
    ensures Predict(Texts[2], UpperCaseStub()) == Neutral
  {
    UpperCaseFirst();
    UpperCaseSecond();
  }

  lemma ColumnOfThree(texts: seq<string>, e: Engines)
    requires |texts| == 3
    ensures LabelColumn(texts, e) == [Predict(texts[0], e), Predict(texts[1], e), Predict(texts[2], e)]
  {
  }

  lemma OneOfEach()
    ensures var col := [Positive, Negative, Neutral];
      Occurrences(col, Positive) == 1 && Occurrences(col, Neutral) == 1 && Occurrences(col, Negative) == 1
  {
    var col := [Positive, Negative, Neutral];
    assert col[1..] == [Negative, Neutral];
    assert col[1..][1..] == [Neutral];
    assert [Neutral][1..] == [];
  }

  /** One row per label: the empty text short-circuits to Neutral. */
  lemma LowerCaseTagsScenario()
    ensures var col := LabelColumn(Texts, LowerCaseStub());
      col == [Positive, Negative, Neutral]
      && Occurrences(col, Positive) == 1
      && Occurrences(col, Neutral) == 1
      && Occurrences(col, Negative) == 1
  {
    LowerCaseLabels();
    ColumnOfThree(Texts, LowerCaseStub());
    OneOfEach();
  }

  /** Tags outside the table fall back to Neutral, so every row is Neutral. */
  lemma UpperCaseTagsScenario()
    ensures var col := LabelColumn(Texts, UpperCaseStub());
      col == [Neutral, Neutral, Neutral]
      && Summarize(col) == Summary(0, 3)
  {
    UpperCaseLabels();
    ColumnOfThree(Texts, UpperCaseStub());
  }

  /** A 600-character non-English text reaches the multilingual classifier
      as its first 512 characters. */
  lemma LongTextScenario(text: string, e: Engines)
    requires |text| == 600 && !IsSpace(text[0])
    requires e.detect(text) == Some("ta")
    ensures Dispatch(text, e.detect) == Some(Call(Multilingual, text[..512]))
  {
    NotBlank(text);
  }
}
