/**
 * Tallying a label column the way pandas' `value_counts` does: one entry
 * per label that occurs, holding its number of occurrences; absent labels
 * have no entry, and a lookup with a default stands in for them.
 */
module Tally {
  import opened Sentiment

  /** The number of times `l` occurs in `col`. */
  function Occurrences(col: seq<Sentiment>, l: Sentiment): (n: nat)
    ensures n <= |col|
    ensures n == multiset(col)[l]
  {
    if col == [] then 0
    else
      assert col == [col[0]] + col[1..];
      Occurrences(col[1..], l) + (if col[0] == l then 1 else 0)
  }

  lemma OccursIffPositive(col: seq<Sentiment>, l: Sentiment)
    ensures Occurrences(col, l) > 0 <==> l in col
  {
  }

  /** `value_counts`: the labels that occur, each with its count. */
  function ValueCounts(col: seq<Sentiment>): (counts: map<Sentiment, nat>)
    ensures forall l :: l in counts <==> l in col
    ensures forall l :: l in counts ==> 0 < counts[l] == Occurrences(col, l)
  {
    forall l | l in col ensures Occurrences(col, l) > 0 {
      OccursIffPositive(col, l);
    }
    map l | l in col :: Occurrences(col, l)
  }

  /** `counts.get(l, default)`. */
  function CountOr(counts: map<Sentiment, nat>, l: Sentiment, default: nat): (n: nat)
    ensures l in counts ==> n == counts[l]
    ensures l !in counts ==> n == default
  {
    if l in counts then counts[l] else default
  }

  /** The three labels' counts add up to the length of the column. */
  lemma {:induction false} OccurrencesSum(col: seq<Sentiment>)
    ensures Occurrences(col, Positive) + Occurrences(col, Neutral) + Occurrences(col, Negative) == |col|
  {
    if col != [] {
      OccurrencesSum(col[1..]);
    }
  }

  /** The count read with default 0 is the number of occurrences, present
      in the tally or not. */
  lemma CountOrZeroIsOccurrences(col: seq<Sentiment>, l: Sentiment)
    ensures CountOr(ValueCounts(col), l, 0) == Occurrences(col, l)
  {
    if l !in col {
      OccursIffPositive(col, l);
    }
  }

  /** The counts of the tally, absent labels read as 0, sum to the number
      of labelled rows. */
  lemma CountsSumToRows(col: seq<Sentiment>)
    ensures var counts := ValueCounts(col);
      CountOr(counts, Positive, 0) + CountOr(counts, Neutral, 0) + CountOr(counts, Negative, 0) == |col|
  {
    CountOrZeroIsOccurrences(col, Positive);
    CountOrZeroIsOccurrences(col, Neutral);
    CountOrZeroIsOccurrences(col, Negative);
    OccurrencesSum(col);
  }

  /** The figures behind the summary line: the Positive count and the
      number of rows. */
  datatype Summary = Summary(positive: nat, total: nat)

  /** `pos = counts.get("Positive", 0)` and `total = len(df)`. */
  function Summarize(col: seq<Sentiment>): (s: Summary)
    ensures s.total == |col|
    ensures s.positive == Occurrences(col, Positive)
    ensures 0 <= s.positive <= s.total
    ensures s.positive == s.total <==> forall i :: 0 <= i < |col| ==> col[i] == Positive
  {
    CountOrZeroIsOccurrences(col, Positive);
    AllPositiveIff(col);
    Summary(CountOr(ValueCounts(col), Positive, 0), |col|)
  }

  lemma {:induction false} AllPositiveIff(col: seq<Sentiment>)
    ensures Occurrences(col, Positive) == |col| <==> forall i :: 0 <= i < |col| ==> col[i] == Positive
  {
    if col != [] {
      AllPositiveIff(col[1..]);
      if Occurrences(col, Positive) == |col| {
        assert col[0] == Positive by {
          assert Occurrences(col[1..], Positive) <= |col[1..]|;
        }
        forall i | 0 <= i < |col| ensures col[i] == Positive {
          if i > 0 { assert col[i] == col[1..][i - 1]; }
        }
      }
    }
  }
}
