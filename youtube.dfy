/**
 * The bookkeeping around the comment API: capping one video's comment
 * texts, concatenating the per-video lists in video order, pairing every
 * comment with its label, and the summary figures of the result. The API
 * responses are given as the comment texts of each response, in order.
 */
module YouTube {
  import opened Sentiment
  import opened Tally

  /** The `max_comments` default of the per-video fetch. */
  const DefaultMaxComments: int := 50

  /** A result row: a comment and its label. */
  datatype Row = Row(comment: string, sentiment: Sentiment)

  function Min(a: int, b: int): int { if a <= b then a else b }
  function Max(a: int, b: int): int { if a <= b then b else a }

  /** How many of `n` response items the fetch keeps. The count is checked
      after the append, so a non-empty response always keeps one item. */
  function CapLength(n: nat, maxComments: int): (k: nat)
    ensures k <= n
    ensures k == 0 <==> n == 0
    ensures 0 < n && maxComments <= 1 ==> k == 1
    ensures maxComments >= n ==> k == n
    ensures 1 <= maxComments <= n ==> k == maxComments
  {
    if n == 0 then 0 else Min(n, Max(maxComments, 1))
  }

  /** The comment texts the fetch loop collects from `items`. */
  method FetchComments(items: seq<string>, maxComments: int) returns (comments: seq<string>)
    ensures comments == items[..CapLength(|items|, maxComments)]
  {
    comments := [];
    var i := 0;
    while i < |items|
      invariant 0 <= i <= |items|
      invariant comments == items[..i]
      invariant i == 0 || i < maxComments
    {
      comments := comments + [items[i]];
      i := i + 1;
      if |comments| >= maxComments {
        break;
      }
    }
  }

  /** The sum of the lists' lengths; it is 0 exactly when every list is
      empty. */
  function SumLengths<T>(xss: seq<seq<T>>): (n: nat)
    ensures n == 0 <==> forall k :: 0 <= k < |xss| ==> xss[k] == []
  {
    if xss == [] then 0
    else
      var init := xss[..|xss| - 1];
      assert forall k :: 0 <= k < |init| ==> init[k] == xss[k];
      SumLengths(init) + |xss[|xss| - 1]|
  }

  /** The lists concatenated in order, as the `extend` loop builds them;
      as long as the lists are together. */
  function Flatten<T>(xss: seq<seq<T>>): (r: seq<T>)
    ensures |r| == SumLengths(xss)
  {
    if xss == [] then [] else Flatten(xss[..|xss| - 1]) + xss[|xss| - 1]
  }

  /** Element `c` of list `v` sits right after all elements of the lists
      before `v`: the result follows list order, then element order. */
  lemma {:induction false} FlattenAt<T>(xss: seq<seq<T>>, v: nat, c: nat)
    requires v < |xss| && c < |xss[v]|
    ensures SumLengths(xss[..v]) + c < |Flatten(xss)|
    ensures Flatten(xss)[SumLengths(xss[..v]) + c] == xss[v][c]
  {
    var init := xss[..|xss| - 1];
    if v == |xss| - 1 {
      assert xss[..v] == init;
    } else {
      FlattenAt(init, v, c);
      assert init[..v] == xss[..v];
      assert init[v] == xss[v];
    }
  }

  /** Every element of the concatenation comes from some list, at the
      position `FlattenAt` gives it. */
  lemma {:induction false} FlattenSource<T>(xss: seq<seq<T>>, j: nat)
    requires j < |Flatten(xss)|
    ensures exists v, c ::
      (0 <= v < |xss| && 0 <= c < |xss[v]| && j == SumLengths(xss[..v]) + c && Flatten(xss)[j] == xss[v][c])
  {
    var init := xss[..|xss| - 1];
    var v := |xss| - 1;
    if j < |Flatten(init)| {
      FlattenSource(init, j);
      var v', c' :| 0 <= v' < |init| && 0 <= c' < |init[v']|
        && j == SumLengths(init[..v']) + c' && Flatten(init)[j] == init[v'][c'];
      assert init[..v'] == xss[..v'];
      assert xss[v'] == init[v'];
    } else {
      assert xss[..v] == init;
      var c := j - SumLengths(init);
      assert Flatten(xss)[j] == xss[v][c];
    }
  }

  /** What each video contributes: its response capped at the default. */
  function Fetched(responses: seq<seq<string>>): (lists: seq<seq<string>>)
    ensures |lists| == |responses|
    ensures forall k :: 0 <= k < |responses| ==>
      lists[k] == responses[k][..CapLength(|responses[k]|, DefaultMaxComments)]
  {
    seq(|responses|, k requires 0 <= k < |responses| =>
      responses[k][..CapLength(|responses[k]|, DefaultMaxComments)])
  }

  /** The first loop of `analyze_product_youtube`: each video's capped
      comments appended with `extend`, in video order. */
  method CollectComments(responses: seq<seq<string>>) returns (allComments: seq<string>)
    ensures allComments == Flatten(Fetched(responses))
  {
    ghost var lists := Fetched(responses);
    allComments := [];
    var k := 0;
    while k < |responses|
      invariant 0 <= k <= |responses|
      invariant allComments == Flatten(lists[..k])
    {
      var fetched := FetchComments(responses[k], DefaultMaxComments);
      assert lists[..k + 1][..k] == lists[..k];
      allComments := allComments + fetched;
      k := k + 1;
    }
    assert lists[..|responses|] == lists;
  }

  /** The second loop: one row per comment, in order, with its label. */
  method LabelComments(comments: seq<string>, e: Engines) returns (rows: seq<Row>)
    ensures |rows| == |comments|
    ensures forall j :: 0 <= j < |rows| ==>
      rows[j].comment == comments[j] && rows[j].sentiment == Predict(comments[j], e)
  {
    rows := [];
    var i := 0;
    while i < |comments|
      invariant 0 <= i <= |comments|
      invariant |rows| == i
      invariant forall j :: 0 <= j < i ==>
        rows[j].comment == comments[j] && rows[j].sentiment == Predict(comments[j], e)
    {
      var text := comments[i];
      var sentiment := Predict(text, e);
      rows := rows + [Row(text, sentiment)];
      i := i + 1;
    }
  }

  /** `analyze_product_youtube` from the per-video responses onward: one
      row per fetched comment, in video order and then comment order, each
      labelled by the labeller. */
  method AnalyzeProduct(responses: seq<seq<string>>, e: Engines) returns (rows: seq<Row>)
    ensures |rows| == |Flatten(Fetched(responses))| == SumLengths(Fetched(responses))
    ensures forall j :: 0 <= j < |rows| ==>
      rows[j].comment == Flatten(Fetched(responses))[j]
      && rows[j].sentiment == Predict(rows[j].comment, e)
  {
    var allComments := CollectComments(responses);
    rows := LabelComments(allComments, e);
  }

  /** The `Sentiment` column of the rows. */
  function SentimentColumn(rows: seq<Row>): (col: seq<Sentiment>)
    ensures |col| == |rows|
    ensures forall j :: 0 <= j < |rows| ==> col[j] == rows[j].sentiment
  {
    seq(|rows|, j requires 0 <= j < |rows| => rows[j].sentiment)
  }

  /** A comment that the fetch keeps for video `v` appears in the
      concatenation right after the kept comments of the earlier videos.
      `CommentSource` is the converse. */
  lemma CommentPosition(responses: seq<seq<string>>, v: nat, c: nat)
    requires v < |responses| && c < CapLength(|responses[v]|, DefaultMaxComments)
    ensures var lists := Fetched(responses);
      SumLengths(lists[..v]) + c < |Flatten(lists)|
      && Flatten(lists)[SumLengths(lists[..v]) + c] == responses[v][c]
  {
    var lists := Fetched(responses);
    FlattenAt(lists, v, c);
  }

  /** The summary figures of a result: the Positive count is bounded by the
      row count, and with the other two tallies it adds up to it. */
  lemma SummaryOfRows(rows: seq<Row>)
    ensures var col := SentimentColumn(rows);
      var s := Summarize(col);
      s.total == |rows| && s.positive <= |rows|
      && s.positive + Occurrences(col, Neutral) + Occurrences(col, Negative) == |rows|
  {
    OccurrencesSum(SentimentColumn(rows));
  }

  /** Every comment of the concatenation is one the fetch kept: comment
      `c < CapLength(...)` of some video `v`. */
  lemma CommentSource(responses: seq<seq<string>>, j: nat)
    requires j < |Flatten(Fetched(responses))|
    ensures exists v, c ::
      (0 <= v < |responses| && 0 <= c < CapLength(|responses[v]|, DefaultMaxComments)
       && Flatten(Fetched(responses))[j] == responses[v][c])
  {
    var lists := Fetched(responses);
    FlattenSource(lists, j);
    var v, c :| 0 <= v < |lists| && 0 <= c < |lists[v]|
      && j == SumLengths(lists[..v]) + c && Flatten(lists)[j] == lists[v][c];
    assert lists[v][c] == responses[v][c];
  }
}
