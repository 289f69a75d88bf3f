/** Impact scoring of scraped posts (app/utils/dataframe.py). A DataFrame is
    a set of column names and a sequence of rows, each row a map from every
    column to a cell. Parsing `create_time` and reading the clock are one
    parameter, `daysSince`: the whole days between the creation time and
    now, or the exception `datetime.fromisoformat` raises. */
module Dataframe {
  import opened Wrappers
  import opened Settings

  datatype Cell = Num(value: real) | Text(text: string)

  datatype Frame = Frame(columns: set<string>, rows: seq<map<string, Cell>>)

  /** Every row has a cell for exactly the frame's columns. */
  predicate WellFormed(df: Frame)
  {
    forall k :: 0 <= k < |df.rows| ==> df.rows[k].Keys == df.columns
  }

  /** `calculate_recentness_score` of a post `diff` days old: 365 for a post
      of today, otherwise `365 / diff`. */
  function Recentness(diff: int): (r: real)
    ensures diff == 0 ==> r == 365.0
    ensures diff != 0 ==> r * diff as real == 365.0
  {
    if diff == 0 then 365.0 else 365.0 / diff as real
  }

  /** An older post never scores higher: for a post at least a day old the
      score lies in (0, 365], and it falls as the post ages. */
  lemma RecentnessBounds(diff: int, older: int)
    requires 1 <= diff <= older
    ensures 0.0 < Recentness(diff) <= 365.0
    ensures Recentness(older) <= Recentness(diff)
  {
    var a := Recentness(diff);
    var b := Recentness(older);
    assert a * diff as real == 365.0 && b * older as real == 365.0;
    assert 0.0 < a;
    var d, o := diff as real, older as real;
    assert a * d <= a * o;
    assert b * o == a * d;
    assert (a - b) * o >= 0.0;
  }

  /** A creation time in the future is not guarded: the score is negative. */
  lemma FutureRecentnessNegative(diff: int)
    requires diff < 0
    ensures Recentness(diff) < 0.0
  {
    assert Recentness(diff) * diff as real == 365.0;
  }

  /** The weighted sum of the four counters and the recentness. */
  function Score(digg: real, comment: real, share: real, play: real, recentness: real, w: Weights): real
  {
    digg * w.digg + comment * w.comment + share * w.share + play * w.play + recentness * w.recentness
  }

  /** With the configured weights, a post with 100 likes, 10 comments, 5
      shares and 1000 plays posted 5 days ago has recentness 73 and impact
      score 231.3. */
  lemma ExampleScore()
    ensures Recentness(5) == 73.0
    ensures Score(100.0, 10.0, 5.0, 1000.0, Recentness(5), ConfiguredWeights) == 231.3
  {
    assert Recentness(5) * 5.0 == 365.0;
  }

  /** Non-negative counters and a post that is not from the future give a
      non-negative score under the configured weights. */
  lemma ScoreNonNegative(digg: real, comment: real, share: real, play: real, diff: int)
    requires digg >= 0.0 && comment >= 0.0 && share >= 0.0 && play >= 0.0 && diff >= 0
    ensures Score(digg, comment, share, play, Recentness(diff), ConfiguredWeights) >= 0.0
  {
    if diff > 0 {
      RecentnessBounds(diff, diff);
    }
  }

  const CreateTime: string := "create_time"
  const RecentnessColumn: string := "recentness_score"
  const ImpactColumn: string := "impact_score"

  /** The counter columns in the order the sum reads them. */
  const Counters: seq<string> := ["digg_count", "comment_count", "share_count", "play_count"]

  /** `df["create_time"].apply(calculate_recentness_score)`, row by row: the
      first row whose creation time cannot be parsed (or is not a string,
      so that `.replace` raises AttributeError) stops the apply. */
  function Recentnesses(rows: seq<map<string, Cell>>, daysSince: string -> Result<int, Exception>): (r: Result<seq<real>, Exception>)
    requires forall k :: 0 <= k < |rows| ==> CreateTime in rows[k]
    ensures r.Ok? ==> |r.value| == |rows| && forall k :: 0 <= k < |rows| ==>
      rows[k][CreateTime].Text? && daysSince(rows[k][CreateTime].text).Ok?
      && r.value[k] == Recentness(daysSince(rows[k][CreateTime].text).value)
    ensures r.Err? <==>
      exists k :: 0 <= k < |rows| && (rows[k][CreateTime].Num? || daysSince(rows[k][CreateTime].text).Err?)
  {
    if rows == [] then Ok([])
    else
      var c := rows[0][CreateTime];
      if c.Num? then Err(AttributeError)
      else if daysSince(c.text).Err? then Err(daysSince(c.text).error)
      else
        var rest := Recentnesses(rows[1..], daysSince);
        if rest.Err? then
          var k :| 0 <= k < |rows[1..]| && (rows[1..][k][CreateTime].Num? || daysSince(rows[1..][k][CreateTime].text).Err?);
          assert rows[k + 1] == rows[1..][k];
          rest
        else
          assert forall k :: 1 <= k < |rows| ==> rows[k] == rows[1..][k - 1];
          Ok([Recentness(daysSince(c.text).value)] + rest.value)
  }

  /** Counter column `c` is present and holds a number in every row, so
      that `df[c] * weight` succeeds. */
  predicate CounterReady(df: Frame, c: string)
    requires WellFormed(df)
  {
    c in df.columns && forall k :: 0 <= k < |df.rows| ==> df.rows[k][c].Num?
  }

  /** `Counters[i]` is the first counter from `Counters[j]` on that is not ready. */
  predicate FirstFault(df: Frame, j: nat, i: nat)
    requires WellFormed(df) && j <= i < |Counters|
  {
    !CounterReady(df, Counters[i]) && forall l :: j <= l < i ==> CounterReady(df, Counters[l])
  }

  /** What the weighted sum raises while it reads the counters from
      `Counters[j]` on, left to right: at the first counter that is not
      ready, KeyError when its column is missing, TypeError when a cell of
      it is not a number and the multiplication by its weight fails. */
  function CounterFault(df: Frame, j: nat): (r: Option<Exception>)
    requires WellFormed(df) && j <= |Counters|
    decreases |Counters| - j
    ensures r.None? <==> forall l :: j <= l < |Counters| ==> CounterReady(df, Counters[l])
    ensures r.Some? ==> exists i :: (j <= i < |Counters| && FirstFault(df, j, i)
      && r.value == if Counters[i] in df.columns then TypeError else KeyError(Counters[i]))
  {
    if j == |Counters| then None
    else if Counters[j] !in df.columns then Some(KeyError(Counters[j]))
    else if !CounterReady(df, Counters[j]) then Some(TypeError)
    else
      var r := CounterFault(df, j + 1);
      assert r.Some? ==> exists i :: (j <= i < |Counters| && FirstFault(df, j, i)
        && r.value == if Counters[i] in df.columns then TypeError else KeyError(Counters[i]));
      r
  }

  /** The first fault is unique, so it decides the exception. */
  lemma FirstFaultUnique(df: Frame, i: nat, l: nat)
    requires WellFormed(df) && i < |Counters| && l < |Counters|
    requires FirstFault(df, 0, i) && FirstFault(df, 0, l)
    ensures i == l
  {
  }

  /** The counters are all ready exactly when they are all columns and every
      row holds numbers in them. */
  lemma ReadyIffNumeric(df: Frame)
    requires WellFormed(df)
    ensures (forall l :: 0 <= l < |Counters| ==> CounterReady(df, Counters[l]))
      <==> (forall l :: 0 <= l < |Counters| ==> Counters[l] in df.columns)
           && forall k :: 0 <= k < |df.rows| ==> NumericCounters(df.rows[k])
  {
    if forall l :: 0 <= l < |Counters| ==> CounterReady(df, Counters[l]) {
      forall k | 0 <= k < |df.rows| ensures NumericCounters(df.rows[k]) {
        forall l | 0 <= l < |Counters| ensures Counters[l] in df.rows[k] && df.rows[k][Counters[l]].Num? {
          assert CounterReady(df, Counters[l]);
        }
      }
    }
  }

  predicate NumericCounters(row: map<string, Cell>)
  {
    forall k :: 0 <= k < |Counters| ==> Counters[k] in row && row[Counters[k]].Num?
  }

  /** The impact score of one row with numeric counters. */
  function RowScore(row: map<string, Cell>, recentness: real, w: Weights): real
    requires NumericCounters(row)
  {
    Score(row[Counters[0]].value, row[Counters[1]].value, row[Counters[2]].value, row[Counters[3]].value, recentness, w)
  }

  /** `calculate_impact_scores`: add `impact_score`, computed with the
      configured weights, to every row and drop `recentness_score`.
      Without `create_time` the apply raises KeyError; otherwise a creation
      time that cannot be turned into a day count raises first; otherwise
      the sum reads the counters left to right and the first one that is
      not ready raises (KeyError for a missing column, TypeError for a
      non-numeric cell). A successful scoring keeps every row, in order,
      adds exactly the column `impact_score` (a `recentness_score` column
      already present is dropped with the temporary one), leaves every
      other cell as it was, and stores in each row its weighted score. */
  function ImpactScores(df: Frame, daysSince: string -> Result<int, Exception>): (r: Result<Frame, Exception>)
    requires WellFormed(df)
    ensures CreateTime !in df.columns ==> r == Err(KeyError(CreateTime))
    ensures CreateTime in df.columns ==> (r.Err? <==>
      (exists k :: 0 <= k < |df.rows| && (df.rows[k][CreateTime].Num? || daysSince(df.rows[k][CreateTime].text).Err?))
      || (exists k :: 0 <= k < |Counters| && Counters[k] !in df.columns)
      || (exists k :: 0 <= k < |df.rows| && !NumericCounters(df.rows[k])))
    ensures CreateTime in df.columns && Recentnesses(df.rows, daysSince).Err? ==>
      r == Err(Recentnesses(df.rows, daysSince).error)
    ensures CreateTime in df.columns && Recentnesses(df.rows, daysSince).Ok? ==>
      forall i :: 0 <= i < |Counters| && FirstFault(df, 0, i) ==>
        r == Err(if Counters[i] in df.columns then TypeError else KeyError(Counters[i]))
    ensures r.Ok? ==>
      && WellFormed(r.value)
      && r.value.columns == df.columns - {RecentnessColumn} + {ImpactColumn}
      && |r.value.rows| == |df.rows|
      && forall k :: 0 <= k < |df.rows| ==>
           && NumericCounters(df.rows[k])
           && df.rows[k][CreateTime].Text?
           && daysSince(df.rows[k][CreateTime].text).Ok?
           && r.value.rows[k][ImpactColumn]
              == Num(RowScore(df.rows[k], Recentness(daysSince(df.rows[k][CreateTime].text).value), ConfiguredWeights))
           && forall c :: c in df.columns && c != RecentnessColumn && c != ImpactColumn ==>
                r.value.rows[k][c] == df.rows[k][c]
  {
    if CreateTime !in df.columns then Err(KeyError(CreateTime))
    else
      var rec := Recentnesses(df.rows, daysSince);
      if rec.Err? then Err(rec.error)
      else
        var fault := CounterFault(df, 0);
        ReadyIffNumeric(df);
        if fault.Some? then
          assert forall i :: 0 <= i < |Counters| && FirstFault(df, 0, i) ==>
            fault.value == if Counters[i] in df.columns then TypeError else KeyError(Counters[i]) by {
            forall i | 0 <= i < |Counters| && FirstFault(df, 0, i)
              ensures fault.value == if Counters[i] in df.columns then TypeError else KeyError(Counters[i])
            {
              var l :| 0 <= l < |Counters| && FirstFault(df, 0, l)
                && fault.value == if Counters[l] in df.columns then TypeError else KeyError(Counters[l]);
              FirstFaultUnique(df, i, l);
            }
          }
          Err(fault.value)
        else
          Ok(Frame(df.columns - {RecentnessColumn} + {ImpactColumn},
                   seq(|df.rows|, k requires 0 <= k < |df.rows| =>
                     (df.rows[k] - {RecentnessColumn})[ImpactColumn := Num(RowScore(df.rows[k], rec.value[k], ConfiguredWeights))])))
  }

  /** A text counter read before a missing one raises TypeError, not KeyError:
      the sum fails at the multiplication of the text column. */
  lemma TextCounterBeforeMissingIsTypeError(df: Frame, daysSince: string -> Result<int, Exception>, k: nat)
    requires WellFormed(df) && CreateTime in df.columns && Recentnesses(df.rows, daysSince).Ok?
    requires Counters[0] in df.columns && Counters[1] !in df.columns
    requires k < |df.rows| && df.rows[k][Counters[0]].Text?
    ensures ImpactScores(df, daysSince) == Err(TypeError)
  {
    assert FirstFault(df, 0, 0);
  }
}
