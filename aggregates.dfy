/**
 * The `GROUP BY ... ORDER BY AVG(engagement_rate) DESC` queries over the
 * posts table, shared by the bot's learning step (main.py) and the report
 * (analytics.py): the 7-day window, the measured rows, grouping by a column,
 * per-group means and the ranking of groups.
 */
module Aggregates {
  import opened Collections
  import opened Ledger

  function Sum(xs: seq<real>): real {
    if xs == [] then 0.0 else xs[0] + Sum(xs[1..])
  }

  function SumInts(xs: seq<int>): int {
    if xs == [] then 0 else xs[0] + SumInts(xs[1..])
  }

  /** SQL `AVG` followed by `or 0`: the arithmetic mean, 0 for no rows. */
  function Mean(xs: seq<real>): (r: real)
    ensures xs == [] ==> r == 0.0
    ensures xs != [] ==> r * (|xs| as real) == Sum(xs)
  {
    if |xs| == 0 then 0.0 else Sum(xs) / (|xs| as real)
  }

  function RateOf(row: PostRow): real { row.engagementRate }
  function ViewsOf(row: PostRow): real { row.impressions as real }
  function HourOf(row: PostRow): int { row.postedHour }
  function SourceTypeOf(row: PostRow): string { row.sourceType }
  function CaptionTypeOf(row: PostRow): string { row.captionType }

  function MeanRate(rows: seq<PostRow>): real { Mean(Map(rows, RateOf)) }
  function MeanViews(rows: seq<PostRow>): real { Mean(Map(rows, ViewsOf)) }

  /** `WHERE posted_at > <cutoff>`. */
  function Recent(rows: seq<PostRow>, cutoff: Timestamp): seq<PostRow> {
    Filter(rows, (row: PostRow) => row.postedAt > cutoff)
  }

  /** `WHERE impressions > 0`. */
  function Measured(rows: seq<PostRow>): seq<PostRow> {
    Filter(rows, (row: PostRow) => row.impressions > 0)
  }

  /** The rows the learning queries read: inside the window and with fetched impressions. */
  function LearningRows(rows: seq<PostRow>, cutoff: Timestamp): (r: seq<PostRow>)
    ensures forall row :: row in r <==> row in rows && row.postedAt > cutoff && row.impressions > 0
  {
    assert forall row :: row in Recent(rows, cutoff) <==> row in rows && row.postedAt > cutoff;
    Measured(Recent(rows, cutoff))
  }

  /** When every row is inside the window and measured, the learning queries read all of them, in order. */
  lemma LearningKeepsAll(rows: seq<PostRow>, cutoff: Timestamp)
    requires forall row :: row in rows ==> row.postedAt > cutoff && row.impressions > 0
    ensures LearningRows(rows, cutoff) == rows
  {
    FilterKeepsAll(rows, (row: PostRow) => row.postedAt > cutoff);
    FilterKeepsAll(rows, (row: PostRow) => row.impressions > 0);
  }

  /** The distinct values of a column, in order of first appearance. */
  function Keys<K(==,!new)>(rows: seq<PostRow>, key: PostRow -> K): seq<K> {
    Distinct(Map(rows, key))
  }

  /** The rows of one group of `GROUP BY key`. */
  function Group<K(==)>(rows: seq<PostRow>, key: PostRow -> K, k: K): seq<PostRow> {
    if rows == [] then []
    else (if key(rows[0]) == k then [rows[0]] else []) + Group(rows[1..], key, k)
  }

  /** Appending a row adds it to its own group and leaves every other group as it was. */
  lemma {:induction false} GroupAppend<K>(rows: seq<PostRow>, key: PostRow -> K, k: K, row: PostRow)
    ensures Group(rows + [row], key, k) == Group(rows, key, k) + (if key(row) == k then [row] else [])
  {
    if rows == [] {
      assert [row][1..] == [];
    } else {
      assert (rows + [row])[1..] == rows[1..] + [row];
      GroupAppend(rows[1..], key, k, row);
    }
  }

  function GroupMeanRate<K(==)>(rows: seq<PostRow>, key: PostRow -> K): K -> real {
    k => MeanRate(Group(rows, key, k))
  }

  /**
   * `GROUP BY key ORDER BY AVG(engagement_rate) DESC`. SQL leaves the order of
   * groups with equal means open; this model keeps them in order of first
   * appearance.
   */
  function Ranked<K(==,!new)>(rows: seq<PostRow>, key: PostRow -> K): seq<K> {
    SortDesc(Keys(rows, key), GroupMeanRate(rows, key))
  }

  /** Every group appears exactly once, by non-increasing mean engagement rate. */
  lemma RankedSpec<K(!new)>(rows: seq<PostRow>, key: PostRow -> K)
    ensures NoDuplicates(Ranked(rows, key))
    ensures forall k :: k in Ranked(rows, key) <==> k in Map(rows, key)
    ensures NonIncreasing(Ranked(rows, key), GroupMeanRate(rows, key))
  {
    var keys := Keys(rows, key);
    var r := Ranked(rows, key);
    SubMultisetNoDuplicates(r, keys);
    forall k ensures k in r <==> k in keys {
      assert k in r <==> k in multiset(r);
      assert k in keys <==> k in multiset(keys);
    }
  }

  /** The sizes of the groups `ks`, added up. */
  function GroupSizes<K(==)>(rows: seq<PostRow>, key: PostRow -> K, ks: seq<K>): nat {
    if ks == [] then 0 else |Group(rows, key, ks[0])| + GroupSizes(rows, key, ks[1..])
  }

  /** The number of rows whose key is one of `ks`. */
  function CountWhere<K(==)>(rows: seq<PostRow>, key: PostRow -> K, ks: seq<K>): nat {
    if rows == [] then 0 else (if key(rows[0]) in ks then 1 else 0) + CountWhere(rows[1..], key, ks)
  }

  /** How many positions of `ks` hold `v`. */
  function Hits<K(==)>(v: K, ks: seq<K>): nat {
    if ks == [] then 0 else (if ks[0] == v then 1 else 0) + Hits(v, ks[1..])
  }

  lemma {:induction false} HitsDistinct<K>(v: K, ks: seq<K>)
    requires NoDuplicates(ks)
    ensures Hits(v, ks) == if v in ks then 1 else 0
  {
    if ks != [] {
      HitsDistinct(v, ks[1..]);
      assert v in ks <==> v == ks[0] || v in ks[1..];
    }
  }

  lemma {:induction false} GroupSizesStep<K>(rows: seq<PostRow>, key: PostRow -> K, ks: seq<K>)
    requires rows != []
    ensures GroupSizes(rows, key, ks) == Hits(key(rows[0]), ks) + GroupSizes(rows[1..], key, ks)
  {
    if ks != [] {
      GroupSizesStep(rows, key, ks[1..]);
    }
  }

  /**
   * Groups for distinct keys do not overlap: their sizes add up to the number
   * of rows whose key is among them.
   */
  lemma {:induction false} GroupSizesCount<K>(rows: seq<PostRow>, key: PostRow -> K, ks: seq<K>)
    requires NoDuplicates(ks)
    ensures GroupSizes(rows, key, ks) == CountWhere(rows, key, ks)
  {
    if rows == [] {
      GroupSizesEmpty(key, ks);
    } else {
      GroupSizesStep(rows, key, ks);
      HitsDistinct(key(rows[0]), ks);
      GroupSizesCount(rows[1..], key, ks);
    }
  }

  lemma {:induction false} GroupSizesEmpty<K>(key: PostRow -> K, ks: seq<K>)
    ensures GroupSizes([], key, ks) == 0
  {
    if ks != [] {
      GroupSizesEmpty(key, ks[1..]);
    }
  }

  /** When every row's key is among `ks`, all rows are counted. */
  lemma {:induction false} CountWhereAll<K>(rows: seq<PostRow>, key: PostRow -> K, ks: seq<K>)
    requires forall i :: 0 <= i < |rows| ==> key(rows[i]) in ks
    ensures CountWhere(rows, key, ks) == |rows|
  {
    if rows != [] {
      CountWhereAll(rows[1..], key, ks);
    }
  }

  /**
   * Grouping a table by a column and listing every group once covers every row
   * exactly once: the group sizes add up to the table's size.
   */
  lemma RankedCoversRows<K(!new)>(rows: seq<PostRow>, key: PostRow -> K)
    ensures GroupSizes(rows, key, Ranked(rows, key)) == |rows|
  {
    var ranked := Ranked(rows, key);
    RankedSpec(rows, key);
    GroupSizesCount(rows, key, ranked);
    forall i | 0 <= i < |rows| ensures key(rows[i]) in ranked {
      assert Map(rows, key)[i] == key(rows[i]);
    }
    CountWhereAll(rows, key, ranked);
  }

  /** The number of hours the bot learns and the report lists. */
  const BestHoursLimit: nat := 6

  /** Mean engagement rate of the learning rows posted in hour `h`. */
  function HourMean(rows: seq<PostRow>, cutoff: Timestamp, h: int): real {
    GroupMeanRate(LearningRows(rows, cutoff), HourOf)(h)
  }

  /**
   * `SELECT posted_hour ... WHERE posted_at > <cutoff> AND impressions > 0
   * GROUP BY posted_hour ORDER BY AVG(engagement_rate) DESC LIMIT 6`.
   */
  function BestHours(rows: seq<PostRow>, cutoff: Timestamp): (r: seq<int>)
    ensures |r| <= BestHoursLimit
    ensures forall h :: h in r ==> h in Map(LearningRows(rows, cutoff), HourOf)
  {
    var ranked := Ranked(LearningRows(rows, cutoff), HourOf);
    RankedSpec(LearningRows(rows, cutoff), HourOf);
    PrefixMembers(ranked, BestHoursLimit);
    Prefix(ranked, BestHoursLimit)
  }

  /** The hours of the measured rows in the window. */
  ghost predicate LearnedHour(rows: seq<PostRow>, cutoff: Timestamp, h: int) {
    exists row :: row in LearningRows(rows, cutoff) && row.postedHour == h
  }

  lemma HoursColumn(rows: seq<PostRow>, cutoff: Timestamp, h: int)
    ensures h in Map(LearningRows(rows, cutoff), HourOf) <==> LearnedHour(rows, cutoff, h)
  {
    var learning := LearningRows(rows, cutoff);
    if h in Map(learning, HourOf) {
      var k :| 0 <= k < |learning| && Map(learning, HourOf)[k] == h;
      assert learning[k] in learning;
    }
    if LearnedHour(rows, cutoff, h) {
      var row :| row in learning && row.postedHour == h;
      var k :| 0 <= k < |learning| && learning[k] == row;
      assert Map(learning, HourOf)[k] == h;
    }
  }

  /**
   * The learned hours: at most six distinct hours, each the hour of a measured
   * row in the window, by non-increasing mean engagement rate.
   */
  lemma BestHoursShape(rows: seq<PostRow>, cutoff: Timestamp)
    ensures var r := BestHours(rows, cutoff);
      && |r| <= BestHoursLimit
      && NoDuplicates(r)
      && (forall i :: 0 <= i < |r| ==> LearnedHour(rows, cutoff, r[i]))
      && (forall i, j :: 0 <= i < j < |r| ==> HourMean(rows, cutoff, r[i]) >= HourMean(rows, cutoff, r[j]))
  {
    var learning := LearningRows(rows, cutoff);
    var ranked := Ranked(learning, HourOf);
    RankedSpec(learning, HourOf);
    PrefixShape(ranked, BestHoursLimit, GroupMeanRate(learning, HourOf));
    var r := BestHours(rows, cutoff);
    forall i | 0 <= i < |r| ensures LearnedHour(rows, cutoff, r[i]) {
      assert r[i] in ranked;
      HoursColumn(rows, cutoff, r[i]);
    }
  }

  /** When every row is measured and inside the window, the learner ranks and averages all of them. */
  lemma WholeWindow(rows: seq<PostRow>, cutoff: Timestamp)
    requires forall row :: row in rows ==> row.postedAt > cutoff && row.impressions > 0
    ensures BestHours(rows, cutoff) == Prefix(Ranked(rows, HourOf), BestHoursLimit)
    ensures forall h :: HourMean(rows, cutoff, h) == GroupMeanRate(rows, HourOf)(h)
  {
    LearningKeepsAll(rows, cutoff);
  }

  /**
   * No hour is left out in favour of a worse one: an hour of a measured row
   * that is not learned means six hours were learned, each at least as good.
   */
  lemma BestHoursTop(rows: seq<PostRow>, cutoff: Timestamp, h: int)
    requires LearnedHour(rows, cutoff, h)
    requires h !in BestHours(rows, cutoff)
    ensures |BestHours(rows, cutoff)| == BestHoursLimit
    ensures forall i :: 0 <= i < BestHoursLimit ==>
      HourMean(rows, cutoff, BestHours(rows, cutoff)[i]) >= HourMean(rows, cutoff, h)
  {
    var learning := LearningRows(rows, cutoff);
    var ranked := Ranked(learning, HourOf);
    RankedSpec(learning, HourOf);
    HoursColumn(rows, cutoff, h);
    PrefixKeepsLargest(ranked, GroupMeanRate(learning, HourOf), BestHoursLimit, h);
  }

  /** Nothing is learned exactly when the window has no measured row. */
  lemma BestHoursEmpty(rows: seq<PostRow>, cutoff: Timestamp)
    ensures BestHours(rows, cutoff) == [] <==> LearningRows(rows, cutoff) == []
  {
    var learning := LearningRows(rows, cutoff);
    RankedSpec(learning, HourOf);
    if learning != [] {
      assert HourOf(learning[0]) in Map(learning, HourOf);
    }
  }

  /** Mean engagement rate of the learning rows of content type `t`. */
  function TypeMean(rows: seq<PostRow>, cutoff: Timestamp, t: string): real {
    GroupMeanRate(LearningRows(rows, cutoff), SourceTypeOf)(t)
  }

  /**
   * `SELECT source_type ... GROUP BY source_type ORDER BY avg_eng DESC`, first
   * row: the content type the bot reports as its best.
   */
  function BestContentType(rows: seq<PostRow>, cutoff: Timestamp): Option<string> {
    var ranked := Ranked(LearningRows(rows, cutoff), SourceTypeOf);
    if ranked == [] then None else Some(ranked[0])
  }

  /** There is a best content type exactly when the window has a measured row. */
  lemma BestContentTypeExists(rows: seq<PostRow>, cutoff: Timestamp)
    ensures BestContentType(rows, cutoff).Some? <==> LearningRows(rows, cutoff) != []
  {
    var learning := LearningRows(rows, cutoff);
    RankedSpec(learning, SourceTypeOf);
    if learning != [] {
      assert SourceTypeOf(learning[0]) in Map(learning, SourceTypeOf);
    }
  }

  /** The best content type is one that occurs, and no type in the window has a higher mean. */
  lemma BestContentTypeIsBest(rows: seq<PostRow>, cutoff: Timestamp, t: string)
    requires t in Map(LearningRows(rows, cutoff), SourceTypeOf)
    ensures BestContentType(rows, cutoff).Some?
    ensures BestContentType(rows, cutoff).value in Map(LearningRows(rows, cutoff), SourceTypeOf)
    ensures TypeMean(rows, cutoff, BestContentType(rows, cutoff).value) >= TypeMean(rows, cutoff, t)
  {
    var learning := LearningRows(rows, cutoff);
    var ranked := Ranked(learning, SourceTypeOf);
    RankedSpec(learning, SourceTypeOf);
    assert ranked[0] in ranked;
    HeadIsLargest(ranked, GroupMeanRate(learning, SourceTypeOf), t);
  }
}

module AggregatesExample {
  import opened Collections
  import opened Ledger
  import opened Aggregates

  function MeasuredRow(hour: int, rate: real): PostRow {
    PostRow("t", "h", None, "meme", "", "cta", "", 100, hour, 1000, 0, 0, 0, rate)
  }

  function ExampleRows(): seq<PostRow> {
    [MeasuredRow(9, 5.0), MeasuredRow(9, 7.0), MeasuredRow(14, 2.0)]
  }

  lemma ExampleKeys()
    ensures Keys(ExampleRows(), HourOf) == [9, 14]
  {
    var hours := Map(ExampleRows(), HourOf);
    assert hours == [9, 9, 14];
    assert hours[..1] == [9] && hours[..2] == [9, 9] && hours[..0] == [];
    assert Distinct(hours[..0]) == [];
    assert Distinct(hours[..1]) == [9];
    assert Distinct(hours[..2]) == [9];
  }

  lemma ExampleGroupNine()
    ensures Group(ExampleRows(), HourOf, 9) == ExampleRows()[..2]
  {
    var rows := ExampleRows();
    assert rows[1..][1..] == rows[2..] && rows[2..][1..] == [];
    assert Group(rows[2..], HourOf, 9) == [];
    assert Group(rows[1..], HourOf, 9) == [rows[1]];
    assert [rows[0]] + [rows[1]] == rows[..2];
  }

  lemma ExampleGroupFourteen()
    ensures Group(ExampleRows(), HourOf, 14) == ExampleRows()[2..]
  {
    var rows := ExampleRows();
    assert rows[1..][1..] == rows[2..] && rows[2..][1..] == [];
    assert Group(rows[2..], HourOf, 14) == rows[2..];
    assert Group(rows[1..], HourOf, 14) == rows[2..];
  }

  lemma ExampleMeans()
    ensures MeanRate(ExampleRows()[..2]) == 6.0
    ensures MeanRate(ExampleRows()[2..]) == 2.0
  {
    var rows := ExampleRows();
    assert Map(rows[..2], RateOf) == [5.0, 7.0];
    assert Map(rows[2..], RateOf) == [2.0];
    assert Sum([5.0, 7.0]) == 12.0;
    assert Sum([2.0]) == 2.0;
  }

  /** Rows (9, 5.0), (9, 7.0), (14, 2.0): hour 9 averages 6.0 and ranks before hour 14. */
  lemma ExampleHourMeans()
    ensures GroupMeanRate(ExampleRows(), HourOf)(9) == 6.0
    ensures GroupMeanRate(ExampleRows(), HourOf)(14) == 2.0
  {
    ExampleGroupNine();
    ExampleGroupFourteen();
    ExampleMeans();
  }

  lemma ExampleSort(f: int -> real)
    requires f(9) >= f(14)
    ensures SortDesc([9, 14], f) == [9, 14]
  {
    assert [9, 14][1..] == [14] && [14][1..] == [];
    assert SortDesc([14], f) == [14];
    assert Insert(9, [14], f) == [9, 14];
  }

  lemma ExampleRanking()
    ensures Ranked(ExampleRows(), HourOf) == [9, 14]
  {
    ExampleKeys();
    ExampleHourMeans();
    ExampleSort(GroupMeanRate(ExampleRows(), HourOf));
  }

  /** Rows (hour 9, 5.0), (hour 9, 7.0), (hour 14, 2.0): hour 9 averages 6.0 and ranks before hour 14. */
  lemma BestHoursExample()
    ensures BestHours(ExampleRows(), 0) == [9, 14]
    ensures HourMean(ExampleRows(), 0, 9) == 6.0
  {
    WholeWindow(ExampleRows(), 0);
    ExampleRanking();
    ExampleHourMeans();
    assert Prefix([9, 14], BestHoursLimit) == [9, 14];
  }
}
