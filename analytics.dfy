/**
 * analytics.py: the metrics sweep (`Analytics.fetch_metrics`) that fills in
 * impressions and engagement for recent posts, and the aggregates that
 * `Analytics.show_report` prints.
 */
module Analytics {
  import opened Collections
  import opened Ledger
  import opened Aggregates

  /**
   * `(likes + retweets + replies) / impressions * 100` when impressions is
   * positive, else 0.
   */
  function EngagementRate(impressions: int, likes: int, retweets: int, replies: int): (r: real)
    ensures impressions > 0 ==> r * (impressions as real) == ((likes + retweets + replies) * 100) as real
    ensures impressions <= 0 ==> r == 0.0
  {
    if impressions > 0 then (likes + retweets + replies) as real / (impressions as real) * 100.0 else 0.0
  }

  /** 1000 impressions, 40 likes, 5 retweets and 5 replies give exactly 5.0. */
  lemma EngagementRateExample()
    ensures EngagementRate(1000, 40, 5, 5) == 5.0
  {
  }

  /** A rate is positive exactly when there were impressions and some engagement. */
  lemma EngagementRateSign(impressions: int, likes: int, retweets: int, replies: int)
    requires likes >= 0 && retweets >= 0 && replies >= 0
    ensures EngagementRate(impressions, likes, retweets, replies) >= 0.0
    ensures EngagementRate(impressions, likes, retweets, replies) > 0.0
        <==> impressions > 0 && likes + retweets + replies > 0
  {
    var r := EngagementRate(impressions, likes, retweets, replies);
    if impressions > 0 {
      assert r * (impressions as real) == ((likes + retweets + replies) * 100) as real;
      if r == 0.0 {
        assert ((likes + retweets + replies) * 100) as real == 0.0;
      }
    }
  }

  /** A post the sweep re-fetches: inside the window and with no impressions yet. */
  predicate IsPending(row: PostRow, cutoff: Timestamp) {
    row.postedAt > cutoff && row.impressions == 0
  }

  function TweetIdOf(row: PostRow): string { row.tweetId }

  /** `SELECT tweet_id FROM posts WHERE posted_at > ? AND impressions = 0`. */
  function Pending(rows: seq<PostRow>, cutoff: Timestamp): (ids: seq<string>)
    ensures |ids| <= |rows|
    ensures forall id :: id in ids <==> exists row :: row in rows && IsPending(row, cutoff) && row.tweetId == id
  {
    var pending := Filter(rows, (row: PostRow) => IsPending(row, cutoff));
    var ids := Map(pending, TweetIdOf);
    assert forall id :: id in ids ==> exists row :: row in pending && row.tweetId == id;
    assert forall row :: row in pending ==> row.tweetId in ids by {
      forall row | row in pending ensures row.tweetId in ids {
        var k :| 0 <= k < |pending| && pending[k] == row;
        assert ids[k] == row.tweetId;
      }
    }
    ids
  }

  /** `tweet.data.public_metrics`; an absent key is None. */
  datatype PublicMetrics = PublicMetrics(
    impressionCount: Option<int>,
    likeCount: Option<int>,
    retweetCount: Option<int>,
    replyCount: Option<int>)

  /**
   * What one iteration of the sweep writes for a tweet, or None when it raises:
   * the `get_tweet` call failed (None response) or one of `like_count`,
   * `retweet_count`, `reply_count` is missing. A missing `impression_count`
   * reads as 0.
   */
  function Reading(response: Option<PublicMetrics>): (m: Option<Metrics>)
    ensures m.Some? <==> response.Some? && response.value.likeCount.Some?
                         && response.value.retweetCount.Some? && response.value.replyCount.Some?
    ensures m.Some? && response.value.impressionCount.None? ==> m.value.impressions == 0 && m.value.engagementRate == 0.0
  {
    match response
    case None => None
    case Some(pm) =>
      if pm.likeCount.None? || pm.retweetCount.None? || pm.replyCount.None? then None
      else
        var impressions := match pm.impressionCount case Some(n) => n case None => 0;
        var likes, retweets, replies := pm.likeCount.value, pm.retweetCount.value, pm.replyCount.value;
        Some(Metrics(impressions, likes, retweets, replies, EngagementRate(impressions, likes, retweets, replies)))
  }

  /** The table after the sweep has handled `ids` in order, given the API's answer per tweet id. */
  function Sweep(rows: seq<PostRow>, ids: seq<string>, fetch: string -> Option<PublicMetrics>): (r: seq<PostRow>)
    ensures |r| == |rows|
    ensures forall i :: 0 <= i < |rows| ==> WithMetrics(r[i], MetricsOf(rows[i])) == rows[i]
    decreases |ids|
  {
    if ids == [] then rows
    else
      var before := Sweep(rows, ids[..|ids| - 1], fetch);
      var id := ids[|ids| - 1];
      match Reading(fetch(id))
      case None => before
      case Some(m) => SetMetrics(before, id, m)
  }

  /** One more id swept: its successful reading is written over the table so far. */
  lemma SweepStep(rows: seq<PostRow>, ids: seq<string>, i: nat, fetch: string -> Option<PublicMetrics>)
    requires i < |ids|
    ensures Reading(fetch(ids[i])).None? ==> Sweep(rows, ids[..i + 1], fetch) == Sweep(rows, ids[..i], fetch)
    ensures Reading(fetch(ids[i])).Some? ==>
      Sweep(rows, ids[..i + 1], fetch) == SetMetrics(Sweep(rows, ids[..i], fetch), ids[i], Reading(fetch(ids[i])).value)
    ensures Successes(ids[..i + 1], fetch) == Successes(ids[..i], fetch) + if Reading(fetch(ids[i])).Some? then 1 else 0
  {
    assert ids[..i + 1][..i] == ids[..i];
  }

  /** How many of `ids` the sweep updates: the `updated` counter. */
  function Successes(ids: seq<string>, fetch: string -> Option<PublicMetrics>): (n: nat)
    ensures n <= |ids|
    decreases |ids|
  {
    if ids == [] then 0
    else Successes(ids[..|ids| - 1], fetch) + (if Reading(fetch(ids[|ids| - 1])).Some? then 1 else 0)
  }

  /** The row `row` becomes once the sweep over `ids` is done. */
  function Refreshed(row: PostRow, ids: seq<string>, fetch: string -> Option<PublicMetrics>): PostRow {
    if row.tweetId in ids && Reading(fetch(row.tweetId)).Some? then WithMetrics(row, Reading(fetch(row.tweetId)).value)
    else row
  }

  /**
   * The sweep's effect, row by row: a row whose tweet id was swept and read
   * successfully holds the fetched metrics; every other row is as it was; no
   * row is added, removed or moved, and no other column changes.
   */
  lemma {:induction false} SweepEffect(rows: seq<PostRow>, ids: seq<string>, fetch: string -> Option<PublicMetrics>)
    ensures |Sweep(rows, ids, fetch)| == |rows|
    ensures forall i :: 0 <= i < |rows| ==> Sweep(rows, ids, fetch)[i] == Refreshed(rows[i], ids, fetch)
    decreases |ids|
  {
    if ids != [] {
      var prefix := ids[..|ids| - 1];
      var id := ids[|ids| - 1];
      SweepEffect(rows, prefix, fetch);
      assert forall x :: x in ids <==> x in prefix || x == id;
    }
  }

  /** The sweep keeps the UNIQUE constraint and every recorded content hash where it was. */
  lemma SweepKeepsHashes(rows: seq<PostRow>, ids: seq<string>, fetch: string -> Option<PublicMetrics>)
    ensures |Sweep(rows, ids, fetch)| == |rows|
    ensures forall i :: 0 <= i < |rows| ==> Sweep(rows, ids, fetch)[i].contentHash == rows[i].contentHash
    ensures UniqueHashes(rows) ==> UniqueHashes(Sweep(rows, ids, fetch))
  {
    SweepEffect(rows, ids, fetch);
  }

  /**
   * A post just recorded inside the window is pending: the next sweep asks for
   * its metrics, and learning does not read it until it has impressions.
   */
  lemma NewRowPending(rows: seq<PostRow>, cutoff: Timestamp, row: PostRow)
    requires row.postedAt > cutoff
    requires MetricsOf(row) == Metrics(0, 0, 0, 0, 0.0)
    ensures row.tweetId in Pending(rows + [row], cutoff)
    ensures row !in LearningRows(rows + [row], cutoff)
  {
    assert row in rows + [row];
  }

  /**
   * A pending post whose response lacks `impression_count` is written with 0
   * impressions and so is still pending for the next sweep.
   */
  lemma MissingImpressionsStayPending(rows: seq<PostRow>, cutoff: Timestamp, i: nat,
                                      fetch: string -> Option<PublicMetrics>)
    requires i < |rows| && IsPending(rows[i], cutoff)
    requires fetch(rows[i].tweetId).Some? && fetch(rows[i].tweetId).value.impressionCount.None?
    ensures var after := Sweep(rows, Pending(rows, cutoff), fetch);
      |after| == |rows| && IsPending(after[i], cutoff)
  {
    SweepEffect(rows, Pending(rows, cutoff), fetch);
  }

  /** One pass of the loop body: the post's metrics are read and, when the read succeeds, written. */
  method SweepOne(ledger: PostLedger, ghost start: seq<PostRow>, posts: seq<string>, i: nat,
                  fetch: string -> Option<PublicMetrics>) returns (ok: bool)
    requires ledger.Valid() && i < |posts|
    requires ledger.rows == Sweep(start, posts[..i], fetch)
    modifies ledger
    ensures ledger.Valid()
    ensures ledger.rows == Sweep(start, posts[..i + 1], fetch)
    ensures ok <==> Reading(fetch(posts[i])).Some?
    ensures Successes(posts[..i + 1], fetch) == Successes(posts[..i], fetch) + if ok then 1 else 0
  {
    SweepStep(start, posts, i, fetch);
    match Reading(fetch(posts[i])) {
      case None =>
        ok := false;
      case Some(m) =>
        ledger.UpdateMetrics(posts[i], m);
        ok := true;
    }
  }

  /**
   * `fetch_metrics`: for each pending post, in order, ask the API for its
   * metrics; a failure for one post is skipped and the sweep goes on. Returns
   * the number of posts updated.
   */
  method FetchMetrics(ledger: PostLedger, now: Timestamp, fetch: string -> Option<PublicMetrics>)
    returns (updated: nat)
    requires ledger.Valid()
    modifies ledger
    ensures ledger.Valid()
    ensures var pending := Pending(old(ledger.rows), now - WindowSeconds);
      && updated == Successes(pending, fetch)
      && updated <= |pending|
      && ledger.rows == Sweep(old(ledger.rows), pending, fetch)
  {
    var posts := Pending(ledger.rows, now - WindowSeconds);
    updated := SweepAll(ledger, posts, fetch);
  }

  /** The loop of `fetch_metrics` over the ids it selected, in order. */
  method SweepAll(ledger: PostLedger, posts: seq<string>, fetch: string -> Option<PublicMetrics>)
    returns (updated: nat)
    requires ledger.Valid()
    modifies ledger
    ensures ledger.Valid()
    ensures updated == Successes(posts, fetch)
    ensures ledger.rows == Sweep(old(ledger.rows), posts, fetch)
  {
    ghost var start := ledger.rows;
    updated := 0;
    var i := 0;
    while i < |posts|
      invariant 0 <= i <= |posts|
      invariant ledger.Valid()
      invariant ledger.rows == Sweep(start, posts[..i], fetch)
      invariant updated == Successes(posts[..i], fetch)
    {
      var ok := SweepOne(ledger, start, posts, i, fetch);
      if ok {
        updated := updated + 1;
      }
      i := i + 1;
    }
    assert posts[..|posts|] == posts;
  }

  // ---------------------------------------------------------------------------
  // The aggregates of `show_report`. The report's windows are
  // `datetime('now', '-7 days')`, i.e. rows posted after `now - WindowSeconds`.

  function ImpressionsOf(row: PostRow): int { row.impressions }
  function LikesOf(row: PostRow): int { row.likes }
  function RetweetsOf(row: PostRow): int { row.retweets }

  /** `total_views // total if total else 0`: Python's floor division, 0 for an empty table. */
  function AvgViewsPerPost(totalViews: int, total: nat): (r: int)
    ensures total == 0 ==> r == 0
    ensures total > 0 ==> r * total <= totalViews < (r + 1) * total
  {
    if total == 0 then 0 else totalViews / total
  }

  /** The OVERALL STATS section; a `SUM` over no rows (NULL, then `or 0`) is 0. */
  datatype Overall = Overall(
    totalPosts: nat,
    totalViews: int,
    totalLikes: int,
    totalRetweets: int,
    avgEngagement: real,
    avgViewsPerPost: int)

  function OverallStats(rows: seq<PostRow>): (o: Overall)
    ensures o.totalPosts == |rows|
    ensures o.totalViews == SumInts(Map(rows, ImpressionsOf))
    ensures o.totalLikes == SumInts(Map(rows, LikesOf))
    ensures o.totalRetweets == SumInts(Map(rows, RetweetsOf))
    ensures o.avgEngagement == MeanRate(Measured(rows))
    ensures o.avgViewsPerPost == AvgViewsPerPost(o.totalViews, o.totalPosts)
    ensures rows == [] ==> o == Overall(0, 0, 0, 0, 0.0, 0)
  {
    var views := SumInts(Map(rows, ImpressionsOf));
    Overall(|rows|, views, SumInts(Map(rows, LikesOf)), SumInts(Map(rows, RetweetsOf)),
            MeanRate(Measured(rows)), AvgViewsPerPost(views, |rows|))
  }

  lemma {:induction false} SumIntsAppend(xs: seq<int>, ys: seq<int>)
    ensures SumInts(xs + ys) == SumInts(xs) + SumInts(ys)
  {
    if xs == [] {
      assert xs + ys == ys;
    } else {
      assert (xs + ys)[0] == xs[0];
      assert (xs + ys)[1..] == xs[1..] + ys;
      SumIntsAppend(xs[1..], ys);
    }
  }

  /**
   * The totals are sums over the table: adding a post adds its impressions,
   * likes and retweets, and one post more is counted. The average engagement
   * reads only measured posts, so a post without impressions leaves it as it was.
   */
  lemma OverallAddPost(rows: seq<PostRow>, row: PostRow)
    ensures var before, after := OverallStats(rows), OverallStats(rows + [row]);
      && after.totalPosts == before.totalPosts + 1
      && after.totalViews == before.totalViews + row.impressions
      && after.totalLikes == before.totalLikes + row.likes
      && after.totalRetweets == before.totalRetweets + row.retweets
      && (row.impressions <= 0 ==> after.avgEngagement == before.avgEngagement)
  {
    assert Map(rows + [row], ImpressionsOf) == Map(rows, ImpressionsOf) + [row.impressions];
    assert Map(rows + [row], LikesOf) == Map(rows, LikesOf) + [row.likes];
    assert Map(rows + [row], RetweetsOf) == Map(rows, RetweetsOf) + [row.retweets];
    SumIntsAppend(Map(rows, ImpressionsOf), [row.impressions]);
    SumIntsAppend(Map(rows, LikesOf), [row.likes]);
    SumIntsAppend(Map(rows, RetweetsOf), [row.retweets]);
    if row.impressions <= 0 {
      MeasuredSkipsUnmeasured(rows, row);
    }
  }

  lemma {:induction false} MeasuredSkipsUnmeasured(rows: seq<PostRow>, row: PostRow)
    requires row.impressions <= 0
    ensures Measured(rows + [row]) == Measured(rows)
  {
    if rows != [] {
      assert (rows + [row])[1..] == rows[1..] + [row];
      MeasuredSkipsUnmeasured(rows[1..], row);
    }
  }

  /** The number of posts the top list shows. */
  const TopLimit: nat := 5

  /**
   * `SELECT ... FROM posts WHERE posted_at > <cutoff> ORDER BY impressions DESC
   * LIMIT 5`; posts with equal impressions keep their table order.
   */
  function TopPosts(rows: seq<PostRow>, cutoff: Timestamp): (r: seq<PostRow>)
    ensures |r| <= TopLimit
    ensures forall row :: row in r ==> row in rows && row.postedAt > cutoff
  {
    SortDescMembers(Recent(rows, cutoff), ViewsOf);
    PrefixMembers(SortDesc(Recent(rows, cutoff), ViewsOf), TopLimit);
    Prefix(SortDesc(Recent(rows, cutoff), ViewsOf), TopLimit)
  }

  /**
   * The top list: at most five posts, as many as the window holds up to five,
   * each a post of the window (none repeated more often than in the table), by
   * non-increasing impressions.
   */
  lemma TopPostsShape(rows: seq<PostRow>, cutoff: Timestamp)
    ensures var top := TopPosts(rows, cutoff);
      && |top| == (if |Recent(rows, cutoff)| < TopLimit then |Recent(rows, cutoff)| else TopLimit)
      && multiset(top) <= multiset(Recent(rows, cutoff))
      && (forall i :: 0 <= i < |top| ==> top[i] in rows && top[i].postedAt > cutoff)
      && (forall i, j :: 0 <= i < j < |top| ==> top[i].impressions >= top[j].impressions)
  {
    var recent := Recent(rows, cutoff);
    var sorted := SortDesc(recent, ViewsOf);
    var top := TopPosts(rows, cutoff);
    PrefixSubMultiset(sorted, TopLimit);
    forall i | 0 <= i < |top| ensures top[i] in rows && top[i].postedAt > cutoff {
      assert top[i] in multiset(top);
      assert top[i] in recent;
    }
    forall i, j | 0 <= i < j < |top| ensures top[i].impressions >= top[j].impressions {
      assert top[i] == sorted[i] && top[j] == sorted[j];
      assert ViewsOf(sorted[i]) >= ViewsOf(sorted[j]);
    }
  }

  /**
   * No post of the window is left out in favour of a less viewed one: a window
   * post missing from the list means five posts are listed, each with at least
   * its impressions.
   */
  lemma TopPostsTop(rows: seq<PostRow>, cutoff: Timestamp, row: PostRow)
    requires row in rows && row.postedAt > cutoff
    requires row !in TopPosts(rows, cutoff)
    ensures |TopPosts(rows, cutoff)| == TopLimit
    ensures forall i :: 0 <= i < TopLimit ==> TopPosts(rows, cutoff)[i].impressions >= row.impressions
  {
    var recent := Recent(rows, cutoff);
    var sorted := SortDesc(recent, ViewsOf);
    assert row in recent;
    assert row in multiset(recent);
    assert row in sorted;
    PrefixKeepsLargest(sorted, ViewsOf, TopLimit, row);
  }

  /** One line of BEST POSTING HOURS. */
  datatype HourStat = HourStat(hour: int, avgEngagement: real, avgViews: real)

  /** The hours query of the report: the learned hours, with their means. */
  function HourStats(rows: seq<PostRow>, cutoff: Timestamp): (r: seq<HourStat>)
    ensures |r| == |BestHours(rows, cutoff)|
    ensures forall i :: 0 <= i < |r| ==> r[i].hour == BestHours(rows, cutoff)[i]
    ensures forall i :: 0 <= i < |r| ==>
      && r[i].avgEngagement == HourMean(rows, cutoff, r[i].hour)
      && r[i].avgViews == MeanViews(Group(LearningRows(rows, cutoff), HourOf, r[i].hour))
  {
    var learning := LearningRows(rows, cutoff);
    Map(BestHours(rows, cutoff), (h: int) =>
      HourStat(h, HourMean(rows, cutoff, h), MeanViews(Group(learning, HourOf, h))))
  }

  /**
   * At most six lines, one per distinct hour of a measured post in the window,
   * by non-increasing average engagement.
   */
  lemma HourStatsShape(rows: seq<PostRow>, cutoff: Timestamp)
    ensures var r := HourStats(rows, cutoff);
      && |r| <= BestHoursLimit
      && (forall i, j :: 0 <= i < j < |r| ==> r[i].hour != r[j].hour)
      && (forall i :: 0 <= i < |r| ==> LearnedHour(rows, cutoff, r[i].hour))
      && (forall i, j :: 0 <= i < j < |r| ==> r[i].avgEngagement >= r[j].avgEngagement)
  {
    BestHoursShape(rows, cutoff);
  }

  /** One line of BEST CONTENT TYPE. */
  datatype TypeStat = TypeStat(sourceType: string, avgEngagement: real, avgViews: real, count: nat)

  /** `SELECT source_type, AVG(engagement_rate), AVG(impressions), COUNT(*) ... GROUP BY source_type ORDER BY avg_eng DESC`. */
  function TypeStats(rows: seq<PostRow>, cutoff: Timestamp): (r: seq<TypeStat>)
    ensures |r| == |Ranked(LearningRows(rows, cutoff), SourceTypeOf)|
    ensures forall i :: 0 <= i < |r| ==> r[i].sourceType == Ranked(LearningRows(rows, cutoff), SourceTypeOf)[i]
    ensures forall i :: 0 <= i < |r| ==>
      var g := Group(LearningRows(rows, cutoff), SourceTypeOf, r[i].sourceType);
      r[i].avgEngagement == MeanRate(g) && r[i].avgViews == MeanViews(g) && r[i].count == |g|
  {
    var learning := LearningRows(rows, cutoff);
    Map(Ranked(learning, SourceTypeOf), (t: string) =>
      var g := Group(learning, SourceTypeOf, t);
      TypeStat(t, MeanRate(g), MeanViews(g), |g|))
  }

  function TypeCount(stats: seq<TypeStat>): nat {
    if stats == [] then 0 else stats[0].count + TypeCount(stats[1..])
  }

  /**
   * Every content type of a measured post in the window has exactly one line,
   * the lines run by non-increasing engagement, and their post counts add up
   * to the number of measured posts in the window.
   */
  lemma TypeStatsShape(rows: seq<PostRow>, cutoff: Timestamp)
    ensures var r := TypeStats(rows, cutoff);
      && (forall i, j :: 0 <= i < j < |r| ==> r[i].sourceType != r[j].sourceType)
      && (forall t :: (exists i :: 0 <= i < |r| && r[i].sourceType == t) <==> t in Map(LearningRows(rows, cutoff), SourceTypeOf))
      && (forall i, j :: 0 <= i < j < |r| ==> r[i].avgEngagement >= r[j].avgEngagement)
      && TypeCount(r) == |LearningRows(rows, cutoff)|
  {
    var learning := LearningRows(rows, cutoff);
    var ranked := Ranked(learning, SourceTypeOf);
    var r := TypeStats(rows, cutoff);
    RankedSpec(learning, SourceTypeOf);
    RankedCoversRows(learning, SourceTypeOf);
    TypeCountIsGroupSizes(learning, ranked, r);
  }

  lemma {:induction false} TypeCountIsGroupSizes(rows: seq<PostRow>, ks: seq<string>, stats: seq<TypeStat>)
    requires |stats| == |ks|
    requires forall i :: 0 <= i < |ks| ==> stats[i].count == |Group(rows, SourceTypeOf, ks[i])|
    ensures TypeCount(stats) == GroupSizes(rows, SourceTypeOf, ks)
  {
    if ks != [] {
      TypeCountIsGroupSizes(rows, ks[1..], stats[1..]);
    }
  }

  /** One line of BEST CAPTION STYLE. */
  datatype CaptionStat = CaptionStat(captionType: string, avgEngagement: real, count: nat)

  /** `SELECT caption_type, AVG(engagement_rate), COUNT(*) ... GROUP BY caption_type ORDER BY avg_eng DESC`. */
  function CaptionStats(rows: seq<PostRow>, cutoff: Timestamp): (r: seq<CaptionStat>)
    ensures |r| == |Ranked(LearningRows(rows, cutoff), CaptionTypeOf)|
    ensures forall i :: 0 <= i < |r| ==> r[i].captionType == Ranked(LearningRows(rows, cutoff), CaptionTypeOf)[i]
    ensures forall i :: 0 <= i < |r| ==>
      var g := Group(LearningRows(rows, cutoff), CaptionTypeOf, r[i].captionType);
      r[i].avgEngagement == MeanRate(g) && r[i].count == |g|
  {
    var learning := LearningRows(rows, cutoff);
    Map(Ranked(learning, CaptionTypeOf), (c: string) =>
      var g := Group(learning, CaptionTypeOf, c);
      CaptionStat(c, MeanRate(g), |g|))
  }

  function CaptionCount(stats: seq<CaptionStat>): nat {
    if stats == [] then 0 else stats[0].count + CaptionCount(stats[1..])
  }

  /** As for content types: one line per caption style, by engagement, counts adding up. */
  lemma CaptionStatsShape(rows: seq<PostRow>, cutoff: Timestamp)
    ensures var r := CaptionStats(rows, cutoff);
      && (forall i, j :: 0 <= i < j < |r| ==> r[i].captionType != r[j].captionType)
      && (forall c :: (exists i :: 0 <= i < |r| && r[i].captionType == c) <==> c in Map(LearningRows(rows, cutoff), CaptionTypeOf))
      && (forall i, j :: 0 <= i < j < |r| ==> r[i].avgEngagement >= r[j].avgEngagement)
      && CaptionCount(r) == |LearningRows(rows, cutoff)|
  {
    var learning := LearningRows(rows, cutoff);
    var ranked := Ranked(learning, CaptionTypeOf);
    var r := CaptionStats(rows, cutoff);
    RankedSpec(learning, CaptionTypeOf);
    RankedCoversRows(learning, CaptionTypeOf);
    CaptionCountIsGroupSizes(learning, ranked, r);
  }

  lemma {:induction false} CaptionCountIsGroupSizes(rows: seq<PostRow>, ks: seq<string>, stats: seq<CaptionStat>)
    requires |stats| == |ks|
    requires forall i :: 0 <= i < |ks| ==> stats[i].count == |Group(rows, CaptionTypeOf, ks[i])|
    ensures CaptionCount(stats) == GroupSizes(rows, CaptionTypeOf, ks)
  {
    if ks != [] {
      CaptionCountIsGroupSizes(rows, ks[1..], stats[1..]);
    }
  }

  /** `DATE(posted_at)`, as a day number. */
  function DayOf(row: PostRow): int { row.postedAt / SecondsPerDay }

  /** One line of the 7-DAY GROWTH TREND; NULL sums and averages are 0. */
  datatype DayStat = DayStat(day: int, posts: nat, views: int, likes: int, avgEngagement: real)

  /**
   * `SELECT COUNT(*), SUM(impressions), SUM(likes), AVG(engagement_rate) FROM posts WHERE DATE(posted_at) = ?`.
   * Unlike the report's other averages, this one reads all of the day's
   * posts, measured or not.
   */
  function DayStats(rows: seq<PostRow>, day: int): (s: DayStat)
    ensures s.day == day
    ensures s.posts == |Group(rows, DayOf, day)|
    ensures s.views == SumInts(Map(Group(rows, DayOf, day), ImpressionsOf))
    ensures s.likes == SumInts(Map(Group(rows, DayOf, day), LikesOf))
    ensures s.avgEngagement == MeanRate(Group(rows, DayOf, day))
    ensures rows == [] ==> s == DayStat(day, 0, 0, 0, 0.0)
  {
    var g := Group(rows, DayOf, day);
    DayStat(day, |g|, SumInts(Map(g, ImpressionsOf)), SumInts(Map(g, LikesOf)), MeanRate(g))
  }

  /**
   * A new post counts on its own day only: that day gains one post, its
   * impressions and its likes; every other day is unchanged.
   */
  lemma DayAddPost(rows: seq<PostRow>, row: PostRow, day: int)
    ensures var before, after := DayStats(rows, day), DayStats(rows + [row], day);
      && (DayOf(row) == day ==>
            && after.posts == before.posts + 1
            && after.views == before.views + row.impressions
            && after.likes == before.likes + row.likes)
      && (DayOf(row) != day ==> after == before)
  {
    GroupAppend(rows, DayOf, day, row);
    if DayOf(row) == day {
      DaySumsAdd(rows, row);
    } else {
      assert Group(rows, DayOf, day) + [] == Group(rows, DayOf, day);
    }
  }

  /** The post count and sums of a post's own day, once the post is added. */
  lemma DaySumsAdd(rows: seq<PostRow>, row: PostRow)
    ensures var g := Group(rows, DayOf, DayOf(row));
      && SumInts(Map(g + [row], ImpressionsOf)) == SumInts(Map(g, ImpressionsOf)) + row.impressions
      && SumInts(Map(g + [row], LikesOf)) == SumInts(Map(g, LikesOf)) + row.likes
  {
    var g := Group(rows, DayOf, DayOf(row));
    assert Map(g + [row], ImpressionsOf) == Map(g, ImpressionsOf) + [row.impressions];
    assert Map(g + [row], LikesOf) == Map(g, LikesOf) + [row.likes];
    SumIntsAppend(Map(g, ImpressionsOf), [row.impressions]);
    SumIntsAppend(Map(g, LikesOf), [row.likes]);
  }

  const TrendLength: nat := 7

  /** The days `today - 6`, ..., `today`: `range(6, -1, -1)` days back. */
  function TrendWindow(today: int): (days: seq<int>)
    ensures |days| == TrendLength
    ensures forall i :: 0 <= i < |days| ==> days[i] == today - (TrendLength - 1) + i
    ensures forall d :: d in days <==> today - (TrendLength - 1) <= d <= today
  {
    var days := seq(TrendLength, (i: int) => today - (TrendLength - 1) + i);
    forall d | today - (TrendLength - 1) <= d <= today ensures d in days {
      assert days[d - today + (TrendLength - 1)] == d;
    }
    assert forall i :: 0 <= i < |days| ==> today - (TrendLength - 1) <= days[i] <= today;
    days
  }

  /** The trend: seven lines, one per day from six days ago to today, in that order. */
  function Trend(rows: seq<PostRow>, today: int): (r: seq<DayStat>)
    ensures |r| == TrendLength
    ensures forall i :: 0 <= i < |r| ==> r[i].day == today - (TrendLength - 1) + i
    ensures forall i :: 0 <= i && i + 1 < |r| ==> r[i + 1].day == r[i].day + 1
    ensures forall i :: 0 <= i < |r| ==> r[i] == DayStats(rows, r[i].day)
  {
    Map(TrendWindow(today), (d: int) => DayStats(rows, d))
  }

  function TrendPosts(stats: seq<DayStat>): nat {
    if stats == [] then 0 else stats[0].posts + TrendPosts(stats[1..])
  }

  /**
   * The seven days count each post of the last seven days once and no other
   * post: the trend's post counts add up to the number of posts whose day is
   * between six days ago and today.
   */
  lemma TrendCoversWeek(rows: seq<PostRow>, today: int)
    ensures TrendPosts(Trend(rows, today)) == CountWhere(rows, DayOf, TrendWindow(today))
  {
    var days := TrendWindow(today);
    assert NoDuplicates(days);
    TrendPostsIsGroupSizes(rows, days, Trend(rows, today));
    GroupSizesCount(rows, DayOf, days);
  }

  lemma {:induction false} TrendPostsIsGroupSizes(rows: seq<PostRow>, days: seq<int>, stats: seq<DayStat>)
    requires |stats| == |days|
    requires forall i :: 0 <= i < |days| ==> stats[i].posts == |Group(rows, DayOf, days[i])|
    ensures TrendPosts(stats) == GroupSizes(rows, DayOf, days)
  {
    if days != [] {
      TrendPostsIsGroupSizes(rows, days[1..], stats[1..]);
    }
  }
}
