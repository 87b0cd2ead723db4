/**
 * The `posts` table of `bot.db`: one row per published tweet, with the
 * `content_hash` column declared UNIQUE. The bot inserts rows after a
 * successful publish; the analytics sweep rewrites their metric columns.
 */
module Ledger {
  import opened Collections

  /** Seconds since the epoch; `posted_at` and the report windows are compared as numbers. */
  type Timestamp = int

  const SecondsPerDay: int := 86400
  /** `datetime('now', '-7 days')`, `timedelta(days=7)`. */
  const WindowSeconds: int := 7 * SecondsPerDay

  datatype PostRow = PostRow(
    tweetId: string,
    contentHash: string,
    sourceUrl: Option<string>,
    sourceType: string,
    caption: string,
    captionType: string,
    hashtags: string,
    postedAt: Timestamp,
    postedHour: int,
    impressions: int,
    likes: int,
    retweets: int,
    replies: int,
    engagementRate: real)

  /** The five columns the metrics sweep writes. */
  datatype Metrics = Metrics(impressions: int, likes: int, retweets: int, replies: int, engagementRate: real)

  function MetricsOf(row: PostRow): Metrics {
    Metrics(row.impressions, row.likes, row.retweets, row.replies, row.engagementRate)
  }

  /** A row as `post_content` inserts it: the metric columns take their defaults (0). */
  function NewRow(tweetId: string, contentHash: string, sourceUrl: Option<string>, sourceType: string,
                  caption: string, captionType: string, hashtags: string,
                  postedAt: Timestamp, postedHour: int): (r: PostRow)
    ensures MetricsOf(r) == Metrics(0, 0, 0, 0, 0.0)
  {
    PostRow(tweetId, contentHash, sourceUrl, sourceType, caption, captionType, hashtags,
            postedAt, postedHour, 0, 0, 0, 0, 0.0)
  }

  /** The UNIQUE constraint on `content_hash`. */
  ghost predicate UniqueHashes(rows: seq<PostRow>) {
    forall i, j :: 0 <= i < j < |rows| ==> rows[i].contentHash != rows[j].contentHash
  }

  predicate HasHash(rows: seq<PostRow>, h: string) {
    exists i :: 0 <= i < |rows| && rows[i].contentHash == h
  }

  /** `row` with its metric columns replaced by `m`. */
  function WithMetrics(row: PostRow, m: Metrics): PostRow {
    row.(impressions := m.impressions, likes := m.likes, retweets := m.retweets,
         replies := m.replies, engagementRate := m.engagementRate)
  }

  /**
   * `UPDATE posts SET impressions=?, likes=?, retweets=?, replies=?, engagement_rate=?
   * WHERE tweet_id=?`: every row with that tweet id takes the new metrics and
   * keeps every other column; no other row changes.
   */
  function SetMetrics(rows: seq<PostRow>, tweetId: string, m: Metrics): (r: seq<PostRow>)
    ensures |r| == |rows|
    ensures forall i :: 0 <= i < |rows| && rows[i].tweetId != tweetId ==> r[i] == rows[i]
    ensures forall i :: 0 <= i < |rows| && rows[i].tweetId == tweetId ==>
      MetricsOf(r[i]) == m && WithMetrics(r[i], MetricsOf(rows[i])) == rows[i]
  {
    Map(rows, (row: PostRow) => if row.tweetId == tweetId then WithMetrics(row, m) else row)
  }

  /** The metrics update never touches a content hash, so it keeps the table's UNIQUE constraint. */
  lemma SetMetricsKeepsHashes(rows: seq<PostRow>, tweetId: string, m: Metrics)
    ensures forall i :: 0 <= i < |rows| ==> SetMetrics(rows, tweetId, m)[i].contentHash == rows[i].contentHash
    ensures UniqueHashes(rows) ==> UniqueHashes(SetMetrics(rows, tweetId, m))
  {
  }

  class PostLedger {
    var rows: seq<PostRow>

    ghost predicate Valid()
      reads this
    {
      UniqueHashes(rows)
    }

    /** `CREATE TABLE IF NOT EXISTS posts` on a fresh database. */
    constructor ()
      ensures Valid() && rows == []
    {
      rows := [];
    }

    /**
     * `INSERT INTO posts ...`: fails with an integrity error, leaving the table as
     * it was, when a row with the same content hash is already there.
     */
    method Insert(row: PostRow) returns (ok: bool)
      requires Valid()
      modifies this
      ensures Valid()
      ensures ok <==> !HasHash(old(rows), row.contentHash)
      ensures rows == if ok then old(rows) + [row] else old(rows)
    {
      ok := !HasHash(rows, row.contentHash);
      if ok {
        rows := rows + [row];
      }
    }

    method UpdateMetrics(tweetId: string, m: Metrics)
      requires Valid()
      modifies this
      ensures Valid()
      ensures rows == SetMetrics(old(rows), tweetId, m)
    {
      SetMetricsKeepsHashes(rows, tweetId, m);
      rows := SetMetrics(rows, tweetId, m);
    }
  }
}
