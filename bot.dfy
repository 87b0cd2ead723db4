/**
 * `JVWBot` (main.py): learning the best posting hours from the ledger, the
 * image cache lookup, the caption, the rate-limit wait, one posting attempt
 * and one iteration of the scheduling loop. The clock, the random draws and
 * every network or platform answer are inputs; SHA-256 and UTF-8 encoding
 * are functions the bot is given.
 */
module Bot {
  import opened Collections
  import opened Draws
  import opened Ledger
  import opened Aggregates
  import opened Caption
  import opened Scraper

  /** The keys of `config.json` the bot reads; `best_hours` is the initial value of the learned hours. */
  datatype Config = Config(
    learningEnabled: bool,
    bestHours: seq<int>,
    minIntervalSeconds: int,
    maxIntervalSeconds: int,
    hashtags: HashtagConfig,
    scraper: ScraperConfig)

  // ---------------------------------------------------------------------------
  // Learning

  /**
   * `_learn_from_analytics` on `best_hours`: unchanged when learning is off or
   * no measured post falls in the last seven days, else the hours query.
   */
  function Learned(enabled: bool, current: seq<int>, rows: seq<PostRow>, now: Timestamp): (r: seq<int>)
    ensures !enabled ==> r == current
    ensures r == current || (r == BestHours(rows, now - WindowSeconds) && r != [])
  {
    if !enabled then current
    else
      var hours := BestHours(rows, now - WindowSeconds);
      if hours == [] then current else hours
  }

  /** Nothing to learn from leaves the hours as they were. */
  lemma LearnedKeeps(enabled: bool, current: seq<int>, rows: seq<PostRow>, now: Timestamp)
    requires !enabled || LearningRows(rows, now - WindowSeconds) == []
    ensures Learned(enabled, current, rows, now) == current
  {
    BestHoursEmpty(rows, now - WindowSeconds);
  }

  /**
   * Otherwise the hours become one to six distinct hours of measured posts of
   * the last seven days, by non-increasing mean engagement rate, and no hour
   * left out has a higher mean than one kept.
   */
  lemma LearnedHours(enabled: bool, current: seq<int>, rows: seq<PostRow>, now: Timestamp)
    requires enabled && LearningRows(rows, now - WindowSeconds) != []
    ensures var cutoff := now - WindowSeconds;
      var r := Learned(enabled, current, rows, now);
      && r == BestHours(rows, cutoff)
      && 0 < |r| <= BestHoursLimit
      && NoDuplicates(r)
      && (forall i :: 0 <= i < |r| ==> LearnedHour(rows, cutoff, r[i]))
      && (forall i, j :: 0 <= i < j < |r| ==> HourMean(rows, cutoff, r[i]) >= HourMean(rows, cutoff, r[j]))
      && (forall h :: LearnedHour(rows, cutoff, h) && h !in r ==>
            |r| == BestHoursLimit && forall i :: 0 <= i < |r| ==> HourMean(rows, cutoff, r[i]) >= HourMean(rows, cutoff, h))
  {
    var cutoff := now - WindowSeconds;
    BestHoursEmpty(rows, cutoff);
    BestHoursShape(rows, cutoff);
    forall h | LearnedHour(rows, cutoff, h) && h !in BestHours(rows, cutoff)
      ensures |BestHours(rows, cutoff)| == BestHoursLimit
      ensures forall i :: 0 <= i < |BestHours(rows, cutoff)| ==>
        HourMean(rows, cutoff, BestHours(rows, cutoff)[i]) >= HourMean(rows, cutoff, h)
    {
      BestHoursTop(rows, cutoff, h);
    }
  }

  // ---------------------------------------------------------------------------
  // The image cache

  const CacheDir: string := "cache/"
  /** `hexdigest()[:16]`. */
  const KeyLength: nat := 16
  /** A SHA-256 digest is 32 bytes, 64 hex digits. */
  const HexDigestLength: nat := 64

  /** What `hexdigest()` of SHA-256 returns: 64 hex digits. */
  type HexDigest = s: string | |s| == HexDigestLength
    witness "0000000000000000000000000000000000000000000000000000000000000000"

  function CachePath(key: string): string { CacheDir + key + ".jpg" }

  /** The files in the cache directory. */
  class ImageCache {
    var files: set<string>

    constructor (files: set<string>)
      ensures this.files == files
    {
      this.files := files;
    }
  }

  /** A file on the local disk: its bytes, and whether PIL can open it as an image. */
  datatype LocalFile = LocalFile(bytes: seq<bv8>, isImage: bool)

  /** `(str(cache_path), content_hash)`. */
  datatype Download = Download(path: string, contentHash: string)

  // ---------------------------------------------------------------------------
  // Posting

  /** A tweet on the bot's account: its id, text, media id and the time it was sent. */
  datatype Tweet = Tweet(id: string, text: string, mediaId: string, at: real)

  /** The bot's X account, as far as the bot changes it. */
  class Account {
    var tweets: seq<Tweet>

    constructor (tweets: seq<Tweet>)
      ensures this.tweets == tweets
    {
      this.tweets := tweets;
    }
  }

  /**
   * The answers of everything outside the bot during one attempt: the web
   * pages the scraper reads, the local disk, whether an image download and
   * decode succeed, and the platform's media upload (a media id) and
   * `create_tweet` (a tweet id).
   */
  datatype Services = Services(
    web: Web,
    localFiles: map<string, LocalFile>,
    remoteImageOk: string -> bool,
    upload: string -> Option<string>,
    publish: (string, string) -> Option<string>)

  /** The random draws of one attempt. */
  datatype PostDraws = PostDraws(content: ContentDraws, caption: CaptionDraws)

  /**
   * The clock readings of one attempt: `time.time()` in the rate-limit check
   * and after posting, and `datetime.now()` as stored (seconds and hour).
   */
  datatype Clock = Clock(now: real, finished: real, postedAt: Timestamp, postedHour: int)

  /** The tweets, the table rows and the counters before an attempt, and the rate-limit wait it then faces. */
  datatype Snapshot = Snapshot(tweets: seq<Tweet>, rows: seq<PostRow>, postCount: nat, lastPostTime: real, wait: real)

  /** What an attempt has in hand when it calls `create_tweet`. */
  datatype Staging = Staging(content: Content, download: Download, mediaId: string, caption: GeneratedCaption)

  /**
   * `get_random_content` returns `(url, type, extra)`: three values, the three
   * components `url`, `sourceType` and `extra` of `Scraper.Content`.
   */
  const ContentArity: nat := 3
  /** `content_url, source_type = ...` names two. */
  const UnpackTargets: nat := 2

  /** Unpacking a tuple into names raises ValueError unless the counts agree. */
  function Unpacks(arity: nat, targets: nat): (r: bool)
    ensures r <==> arity == targets
  {
    arity == targets
  }

  /** The attempt as written fails at the unpacking of every content tuple. */
  lemma ContentNeverUnpacks()
    ensures !Unpacks(ContentArity, UnpackTargets)
  {
  }

  // ---------------------------------------------------------------------------
  // Scheduling

  /** `random.random() < 0.25` skips an off-peak iteration. */
  const SkipChance: real := 0.25
  /** Learning reruns whenever the post count is a positive multiple of this. */
  const LearnEvery: nat := 10

  /** How one iteration of `run_forever` ends. */
  datatype Iteration =
    | Errored                                             // `randint` raised; the loop sleeps and goes on
    | Skipped(interval: int)                              // an off-peak skip
    | Ran(interval: int, posted: bool, learned: bool)     // `post_content` ran

  datatype IterationDraws = IterationDraws(intervalDraw: nat, skipRoll: real, post: PostDraws)

  function ShouldLearn(postCount: nat): (r: bool)
    ensures r <==> postCount > 0 && postCount % LearnEvery == 0
  {
    postCount % LearnEvery == 0 && postCount > 0
  }

  class JVWBot {
    const config: Config
    /** `hashlib.sha256(data).hexdigest()`. */
    const sha256Hex: seq<bv8> -> HexDigest
    /** `str.encode()`. */
    const encode: string -> seq<bv8>
    /** The `posts` table of `bot.db`. */
    const ledger: PostLedger
    const cache: ImageCache
    const account: Account

    var postCount: nat
    var lastPostTime: real
    /** `config['best_hours']`, which learning overwrites. */
    var bestHours: seq<int>

    ghost predicate Valid()
      reads this, ledger
    {
      ledger.Valid()
    }

    /**
     * `__init__`: the table (kept with its rows if it exists), the counters at
     * zero, then a first round of learning.
     */
    constructor (config: Config, sha256Hex: seq<bv8> -> HexDigest, encode: string -> seq<bv8>,
                 ledger: PostLedger, cache: ImageCache, account: Account, now: Timestamp)
      requires ledger.Valid()
      ensures Valid()
      ensures this.config == config && this.ledger == ledger && this.cache == cache && this.account == account
      ensures this.sha256Hex == sha256Hex && this.encode == encode
      ensures postCount == 0 && lastPostTime == 0.0
      ensures bestHours == Learned(config.learningEnabled, config.bestHours, ledger.rows, now)
    {
      this.config := config;
      this.sha256Hex := sha256Hex;
      this.encode := encode;
      this.ledger := ledger;
      this.cache := cache;
      this.account := account;
      postCount := 0;
      lastPostTime := 0.0;
      bestHours := Learned(config.learningEnabled, config.bestHours, ledger.rows, now);
    }

    /** `_learn_from_analytics`: the best-content query only prints, so only the hours change. */
    method LearnFromAnalytics(now: Timestamp)
      modifies this
      ensures bestHours == Learned(config.learningEnabled, old(bestHours), ledger.rows, now)
      ensures postCount == old(postCount) && lastPostTime == old(lastPostTime)
    {
      if !config.learningEnabled {
        return;
      }
      var hours := BestHours(ledger.rows, now - WindowSeconds);
      if hours != [] {
        bestHours := hours;
      }
    }

    /** `_is_duplicate`: duplicate checking is switched off, so no hash is ever rejected. */
    function IsDuplicate(contentHash: string): (r: bool)
      ensures !r
    {
      false
    }

    /** The first 16 hex digits of the SHA-256 of `data`. */
    function Digest(data: seq<bv8>): (key: string)
      ensures |key| == KeyLength
      ensures key == sha256Hex(data)[..KeyLength]
    {
      Prefix(sha256Hex(data), KeyLength)
    }

    /** The cache key of a URL: a function of the URL string alone. */
    function UrlKey(url: string): (key: string)
      ensures |key| == KeyLength
      ensures key == sha256Hex(encode(url))[..KeyLength]
    {
      Digest(encode(url))
    }

    /**
     * What `_download_optimize` returns for `url` when the cache directory
     * holds `files`: a URL whose key names a cached file gives that file and
     * key without fetching. Otherwise a local file is opened and keyed by the
     * hash of its bytes; anything else is downloaded and keyed by the URL. A
     * None URL, a failed download or an unreadable image raises (None).
     */
    function Downloaded(url: Option<string>, files: set<string>, localFiles: map<string, LocalFile>,
                        remoteImageOk: string -> bool): (r: Option<Download>)
      ensures url.None? ==> r.None?
      ensures url.Some? && CachePath(UrlKey(url.value)) in files ==>
        r == Some(Download(CachePath(UrlKey(url.value)), UrlKey(url.value)))
      ensures url.Some? && CachePath(UrlKey(url.value)) !in files && url.value in localFiles ==>
        (r.Some? <==> localFiles[url.value].isImage)
        && (r.Some? ==> r.value.contentHash == Digest(localFiles[url.value].bytes))
      ensures url.Some? && CachePath(UrlKey(url.value)) !in files && url.value !in localFiles ==>
        (r.Some? <==> remoteImageOk(url.value))
        && (r.Some? ==> r.value.contentHash == UrlKey(url.value))
      ensures r.Some? ==> r.value.path == CachePath(r.value.contentHash)
    {
      if url.None? then None
      else
        var key := UrlKey(url.value);
        if CachePath(key) in files then Some(Download(CachePath(key), key))
        else if url.value in localFiles then
          var file := localFiles[url.value];
          if file.isImage then Some(Download(CachePath(Digest(file.bytes)), Digest(file.bytes))) else None
        else if remoteImageOk(url.value) then Some(Download(CachePath(key), key))
        else None
    }

    /** `_download_optimize`: returns `Downloaded` of the cache as it was, and a success leaves the image in the cache. */
    method DownloadOptimize(url: Option<string>, localFiles: map<string, LocalFile>, remoteImageOk: string -> bool)
      returns (r: Option<Download>)
      modifies cache
      ensures r == Downloaded(url, old(cache.files), localFiles, remoteImageOk)
      ensures r.Some? ==> cache.files == old(cache.files) + {r.value.path}
      ensures r.None? ==> cache.files == old(cache.files)
    {
      if url.None? {
        return None;
      }
      var contentHash := UrlKey(url.value);
      var cachePath := CachePath(contentHash);
      if cachePath in cache.files {
        return Some(Download(cachePath, contentHash));
      }
      if url.value in localFiles {
        var file := localFiles[url.value];
        if !file.isImage {
          return None;
        }
        contentHash := Digest(file.bytes);
        cachePath := CachePath(contentHash);
      } else if !remoteImageOk(url.value) {
        return None;
      }
      cache.files := cache.files + {cachePath};
      return Some(Download(cachePath, contentHash));
    }

    /** `_rate_limit_check`: how long it sleeps at time `now`. */
    function RateLimitWait(now: real): (wait: real)
      reads this
      ensures wait >= 0.0
      ensures now + wait - lastPostTime >= config.minIntervalSeconds as real
      ensures wait > 0.0 ==> now + wait - lastPostTime == config.minIntervalSeconds as real
    {
      var elapsed := now - lastPostTime;
      if elapsed < config.minIntervalSeconds as real then config.minIntervalSeconds as real - elapsed else 0.0
    }

    /**
     * `create_tweet`: on success the tweet is on the account, sent once the
     * rate-limit wait is over.
     */
    method Publish(publish: (string, string) -> Option<string>, text: string, mediaId: string, at: real)
      returns (tweetId: Option<string>)
      modifies account
      ensures tweetId == publish(text, mediaId)
      ensures tweetId.Some? ==> account.tweets == old(account.tweets) + [Tweet(tweetId.value, text, mediaId, at)]
      ensures tweetId.None? ==> account.tweets == old(account.tweets)
    {
      tweetId := publish(text, mediaId);
      if tweetId.Some? {
        account.tweets := account.tweets + [Tweet(tweetId.value, text, mediaId, at)];
      }
    }

    /** What a posting attempt may change, as it was before the attempt, and the rate-limit wait then due. */
    function Snap(now: real): (s: Snapshot)
      reads this, ledger, account
      ensures s.wait >= 0.0
      ensures now + s.wait - s.lastPostTime >= config.minIntervalSeconds as real
    {
      Snapshot(account.tweets, ledger.rows, postCount, lastPostTime, RateLimitWait(now))
    }

    /**
     * The effect of a posting attempt that returned `ok`, from the state
     * `before`, given what it had staged. Nothing reaches the platform unless
     * every step before the tweet succeeded; then the tweet is sent once the
     * rate-limit wait is over. The attempt succeeds exactly when the tweet went
     * out and its content hash is new to the table; then the table gains the
     * post's row and the counters move, otherwise neither changes.
     */
    predicate Sent(staged: Option<Staging>, publish: (string, string) -> Option<string>, clock: Clock,
                   before: Snapshot, ok: bool)
      reads this`postCount, this`lastPostTime, ledger, account
    {
      && (staged.None? ==> !ok && account.tweets == before.tweets)
      && (staged.Some? ==>
            var st := staged.value;
            var tweetId := publish(st.caption.caption, st.mediaId);
            && account.tweets == before.tweets +
                 (if tweetId.Some? then [Tweet(tweetId.value, st.caption.caption, st.mediaId, clock.now + before.wait)] else [])
            && (ok <==> tweetId.Some? && !HasHash(before.rows, st.download.contentHash))
            && (ok ==>
                  ledger.rows == before.rows + [NewRow(tweetId.value, st.download.contentHash, st.content.url,
                    st.content.sourceType, st.caption.caption, st.caption.captionType, st.caption.hashtags,
                    clock.postedAt, clock.postedHour)]))
      && (ok ==> postCount == before.postCount + 1 && lastPostTime == clock.finished)
      && (!ok ==> ledger.rows == before.rows && postCount == before.postCount && lastPostTime == before.lastPostTime)
    }

    /**
     * The last steps of `post_content`: sleep out the rate limit, send the
     * tweet, insert its row, and only then move the counters. A UNIQUE
     * violation on the content hash fails the insert with the tweet already out.
     */
    method PublishAndRecord(publish: (string, string) -> Option<string>, st: Staging, clock: Clock) returns (ok: bool)
      requires Valid()
      modifies this, ledger, account
      ensures Valid()
      ensures bestHours == old(bestHours)
      ensures Sent(Some(st), publish, clock, old(Snap(clock.now)), ok)
    {
      var wait := RateLimitWait(clock.now);
      var tweetId := Publish(publish, st.caption.caption, st.mediaId, clock.now + wait);
      if tweetId.None? {
        assert account.tweets == old(account.tweets) + [];
        return false;
      }
      var row := NewRow(tweetId.value, st.download.contentHash, st.content.url, st.content.sourceType,
                        st.caption.caption, st.caption.captionType, st.caption.hashtags,
                        clock.postedAt, clock.postedHour);
      ok := ledger.Insert(row);
      if ok {
        lastPostTime := clock.finished;
        postCount := postCount + 1;
      }
    }

    /**
     * The steps of `post_content` before the tweet: the content, its image
     * (against the cache as it was), the duplicate check, the upload and the
     * caption. None when any of them fails.
     */
    function Staged(svc: Services, d: PostDraws, files: set<string>): (r: Option<Staging>)
      ensures ContentOf(config.scraper, svc.web, d.content).url.None? ==> r.None?
      ensures var download := Downloaded(ContentOf(config.scraper, svc.web, d.content).url, files,
                                         svc.localFiles, svc.remoteImageOk);
        download.Some? && svc.upload(download.value.path).Some? && GenerateCaption(config.hashtags, d.caption).Some? ==>
        r.Some?
      ensures r.Some? ==> r.value.content.url.Some? && (r.value.content.sourceType == "meme" || r.value.content.sourceType == "video")
      ensures r.Some? ==>
        && r.value.content == ContentOf(config.scraper, svc.web, d.content)
        && Downloaded(r.value.content.url, files, svc.localFiles, svc.remoteImageOk) == Some(r.value.download)
        && svc.upload(r.value.download.path) == Some(r.value.mediaId)
        && GenerateCaption(config.hashtags, d.caption) == Some(r.value.caption)
    {
      var content := ContentOf(config.scraper, svc.web, d.content);
      var download := Downloaded(content.url, files, svc.localFiles, svc.remoteImageOk);
      if download.None? || IsDuplicate(download.value.contentHash) then None
      else
        var media := svc.upload(download.value.path);
        var caption := GenerateCaption(config.hashtags, d.caption);
        if media.None? || caption.None? then None
        else Some(Staging(content, download.value, media.value, caption.value))
    }

    /** The files an attempt adds to the cache directory: the downloaded image, if any. */
    function CacheGain(svc: Services, d: PostDraws, files: set<string>): (r: set<string>)
      ensures |r| <= 1
      ensures ContentOf(config.scraper, svc.web, d.content).url.None? ==> r == {}
      ensures Staged(svc, d, files).Some? ==> r == {Staged(svc, d, files).value.download.path}
    {
      var download := Downloaded(ContentOf(config.scraper, svc.web, d.content).url, files, svc.localFiles, svc.remoteImageOk);
      if download.Some? then {download.value.path} else {}
    }

    /** The steps of `post_content` before the tweet; only the cache changes. */
    method Stage(svc: Services, d: PostDraws) returns (staged: Option<Staging>)
      modifies cache
      ensures staged == Staged(svc, d, old(cache.files))
      ensures cache.files == old(cache.files) + CacheGain(svc, d, old(cache.files))
    {
      var content := GetRandomContent(config.scraper, svc.web, d.content);
      var download := DownloadOptimize(content.url, svc.localFiles, svc.remoteImageOk);
      if download.None? {
        return None;
      }
      if IsDuplicate(download.value.contentHash) {
        return None;
      }
      var media := svc.upload(download.value.path);
      if media.None? {
        return None;
      }
      var caption := GenerateCaption(config.hashtags, d.caption);
      if caption.None? {
        return None;
      }
      staged := Some(Staging(content, download.value, media.value, caption.value));
    }

    /**
     * `post_content` with the content tuple unpacked into its three values:
     * the steps before the tweet, then the tweet and the insert. A row is
     * inserted and the counters move only when every step succeeds; any
     * failure returns false with the counters as they were. Duplicate
     * detection happens only at the insert, after the tweet is out: then the
     * tweet stays published, the table is unchanged and the result is false.
     */
    method PostContent(svc: Services, d: PostDraws, clock: Clock) returns (ok: bool)
      requires Valid()
      modifies this, ledger, cache, account
      ensures Valid()
      ensures bestHours == old(bestHours)
      ensures cache.files == old(cache.files) + CacheGain(svc, d, old(cache.files))
      ensures Sent(Staged(svc, d, old(cache.files)), svc.publish, clock, old(Snap(clock.now)), ok)
    {
      var staged := Stage(svc, d);
      if staged.None? {
        return false;
      }
      ok := PublishAndRecord(svc.publish, staged.value, clock);
    }

    /**
     * Tweets go out no faster than `min_interval_seconds`: an attempt sends
     * at most one tweet, appended to the account, at least that long after
     * the previous successful post.
     */
    lemma SentSpacing(staged: Option<Staging>, publish: (string, string) -> Option<string>, clock: Clock,
                      before: Snapshot, ok: bool)
      requires Sent(staged, publish, clock, before, ok)
      requires clock.now + before.wait - before.lastPostTime >= config.minIntervalSeconds as real
      ensures account.tweets == before.tweets || |account.tweets| == |before.tweets| + 1
      ensures |account.tweets| == |before.tweets| + 1 ==>
        && account.tweets[..|before.tweets|] == before.tweets
        && account.tweets[|before.tweets|].at - before.lastPostTime >= config.minIntervalSeconds as real
    {
      if staged.Some? && publish(staged.value.caption.caption, staged.value.mediaId).None? {
        assert account.tweets == before.tweets + [];
      }
    }

    /**
     * A successful attempt records the tweet it sent: the table gains one row,
     * for that tweet, whose content hash was new to the table, with zero
     * metrics. A failed attempt leaves the table and the post count alone.
     */
    lemma SentRecorded(staged: Option<Staging>, publish: (string, string) -> Option<string>, clock: Clock,
                       before: Snapshot, ok: bool)
      requires Sent(staged, publish, clock, before, ok)
      ensures ok ==>
        && staged.Some?
        && |account.tweets| == |before.tweets| + 1
        && |ledger.rows| == |before.rows| + 1
        && ledger.rows[..|before.rows|] == before.rows
        && var row := ledger.rows[|before.rows|];
        && row.tweetId == account.tweets[|before.tweets|].id
        && row.contentHash == staged.value.download.contentHash
        && !HasHash(before.rows, row.contentHash)
        && row.sourceUrl == staged.value.content.url
        && MetricsOf(row) == Metrics(0, 0, 0, 0, 0.0)
      ensures !ok ==> ledger.rows == before.rows && postCount == before.postCount
    {
    }

    /**
     * `post_content` as written: `content_url, source_type = ...` receives a
     * three-value tuple, the ValueError is caught, and the attempt returns
     * false before anything else happens.
     */
    method PostContentAsWritten(svc: Services, d: PostDraws) returns (ok: bool)
      ensures !ok
    {
      var content := GetRandomContent(config.scraper, svc.web, d.content);
      ok := Unpacks(ContentArity, UnpackTargets);
    }

    /**
     * One iteration of `run_forever` at hour `hour`: an interval in
     * [min_interval_seconds, max_interval_seconds]; off-peak, one draw in four
     * skips without posting; otherwise one posting attempt, then learning
     * when the post count is a positive multiple of ten.
     */
    method RunIteration(hour: int, svc: Services, d: IterationDraws, clock: Clock, learnAt: Timestamp)
      returns (it: Iteration)
      requires Valid()
      modifies this, ledger, cache, account
      ensures Valid()
      ensures it.Errored? <==> config.minIntervalSeconds > config.maxIntervalSeconds
      ensures !it.Errored? ==> config.minIntervalSeconds <= it.interval <= config.maxIntervalSeconds
      ensures it.Skipped? <==> !it.Errored? && hour !in old(bestHours) && d.skipRoll < SkipChance
      ensures !it.Ran? ==>
        && postCount == old(postCount) && lastPostTime == old(lastPostTime) && bestHours == old(bestHours)
        && ledger.rows == old(ledger.rows) && account.tweets == old(account.tweets)
        && cache.files == old(cache.files)
      ensures it.Ran? ==> cache.files == old(cache.files) + CacheGain(svc, d.post, old(cache.files))
      ensures it.Ran? ==> Sent(Staged(svc, d.post, old(cache.files)), svc.publish, clock, old(Snap(clock.now)), it.posted)
      ensures it.Ran? ==> postCount == old(postCount) + (if it.posted then 1 else 0)
      ensures it.Ran? ==> (it.learned <==> postCount > 0 && postCount % LearnEvery == 0)
      ensures it.Ran? && it.learned ==> bestHours == Learned(config.learningEnabled, old(bestHours), ledger.rows, learnAt)
      ensures it.Ran? && !it.learned ==> bestHours == old(bestHours)
    {
      var interval := RandInt(config.minIntervalSeconds, config.maxIntervalSeconds, d.intervalDraw);
      if interval.None? {
        return Errored;
      }
      if hour !in bestHours && d.skipRoll < SkipChance {
        return Skipped(interval.value);
      }
      var posted := PostContent(svc, d.post, clock);
      var learned := ShouldLearn(postCount);
      if learned {
        LearnFromAnalytics(learnAt);
      }
      return Ran(interval.value, posted, learned);
    }
  }
}
