# X-Bot posting core in Dafny

X-Bot (JVWBot) is a posting bot for X. In a loop, it:

- picks a meme, a video or a quote from Reddit and quote APIs;
- downloads and caches the image;
- writes a caption with hashtags;
- posts the tweet and records it in a sqlite `posts` table.

From time to time it re-learns its best posting hours from the engagement figures in that table. A separate analytics script has two jobs:

- It refreshes the figures of recent posts that have none yet.
- It prints a report: totals, the top posts, hours, content types, caption styles, and a seven-day trend.

A trend detector turns the titles of Reddit's front page into hashtags.

This project models that core. Every answer from outside the bot is an input to the model: HTTP responses, platform calls, the clock, random draws, SHA-256 and UTF-8 encoding.

| file | module | models |
|---|---|---|
| `collections.dfy` | `Collections` | `Option`; prefixes (`[:n]`); a stable descending sort (`sorted(..., reverse=True)`, `ORDER BY ... DESC`, `most_common`); `Distinct`; `Join` (`' '.join`) |
| `draws.dfy` | `Draws` | `random.choice`, `random.randint` and `random.sample`, each as a function of an explicit draw. Each returns `None` where Python raises. |
| `text.dfy` | `Text` | `str.split()`, `str.lower()`, the substring test `in`, the decimal rendering of a number, and `urlparse(url).netloc` |
| `ledger.dfy` | `Ledger` | a row of the `posts` table; the table as the class `PostLedger`, with its `UNIQUE` content hash, `INSERT` and the metrics `UPDATE` |
| `aggregates.dfy` | `Aggregates` | the `WHERE ... GROUP BY ... AVG ... ORDER BY ... DESC` queries that both the learner and the report run |
| `analytics.dfy` | `Analytics` | the engagement rate, `fetch_metrics` (as the method `FetchMetrics`) and every aggregate of `show_report` |
| `caption.dfy` | `Caption` | `_generate_caption` |
| `scraper.dfy` | `Scraper` | `ContentScraper`: the domain whitelist, the meme and video filters, ranking, quotes, and the choice of content type |
| `trends.dfy` | `Trends` | `TrendDetector`, as a class with its cached `trending_hashtags` |
| `bot.dfy` | `Bot` | `JVWBot`, as a class: learning, the image cache, the rate limit, `post_content`, and one iteration of `run_forever` |

What the main results say:

- **Learning.** It keeps the configured hours when there is nothing to learn from. Otherwise it yields one to six distinct hours of measured posts from the last seven days, ranked by mean engagement rate; no hour left out beats one that was kept.
- **Metrics refresh.** It rewrites only rows whose tweet id is pending, and in them only the five metric columns. Tweet ids are not unique in the table, so a measured row that shares a pending row's id is rewritten too, as the source's `UPDATE ... WHERE tweet_id = ?` does. `updated` counts the successful reads. A post whose impressions are missing stays pending.
- **Report.**
  - The top list holds the five most-viewed posts of the week.
  - The per-type and per-style lines each cover every measured post once.
  - The seven-day trend counts each post of those seven days once.
- **Caption.** It starts with a template of its style. It ends with a blank line and the joined tags; splitting that string gives the tags back. There are between `min_hashtags` and `max_hashtags` tags from the pool, plus at most one brand tag.
- **Scraping.** Every meme or video returned passes its filter and comes from the first `limit` children of a source. The list is ranked by score and cut at `limit`.
- **Trends.** At most fifteen distinct hashtags, ordered by count, with ties kept in order of first appearance. They are the most counted words: a word left out is counted no more often than any kept one, and then fifteen were kept.
- **Posting.** These results are about `PostContent`, which unpacks all three values of the content. As written, main.py:194 unpacks them into two names and fails on every attempt (see Findings): nothing is posted and `post_count` never moves.
  - A post succeeds only if every step succeeds. Then exactly one row is added and the counters move.
  - Any failure leaves the counters and the table as they were.
  - A repeated content hash is caught only after the tweet is out.
  - The tweet is sent at least `min_interval_seconds` after the previous post.
  - The cache key is a function of the URL alone. The exception is a local file, which is stored under the hash of its bytes, so a second request for it misses the cache.
  - A quote never reaches the platform, because its content has no URL and the download step fails on it: nothing is staged, no tweet is sent and the cache is untouched.
  - Once the image, the upload and the caption are all in hand, the tweet is sent; the attempt then succeeds exactly when the content hash is new to the table.
- **Scheduling.** Every iteration's interval lies within the configured bounds. An off-peak skip does not post. Learning reruns exactly when the post count is a positive multiple of ten, including after a failed post. This is one iteration with the corrected `PostContent`; with the code as written the count stays at zero, so learning never reruns after start-up.

Design decisions:

- **Time.**
  - Post timestamps are whole seconds.
  - A day is `posted_at / 86400`.
  - The seven-day window is the timestamps after `now - 604800`.
  - The bot's own clock (`time.time()`) is a `real`.
- **Arithmetic.** Averages and rates are exact `real`s, and counts and sums are unbounded integers.
- **Ties.** Where SQL leaves the order of ties open, the model uses the first-seen order that Python's stable sorts also use.

## Model

| member | source | states |
|---|---|---|
| Ledger.PostLedger.constructor | main.py:52-72 | a new table is empty and satisfies the uniqueness invariant |
| Ledger.NewRow | main.py:212-215 | a row as inserted carries zero in all five metric columns, the columns' defaults |
| Ledger.PostLedger.Insert | main.py:212-216 | the insert succeeds iff no row has the content hash (`UNIQUE`, main.py:57); on success the row is appended, otherwise the table is unchanged; uniqueness is preserved |
| Ledger.SetMetrics | analytics.py:37-40 | the `UPDATE` changes only the rows with the given tweet id, and in them only the five metric columns |
| Ledger.SetMetricsKeepsHashes | analytics.py:37-40 | a metrics update keeps every content hash, so the `UNIQUE` invariant survives it |
| Ledger.PostLedger.UpdateMetrics | analytics.py:37-40 | the table after the update is `SetMetrics` of the table before, and stays valid |
| Aggregates.Mean | analytics.py:62 | `AVG(...) or 0`: 0 for no values, otherwise the value whose product with the count is the sum |
| Aggregates.LearningRows | main.py:79-83 | a row qualifies for learning iff it was posted inside the window and has impressions > 0 |
| Aggregates.BestHours | main.py:79-86 | at most six hours, each the hour of a row that qualifies for learning |
| Aggregates.LearningKeepsAll | main.py:79-83 | when every row is inside the window and measured, the learning queries read all rows, in order |
| Aggregates.WholeWindow | main.py:79-86 | then the learned hours are the first six ranked hours of all rows, and each hour's mean is its mean over all rows |
| Aggregates.RankedSpec | main.py:79-83 | `GROUP BY ... ORDER BY avg DESC` lists each group key once, lists exactly the keys present, and orders them by non-increasing mean rate |
| Aggregates.RankedCoversRows | analytics.py:97-101 | the group sizes over the ranked keys add up to the number of rows: every row is in exactly one group |
| Aggregates.GroupSizesCount | analytics.py:119-127 | for distinct keys, summing the group sizes counts each row whose key is listed exactly once |
| Aggregates.HoursColumn | main.py:79-83 | an hour appears among the qualifying rows iff it is a learnable hour |
| Aggregates.BestHoursShape | main.py:79-86 | the learned hours are at most six, distinct, all learnable, by non-increasing mean engagement rate |
| Aggregates.BestHoursTop | main.py:79-83 | an eligible hour left out means six hours were taken, each with a mean at least as high as its mean |
| Aggregates.BestHoursEmpty | main.py:85-86 | the hours query is empty iff no row qualifies |
| Aggregates.BestContentTypeExists | main.py:90-97 | a best content type exists iff some row qualifies |
| Aggregates.BestContentTypeIsBest | main.py:90-97 | the best content type is present among the qualifying rows, and no present type has a higher mean rate |
| AggregatesExample.BestHoursExample | main.py:79-86 | two posts at 9h (rates 5 and 7) and one at 14h (rate 2) give the hours [9, 14], with 9h at mean 6 |
| Analytics.EngagementRate | analytics.py:34-35 | rate × impressions = 100 × (likes + retweets + replies) when impressions > 0, else 0 |
| Analytics.EngagementRateExample | analytics.py:34-35 | 1000 impressions with 40 + 5 + 5 interactions give 5.0 |
| Analytics.EngagementRateSign | analytics.py:34-35 | the rate is never negative, and is positive iff there are impressions and some interaction |
| Analytics.Pending | analytics.py:17-21 | a tweet id is selected iff some row posted after the cutoff with zero impressions has it |
| Analytics.NewRowPending | main.py:212-215 | a post just recorded inside the window (metrics 0) is pending for the next sweep and not yet read by learning |
| Analytics.Sweep | analytics.py:23-47 | the sweep keeps the number of rows, and changes no column of any row but the five metric columns |
| Analytics.SweepOne | analytics.py:25-47 | one pass of the loop extends the sweep by one id, and counts it iff its reading succeeds |
| Analytics.SweepAll | analytics.py:23-47 | the loop over a list of ids leaves the table equal to their sweep and `updated` equal to their successful reads |
| Analytics.Reading | analytics.py:26-35 | a reading succeeds iff the response has like, retweet and reply counts; a missing impression count reads as 0 with rate 0 |
| Analytics.Successes | analytics.py:23-47 | the number of successful reads is at most the number of pending posts |
| Analytics.SweepEffect | analytics.py:24-47 | after the sweep, each row whose id was swept and read holds the fetched metrics, and every other row is unchanged |
| Analytics.SweepKeepsHashes | analytics.py:37-40 | the sweep keeps every content hash and the uniqueness invariant |
| Analytics.MissingImpressionsStayPending | analytics.py:17-29 | a pending post whose response lacks an impression count is still pending after the sweep |
| Analytics.FetchMetrics | analytics.py:16-50 | the loop leaves the table equal to the sweep over the pending ids, and `updated` equal to their successful reads |
| Analytics.AvgViewsPerPost | analytics.py:70 | floor division of total views by the post count, 0 when there are no posts |
| Analytics.OverallStats | analytics.py:58-70 | the post count is the table's size; the totals are the sums of impressions, likes and retweets over all rows; the average rate is the mean over measured rows; views per post is the floor of total views over posts; an empty table reports zeros, as the `or 0` fallbacks do |
| Analytics.OverallAddPost | analytics.py:58-62 | one more post adds its views, likes and retweets to the totals, and leaves the average rate unchanged when it has no impressions |
| Analytics.MeasuredSkipsUnmeasured | analytics.py:62 | a post without impressions does not enter `AVG(engagement_rate) ... WHERE impressions > 0` |
| Analytics.TopPostsShape | analytics.py:74-78 | the top list holds min(5, posts in the window) posts of the window, by non-increasing impressions, with none repeated |
| Analytics.TopPosts | analytics.py:74-78 | at most five posts, each a row of the table posted inside the window |
| Analytics.TopPostsTop | analytics.py:74-78 | a post of the window left out means five were listed, each with at least its impressions |
| Analytics.HourStats | analytics.py:86-90 | the report's hour lines are the learner's hours, in the same order; each line's engagement is the learner's mean for that hour, and its views the mean impressions of that hour's measured posts in the window |
| Analytics.HourStatsShape | analytics.py:86-90 | at most six hour lines, distinct hours, each eligible, by non-increasing average engagement |
| Analytics.TypeStats | analytics.py:97-101 | one content-type line per ranked source type, in ranked order; each line's engagement, views and count are the mean rate, mean impressions and size of that type's measured posts in the window |
| Analytics.TypeStatsShape | analytics.py:97-104 | every content type of a measured recent post has exactly one line; the lines are ordered by engagement; their counts add up to the measured recent posts |
| Analytics.CaptionStats | analytics.py:108-112 | one caption-style line per ranked caption type, in ranked order; each line's engagement and count are the mean rate and size of that style's measured posts in the window |
| Analytics.CaptionStatsShape | analytics.py:108-115 | every caption style of a measured recent post has exactly one line; the lines are ordered by engagement; their counts add up to the measured recent posts |
| Analytics.TrendWindow | analytics.py:119-121 | seven consecutive days ending today, oldest first, and a day is in it iff it lies between six days ago and today |
| Analytics.DayStats | analytics.py:122-127 | a day line's post count, views and likes are the count and the impression and like sums of the posts dated that day, and its engagement is the mean rate over all of them, measured or not; no posts give zeros, as the `or 0` fallbacks do |
| Analytics.DaySumsAdd | analytics.py:122-127 | a post added to its own day adds its impressions and its likes to that day's sums |
| Analytics.DayAddPost | analytics.py:122-127 | a new post adds one post, its impressions and its likes to its own day's line, and leaves every other day's line unchanged |
| Analytics.Trend | analytics.py:119-127 | seven day lines, one per day from six days ago to today, in chronological order; each line is that day's `DayStats` |
| Analytics.TrendCoversWeek | analytics.py:119-127 | the trend's post counts add up to the number of posts dated in those seven days |
| Draws.Choice | main.py:164-165 | a choice exists iff the list is non-empty, and is an element of it |
| Draws.RandInt | main.py:173 | a draw exists iff the bounds are ordered, and lies within them |
| Draws.RandIntReachesAll | main.py:239 | every value within the bounds is some draw's outcome |
| Draws.Sample | main.py:174 | a sample exists iff 0 <= k <= pool size; it has k elements, taken from the pool without repetition |
| Draws.SampleDistinct | main.py:174 | sampling a pool of distinct tags gives distinct tags |
| Text.Split | trends.py:23 | `split()` gives non-empty words free of whitespace |
| Text.SplitJoin | main.py:180 | splitting the space-joined words gives the words back, when each is a non-empty word without whitespace |
| Text.Lower | scraper.py:17 | lower-casing keeps the length and maps each character |
| Text.Contains | scraper.py:18 | the `in` test on strings holds iff the needle occurs at some index |
| Text.Netloc | scraper.py:17 | the network location contains no '/', '?' or '#' |
| Text.AfterSchemeOf | scraper.py:17 | after a valid scheme and ':', the rest of the URL is what remains |
| Text.NetlocOfUrl | scraper.py:17 | the netloc of `scheme://host` followed by a path, query or fragment is `host` |
| Caption.TemplateKeys | main.py:126-164 | the five caption styles are exactly the template keys, with five templates each |
| Caption.PickTags | main.py:173-178 | the tag count lies within the configured bounds; the tags come from the pool; a brand tag only when the roll is under 0.4, taken from the brand list; it fails exactly where the count, the sample or the brand choice raises |
| Caption.Opening | main.py:164-170 | the caption's first line starts with a template of the chosen style |
| Caption.GenerateCaption | main.py:164-183 | the caption exists iff the tag draw succeeds; its style is a template key; it starts with a template of that style; the hashtags string joins the drawn tags and ends the caption after a blank line |
| Caption.CaptionTags | main.py:173-183 | the tags number between min and max, come from the pool, are distinct when the pool is, and have at most one brand tag; with single-word tags, splitting the hashtags string gives the tags back |
| Scraper.DomainAllowed | scraper.py:16-18 | a URL is allowed iff some whitelist entry occurs in its lower-cased network location |
| Scraper.DomainAllowedByHost | scraper.py:16-18 | for `scheme://host/...`, allowed iff some whitelist entry occurs in the lower-cased host |
| Scraper.HasImageExtension | scraper.py:34 | the lower-cased URL contains `.jpg`, `.jpeg`, `.png` or `.gif` |
| Scraper.MemeOf | scraper.py:29-36 | a post is kept as a meme iff it is not over 18, has an image extension and an allowed domain; the item carries its URL, title and score |
| Scraper.VideoOf | scraper.py:53-60 | a post is kept as a video iff it is not over 18, `is_video` is true, the media is non-empty and has a non-empty fallback URL; the item carries that URL |
| Scraper.CollectFrom | scraper.py:28-40 | every collected item was kept from a child examined before the first malformed child, which ends the source |
| Scraper.GatheredFromExamined | scraper.py:20-40 | every gathered item was kept from a post among the first `limit` children of some source |
| Scraper.Collect | scraper.py:28-36 | a listing's loop yields at most one item per child |
| Scraper.Gathered | scraper.py:23-40 | the sources together yield at most `limit` items per source |
| Scraper.Ranked | scraper.py:42 | at most `limit` items, each an item of the input, none repeated more often than there |
| Scraper.RankedShape | scraper.py:42 | the ranking holds min(limit, items) items from the input, by non-increasing score |
| Scraper.RankedTop | scraper.py:42 | an item left out means `limit` items were kept, each scoring at least as high |
| Scraper.CollectChildren | scraper.py:28-36 | the loop over one listing collects exactly `Collect` of its children |
| Scraper.Scrape | scraper.py:20-42 | the loop over the sources returns the ranking of everything gathered |
| Scraper.ScrapeMemes | scraper.py:20-42 | `scrape_reddit_memes` is the ranking of the memes gathered from the meme sources |
| Scraper.ScrapeVideos | scraper.py:44-66 | `scrape_reddit_videos` is the ranking of the videos gathered from the video sources |
| Scraper.MemesShape | scraper.py:20-42 | at most `limit` memes, by non-increasing score, each from an examined post that is not over 18 and passes the meme filter |
| Scraper.VideosShape | scraper.py:44-66 | at most `limit` videos, by non-increasing score, each from an examined post that is a video and not over 18 |
| Scraper.FetchedQuote | scraper.py:70-78 | a fetched quote needs a source, and is what `QuoteOf` reads from the answer of one of the configured sources |
| Scraper.RandomQuote | scraper.py:68-88 | the fetched quote when there is one, else one of the five fallback quotes |
| Scraper.NoSourcesFallback | scraper.py:70-88 | with no sources configured, the quote is always a fallback quote |
| Scraper.QuoteOf | scraper.py:75-78 | the URL decides the format: a zenquotes source needs a list and any other source an object, else reading raises; an empty list raises; a non-empty list gives a quote iff its first item has `q` and `a`, an object iff it has `content` and `author` |
| Scraper.ContentQuoteFormat | scraper.py:70-78 | with one non-zenquotes source answering an object with `content` and `author`, the fetched quote is `content - author` |
| Scraper.ZenQuoteFormat | scraper.py:70-76 | with one zenquotes source answering a non-empty list whose first item has `q` and `a`, the fetched quote is that item's `q - a` |
| Scraper.PicsumContent | scraper.py:101 | the fallback image is a picsum URL with a number in [1, 999999], typed as a meme |
| Scraper.ContentOf | scraper.py:90-112 | the content has a URL iff its type is meme or video |
| Scraper.ContentBranches | scraper.py:90-112 | under 0.6 a meme with a URL and no extra: the top-ranked scraped meme's, else a picsum URL with a number in [1, 999999]; under 0.8 the top video's URL and title, else a picsum meme; otherwise a quote with no URL, a fallback quote when the fetch fails |
| Scraper.GetRandomContent | scraper.py:90-112 | the method, running the two scraping loops, returns `ContentOf` of the configuration, the web and the draws |
| Trends.TitleWords | trends.py:21-24 | exactly the first min(3, n) of the title's n lower-cased words longer than four characters, in order, repeats included |
| Trends.TitleWordsBound | trends.py:20-24 | the titles give at most three words each, all long |
| Trends.ListingWordsBound | trends.py:14-26 | the front page gives at most 60 words, all long |
| Trends.MostCommonShape | trends.py:37-39 | `most_common(n)` lists up to n distinct words of the input, by non-increasing count |
| Trends.MostCommon | trends.py:37-39 | `most_common(n)` lists at most n words, each a word of the input |
| Trends.MostCommonTop | trends.py:37-39 | a word left out of `most_common(n)` means n words were listed, each counted at least as often as it |
| Trends.TagsTop | trends.py:37-39 | the same for the tags: a word whose tag is left out means n tags, each for a word counted at least as often |
| Trends.HashtagInjective | trends.py:39 | distinct words give distinct hashtags |
| Trends.HashtagsDistinct | trends.py:39 | prefixing '#' keeps a list of distinct words distinct |
| Trends.AllTrendsNonEmpty | trends.py:29-36 | the evergreen words are always included, so there is always something to count |
| Trends.TrendingTagsShape | trends.py:9-40 | 1 to 15 distinct tags, each '#' and a counted word, by non-increasing count |
| Trends.TrendingTags | trends.py:36-39 | at most fifteen tags, each '#' and a word of the listing or the evergreen list |
| Trends.TrendingTagsTop | trends.py:9-40 | a counted word whose tag is left out means fifteen tags were kept, each for a word counted at least as often |
| Trends.EvergreenCounted | trends.py:29-37 | every evergreen word is counted at least once |
| Trends.TrendTiesFirstSeen | trends.py:37-39 | words with equal counts keep their order of first appearance |
| Trends.CollectTitleWords | trends.py:11-26 | the loop over the titles collects exactly their long words |
| Trends.TrendDetector.constructor | trends.py:6-7 | the cache starts empty |
| Trends.TrendDetector.GetTrendingHashtags | trends.py:9-40 | the result is the trending tags of the front page, and is stored in the cache |
| Trends.TrendDetector.GetSmartHashtags | trends.py:42-55 | a non-empty cache is kept and an empty one is refreshed; the result is a sample of min(3, base) base tags followed by a sample of min(2, cached) trending tags |
| Trends.SmartMixShape | trends.py:49-55 | at most five tags, the base ones from the base list, the trending ones distinct and from the cache |
| Bot.LearnedKeeps | main.py:74-87 | learning switched off, or no measured post in the last seven days, leaves the hours as they were |
| Bot.Learned | main.py:74-87 | learning switched off keeps the configured hours; otherwise the hours are either kept or replaced by the non-empty list the hours query returns |
| Bot.LearnedHours | main.py:78-86 | otherwise the hours become one to six distinct measured hours by non-increasing mean rate, and no hour left out has a higher mean than one kept |
| Bot.JVWBot.constructor | main.py:26-50 | the counters start at zero and the hours are learned once from the table |
| Bot.JVWBot.LearnFromAnalytics | main.py:74-97 | only the hours change, to what learning gives |
| Bot.JVWBot.IsDuplicate | main.py:99-101 | no content hash is ever reported as a duplicate |
| Bot.JVWBot.Digest | main.py:104 | the key is exactly 16 characters long: the first 16 of the 64-digit hex digest |
| Bot.JVWBot.UrlKey | main.py:104 | a URL's key is the 16-character prefix of the SHA-256 hex digest of its encoding |
| Bot.JVWBot.Downloaded | main.py:103-123 | no URL fails; a cached key returns that file and key without fetching; a local file is keyed by its bytes and fails iff it is not an image; a remote one is keyed by its URL and fails iff the download fails; the path is the cache path of the key |
| Bot.JVWBot.DownloadOptimize | main.py:103-123 | the method returns `Downloaded` of the cache as it was; a success saves the image under its key, a failure leaves the cache as it was |
| Bot.JVWBot.RateLimitWait | main.py:185-189 | the wait is never negative; after it at least `min_interval_seconds` have passed since the last post; a positive wait ends exactly at that minimum |
| Bot.JVWBot.Publish | main.py:208-209 | a tweet id means the tweet was added to the account |
| Bot.JVWBot.Snap | main.py:185-189 | the wait recorded before an attempt is never negative and brings the send time at least `min_interval_seconds` past the last post |
| Bot.JVWBot.PublishAndRecord | main.py:206-221 | `Sent` of the staged content from the state before: the tweet is sent after the wait; the row is inserted iff the tweet went out and its hash is new; the counters move only then |
| Bot.JVWBot.Staged | main.py:192-204 | content without a URL stages nothing; when the download, the upload and the caption all succeed something is staged; what is staged is the content, its download against the cache as it was, the media id and the caption, and only a meme or video with a URL |
| Bot.JVWBot.CacheGain | main.py:103-123 | an attempt adds at most one file to the cache: none for content without a URL, the staged image's path when staging succeeds |
| Bot.JVWBot.Stage | main.py:192-204 | the steps before the tweet return `Staged` of the cache as it was and add `CacheGain` to the cache |
| Bot.JVWBot.PostContent | main.py:191-225 | the cache gains `CacheGain`; `Sent` holds of `Staged` from the state before: nothing staged means no tweet and false; otherwise the tweet is sent, and the result is true iff it went out and its hash is new, when exactly its row is appended and both counters move; a failure leaves table and counters unchanged |
| Bot.JVWBot.SentSpacing | main.py:185-209 | an attempt appends at most one tweet, sent at least `min_interval_seconds` after the previous post |
| Bot.JVWBot.SentRecorded | main.py:206-221 | a success appends one row for the tweet it sent, with a hash new to the table, the content's URL and zero metrics; a failure leaves the table and the post count alone |
| Bot.Unpacks | main.py:194 | unpacking succeeds iff the tuple has as many values as there are names |
| Bot.ContentNeverUnpacks | main.py:194 | the three-value content tuple never unpacks into two names |
| Bot.JVWBot.PostContentAsWritten | main.py:191-225 | as written, every attempt returns false |
| Bot.ShouldLearn | main.py:251 | learning reruns iff the count is positive and a multiple of ten |
| Bot.JVWBot.RunIteration | main.py:233-263 | an empty interval range is a caught error; otherwise the interval is within bounds; off-peak, a roll under 0.25 skips without posting; a skip or error changes nothing, the cache included; a post (with the corrected `PostContent`) has `PostContent`'s effect on the cache, the account, the table and the counters; learning follows iff the count is a positive multiple of ten |

## Left out

- Network and platform calls are inputs, not modelled code: the Reddit and quote API requests, `media_upload`, `create_tweet`, `get_tweet` and dotenv. Each is a function from the request to its answer or failure.
- Image work is left out: PIL decoding, `thumbnail` and JPEG encoding. The cache records only which paths exist; a failed `save` is not modelled.
- SHA-256 and UTF-8 encoding are given functions (`sha256Hex`, `encode`); their definitions are not modelled. The digest's type only fixes its length at 64 hex digits.
- The keep-alive thread (main.py:18-23) is left out. It only prints, and the model has no concurrency.
- The sqlite engine itself is left out, as are the textual comparison of ISO timestamps with `datetime('now', '-7 days')`, `DATE(posted_at)` and time zones. Timestamps are whole seconds, and a day is a timestamp divided by 86400.
- Sleeping is left out: `time.sleep` for the interval, the rate limit, the two-second pause between sources, the one-second pause between metric reads and the five-minute pause after a loop error. The waits are returned as values.
- `KeyboardInterrupt`, and loop errors other than an empty interval range, are left out.
- Printing and the report's formatting are left out (including `cap[:55]`, thousands separators and percentages). The report's lines are values.
- `config['posts_per_day']` is only printed at start-up and is not modelled.
- The content-type query of `_learn_from_analytics` (main.py:90-97) only prints its first line; it is modelled as the `BestContentType` aggregate.
- `get_smart_hashtags` ignores its `content_type` argument; the model takes it and ignores it too.
- Constructors that only create directories or API clients (`ContentScraper.__init__`, `Analytics.__init__`) are left out.
- reset_db.py is not part of this model.
- Text.Lower: maps ASCII letters only, where Python's `str.lower` covers all of Unicode.
- Text.Netloc: splits the scheme and network location only. It does not strip tabs and newlines first, nor leading spaces and control characters, and does not check IPv6 brackets.
- Scraper.MemeOf: a JSON `null` `url`, `title` or `score` is not modelled; an absent key is. In Python, a `null` URL raises in `.lower()` and abandons the rest of that source.
- Scraper.VideoOf: a JSON `null` `reddit_video` is not modelled. In Python, `.get('fallback_url')` on it raises AttributeError and abandons the rest of that source; the model reads it as absent and moves on to the next child.
- Scraper.DomainAllowed: a URL that makes `urlparse` raise ValueError (for instance an unbalanced `[` in the network location) is not modelled. In Python, that abandons the rest of the source; the model always yields a network location.
- Scraper.Scrape: `limit` is a natural number, so Python's slicing with a negative limit is not modelled.
- Aggregates.Ranked: SQL leaves the order of equal averages open; the model fixes it to first appearance. The contracts promise only the order by average.
- Analytics.EngagementRate: rates and averages are exact reals; floating-point rounding is not modelled. Counts and sums are unbounded integers; sqlite's 64-bit limit is not modelled.

## Findings

| source | as written | input that shows it | evidently intended | confidence | as-written member | corrected member |
|---|---|---|---|---|---|---|
| main.py:194 | `post_content` unpacks the result of `get_random_content` into two names, but every branch of `get_random_content` returns three values (scraper.py:99, 101, 106, 108, 112). The `ValueError` is caught at main.py:223-225, so every attempt returns false and nothing is ever posted. | any attempt, e.g. a meme branch returning a picsum URL, `'meme'` and `None` | unpack three values (URL, type, extra) and go on with the URL and type | high; not executed | Bot.JVWBot.PostContentAsWritten, Bot.ContentNeverUnpacks | Bot.JVWBot.PostContent |
