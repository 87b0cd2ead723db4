/**
 * `ContentScraper` (scraper.py): the domain whitelist, the filtering and
 * ranking of Reddit listings into memes and videos, the quote with its
 * fallbacks, and the choice between meme, video and quote. Every HTTP answer
 * is an input: a listing URL maps to the parsed listing or to a failure, a
 * quote URL to the parsed JSON.
 */
module Scraper {
  import opened Collections
  import opened Text
  import opened Draws

  /** `any(d in host for d in whitelist)` over the lowercased network location of `url`. */
  function DomainAllowed(url: string, whitelist: seq<string>): (r: bool)
    ensures r <==> exists i :: 0 <= i < |whitelist| && Contains(Lower(Netloc(url)), whitelist[i])
  {
    AnyContained(Lower(Netloc(url)), whitelist)
  }

  /** Whether some needle occurs in `haystack`. */
  function AnyContained(haystack: string, needles: seq<string>): (r: bool)
    ensures r <==> exists i :: 0 <= i < |needles| && Contains(haystack, needles[i])
  {
    if needles == [] then false
    else if Contains(haystack, needles[0]) then true
    else
      var r := AnyContained(haystack, needles[1..]);
      assert forall i :: 1 <= i < |needles| ==> needles[i] == needles[1..][i - 1];
      assert r ==> exists i :: 0 <= i < |needles| && Contains(haystack, needles[i]) by {
        if r {
          var i :| 0 <= i < |needles[1..]| && Contains(haystack, needles[1..][i]);
          assert needles[i + 1] == needles[1..][i];
        }
      }
      r
  }

  /**
   * Only the host decides: a URL `scheme://host/...` is allowed exactly when
   * some whitelist entry occurs anywhere in the lowercased host, so a
   * whitelist entry in the path does not count, while a host that merely
   * contains an entry (`imgur.com.example.net` for `imgur.com`) does.
   */
  lemma DomainAllowedByHost(scheme: string, host: string, path: string, whitelist: seq<string>)
    requires |scheme| > 0 && (('a' <= scheme[0] <= 'z') || ('A' <= scheme[0] <= 'Z'))
    requires forall i :: 0 <= i < |scheme| ==> IsSchemeChar(scheme[i])
    requires forall c :: c in host ==> c !in "/?#"
    requires path == [] || path[0] in "/?#"
    ensures DomainAllowed(scheme + "://" + host + path, whitelist)
        <==> exists i :: 0 <= i < |whitelist| && Contains(Lower(host), whitelist[i])
  {
    NetlocOfUrl(scheme, host, path);
  }

  const ImageExtensions: seq<string> := [".jpg", ".jpeg", ".png", ".gif"]

  /** `any(ext in url.lower() for ext in [...])`: an extension anywhere in the URL, not only at its end. */
  function HasImageExtension(url: string): (r: bool)
    ensures r <==> exists i :: 0 <= i < |ImageExtensions| && Contains(Lower(url), ImageExtensions[i])
  {
    AnyContained(Lower(url), ImageExtensions)
  }

  /** `p['media'].get('reddit_video', {})`: the video part of a non-empty `media` object. */
  datatype RedditVideo = RedditVideo(fallbackUrl: Option<string>)

  /**
   * The fields of a listing child's `data` that the scraper reads. `url` is
   * None when the key is absent (`''` then); `media` is None when the key is
   * absent or the object is empty or null; `redditVideo` is None when that
   * key is absent.
   */
  datatype PostData = PostData(
    over18: bool,
    url: Option<string>,
    title: string,
    score: int,
    isVideo: bool,
    media: Option<Option<RedditVideo>>)

  /** A child of `data['children']`; Malformed stands for one without `data`, which raises. */
  datatype Child = Child(data: PostData) | Malformed

  /** What one listing URL yields: nothing usable (request, JSON or key failure), or its children. */
  datatype Listing = Unreachable | Listing(children: seq<Child>)

  /** `{'url': ..., 'title': ..., 'score': ...}`. */
  datatype Item = Item(url: string, title: string, score: int)

  function ScoreOf(item: Item): real { item.score as real }

  /** The meme a child contributes, if it passes the filters. */
  function MemeOf(p: PostData, whitelist: seq<string>): (r: Option<Item>)
    ensures var url := if p.url.Some? then p.url.value else "";
      r.Some? <==> !p.over18 && HasImageExtension(url) && DomainAllowed(url, whitelist)
    ensures r.Some? ==> r.value == Item(if p.url.Some? then p.url.value else "", p.title, p.score)
  {
    var url := if p.url.Some? then p.url.value else "";
    if p.over18 then None
    else if HasImageExtension(url) && DomainAllowed(url, whitelist) then Some(Item(url, p.title, p.score))
    else None
  }

  /** The video a child contributes: `is_video` True, non-empty `media` and a non-empty `fallback_url`. */
  function VideoOf(p: PostData): (r: Option<Item>)
    ensures r.Some? <==> (!p.over18 && p.isVideo && p.media.Some? && p.media.value.Some?
                          && p.media.value.value.fallbackUrl.Some? && p.media.value.value.fallbackUrl.value != "")
    ensures r.Some? ==> r.value == Item(p.media.value.value.fallbackUrl.value, p.title, p.score)
  {
    if p.over18 || !p.isVideo then None
    else match p.media
      case None => None
      case Some(video) =>
        match video
        case None => None
        case Some(v) =>
          match v.fallbackUrl
          case None => None
          case Some(u) => if u == "" then None else Some(Item(u, p.title, p.score))
  }

  /**
   * The items the inner loop appends from `children`, in order, up to the
   * first malformed child, whose exception ends the source's loop.
   */
  function Collect(children: seq<Child>, keep: PostData -> Option<Item>): (r: seq<Item>)
    ensures |r| <= |children|
  {
    if children == [] then []
    else match children[0]
      case Malformed => []
      case Child(p) => (if keep(p).Some? then [keep(p).value] else []) + Collect(children[1..], keep)
  }

  /** The items of one source: the first `limit` children of its listing are examined. */
  function SourceItems(listing: Listing, limit: nat, keep: PostData -> Option<Item>): (r: seq<Item>)
    ensures |r| <= limit
  {
    match listing
    case Unreachable => []
    case Listing(children) => Collect(Prefix(children, limit), keep)
  }

  /** The list after the outer loop has handled `sources` in order. */
  function Gathered(sources: seq<string>, fetch: string -> Listing, limit: nat,
                    keep: PostData -> Option<Item>): (r: seq<Item>)
    ensures |r| <= limit * |sources|
    decreases |sources|
  {
    if sources == [] then []
    else
      assert limit * (|sources| - 1) + limit == limit * |sources|;
      Gathered(sources[..|sources| - 1], fetch, limit, keep) + SourceItems(fetch(sources[|sources| - 1]), limit, keep)
  }

  /** `sorted(items, key=score, reverse=True)[:limit]`; Python's sort is stable. */
  function Ranked(items: seq<Item>, limit: nat): (r: seq<Item>)
    ensures |r| <= limit
    ensures multiset(r) <= multiset(items)
  {
    PrefixSubMultiset(SortDesc(items, ScoreOf), limit);
    Prefix(SortDesc(items, ScoreOf), limit)
  }

  /** A child the scraper looks at: among the first `limit` of a source's listing, with no malformed child before it. */
  ghost predicate Examined(sources: seq<string>, fetch: string -> Listing, limit: nat, p: PostData) {
    exists s, k :: 0 <= s < |sources| && fetch(sources[s]).Listing?
      && 0 <= k < limit && k < |fetch(sources[s]).children|
      && fetch(sources[s]).children[k] == Child(p)
      && (forall j :: 0 <= j < k ==> fetch(sources[s]).children[j] != Malformed)
  }

  lemma {:induction false} CollectFrom(children: seq<Child>, keep: PostData -> Option<Item>, item: Item)
    requires item in Collect(children, keep)
    ensures exists k :: 0 <= k < |children| && children[k].Child? && keep(children[k].data) == Some(item)
                        && (forall j :: 0 <= j < k ==> children[j] != Malformed)
  {
    var p := children[0].data;
    if keep(p).Some? && item == keep(p).value {
      assert children[0].Child? && keep(children[0].data) == Some(item);
    } else {
      CollectFrom(children[1..], keep, item);
      var k :| 0 <= k < |children[1..]| && children[1..][k].Child? && keep(children[1..][k].data) == Some(item)
                && (forall j :: 0 <= j < k ==> children[1..][j] != Malformed);
      assert children[k + 1] == children[1..][k];
      forall j | 0 <= j < k + 1 ensures children[j] != Malformed {
        if j > 0 {
          assert children[j] == children[1..][j - 1];
        }
      }
    }
  }

  /** A child examined among fewer sources is examined among more. */
  lemma ExaminedGrows(sources: seq<string>, fetch: string -> Listing, limit: nat, p: PostData)
    requires sources != []
    requires Examined(sources[..|sources| - 1], fetch, limit, p)
    ensures Examined(sources, fetch, limit, p)
  {
    var init := sources[..|sources| - 1];
    var s, k :| 0 <= s < |init| && fetch(init[s]).Listing?
      && 0 <= k < limit && k < |fetch(init[s]).children|
      && fetch(init[s]).children[k] == Child(p)
      && (forall j :: 0 <= j < k ==> fetch(init[s]).children[j] != Malformed);
    assert sources[s] == init[s];
  }

  /** An item of the last source comes from an examined child of it. */
  lemma LastSourceExamined(sources: seq<string>, fetch: string -> Listing, limit: nat,
                           keep: PostData -> Option<Item>, item: Item)
    requires sources != []
    requires item in SourceItems(fetch(sources[|sources| - 1]), limit, keep)
    ensures exists p :: Examined(sources, fetch, limit, p) && keep(p) == Some(item)
  {
    var s := |sources| - 1;
    var children := Prefix(fetch(sources[s]).children, limit);
    CollectFrom(children, keep, item);
    var k :| 0 <= k < |children| && children[k].Child? && keep(children[k].data) == Some(item)
              && (forall j :: 0 <= j < k ==> children[j] != Malformed);
    assert fetch(sources[s]).children[k] == children[k];
    assert forall j :: 0 <= j < k ==> fetch(sources[s]).children[j] == children[j];
    assert Examined(sources, fetch, limit, children[k].data);
  }

  /** Every gathered item is what `keep` makes of an examined child. */
  lemma {:induction false} GatheredFromExamined(sources: seq<string>, fetch: string -> Listing, limit: nat,
                                                keep: PostData -> Option<Item>, item: Item)
    requires item in Gathered(sources, fetch, limit, keep)
    ensures exists p :: Examined(sources, fetch, limit, p) && keep(p) == Some(item)
    decreases |sources|
  {
    var init := sources[..|sources| - 1];
    if item in Gathered(init, fetch, limit, keep) {
      GatheredFromExamined(init, fetch, limit, keep, item);
      var p :| Examined(init, fetch, limit, p) && keep(p) == Some(item);
      ExaminedGrows(sources, fetch, limit, p);
    } else {
      LastSourceExamined(sources, fetch, limit, keep, item);
    }
  }

  /** The shape of a ranked list: at most `limit` items, drawn from `items`, by non-increasing score. */
  lemma RankedShape(items: seq<Item>, limit: nat)
    ensures var r := Ranked(items, limit);
      && |r| <= limit
      && |r| == (if |items| < limit then |items| else limit)
      && multiset(r) <= multiset(items)
      && (forall i, j :: 0 <= i < j < |r| ==> r[i].score >= r[j].score)
  {
    var sorted := SortDesc(items, ScoreOf);
    var r := Ranked(items, limit);
    PrefixSubMultiset(sorted, limit);
    forall i, j | 0 <= i < j < |r| ensures r[i].score >= r[j].score {
      assert r[i] == sorted[i] && r[j] == sorted[j];
      assert ScoreOf(sorted[i]) >= ScoreOf(sorted[j]);
    }
  }

  /** No item is left out in favour of a lower-scored one. */
  lemma RankedTop(items: seq<Item>, limit: nat, item: Item)
    requires item in items && item !in Ranked(items, limit)
    ensures |Ranked(items, limit)| == limit
    ensures forall i :: 0 <= i < limit ==> Ranked(items, limit)[i].score >= item.score
  {
    var sorted := SortDesc(items, ScoreOf);
    assert item in multiset(items);
    assert item in sorted;
    PrefixKeepsLargest(sorted, ScoreOf, limit, item);
  }

  /** The keys of `config` the scraper reads. */
  datatype ScraperConfig = ScraperConfig(
    whitelistDomains: seq<string>,
    memeSources: seq<string>,
    videoSources: seq<string>,
    quoteSources: seq<string>)

  function MemeFilter(whitelist: seq<string>): PostData -> Option<Item> {
    (p: PostData) => MemeOf(p, whitelist)
  }

  /**
   * The inner loop of a scrape over one listing: each child's item, if it
   * passes the filter, is appended; a malformed child ends the loop.
   */
  method CollectChildren(children: seq<Child>, keep: PostData -> Option<Item>) returns (found: seq<Item>)
    ensures found == Collect(children, keep)
  {
    found := [];
    var k := 0;
    while k < |children|
      invariant 0 <= k <= |children|
      invariant found + Collect(children[k..], keep) == Collect(children, keep)
    {
      var rest := children[k..];
      assert rest[0] == children[k] && rest[1..] == children[k + 1..];
      match children[k] {
        case Malformed =>
          assert Collect(rest, keep) == [];
          assert found + [] == found;
          return;
        case Child(p) =>
          var next := Collect(children[k + 1..], keep);
          assert Collect(rest, keep) == (if keep(p).Some? then [keep(p).value] else []) + next;
          match keep(p) {
            case None =>
              assert [] + next == next;
            case Some(item) =>
              assert found + ([item] + next) == (found + [item]) + next;
              found := found + [item];
          }
      }
      k := k + 1;
    }
    assert children[k..] == [];
  }

  /**
   * The list-accumulating loop shared by `scrape_reddit_memes` and
   * `scrape_reddit_videos`: for each source, its first `limit` children are
   * filtered and appended; a malformed child ends that source; an unreachable
   * source adds nothing. The list is then ranked by score and cut to `limit`.
   */
  method Scrape(sources: seq<string>, fetch: string -> Listing, limit: nat, keep: PostData -> Option<Item>)
    returns (items: seq<Item>)
    ensures items == Ranked(Gathered(sources, fetch, limit, keep), limit)
  {
    var gathered: seq<Item> := [];
    var s := 0;
    while s < |sources|
      invariant 0 <= s <= |sources|
      invariant gathered == Gathered(sources[..s], fetch, limit, keep)
    {
      var listing := fetch(sources[s]);
      assert sources[..s + 1][..s] == sources[..s];
      if listing.Listing? {
        var found := CollectChildren(Prefix(listing.children, limit), keep);
        gathered := gathered + found;
      }
      s := s + 1;
    }
    assert sources[..|sources|] == sources;
    items := Ranked(gathered, limit);
  }

  /** `scrape_reddit_memes(limit)`. */
  method ScrapeMemes(cfg: ScraperConfig, fetch: string -> Listing, limit: nat) returns (memes: seq<Item>)
    ensures memes == Ranked(Gathered(cfg.memeSources, fetch, limit, MemeFilter(cfg.whitelistDomains)), limit)
  {
    memes := Scrape(cfg.memeSources, fetch, limit, MemeFilter(cfg.whitelistDomains));
  }

  /** `scrape_reddit_videos(limit)`. */
  method ScrapeVideos(cfg: ScraperConfig, fetch: string -> Listing, limit: nat) returns (videos: seq<Item>)
    ensures videos == Ranked(Gathered(cfg.videoSources, fetch, limit, VideoOf), limit)
  {
    videos := Scrape(cfg.videoSources, fetch, limit, VideoOf);
  }

  /**
   * What the meme scraper returns: at most `limit` memes by non-increasing
   * score, each from one of the first `limit` children of a meme source, not
   * marked over 18, with an image extension in its URL and an allowed domain.
   */
  lemma MemesShape(cfg: ScraperConfig, fetch: string -> Listing, limit: nat)
    ensures var memes := Ranked(Gathered(cfg.memeSources, fetch, limit, MemeFilter(cfg.whitelistDomains)), limit);
      && |memes| <= limit
      && (forall i, j :: 0 <= i < j < |memes| ==> memes[i].score >= memes[j].score)
      && (forall i :: 0 <= i < |memes| ==>
            HasImageExtension(memes[i].url) && DomainAllowed(memes[i].url, cfg.whitelistDomains)
            && exists p :: Examined(cfg.memeSources, fetch, limit, p) && !p.over18 && MemeOf(p, cfg.whitelistDomains) == Some(memes[i]))
  {
    var keep := MemeFilter(cfg.whitelistDomains);
    var all := Gathered(cfg.memeSources, fetch, limit, keep);
    var memes := Ranked(all, limit);
    RankedShape(all, limit);
    forall i | 0 <= i < |memes|
      ensures HasImageExtension(memes[i].url) && DomainAllowed(memes[i].url, cfg.whitelistDomains)
      ensures exists p :: Examined(cfg.memeSources, fetch, limit, p) && !p.over18 && MemeOf(p, cfg.whitelistDomains) == Some(memes[i])
    {
      assert memes[i] in multiset(memes);
      assert memes[i] in all;
      GatheredFromExamined(cfg.memeSources, fetch, limit, keep, memes[i]);
      var p :| Examined(cfg.memeSources, fetch, limit, p) && keep(p) == Some(memes[i]);
      assert MemeOf(p, cfg.whitelistDomains) == Some(memes[i]);
    }
  }

  /**
   * What the video scraper returns: at most `limit` videos by non-increasing
   * score, each the non-empty fallback URL of an examined child that is a
   * video and not marked over 18.
   */
  lemma VideosShape(cfg: ScraperConfig, fetch: string -> Listing, limit: nat)
    ensures var videos := Ranked(Gathered(cfg.videoSources, fetch, limit, VideoOf), limit);
      && |videos| <= limit
      && (forall i, j :: 0 <= i < j < |videos| ==> videos[i].score >= videos[j].score)
      && (forall i :: 0 <= i < |videos| ==>
            videos[i].url != ""
            && exists p :: Examined(cfg.videoSources, fetch, limit, p) && !p.over18 && p.isVideo && VideoOf(p) == Some(videos[i]))
  {
    var all := Gathered(cfg.videoSources, fetch, limit, VideoOf);
    var videos := Ranked(all, limit);
    RankedShape(all, limit);
    forall i | 0 <= i < |videos|
      ensures videos[i].url != ""
      ensures exists p :: Examined(cfg.videoSources, fetch, limit, p) && !p.over18 && p.isVideo && VideoOf(p) == Some(videos[i])
    {
      assert videos[i] in multiset(videos);
      assert videos[i] in all;
      GatheredFromExamined(cfg.videoSources, fetch, limit, VideoOf, videos[i]);
    }
  }

  // ---------------------------------------------------------------------------
  // Quotes

  /** The parsed JSON of a quote API: a list of objects, an object, or anything else. */
  datatype QuoteData = ArrayData(items: seq<map<string, string>>) | ObjectData(fields: map<string, string>) | OtherData

  const FallbackQuotes: seq<string> := [
    "Success is not final, failure is not fatal. - Winston Churchill",
    "The only way to do great work is to love what you do. - Steve Jobs",
    "Innovation distinguishes between a leader and a follower. - Steve Jobs",
    "The future belongs to those who believe in their dreams. - Eleanor Roosevelt",
    "Don't watch the clock; do what it does. Keep going. - Sam Levenson"]

  /**
   * The quote read from a source's JSON: `q` and `a` of the first element for
   * a zenquotes URL, otherwise `content` and `author`, joined with `' - '`.
   * None where a missing element or key raises.
   */
  function QuoteOf(source: string, data: QuoteData): (r: Option<string>)
    ensures Contains(source, "zenquotes") && !data.ArrayData? ==> r.None?
    ensures !Contains(source, "zenquotes") && !data.ObjectData? ==> r.None?
    ensures data.ArrayData? && data.items == [] ==> r.None?
    ensures Contains(source, "zenquotes") && data.ArrayData? && data.items != [] ==>
      ("q" in data.items[0] && "a" in data.items[0] <==> r.Some?)
    ensures !Contains(source, "zenquotes") && data.ObjectData? ==>
      ("content" in data.fields && "author" in data.fields <==> r.Some?)
  {
    if Contains(source, "zenquotes") then
      if data.ArrayData? && |data.items| > 0 && "q" in data.items[0] && "a" in data.items[0]
      then Some(data.items[0]["q"] + " - " + data.items[0]["a"])
      else None
    else
      if data.ObjectData? && "content" in data.fields && "author" in data.fields
      then Some(data.fields["content"] + " - " + data.fields["author"])
      else None
  }

  /**
   * The `try` block of `get_random_quote`: a source chosen at random and the
   * quote read from its answer. None where it raises: no sources, a failed
   * request, or an answer without the expected element or keys.
   */
  function FetchedQuote(sources: seq<string>, sourceDraw: nat, fetch: string -> Option<QuoteData>): (r: Option<string>)
    ensures r.Some? ==> sources != []
    ensures r.Some? ==> exists source :: source in sources && fetch(source).Some? && QuoteOf(source, fetch(source).value) == r
  {
    match Choice(sources, sourceDraw)
    case None => None
    case Some(source) =>
      match fetch(source)
      case None => None
      case Some(data) => QuoteOf(source, data)
  }

  /** `get_random_quote`: the fetched quote, or on any failure one of the five fallbacks. */
  function RandomQuote(sources: seq<string>, sourceDraw: nat, fetch: string -> Option<QuoteData>,
                       fallbackDraw: nat): (r: string)
    ensures FetchedQuote(sources, sourceDraw, fetch).Some? ==> r == FetchedQuote(sources, sourceDraw, fetch).value
    ensures FetchedQuote(sources, sourceDraw, fetch).None? ==> r in FallbackQuotes
  {
    match FetchedQuote(sources, sourceDraw, fetch)
    case Some(q) => q
    case None => Choice(FallbackQuotes, fallbackDraw).value
  }

  /** With no quote sources every quote is a fallback, and each fallback can come out. */
  lemma NoSourcesFallback(fetch: string -> Option<QuoteData>, sourceDraw: nat, i: nat)
    requires i < |FallbackQuotes|
    ensures RandomQuote([], sourceDraw, fetch, i) == FallbackQuotes[i]
  {
    assert FetchedQuote([], sourceDraw, fetch) == None;
    var n := |FallbackQuotes|;
    assert n == 5;
    assert i % n == i;
  }

  /** A zenquotes answer is formatted from its first item: `q`, `' - '`, `a`. */
  lemma ZenQuoteFormat(source: string, fetch: string -> Option<QuoteData>, items: seq<map<string, string>>)
    requires Contains(source, "zenquotes")
    requires fetch(source) == Some(ArrayData(items))
    requires items != [] && "q" in items[0] && "a" in items[0]
    ensures FetchedQuote([source], 0, fetch) == Some(items[0]["q"] + " - " + items[0]["a"])
  {
    assert Choice([source], 0) == Some(source);
  }

  /** Any other source's answer is formatted as its `content`, `' - '`, its `author`. */
  lemma ContentQuoteFormat(source: string, fetch: string -> Option<QuoteData>, fields: map<string, string>)
    requires !Contains(source, "zenquotes")
    requires fetch(source) == Some(ObjectData(fields))
    requires "content" in fields && "author" in fields
    ensures FetchedQuote([source], 0, fetch) == Some(fields["content"] + " - " + fields["author"])
  {
    assert Choice([source], 0) == Some(source);
  }

  // ---------------------------------------------------------------------------
  // Content selection

  /** `(url, type, extra)`: the URL (None for a quote), the source type, and the title or quote text. */
  datatype Content = Content(url: Option<string>, sourceType: string, extra: Option<string>)

  const MemeShare: real := 0.6
  const VideoShare: real := 0.8

  /** The random image used when there is no scraped meme. */
  function PicsumUrl(n: int): string
    requires n >= 0
  {
    "https://picsum.photos/1920/1080?random=" + NatToString(n)
  }

  function PicsumContent(draw: nat): (c: Content)
    ensures c.sourceType == "meme" && c.extra.None?
    ensures exists n :: 1 <= n <= 999999 && c.url == Some(PicsumUrl(n))
  {
    var n := RandInt(1, 999999, draw).value;
    Content(Some(PicsumUrl(n)), "meme", None)
  }

  /** The HTTP answers the scraper sees. */
  datatype Web = Web(listing: string -> Listing, quote: string -> Option<QuoteData>)

  /** The outcomes of the random calls of `get_random_content`. */
  datatype ContentDraws = ContentDraws(roll: real, picsumDraw: nat, sourceDraw: nat, fallbackDraw: nat)

  /**
   * What `get_random_content` returns: a meme when the roll is under 0.6 (the
   * best scraped meme, else a random picsum image), a video when under 0.8
   * (the best scraped video with its title, else a picsum meme), otherwise a
   * quote with no URL. Exactly the meme and video branches yield a URL.
   */
  function ContentOf(cfg: ScraperConfig, web: Web, d: ContentDraws): (c: Content)
    ensures c.url.Some? <==> c.sourceType == "meme" || c.sourceType == "video"
  {
    if d.roll < MemeShare then
      var memes := Ranked(Gathered(cfg.memeSources, web.listing, 5, MemeFilter(cfg.whitelistDomains)), 5);
      if memes != [] then Content(Some(memes[0].url), "meme", None) else PicsumContent(d.picsumDraw)
    else if d.roll < VideoShare then
      var videos := Ranked(Gathered(cfg.videoSources, web.listing, 3, VideoOf), 3);
      if videos != [] then Content(Some(videos[0].url), "video", Some(videos[0].title)) else PicsumContent(d.picsumDraw)
    else
      Content(None, "quote", Some(RandomQuote(cfg.quoteSources, d.sourceDraw, web.quote, d.fallbackDraw)))
  }

  /**
   * The three branches: under 0.6 a meme with a URL and no extra; under 0.8 a
   * video carrying its title, or the picsum meme; otherwise a quote without
   * URL whose text is the fetched or a fallback quote. A scraped URL is the
   * top-ranked item's.
   */
  lemma ContentBranches(cfg: ScraperConfig, web: Web, d: ContentDraws)
    ensures var c := ContentOf(cfg, web, d);
      var memes := Ranked(Gathered(cfg.memeSources, web.listing, 5, MemeFilter(cfg.whitelistDomains)), 5);
      var videos := Ranked(Gathered(cfg.videoSources, web.listing, 3, VideoOf), 3);
      && (d.roll < MemeShare ==> c.sourceType == "meme" && c.url.Some? && c.extra.None?)
      && (d.roll < MemeShare && memes != [] ==> c.url == Some(memes[0].url))
      && (d.roll < MemeShare && memes == [] ==> exists n :: 1 <= n <= 999999 && c.url == Some(PicsumUrl(n)))
      && (MemeShare <= d.roll < VideoShare ==> c.url.Some? && (c.sourceType == "video" || c.sourceType == "meme"))
      && (MemeShare <= d.roll < VideoShare && videos != [] ==>
            c.sourceType == "video" && c.url == Some(videos[0].url) && c.extra == Some(videos[0].title))
      && (MemeShare <= d.roll < VideoShare && videos == [] ==>
            c.sourceType == "meme" && c.extra.None? && exists n :: 1 <= n <= 999999 && c.url == Some(PicsumUrl(n)))
      && (VideoShare <= d.roll ==> c.url.None? && c.sourceType == "quote" && c.extra.Some?)
      && (VideoShare <= d.roll && FetchedQuote(cfg.quoteSources, d.sourceDraw, web.quote).None? ==>
            c.extra.value in FallbackQuotes)
  {
  }

  /** `get_random_content`, with the two scraping loops run as methods. */
  method GetRandomContent(cfg: ScraperConfig, web: Web, d: ContentDraws) returns (c: Content)
    ensures c == ContentOf(cfg, web, d)
  {
    if d.roll < MemeShare {
      var memes := ScrapeMemes(cfg, web.listing, 5);
      if memes != [] {
        return Content(Some(memes[0].url), "meme", None);
      }
      return PicsumContent(d.picsumDraw);
    } else if d.roll < VideoShare {
      var videos := ScrapeVideos(cfg, web.listing, 3);
      if videos != [] {
        return Content(Some(videos[0].url), "video", Some(videos[0].title));
      }
      return PicsumContent(d.picsumDraw);
    } else {
      var quote := RandomQuote(cfg.quoteSources, d.sourceDraw, web.quote, d.fallbackDraw);
      return Content(None, "quote", Some(quote));
    }
  }
}
