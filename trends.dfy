/**
 * `TrendDetector` (trends.py): words taken from the titles of Reddit's hot
 * listing plus a fixed evergreen list, counted, the fifteen most common kept
 * as hashtags in the detector's cache; and the mix of base and trending
 * hashtags built from that cache.
 */
module Trends {
  import opened Collections
  import opened Text
  import opened Draws

  /** At most this many posts of the listing are read. */
  const TitlesRead: nat := 20
  /** At most this many words are taken from one title. */
  const WordsPerTitle: nat := 3
  /** Only words longer than this are taken. */
  const MinWordLength: nat := 4
  /** `most_common(15)`. */
  const TopTrends: nat := 15

  const Evergreen: seq<string> := [
    "motivation", "success", "mindset", "entrepreneur",
    "AI", "tech", "innovation", "productivity", "growth",
    "funny", "meme", "viral", "trending"]

  /** A post of the hot listing: its title (`''` when absent), or Malformed for one without `data`, which raises. */
  datatype HotPost = HotPost(title: string) | Malformed

  /** The answer for `r/all/hot.json`: unusable (request, JSON or key failure), or its posts. */
  datatype HotListing = Unreachable | HotListing(posts: seq<HotPost>)

  function LongWord(w: string): bool { |w| > MinWordLength }

  /** `[w for w in title.lower().split() if len(w) > 4][:3]`. */
  function TitleWords(title: string): (r: seq<string>)
    ensures |r| <= WordsPerTitle
    ensures |r| <= |Filter(Split(Lower(title)), LongWord)|
    ensures r == Filter(Split(Lower(title)), LongWord)[..|r|]
    ensures forall i :: 0 <= i < |r| ==> LongWord(r[i]) && r[i] in Split(Lower(title))
    ensures |r| == if |Filter(Split(Lower(title)), LongWord)| < WordsPerTitle
                   then |Filter(Split(Lower(title)), LongWord)| else WordsPerTitle
  {
    var long := Filter(Split(Lower(title)), LongWord);
    var r := Prefix(long, WordsPerTitle);
    assert forall i :: 0 <= i < |r| ==> r[i] in long;
    r
  }

  /** The words the loop appends, title by title, until a malformed post ends it. */
  function TitleWordsOf(posts: seq<HotPost>): seq<string> {
    if posts == [] then []
    else match posts[0]
      case Malformed => []
      case HotPost(title) => TitleWords(title) + TitleWordsOf(posts[1..])
  }

  /** `trends`: the words of the first 20 posts, or none when the listing could not be read. */
  function ListingWords(hot: HotListing): seq<string> {
    match hot
    case Unreachable => []
    case HotListing(posts) => TitleWordsOf(Prefix(posts, TitlesRead))
  }

  /** `trends + evergreen_trends`. */
  function AllTrends(hot: HotListing): seq<string> {
    ListingWords(hot) + Evergreen
  }

  /** The `Counter` of a word list. */
  function CountOf(words: seq<string>): string -> real {
    w => multiset(words)[w] as real
  }

  /**
   * `Counter(words).most_common(n)`: the distinct words by non-increasing
   * count; the Counter keeps words in order of first appearance and the sort
   * is stable, so equal counts keep that order.
   */
  function MostCommon(words: seq<string>, n: nat): (r: seq<string>)
    ensures |r| <= n
    ensures forall w :: w in r ==> w in words
  {
    var sorted := SortDesc(Distinct(words), CountOf(words));
    SortDescMembers(Distinct(words), CountOf(words));
    PrefixMembers(sorted, n);
    Prefix(sorted, n)
  }

  function Hashtag(w: string): string { "#" + w }

  /** `['#' + t for t, _ in trend_counts.most_common(15)]`. */
  function TrendingTags(hot: HotListing): (r: seq<string>)
    ensures |r| <= TopTrends
    ensures forall t :: t in r ==> exists w :: w in AllTrends(hot) && t == Hashtag(w)
  {
    TagsOfWords(AllTrends(hot), TopTrends);
    Map(MostCommon(AllTrends(hot), TopTrends), Hashtag)
  }

  /** Each tag of `most_common(n)` is `'#'` and a word of the list. */
  lemma TagsOfWords(words: seq<string>, n: nat)
    ensures forall t :: t in Map(MostCommon(words, n), Hashtag) ==> exists w :: w in words && t == Hashtag(w)
  {
    var top := MostCommon(words, n);
    var tags := Map(top, Hashtag);
    forall t | t in tags ensures exists w :: w in words && t == Hashtag(w) {
      var i :| 0 <= i < |tags| && tags[i] == t;
      assert t == Hashtag(top[i]) && top[i] in top;
    }
  }

  lemma HashtagInjective(a: string, b: string)
    requires Hashtag(a) == Hashtag(b)
    ensures a == b
  {
    assert a == Hashtag(a)[1..];
  }

  /** What the listing contributes: from each of at most 20 titles at most 3 lowercased words longer than 4. */
  lemma {:induction false} TitleWordsBound(posts: seq<HotPost>)
    ensures |TitleWordsOf(posts)| <= WordsPerTitle * |posts|
    ensures forall w :: w in TitleWordsOf(posts) ==> LongWord(w)
  {
    if posts != [] && posts[0].HotPost? {
      TitleWordsBound(posts[1..]);
      forall w | w in TitleWordsOf(posts) ensures LongWord(w) {
        if w in TitleWords(posts[0].title) {
          var i :| 0 <= i < |TitleWords(posts[0].title)| && TitleWords(posts[0].title)[i] == w;
        }
      }
    }
  }

  lemma ListingWordsBound(hot: HotListing)
    ensures |ListingWords(hot)| <= WordsPerTitle * TitlesRead
    ensures forall w :: w in ListingWords(hot) ==> LongWord(w)
  {
    if hot.HotListing? {
      TitleWordsBound(Prefix(hot.posts, TitlesRead));
    }
  }

  /**
   * `most_common(n)` of a non-empty list: between one and `n` distinct words
   * of the list, by non-increasing count.
   */
  lemma MostCommonShape(words: seq<string>, n: nat)
    requires words != [] && n > 0
    ensures var r := MostCommon(words, n);
      && 0 < |r| <= n
      && NoDuplicates(r)
      && (forall i :: 0 <= i < |r| ==> r[i] in words)
      && (forall i, j :: 0 <= i < j < |r| ==> multiset(words)[r[i]] >= multiset(words)[r[j]])
  {
    var distinct := Distinct(words);
    var sorted := SortDesc(distinct, CountOf(words));
    var r := MostCommon(words, n);
    assert words[0] in distinct;
    PrefixSubMultiset(sorted, n);
    SubMultisetNoDuplicates(r, distinct);
    forall i | 0 <= i < |r| ensures r[i] in words {
      assert r[i] in multiset(r);
      assert r[i] in distinct;
    }
    forall i, j | 0 <= i < j < |r| ensures multiset(words)[r[i]] >= multiset(words)[r[j]] {
      assert r[i] == sorted[i] && r[j] == sorted[j];
      assert CountOf(words)(sorted[i]) >= CountOf(words)(sorted[j]);
    }
  }

  /**
   * The words kept are the most common: a word of the list that is left out
   * means `n` words were kept, each counted at least as often as it.
   */
  lemma MostCommonTop(words: seq<string>, n: nat, w: string)
    requires w in words && w !in MostCommon(words, n)
    ensures |MostCommon(words, n)| == n
    ensures forall i :: 0 <= i < n ==> multiset(words)[MostCommon(words, n)[i]] >= multiset(words)[w]
  {
    var distinct := Distinct(words);
    var sorted := SortDesc(distinct, CountOf(words));
    assert w in multiset(sorted) by {
      assert w in distinct;
      assert w in multiset(distinct);
    }
    PrefixKeepsLargest(sorted, CountOf(words), n, w);
  }

  /** Prefixing `'#'` keeps distinct words distinct. */
  lemma HashtagsDistinct(words: seq<string>)
    requires NoDuplicates(words)
    ensures NoDuplicates(Map(words, Hashtag))
  {
    var tags := Map(words, Hashtag);
    forall i, j | 0 <= i < j < |tags| ensures tags[i] != tags[j] {
      if tags[i] == tags[j] {
        HashtagInjective(words[i], words[j]);
      }
    }
  }

  lemma AllTrendsNonEmpty(hot: HotListing)
    ensures |AllTrends(hot)| >= |Evergreen| > 0
  {
  }

  /**
   * The trending tags: between one and fifteen distinct tags, each `'#'` and
   * a word of the listing or the evergreen list, by non-increasing count.
   */
  lemma TrendingTagsShape(hot: HotListing)
    ensures var all := AllTrends(hot);
      var words := MostCommon(all, TopTrends);
      var tags := TrendingTags(hot);
      && 0 < |tags| <= TopTrends
      && |tags| == |words|
      && NoDuplicates(tags)
      && (forall i :: 0 <= i < |tags| ==> tags[i] == "#" + words[i] && words[i] in all)
      && (forall i, j :: 0 <= i < j < |words| ==> multiset(all)[words[i]] >= multiset(all)[words[j]])
  {
    var all := AllTrends(hot);
    AllTrendsNonEmpty(hot);
    var words := MostCommon(all, TopTrends);
    MostCommonShape(all, TopTrends);
    HashtagsDistinct(words);
    var tags := TrendingTags(hot);
    assert tags == Map(words, Hashtag);
    forall i | 0 <= i < |tags| ensures tags[i] == "#" + words[i] {
      assert tags[i] == Hashtag(words[i]);
    }
  }

  /** The tags of `most_common(n)`: a word whose tag is left out counts no more than each tagged word. */
  lemma TagsTop(words: seq<string>, n: nat, w: string)
    requires w in words && Hashtag(w) !in Map(MostCommon(words, n), Hashtag)
    ensures var tags := Map(MostCommon(words, n), Hashtag);
      && |tags| == n
      && forall i :: 0 <= i < n ==>
           exists v :: tags[i] == Hashtag(v) && multiset(words)[v] >= multiset(words)[w]
  {
    var top := MostCommon(words, n);
    var tags := Map(top, Hashtag);
    assert w !in top;
    MostCommonTop(words, n, w);
    forall i | 0 <= i < n
      ensures exists v :: tags[i] == Hashtag(v) && multiset(words)[v] >= multiset(words)[w]
    {
      assert tags[i] == Hashtag(top[i]);
    }
  }

  /**
   * The fifteen tags are those of the most counted words: a counted word
   * whose tag is left out means fifteen tags were kept, each for a word
   * counted at least as often.
   */
  lemma TrendingTagsTop(hot: HotListing, w: string)
    requires w in AllTrends(hot) && Hashtag(w) !in TrendingTags(hot)
    ensures var all := AllTrends(hot);
      var tags := TrendingTags(hot);
      && |tags| == TopTrends
      && forall i :: 0 <= i < TopTrends ==>
           exists v :: tags[i] == Hashtag(v) && multiset(all)[v] >= multiset(all)[w]
  {
    TagsTop(AllTrends(hot), TopTrends, w);
  }

  /** Every evergreen word is counted, so the result never depends on the listing being reachable. */
  lemma EvergreenCounted(hot: HotListing, w: string)
    requires w in Evergreen
    ensures multiset(AllTrends(hot))[w] >= 1
  {
    assert w in AllTrends(hot);
  }

  /**
   * Ties are broken by first appearance: among the words of any one count,
   * the ranking keeps the order in which they first occur.
   */
  lemma TrendTiesFirstSeen(hot: HotListing, k: real)
    ensures var all := AllTrends(hot);
      WithKey(SortDesc(Distinct(all), CountOf(all)), CountOf(all), k) == WithKey(Distinct(all), CountOf(all), k)
  {
    var all := AllTrends(hot);
    SortDescStable(Distinct(all), CountOf(all), k);
  }

  /** How many tags `get_smart_hashtags` takes from each list. */
  const BaseTags: nat := 3
  const TrendTags: nat := 2

  function Min(a: nat, b: nat): (r: nat)
    ensures r <= a && r <= b && (r == a || r == b)
  {
    if a < b then a else b
  }

  /**
   * The loop of `get_trending_hashtags` over the listing's posts: each title's
   * words are appended; a malformed post ends the loop.
   */
  method CollectTitleWords(posts: seq<HotPost>) returns (trends: seq<string>)
    ensures trends == TitleWordsOf(posts)
  {
    trends := [];
    var i := 0;
    while i < |posts|
      invariant 0 <= i <= |posts|
      invariant trends + TitleWordsOf(posts[i..]) == TitleWordsOf(posts)
    {
      var rest := posts[i..];
      assert rest[0] == posts[i] && rest[1..] == posts[i + 1..];
      match posts[i] {
        case Malformed =>
          assert TitleWordsOf(rest) == [];
          assert trends + [] == trends;
          return;
        case HotPost(title) =>
          var next := TitleWordsOf(posts[i + 1..]);
          assert TitleWordsOf(rest) == TitleWords(title) + next;
          assert trends + (TitleWords(title) + next) == (trends + TitleWords(title)) + next;
          trends := trends + TitleWords(title);
      }
      i := i + 1;
    }
    assert posts[i..] == [];
  }

  class TrendDetector {
    var trendingHashtags: seq<string>

    /** The cached tags: at most fifteen, none repeated. */
    ghost predicate Valid()
      reads this
    {
      |trendingHashtags| <= TopTrends && NoDuplicates(trendingHashtags)
    }

    constructor ()
      ensures Valid() && trendingHashtags == []
    {
      trendingHashtags := [];
    }

    /**
     * `get_trending_hashtags`: the words of the first 20 titles are appended
     * title by title, the evergreen words after them; the fifteen most common
     * become the cached and returned tags.
     */
    method GetTrendingHashtags(hot: HotListing) returns (tags: seq<string>)
      modifies this
      ensures Valid()
      ensures tags == trendingHashtags == TrendingTags(hot)
    {
      var trends: seq<string> := [];
      if hot.HotListing? {
        trends := CollectTitleWords(Prefix(hot.posts, TitlesRead));
      }
      assert trends == ListingWords(hot);
      var allTrends := trends + Evergreen;
      TrendingTagsShape(hot);
      trendingHashtags := Map(MostCommon(allTrends, TopTrends), Hashtag);
      tags := trendingHashtags;
    }

    /**
     * `get_smart_hashtags`: fills the cache first if it is empty, then samples
     * up to three base tags and up to two cached trending tags.
     */
    method GetSmartHashtags(contentType: string, base: seq<string>, hot: HotListing,
                            baseDraws: seq<nat>, trendDraws: seq<nat>) returns (selected: seq<string>)
      requires Valid()
      modifies this
      ensures Valid()
      ensures old(trendingHashtags) != [] ==> trendingHashtags == old(trendingHashtags)
      ensures old(trendingHashtags) == [] ==> trendingHashtags == TrendingTags(hot)
      ensures selected == SampleOf(base, Min(BaseTags, |base|), baseDraws)
                          + SampleOf(trendingHashtags, Min(TrendTags, |trendingHashtags|), trendDraws)
    {
      if trendingHashtags == [] {
        var _ := GetTrendingHashtags(hot);
      }
      var fromBase := SampleOf(base, Min(BaseTags, |base|), baseDraws);
      var fromTrends := SampleOf(trendingHashtags, Min(TrendTags, |trendingHashtags|), trendDraws);
      selected := fromBase + fromTrends;
      assert |selected| <= BaseTags + TrendTags;
      selected := Prefix(selected, BaseTags + TrendTags);
    }
  }

  /**
   * The mix: `min(3, |base|)` base tags then `min(2, |trending|)` trending
   * tags, at most five, taken from distinct positions of their lists, so
   * distinct within each part when the lists are.
   */
  lemma SmartMixShape(base: seq<string>, trending: seq<string>, baseDraws: seq<nat>, trendDraws: seq<nat>)
    requires NoDuplicates(trending)
    ensures var b := SampleOf(base, Min(BaseTags, |base|), baseDraws);
      var t := SampleOf(trending, Min(TrendTags, |trending|), trendDraws);
      && |b| == Min(BaseTags, |base|) && |t| == Min(TrendTags, |trending|)
      && |b + t| <= BaseTags + TrendTags
      && multiset(b) <= multiset(base) && multiset(t) <= multiset(trending)
      && NoDuplicates(t)
      && (NoDuplicates(base) ==> NoDuplicates(b))
  {
    var b := SampleOf(base, Min(BaseTags, |base|), baseDraws);
    var t := SampleOf(trending, Min(TrendTags, |trending|), trendDraws);
    SubMultisetNoDuplicates(t, trending);
    if NoDuplicates(base) {
      SubMultisetNoDuplicates(b, base);
    }
  }
}
