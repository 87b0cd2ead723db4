/**
 * `JVWBot._generate_caption` (main.py): a template line of a randomly chosen
 * caption style, sometimes an extra emoji, then a blank line and the
 * space-separated hashtags, drawn from the configured pool with an occasional
 * brand tag. Every random choice is an explicit draw.
 */
module Caption {
  import opened Collections
  import opened Text
  import opened Draws

  /** The caption styles, in the order of the template dictionary's keys. */
  const CaptionTypes: seq<string> := ["cta", "question", "statement", "save", "funny"]

  /** The five template lines of each caption style. */
  const Templates: map<string, seq<string>> := map[
    "cta" := [
      "Double tap if you agree 💯",
      "Tag someone who needs this 👇",
      "RT if this resonates 🔄",
      "Send this to your bestie 💌",
      "Share if you relate 🤝"],
    "question" := [
      "Thoughts? 🤔",
      "Facts or facts? 💭",
      "Who else? 🙋",
      "Am I right? 🎯",
      "Agree or nah? 🤷"],
    "statement" := [
      "This hits different ✨",
      "Your daily reminder 📌",
      "Needed to see this today 🎯",
      "Big mood 😌",
      "The energy we need 🔥"],
    "save" := [
      "Save this for later 💾",
      "Screenshot this 📸",
      "Keep this one 🔖",
      "Don't scroll past this 🛑",
      "You'll need this 💡"],
    "funny" := [
      "No cap 😂",
      "This is too real 💀",
      "Why is this so accurate 🤣",
      "I felt that 😭",
      "Not me doing this 🙈"]]

  const Emojis: seq<string> := ["🔥", "💪", "⚡", "🚀", "💡", "🎨", "🌟", "✨", "👀", "💯"]

  /** Probability of the extra emoji and of the brand tag. */
  const EmojiChance: real := 0.3
  const BrandChance: real := 0.4

  /** The configuration keys the caption reads. */
  datatype HashtagConfig = HashtagConfig(
    minHashtags: int,
    maxHashtags: int,
    hashtagPool: seq<string>,
    brandTags: seq<string>)

  /**
   * The outcomes of the random calls, in the order they are made: the style,
   * the template, `random.random()` and the emoji, `randint` for the tag count,
   * the sample, and `random.random()` and the brand tag.
   */
  datatype CaptionDraws = CaptionDraws(
    typeDraw: nat,
    templateDraw: nat,
    emojiRoll: real,
    emojiDraw: nat,
    countDraw: nat,
    sampleDraws: seq<nat>,
    brandRoll: real,
    brandDraw: nat)

  /** The tuple `(caption, caption_type, hashtags)`. */
  datatype GeneratedCaption = GeneratedCaption(caption: string, captionType: string, hashtags: string)

  /** The tags drawn: the sample from the pool and, sometimes, one brand tag after it. */
  datatype TagPick = TagPick(sampled: seq<string>, brand: Option<string>)

  function TagList(pick: TagPick): seq<string> {
    pick.sampled + (if pick.brand.Some? then [pick.brand.value] else [])
  }

  lemma TemplateKeys()
    ensures forall t :: t in CaptionTypes <==> t in Templates
    ensures forall t :: t in Templates ==> |Templates[t]| == 5
  {
  }

  /**
   * `randint(min_hashtags, max_hashtags)` tags sampled from the pool, then a
   * brand tag when the roll is under 0.4. None where Python raises: an empty
   * count range, a count the pool cannot supply (or a negative one), or an
   * empty brand list when a brand tag is wanted.
   */
  function PickTags(cfg: HashtagConfig, d: CaptionDraws): (r: Option<TagPick>)
    ensures r.Some? ==> cfg.minHashtags <= |r.value.sampled| <= cfg.maxHashtags
    ensures r.Some? ==> multiset(r.value.sampled) <= multiset(cfg.hashtagPool)
    ensures r.Some? && r.value.brand.Some? ==> d.brandRoll < BrandChance && r.value.brand.value in cfg.brandTags
    ensures r.Some? && d.brandRoll < BrandChance ==> r.value.brand.Some?
    ensures (0 <= cfg.minHashtags <= cfg.maxHashtags <= |cfg.hashtagPool|
             && (d.brandRoll >= BrandChance || cfg.brandTags != [])) ==> r.Some?
    ensures cfg.minHashtags > cfg.maxHashtags || cfg.maxHashtags < 0 || cfg.minHashtags > |cfg.hashtagPool| ==> r.None?
    ensures d.brandRoll < BrandChance && cfg.brandTags == [] ==> r.None?
  {
    match RandInt(cfg.minHashtags, cfg.maxHashtags, d.countDraw)
    case None => None
    case Some(n) =>
      match Sample(cfg.hashtagPool, n, d.sampleDraws)
      case None => None
      case Some(sampled) =>
        if d.brandRoll < BrandChance then
          match Choice(cfg.brandTags, d.brandDraw)
          case None => None
          case Some(brand) => Some(TagPick(sampled, Some(brand)))
        else Some(TagPick(sampled, None))
  }

  /** The chosen template line, with the extra emoji when the roll is under 0.3. */
  function Opening(captionType: string, d: CaptionDraws): (r: string)
    requires captionType in Templates
    ensures exists t :: t in Templates[captionType] && IsPrefix(t, r)
  {
    var templates := Templates[captionType];
    assert |templates| > 0 by { TemplateKeys(); }
    var template := Choice(templates, d.templateDraw).value;
    if d.emojiRoll < EmojiChance then
      var r := template + (" " + Choice(Emojis, d.emojiDraw).value);
      assert r[..|template|] == template;
      r
    else template
  }

  lemma {:induction false} PrefixExtends(t: string, opening: string, rest: string)
    requires IsPrefix(t, opening)
    ensures IsPrefix(t, opening + rest)
  {
    assert (opening + rest)[..|t|] == opening[..|t|];
  }

  /**
   * The caption: style and template, emoji, `'\n\n'` and the joined tags. It
   * fails exactly where the tag draw fails.
   */
  function GenerateCaption(cfg: HashtagConfig, d: CaptionDraws): (r: Option<GeneratedCaption>)
    ensures r.Some? <==> PickTags(cfg, d).Some?
    ensures r.Some? ==> r.value.captionType in CaptionTypes
    ensures r.Some? ==> exists t :: t in Templates[r.value.captionType] && IsPrefix(t, r.value.caption)
    ensures r.Some? ==> r.value.hashtags == Join(TagList(PickTags(cfg, d).value), " ")
    ensures r.Some? ==> IsSuffix("\n\n" + r.value.hashtags, r.value.caption)
  {
    var captionType := Choice(CaptionTypes, d.typeDraw).value;
    assert captionType in Templates by { TemplateKeys(); }
    match PickTags(cfg, d)
    case None => None
    case Some(pick) =>
      var hashtags := Join(TagList(pick), " ");
      var opening := Opening(captionType, d);
      var caption := opening + ("\n\n" + hashtags);
      assert exists t :: t in Templates[captionType] && IsPrefix(t, caption) by {
        var t :| t in Templates[captionType] && IsPrefix(t, opening);
        PrefixExtends(t, opening, "\n\n" + hashtags);
      }
      Some(GeneratedCaption(caption, captionType, hashtags))
  }

  /**
   * The tags of a caption: between `min_hashtags` and `max_hashtags` of them
   * from the pool, distinct when the pool's entries are, then at most one
   * brand tag; written out in the hashtags string, from which splitting at
   * spaces recovers them when every tag is a single word.
   */
  lemma CaptionTags(cfg: HashtagConfig, d: CaptionDraws)
    requires GenerateCaption(cfg, d).Some?
    ensures var pick := PickTags(cfg, d).value;
      && cfg.minHashtags <= |pick.sampled| <= cfg.maxHashtags
      && (forall i :: 0 <= i < |pick.sampled| ==> pick.sampled[i] in cfg.hashtagPool)
      && (NoDuplicates(cfg.hashtagPool) ==> NoDuplicates(pick.sampled))
      && |TagList(pick)| <= |pick.sampled| + 1
      && (pick.brand.Some? ==> pick.brand.value in cfg.brandTags)
    ensures (forall w :: w in cfg.hashtagPool ==> IsWord(w))
            && (forall w :: w in cfg.brandTags ==> IsWord(w))
            ==> Split(GenerateCaption(cfg, d).value.hashtags) == TagList(PickTags(cfg, d).value)
  {
    var pick := PickTags(cfg, d).value;
    var n := RandInt(cfg.minHashtags, cfg.maxHashtags, d.countDraw).value;
    assert Sample(cfg.hashtagPool, n, d.sampleDraws) == Some(pick.sampled);
    forall i | 0 <= i < |pick.sampled| ensures pick.sampled[i] in cfg.hashtagPool {
      assert pick.sampled[i] in multiset(pick.sampled);
    }
    if NoDuplicates(cfg.hashtagPool) {
      SampleDistinct(cfg.hashtagPool, n, d.sampleDraws);
    }
    if (forall w :: w in cfg.hashtagPool ==> IsWord(w)) && (forall w :: w in cfg.brandTags ==> IsWord(w)) {
      var tags := TagList(pick);
      forall i | 0 <= i < |tags| ensures IsWord(tags[i]) {
        if i < |pick.sampled| {
          assert tags[i] == pick.sampled[i];
        }
      }
      SplitJoin(tags);
    }
  }
}
