/** The two derivations of `lib/seo-utils.ts`: the SEO score, a sum of fixed weights over
    fourteen presence signals capped at 100, and the issue count, one per negative condition.
    Each is given as a rule table (the specification) and as the source's chain of `if`s. */
module SeoUtils {
  import opened Js
  import opened ScanData

  // ------------------------------------------------------------ optional chaining
  // `data.meta?.x` reads `x` of an absent `meta` as absent: these give the record to read from.

  const NoMeta := Meta(None, None, None, None, None)
  const NoContent := Content(None, None, None, None)
  const NoBasic := Basic(None, None)
  const NoLinks := Links(None, None, None)

  function MetaOf(d: ScanData): Meta { d.meta.GetOr(NoMeta) }
  function ContentOf(d: ScanData): Content { d.content.GetOr(NoContent) }
  function BasicOf(d: ScanData): Basic { d.basic.GetOr(NoBasic) }
  function LinksOf(d: ScanData): Links { d.links.GetOr(NoLinks) }

  /** `!!keywords`: any list is truthy, even an empty one; a string only when non-empty. */
  predicate KeywordsTruthy(k: Option<Keywords>) {
    match k
    case None => false
    case Some(KeywordText(t)) => t != ""
    case Some(KeywordList(_)) => true
  }

  predicate NonEmpty<T>(xs: Option<seq<T>>) {
    xs.Some? && |xs.value| > 0
  }

  /** `m && Object.keys(m).length > 0`. */
  predicate HasKey(m: Option<map<string, string>>) {
    m.Some? && |m.value.Keys| > 0
  }

  /** `!!links.internal`: a list is truthy, a count only when it is not 0. */
  predicate SideTruthy(side: Option<LinkSide>) {
    side.Some? && (side.value.LinkRecords? || side.value.count != 0)
  }

  /** `side && (Array.isArray(side) ? side.length > 0 : side > 0)`. */
  predicate SideNonEmpty(side: Option<LinkSide>) {
    SideTruthy(side) && (if side.value.LinkRecords? then |side.value.records| > 0 else side.value.count > 0)
  }

  /** A link side counts exactly when it is a non-empty list or a count above zero. */
  lemma SideNonEmptyMeans(side: Option<LinkSide>)
    ensures SideNonEmpty(side) <==> match side
                                    case None => false
                                    case Some(LinkRecords(rs)) => |rs| > 0
                                    case Some(LinkCount(n)) => n > 0
  {
  }

  // ------------------------------------------------------------------- the score

  /** The fourteen presence signals. */
  datatype Signal =
    | Title | Description | MetaKeywords | OgTags | TwitterTags
    | Paragraphs | ContentKeywords | Emphasized | Strong
    | Charset | Language | Images | InternalLinks | ExternalLinks

  const SignalCount := 14

  /** The rule table: the signal checked at position `i`, in the source's order. */
  function SignalAt(i: nat): (s: Signal)
    requires i < SignalCount
    ensures Rank(s) == i
  {
    match i
    case 0 => Title
    case 1 => Description
    case 2 => MetaKeywords
    case 3 => OgTags
    case 4 => TwitterTags
    case 5 => Paragraphs
    case 6 => ContentKeywords
    case 7 => Emphasized
    case 8 => Strong
    case 9 => Charset
    case 10 => Language
    case 11 => Images
    case 12 => InternalLinks
    case _ => ExternalLinks
  }

  function Weight(s: Signal): nat {
    match s
    case Title => 15
    case Description => 15
    case MetaKeywords => 10
    case OgTags => 10
    case TwitterTags => 10
    case Paragraphs => 10
    case ContentKeywords => 10
    case Emphasized => 5
    case Strong => 5
    case Charset => 2
    case Language => 2
    case Images => 3
    case InternalLinks => 2
    case ExternalLinks => 1
  }

  /** When signal `s` is present in `d`. */
  predicate Present(d: ScanData, s: Signal) {
    match s
    case Title => TextTruthy(MetaOf(d).title)
    case Description => TextTruthy(MetaOf(d).description)
    case MetaKeywords => KeywordsTruthy(MetaOf(d).keywords)
    case OgTags => HasKey(MetaOf(d).ogTags)
    case TwitterTags => HasKey(MetaOf(d).twitterTags)
    case Paragraphs => NonEmpty(ContentOf(d).paragraphs)
    case ContentKeywords => NonEmpty(ContentOf(d).keywords)
    case Emphasized => NonEmpty(ContentOf(d).emphasized)
    case Strong => NonEmpty(ContentOf(d).strong)
    case Charset => TextTruthy(BasicOf(d).charset)
    case Language => TextTruthy(BasicOf(d).language)
    case Images => NonEmpty(d.images)
    case InternalLinks => SideNonEmpty(LinksOf(d).internal)
    case ExternalLinks => SideNonEmpty(LinksOf(d).external)
  }

  function Award(d: ScanData, s: Signal): nat {
    if Present(d, s) then Weight(s) else 0
  }

  /** The position of each signal in the table. */
  function Rank(s: Signal): nat {
    match s
    case Title => 0
    case Description => 1
    case MetaKeywords => 2
    case OgTags => 3
    case TwitterTags => 4
    case Paragraphs => 5
    case ContentKeywords => 6
    case Emphasized => 7
    case Strong => 8
    case Charset => 9
    case Language => 10
    case Images => 11
    case InternalLinks => 12
    case ExternalLinks => 13
  }

  /** Every signal has exactly one position in the table. */
  lemma RankIsPosition(s: Signal)
    ensures Rank(s) < SignalCount && SignalAt(Rank(s)) == s
  {
  }

  /** The weights of the present signals among the first `k` rules. */
  function PointsUpTo(d: ScanData, k: nat): nat
    requires k <= SignalCount
  {
    if k == 0 then 0 else PointsUpTo(d, k - 1) + Award(d, SignalAt(k - 1))
  }

  function WeightUpTo(k: nat): nat
    requires k <= SignalCount
  {
    if k == 0 then 0 else WeightUpTo(k - 1) + Weight(SignalAt(k - 1))
  }

  /** The score: the present signals' weights, capped at 100. */
  function SeoScore(d: ScanData): int {
    Min(PointsUpTo(d, SignalCount), 100)
  }

  /** `Math.min`. */
  function Min(a: int, b: int): int {
    if a < b then a else b
  }

  /** Unfolding the table: the points are the sum of the fourteen awards. */
  lemma PointsAsSum(d: ScanData)
    ensures PointsUpTo(d, SignalCount)
         == Award(d, Title) + Award(d, Description) + Award(d, MetaKeywords) + Award(d, OgTags)
          + Award(d, TwitterTags) + Award(d, Paragraphs) + Award(d, ContentKeywords)
          + Award(d, Emphasized) + Award(d, Strong) + Award(d, Charset) + Award(d, Language)
          + Award(d, Images) + Award(d, InternalLinks) + Award(d, ExternalLinks)
  {
    assert PointsUpTo(d, 1) == Award(d, Title);
    assert PointsUpTo(d, 2) == PointsUpTo(d, 1) + Award(d, Description);
    assert PointsUpTo(d, 3) == PointsUpTo(d, 2) + Award(d, MetaKeywords);
    assert PointsUpTo(d, 4) == PointsUpTo(d, 3) + Award(d, OgTags);
    assert PointsUpTo(d, 5) == PointsUpTo(d, 4) + Award(d, TwitterTags);
    assert PointsUpTo(d, 6) == PointsUpTo(d, 5) + Award(d, Paragraphs);
    assert PointsUpTo(d, 7) == PointsUpTo(d, 6) + Award(d, ContentKeywords);
    assert PointsUpTo(d, 8) == PointsUpTo(d, 7) + Award(d, Emphasized);
    assert PointsUpTo(d, 9) == PointsUpTo(d, 8) + Award(d, Strong);
    assert PointsUpTo(d, 10) == PointsUpTo(d, 9) + Award(d, Charset);
    assert PointsUpTo(d, 11) == PointsUpTo(d, 10) + Award(d, Language);
    assert PointsUpTo(d, 12) == PointsUpTo(d, 11) + Award(d, Images);
    assert PointsUpTo(d, 13) == PointsUpTo(d, 12) + Award(d, InternalLinks);
    assert PointsUpTo(d, 14) == PointsUpTo(d, 13) + Award(d, ExternalLinks);
  }

  /** The fourteen weights add up to exactly 100. */
  lemma WeightsSumTo100()
    ensures WeightUpTo(SignalCount) == 100
  {
    assert WeightUpTo(4) == 50;
    assert WeightUpTo(8) == 85;
    assert WeightUpTo(12) == 97;
  }

  /** `calculateSEOScore`: a running total, one `if` per signal, then `Math.min(score, 100)`.
      The fourteen `if`s run in the source's order, grouped by the record they read. */
  method CalculateSeoScore(data: ScanData) returns (score: int)
    ensures score == SeoScore(data)
  {
    PointsAsSum(data);
    score := 0;
    score := AddMetaPoints(data, score);
    score := AddContentPoints(data, score);
    score := AddOtherPoints(data, score);
    score := Min(score, 100);
  }

  /** Title, description, keywords, Open Graph and Twitter tags. */
  method AddMetaPoints(data: ScanData, before: int) returns (score: int)
    ensures score == before + Award(data, Title) + Award(data, Description) + Award(data, MetaKeywords)
                            + Award(data, OgTags) + Award(data, TwitterTags)
  {
    var meta := MetaOf(data);
    score := before;
    if TextTruthy(meta.title) { score := score + 15; }
    if TextTruthy(meta.description) { score := score + 15; }
    if KeywordsTruthy(meta.keywords) { score := score + 10; }
    if HasKey(meta.ogTags) { score := score + 10; }
    if HasKey(meta.twitterTags) { score := score + 10; }
  }

  /** Paragraphs, content keywords, emphasized and strong texts. */
  method AddContentPoints(data: ScanData, before: int) returns (score: int)
    ensures score == before + Award(data, Paragraphs) + Award(data, ContentKeywords)
                            + Award(data, Emphasized) + Award(data, Strong)
  {
    var content := ContentOf(data);
    score := before;
    if NonEmpty(content.paragraphs) { score := score + 10; }
    if NonEmpty(content.keywords) { score := score + 10; }
    if NonEmpty(content.emphasized) { score := score + 5; }
    if NonEmpty(content.strong) { score := score + 5; }
  }

  /** Charset, language, images, internal and external links. */
  method AddOtherPoints(data: ScanData, before: int) returns (score: int)
    ensures score == before + Award(data, Charset) + Award(data, Language) + Award(data, Images)
                            + Award(data, InternalLinks) + Award(data, ExternalLinks)
  {
    var basic, links := BasicOf(data), LinksOf(data);
    score := before;
    if TextTruthy(basic.charset) { score := score + 2; }
    if TextTruthy(basic.language) { score := score + 2; }
    if NonEmpty(data.images) { score := score + 3; }
    if SideNonEmpty(links.internal) { score := score + 2; }
    if SideNonEmpty(links.external) { score := score + 1; }
  }

  // ------------------------------------------------------------------ the issues

  /** The four negative conditions. */
  datatype Issue = MissingTitle | MissingDescription | ImageWithoutAlt | NoInternalLinks

  const IssueRules: seq<Issue> := [MissingTitle, MissingDescription, ImageWithoutAlt, NoInternalLinks]

  /** When issue `i` is raised for `d`. */
  predicate Fires(d: ScanData, i: Issue) {
    match i
    case MissingTitle => MetaOf(d).title.None? || MetaOf(d).title.value == ""
    case MissingDescription => MetaOf(d).description.None? || MetaOf(d).description.value == ""
    case ImageWithoutAlt =>
      d.images.Some? && exists k :: 0 <= k < |d.images.value| && !TextTruthy(d.images.value[k].alt)
    case NoInternalLinks =>
      match LinksOf(d).internal
      case None => true
      case Some(LinkRecords(rs)) => rs == []
      case Some(LinkCount(n)) => n == 0
  }

  /** The number of conditions among the first `k` rules that fire. */
  function IssuesUpTo(d: ScanData, k: nat): nat
    requires k <= |IssueRules|
  {
    if k == 0 then 0 else IssuesUpTo(d, k - 1) + (if Fires(d, IssueRules[k - 1]) then 1 else 0)
  }

  /** The number of conditions that fire. */
  function IssueCount(d: ScanData): nat {
    IssuesUpTo(d, |IssueRules|)
  }

  function Raised(d: ScanData, i: Issue): nat {
    if Fires(d, i) then 1 else 0
  }

  /** Unfolding the table: the count is the sum over the four conditions. */
  lemma IssuesAsSum(d: ScanData)
    ensures IssueCount(d) == Raised(d, MissingTitle) + Raised(d, MissingDescription)
                           + Raised(d, ImageWithoutAlt) + Raised(d, NoInternalLinks)
  {
    assert IssuesUpTo(d, 1) == Raised(d, MissingTitle);
    assert IssuesUpTo(d, 2) == IssuesUpTo(d, 1) + Raised(d, MissingDescription);
    assert IssuesUpTo(d, 3) == IssuesUpTo(d, 2) + Raised(d, ImageWithoutAlt);
    assert IssuesUpTo(d, 4) == IssuesUpTo(d, 3) + Raised(d, NoInternalLinks);
  }

  /** `images.filter((img) => !img.alt)`: the images without a (non-empty) alt text, in order. */
  function WithoutAlt(images: seq<Image>): (r: seq<Image>)
    ensures |r| <= |images|
    ensures forall k :: 0 <= k < |r| ==> r[k] in images && !TextTruthy(r[k].alt)
    ensures |r| == 0 <==> forall k :: 0 <= k < |images| ==> TextTruthy(images[k].alt)
  {
    if images == [] then []
    else
      var rest := WithoutAlt(images[1..]);
      assert forall k :: 0 <= k < |images| - 1 ==> images[1..][k] == images[k + 1];
      if TextTruthy(images[0].alt) then rest else [images[0]] + rest
  }

  /** `getIssues`: a running count, one `if` per condition. */
  method GetIssues(data: ScanData) returns (issues: int)
    ensures issues == IssueCount(data)
  {
    var meta, links := MetaOf(data), LinksOf(data);
    IssuesAsSum(data);
    issues := 0;
    if !TextTruthy(meta.title) { issues := issues + 1; }
    assert issues == Raised(data, MissingTitle);
    if !TextTruthy(meta.description) { issues := issues + 1; }
    assert issues == Raised(data, MissingTitle) + Raised(data, MissingDescription);
    if data.images.Some? && |WithoutAlt(data.images.value)| > 0 { issues := issues + 1; }
    if !SideTruthy(links.internal) ||
       (if links.internal.value.LinkRecords? then |links.internal.value.records| == 0
        else links.internal.value.count == 0) {
      issues := issues + 1;
    }
  }

  // -------------------------------------------------------------------- lemmas

  lemma {:induction false} PointsAtMostWeights(d: ScanData, k: nat)
    requires k <= SignalCount
    ensures PointsUpTo(d, k) <= WeightUpTo(k)
  {
    if k != 0 {
      PointsAtMostWeights(d, k - 1);
    }
  }

  /** The weights add up to exactly 100, so the score lies in [0, 100] and the cap never binds. */
  lemma ScoreWithinBounds(d: ScanData)
    ensures WeightUpTo(SignalCount) == 100
    ensures SeoScore(d) == PointsUpTo(d, SignalCount)
    ensures 0 <= SeoScore(d) <= 100
  {
    WeightsSumTo100();
    PointsAtMostWeights(d, SignalCount);
  }

  lemma {:induction false} PointsNonePresent(d: ScanData, k: nat)
    requires k <= SignalCount
    requires forall s :: !Present(d, s)
    ensures PointsUpTo(d, k) == 0
  {
    if k != 0 {
      PointsNonePresent(d, k - 1);
    }
  }

  lemma {:induction false} PointsAllPresent(d: ScanData, k: nat)
    requires k <= SignalCount
    requires forall s :: Present(d, s)
    ensures PointsUpTo(d, k) == WeightUpTo(k)
  {
    if k != 0 {
      PointsAllPresent(d, k - 1);
    }
  }

  /** The empty payload scores 0 and raises exactly three issues: title, description and
      internal links; the image rule stays silent. */
  lemma EmptyPayload()
    ensures SeoScore(Empty) == 0
    ensures Fires(Empty, MissingTitle) && Fires(Empty, MissingDescription) && Fires(Empty, NoInternalLinks)
    ensures !Fires(Empty, ImageWithoutAlt)
    ensures IssueCount(Empty) == 3
  {
    PointsNonePresent(Empty, SignalCount);
    IssuesAsSum(Empty);
  }

  /** A payload with every signal present and an alt text on every image scores 100 and has
      no issue. */
  lemma CompletePayload(d: ScanData)
    requires forall s :: Present(d, s)
    requires forall k :: 0 <= k < |d.images.GetOr([])| ==> TextTruthy(d.images.GetOr([])[k].alt)
    ensures SeoScore(d) == 100 && IssueCount(d) == 0
  {
    PointsAllPresent(d, SignalCount);
    WeightsSumTo100();
    IssuesAsSum(d);
    assert Present(d, Title) && Present(d, Description) && Present(d, InternalLinks);
    assert Present(d, Images) && d.images.GetOr([]) == d.images.value;
    SideNonEmptyMeans(LinksOf(d).internal);
  }

  lemma {:induction false} PointsDifference(d1: ScanData, d2: ScanData, s: Signal, k: nat)
    requires k <= SignalCount
    requires forall t :: t != s ==> (Present(d1, t) <==> Present(d2, t))
    ensures PointsUpTo(d1, k) - PointsUpTo(d2, k) == if Rank(s) < k then Award(d1, s) - Award(d2, s) else 0
  {
    if k != 0 {
      PointsDifference(d1, d2, s, k - 1);
      RankIsPosition(s);
    }
  }

  /** Signals are independent: two payloads that agree on every signal but `s` differ in
      score by exactly `s`'s award. */
  lemma ScoreDifference(d1: ScanData, d2: ScanData, s: Signal)
    requires forall t :: t != s ==> (Present(d1, t) <==> Present(d2, t))
    ensures SeoScore(d1) - SeoScore(d2) == Award(d1, s) - Award(d2, s)
  {
    PointsDifference(d1, d2, s, SignalCount);
    ScoreWithinBounds(d1);
    ScoreWithinBounds(d2);
  }

  function WithMeta(d: ScanData, m: Meta): ScanData {
    d.(meta := Some(m))
  }

  /** `meta.keywords` earns 10 points exactly when it is truthy: any non-empty string, and any
      list, even an empty one. */
  lemma KeywordsEarnTen(d: ScanData, k: Keywords)
    ensures SeoScore(WithMeta(d, MetaOf(d).(keywords := Some(k))))
         == SeoScore(WithMeta(d, MetaOf(d).(keywords := None))) + (if KeywordsTruthy(Some(k)) then 10 else 0)
    ensures KeywordsTruthy(Some(k)) <==> k.KeywordList? || k.text != ""
  {
    ScoreDifference(WithMeta(d, MetaOf(d).(keywords := Some(k))), WithMeta(d, MetaOf(d).(keywords := None)), MetaKeywords);
  }

  /** `ogTags` earns 10 points exactly when it has a key; an empty object earns nothing. */
  lemma OgTagsNeedAKey(d: ScanData, tags: map<string, string>)
    ensures SeoScore(WithMeta(d, MetaOf(d).(ogTags := Some(tags))))
         == SeoScore(WithMeta(d, MetaOf(d).(ogTags := None))) + (if |tags| > 0 then 10 else 0)
  {
    ScoreDifference(WithMeta(d, MetaOf(d).(ogTags := Some(tags))), WithMeta(d, MetaOf(d).(ogTags := None)), OgTags);
  }

  /** `twitterTags` earns 10 points exactly when it has a key; an empty object earns nothing. */
  lemma TwitterTagsNeedAKey(d: ScanData, tags: map<string, string>)
    ensures SeoScore(WithMeta(d, MetaOf(d).(twitterTags := Some(tags))))
         == SeoScore(WithMeta(d, MetaOf(d).(twitterTags := None))) + (if |tags| > 0 then 10 else 0)
  {
    ScoreDifference(WithMeta(d, MetaOf(d).(twitterTags := Some(tags))), WithMeta(d, MetaOf(d).(twitterTags := None)), TwitterTags);
  }

  function WithLinks(d: ScanData, l: Links): ScanData {
    d.(links := Some(l))
  }

  /** Internal links earn 2 points, external links 1, exactly when the side is a non-empty
      list or a count above 0. */
  lemma LinkSidesEarnPoints(d: ScanData, side: LinkSide)
    ensures SeoScore(WithLinks(d, LinksOf(d).(internal := Some(side))))
         == SeoScore(WithLinks(d, LinksOf(d).(internal := None))) + (if SideNonEmpty(Some(side)) then 2 else 0)
    ensures SeoScore(WithLinks(d, LinksOf(d).(external := Some(side))))
         == SeoScore(WithLinks(d, LinksOf(d).(external := None))) + (if SideNonEmpty(Some(side)) then 1 else 0)
    ensures SideNonEmpty(Some(side)) <==> (side.LinkRecords? && |side.records| > 0) || (side.LinkCount? && side.count > 0)
  {
    ScoreDifference(WithLinks(d, LinksOf(d).(internal := Some(side))), WithLinks(d, LinksOf(d).(internal := None)), InternalLinks);
    ScoreDifference(WithLinks(d, LinksOf(d).(external := Some(side))), WithLinks(d, LinksOf(d).(external := None)), ExternalLinks);
  }

  /** Each condition adds exactly one, so there are between 0 and 4 issues. */
  lemma IssueCountIsSum(d: ScanData)
    ensures forall i :: Raised(d, i) <= 1
    ensures 0 <= IssueCount(d) <= 4
  {
    IssuesAsSum(d);
  }

  /** The image issue needs an image: absent or empty `images` never raise it. */
  lemma ImageIssueNeedsAnImage(d: ScanData)
    ensures Fires(d, ImageWithoutAlt) <==> d.images.Some? && |WithoutAlt(d.images.value)| > 0
    ensures (d.images.None? || d.images == Some([])) ==> !Fires(d, ImageWithoutAlt)
  {
  }

  /** Title and description earn their 15 points exactly when they raise no issue. */
  lemma TextPointsIffNoIssue(d: ScanData)
    ensures Present(d, Title) <==> !Fires(d, MissingTitle)
    ensures Present(d, Description) <==> !Fires(d, MissingDescription)
  {
  }

  /** For a list or a non-negative count, the internal-link points are awarded exactly when
      the "no internal links" issue does not fire; a negative count does neither. */
  lemma InternalPointsIffNoIssue(d: ScanData)
    ensures (LinksOf(d).internal.None? || LinksOf(d).internal.value.LinkRecords?
             || LinksOf(d).internal.value.count >= 0)
            ==> (Present(d, InternalLinks) <==> !Fires(d, NoInternalLinks))
    ensures LinksOf(d).internal.Some? && LinksOf(d).internal.value.LinkCount? && LinksOf(d).internal.value.count < 0
            ==> !Present(d, InternalLinks) && !Fires(d, NoInternalLinks)
  {
    SideNonEmptyMeans(LinksOf(d).internal);
  }
}
