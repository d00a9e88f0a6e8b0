/** The scan payload as the scoring code reads it (`types/scan.ts`), widened to the shapes
    the code also accepts: `meta.keywords` as a string or a list, and `links.internal` /
    `links.external` as a list of link records or a plain count. Every field is optional. */
module ScanData {
  import opened Js

  datatype Keywords = KeywordText(text: string) | KeywordList(words: seq<string>)

  datatype Meta = Meta(
    title: Option<string>,
    description: Option<string>,
    keywords: Option<Keywords>,
    ogTags: Option<map<string, string>>,
    twitterTags: Option<map<string, string>>)

  datatype WordCount = WordCount(word: string, count: int)

  datatype Content = Content(
    paragraphs: Option<seq<string>>,
    keywords: Option<seq<WordCount>>,
    emphasized: Option<seq<string>>,
    strong: Option<seq<string>>)

  datatype Basic = Basic(charset: Option<string>, language: Option<string>)

  datatype Image = Image(src: string, alt: Option<string>, width: Option<int>, height: Option<int>)

  datatype Link = Link(href: string, text: Option<string>)

  datatype LinkSide = LinkRecords(records: seq<Link>) | LinkCount(count: int)

  datatype Links = Links(total: Option<int>, internal: Option<LinkSide>, external: Option<LinkSide>)

  datatype Heading = Heading(level: int, text: string)

  datatype ScanData = ScanData(
    meta: Option<Meta>,
    content: Option<Content>,
    basic: Option<Basic>,
    images: Option<seq<Image>>,
    links: Option<Links>,
    headings: Option<seq<Heading>>,
    emails: Option<seq<string>>)

  /** The payload `{}`: every field absent. */
  const Empty: ScanData := ScanData(None, None, None, None, None, None, None)

  /** Truthiness of an optional string field (`""` is falsy). */
  predicate TextTruthy(t: Option<string>) {
    t.Some? && t.value != ""
  }

  // --------------------------------------------------------- `data as ScanData`
  // The cast itself does nothing at run time; these functions read a JSON tree into the
  // typed shape. A JSON value of another type than the shape allows reads as absent, and a
  // list element of another type keeps its place, with its fields absent or empty.

  function TextOr(v: Option<Json>, default: string): string {
    if v.Some? && v.value.Str? then v.value.s else default
  }

  function TextField(v: Option<Json>): Option<string> {
    if v.Some? && v.value.Str? then Some(v.value.s) else None
  }

  function IntField(v: Option<Json>): Option<int> {
    if v.Some? && v.value.Num? then Some(v.value.n) else None
  }

  function Texts(items: seq<Json>): (r: seq<string>)
    ensures |r| == |items|
  {
    seq(|items|, i requires 0 <= i < |items| => TextOr(Some(items[i]), ""))
  }

  function TextsField(v: Option<Json>): Option<seq<string>> {
    if v.Some? && v.value.Arr? then Some(Texts(v.value.items)) else None
  }

  function TagsField(v: Option<Json>): Option<map<string, string>> {
    if v.Some? && v.value.Obj? then
      Some(map k | k in v.value.fields :: TextOr(Some(v.value.fields[k]), ""))
    else None
  }

  function KeywordsField(v: Option<Json>): Option<Keywords> {
    if v.Some? && v.value.Str? then Some(KeywordText(v.value.s))
    else if v.Some? && v.value.Arr? then Some(KeywordList(Texts(v.value.items)))
    else None
  }

  function ViewMeta(v: Option<Json>): Option<Meta> {
    if v.Some? && v.value.Obj? then
      Some(Meta(TextField(Prop(v, "title")), TextField(Prop(v, "description")),
                KeywordsField(Prop(v, "keywords")), TagsField(Prop(v, "ogTags")),
                TagsField(Prop(v, "twitterTags"))))
    else None
  }

  function ViewWordCount(j: Json): WordCount {
    WordCount(TextOr(Prop(Some(j), "word"), ""), IntField(Prop(Some(j), "count")).GetOr(0))
  }

  function ViewContent(v: Option<Json>): Option<Content> {
    if v.Some? && v.value.Obj? then
      var kws := Prop(v, "keywords");
      Some(Content(TextsField(Prop(v, "paragraphs")),
                   if kws.Some? && kws.value.Arr?
                   then Some(seq(|kws.value.items|, i requires 0 <= i < |kws.value.items| =>
                                    ViewWordCount(kws.value.items[i])))
                   else None,
                   TextsField(Prop(v, "emphasized")), TextsField(Prop(v, "strong"))))
    else None
  }

  function ViewBasic(v: Option<Json>): Option<Basic> {
    if v.Some? && v.value.Obj? then
      Some(Basic(TextField(Prop(v, "charset")), TextField(Prop(v, "language"))))
    else None
  }

  function ViewImage(j: Json): Image {
    Image(TextOr(Prop(Some(j), "src"), ""), TextField(Prop(Some(j), "alt")),
          IntField(Prop(Some(j), "width")), IntField(Prop(Some(j), "height")))
  }

  function ViewLink(j: Json): Link {
    Link(TextOr(Prop(Some(j), "href"), ""), TextField(Prop(Some(j), "text")))
  }

  function ViewLinkSide(v: Option<Json>): Option<LinkSide> {
    if v.Some? && v.value.Arr? then
      Some(LinkRecords(seq(|v.value.items|, i requires 0 <= i < |v.value.items| => ViewLink(v.value.items[i]))))
    else if v.Some? && v.value.Num? then Some(LinkCount(v.value.n))
    else None
  }

  function ViewLinks(v: Option<Json>): Option<Links> {
    if v.Some? && v.value.Obj? then
      Some(Links(IntField(Prop(v, "total")), ViewLinkSide(Prop(v, "internal")),
                 ViewLinkSide(Prop(v, "external"))))
    else None
  }

  function ViewHeading(j: Json): Heading {
    Heading(IntField(Prop(Some(j), "level")).GetOr(0), TextOr(Prop(Some(j), "text"), ""))
  }

  function ViewImages(v: Option<Json>): Option<seq<Image>> {
    if v.Some? && v.value.Arr? then
      Some(seq(|v.value.items|, i requires 0 <= i < |v.value.items| => ViewImage(v.value.items[i])))
    else None
  }

  function ViewHeadings(v: Option<Json>): Option<seq<Heading>> {
    if v.Some? && v.value.Arr? then
      Some(seq(|v.value.items|, i requires 0 <= i < |v.value.items| => ViewHeading(v.value.items[i])))
    else None
  }

  /** `data as ScanData`: the payload read through the widened shape. A field is present
      exactly when the payload holds a value of the shape's type there, and a list keeps its
      length. */
  function View(data: Json): (v: ScanData)
    ensures v.meta.Some? <==> Prop(Some(data), "meta").Some? && Prop(Some(data), "meta").value.Obj?
    ensures v.content.Some? <==> Prop(Some(data), "content").Some? && Prop(Some(data), "content").value.Obj?
    ensures v.basic.Some? <==> Prop(Some(data), "basic").Some? && Prop(Some(data), "basic").value.Obj?
    ensures v.links.Some? <==> Prop(Some(data), "links").Some? && Prop(Some(data), "links").value.Obj?
    ensures v.images.Some? <==> Prop(Some(data), "images").Some? && Prop(Some(data), "images").value.Arr?
    ensures v.images.Some? ==> |v.images.value| == |Prop(Some(data), "images").value.items|
    ensures v.headings.Some? <==> Prop(Some(data), "headings").Some? && Prop(Some(data), "headings").value.Arr?
    ensures v.headings.Some? ==> |v.headings.value| == |Prop(Some(data), "headings").value.items|
    ensures v.emails.Some? <==> Prop(Some(data), "emails").Some? && Prop(Some(data), "emails").value.Arr?
    ensures v.emails.Some? ==> |v.emails.value| == |Prop(Some(data), "emails").value.items|
  {
    var d := Some(data);
    ScanData(ViewMeta(Prop(d, "meta")), ViewContent(Prop(d, "content")), ViewBasic(Prop(d, "basic")),
             ViewImages(Prop(d, "images")), ViewLinks(Prop(d, "links")), ViewHeadings(Prop(d, "headings")),
             TextsField(Prop(d, "emails")))
  }

  // ------------------------------------------------------ the payload as JSON
  // A JSON encoding of a payload of the declared shape, writing an absent field as `null`.

  function OrNull(v: Option<Json>): Json {
    if v.Some? then v.value else Null
  }

  function StrOpt(t: Option<string>): Option<Json> {
    if t.Some? then Some(Str(t.value)) else None
  }

  function NumOpt(n: Option<int>): Option<Json> {
    if n.Some? then Some(Num(n.value)) else None
  }

  function TextsJson(xs: seq<string>): Json {
    Arr(seq(|xs|, i requires 0 <= i < |xs| => Str(xs[i])))
  }

  function TextsOpt(xs: Option<seq<string>>): Option<Json> {
    if xs.Some? then Some(TextsJson(xs.value)) else None
  }

  function TagsOpt(m: Option<map<string, string>>): Option<Json> {
    if m.Some? then Some(Obj(map k | k in m.value :: Str(m.value[k]))) else None
  }

  function KeywordsOpt(k: Option<Keywords>): Option<Json> {
    match k
    case None => None
    case Some(KeywordText(t)) => Some(Str(t))
    case Some(KeywordList(ws)) => Some(TextsJson(ws))
  }

  function MetaJson(m: Meta): Json {
    Obj(map["title" := OrNull(StrOpt(m.title)), "description" := OrNull(StrOpt(m.description)),
            "keywords" := OrNull(KeywordsOpt(m.keywords)), "ogTags" := OrNull(TagsOpt(m.ogTags)),
            "twitterTags" := OrNull(TagsOpt(m.twitterTags))])
  }

  function WordCountJson(w: WordCount): Json {
    Obj(map["word" := Str(w.word), "count" := Num(w.count)])
  }

  function WordCountsOpt(ws: Option<seq<WordCount>>): Option<Json> {
    if ws.Some? then Some(Arr(seq(|ws.value|, i requires 0 <= i < |ws.value| => WordCountJson(ws.value[i]))))
    else None
  }

  function ContentJson(c: Content): Json {
    Obj(map["paragraphs" := OrNull(TextsOpt(c.paragraphs)), "keywords" := OrNull(WordCountsOpt(c.keywords)),
            "emphasized" := OrNull(TextsOpt(c.emphasized)), "strong" := OrNull(TextsOpt(c.strong))])
  }

  function BasicJson(b: Basic): Json {
    Obj(map["charset" := OrNull(StrOpt(b.charset)), "language" := OrNull(StrOpt(b.language))])
  }

  function ImageJson(img: Image): Json {
    Obj(map["src" := Str(img.src), "alt" := OrNull(StrOpt(img.alt)),
            "width" := OrNull(NumOpt(img.width)), "height" := OrNull(NumOpt(img.height))])
  }

  function ImagesOpt(imgs: Option<seq<Image>>): Option<Json> {
    if imgs.Some? then Some(Arr(seq(|imgs.value|, i requires 0 <= i < |imgs.value| => ImageJson(imgs.value[i]))))
    else None
  }

  function LinkJson(l: Link): Json {
    Obj(map["href" := Str(l.href), "text" := OrNull(StrOpt(l.text))])
  }

  function LinkSideOpt(s: Option<LinkSide>): Option<Json> {
    match s
    case None => None
    case Some(LinkCount(n)) => Some(Num(n))
    case Some(LinkRecords(rs)) => Some(Arr(seq(|rs|, i requires 0 <= i < |rs| => LinkJson(rs[i]))))
  }

  function LinksJson(l: Links): Json {
    Obj(map["total" := OrNull(NumOpt(l.total)), "internal" := OrNull(LinkSideOpt(l.internal)),
            "external" := OrNull(LinkSideOpt(l.external))])
  }

  function HeadingJson(h: Heading): Json {
    Obj(map["level" := Num(h.level), "text" := Str(h.text)])
  }

  function HeadingsOpt(hs: Option<seq<Heading>>): Option<Json> {
    if hs.Some? then Some(Arr(seq(|hs.value|, i requires 0 <= i < |hs.value| => HeadingJson(hs.value[i]))))
    else None
  }

  function ToJson(d: ScanData): Json {
    Obj(map[
      "meta" := if d.meta.Some? then MetaJson(d.meta.value) else Null,
      "content" := if d.content.Some? then ContentJson(d.content.value) else Null,
      "basic" := if d.basic.Some? then BasicJson(d.basic.value) else Null,
      "images" := OrNull(ImagesOpt(d.images)),
      "links" := if d.links.Some? then LinksJson(d.links.value) else Null,
      "headings" := OrNull(HeadingsOpt(d.headings)),
      "emails" := OrNull(TextsOpt(d.emails))])
  }

  // ------------------------------------------------------------- round trip

  lemma TextsRoundTrip(xs: Option<seq<string>>)
    ensures TextsField(Some(OrNull(TextsOpt(xs)))) == xs
  {
    if xs.Some? {
      assert Texts(TextsJson(xs.value).items) == xs.value;
    }
  }

  lemma TagsRoundTrip(m: Option<map<string, string>>)
    ensures TagsField(Some(OrNull(TagsOpt(m)))) == m
  {
    if m.Some? {
      var j := map k | k in m.value :: Str(m.value[k]);
      var t := map k | k in j :: TextOr(Some(j[k]), "");
      assert TagsField(TagsOpt(m)) == Some(t);
      assert t.Keys == m.value.Keys;
      assert forall k :: k in t ==> t[k] == m.value[k];
      assert t == m.value;
    }
  }

  lemma KeywordsRoundTrip(k: Option<Keywords>)
    ensures KeywordsField(Some(OrNull(KeywordsOpt(k)))) == k
  {
    if k.Some? && k.value.KeywordList? {
      TextsRoundTrip(Some(k.value.words));
    }
  }

  lemma MetaRoundTrip(m: Meta)
    ensures ViewMeta(Some(MetaJson(m))) == Some(m)
  {
    KeywordsRoundTrip(m.keywords);
    TagsRoundTrip(m.ogTags);
    TagsRoundTrip(m.twitterTags);
  }

  lemma ContentRoundTrip(c: Content)
    ensures ViewContent(Some(ContentJson(c))) == Some(c)
  {
    var v := Some(ContentJson(c));
    TextsRoundTrip(c.paragraphs);
    TextsRoundTrip(c.emphasized);
    TextsRoundTrip(c.strong);
    var kws := Prop(v, "keywords");
    if c.keywords.Some? {
      var ws := c.keywords.value;
      assert kws.Some? && kws.value.Arr? && |kws.value.items| == |ws|;
      forall i | 0 <= i < |ws| ensures ViewWordCount(kws.value.items[i]) == ws[i] {
        assert kws.value.items[i] == WordCountJson(ws[i]);
      }
      assert seq(|kws.value.items|, i requires 0 <= i < |kws.value.items| => ViewWordCount(kws.value.items[i])) == ws;
    } else {
      assert kws == Some(Null);
    }
  }

  lemma ImagesRoundTrip(imgs: Option<seq<Image>>)
    ensures ViewImages(Some(OrNull(ImagesOpt(imgs)))) == imgs
  {
    if imgs.Some? {
      var items := ImagesOpt(imgs).value.items;
      forall i | 0 <= i < |imgs.value| ensures ViewImage(items[i]) == imgs.value[i] {
        assert items[i] == ImageJson(imgs.value[i]);
      }
      assert seq(|items|, i requires 0 <= i < |items| => ViewImage(items[i])) == imgs.value;
    }
  }

  lemma HeadingsRoundTrip(hs: Option<seq<Heading>>)
    ensures ViewHeadings(Some(OrNull(HeadingsOpt(hs)))) == hs
  {
    if hs.Some? {
      var items := HeadingsOpt(hs).value.items;
      forall i | 0 <= i < |hs.value| ensures ViewHeading(items[i]) == hs.value[i] {
        assert items[i] == HeadingJson(hs.value[i]);
      }
      assert seq(|items|, i requires 0 <= i < |items| => ViewHeading(items[i])) == hs.value;
    }
  }

  lemma LinkSideRoundTrip(s: Option<LinkSide>)
    ensures ViewLinkSide(Some(OrNull(LinkSideOpt(s)))) == s
  {
    if s.Some? && s.value.LinkRecords? {
      var rs := s.value.records;
      var items := LinkSideOpt(s).value.items;
      forall i | 0 <= i < |rs| ensures ViewLink(items[i]) == rs[i] {
        assert items[i] == LinkJson(rs[i]);
      }
      assert seq(|items|, i requires 0 <= i < |items| => ViewLink(items[i])) == rs;
    }
  }

  lemma LinksRoundTrip(l: Links)
    ensures ViewLinks(Some(LinksJson(l))) == Some(l)
  {
    LinkSideRoundTrip(l.internal);
    LinkSideRoundTrip(l.external);
  }

  // Each field of the encoding reads back as the field it came from.

  lemma MetaFieldRoundTrip(d: ScanData)
    ensures ViewMeta(Prop(Some(ToJson(d)), "meta")) == d.meta
  {
    assert Prop(Some(ToJson(d)), "meta") == Some(if d.meta.Some? then MetaJson(d.meta.value) else Null);
    if d.meta.Some? { MetaRoundTrip(d.meta.value); }
  }

  lemma ContentFieldRoundTrip(d: ScanData)
    ensures ViewContent(Prop(Some(ToJson(d)), "content")) == d.content
  {
    assert Prop(Some(ToJson(d)), "content") == Some(if d.content.Some? then ContentJson(d.content.value) else Null);
    if d.content.Some? { ContentRoundTrip(d.content.value); }
  }

  lemma BasicRoundTrip(b: Basic)
    ensures ViewBasic(Some(BasicJson(b))) == Some(b)
  {
    var j := Some(BasicJson(b));
    assert Prop(j, "charset") == Some(OrNull(StrOpt(b.charset)));
    assert Prop(j, "language") == Some(OrNull(StrOpt(b.language)));
  }

  lemma BasicFieldRoundTrip(d: ScanData)
    ensures ViewBasic(Prop(Some(ToJson(d)), "basic")) == d.basic
  {
    assert Prop(Some(ToJson(d)), "basic") == Some(if d.basic.Some? then BasicJson(d.basic.value) else Null);
    if d.basic.Some? { BasicRoundTrip(d.basic.value); }
  }

  lemma ImagesFieldRoundTrip(d: ScanData)
    ensures ViewImages(Prop(Some(ToJson(d)), "images")) == d.images
  {
    assert Prop(Some(ToJson(d)), "images") == Some(OrNull(ImagesOpt(d.images)));
    ImagesRoundTrip(d.images);
  }

  lemma LinksFieldRoundTrip(d: ScanData)
    ensures ViewLinks(Prop(Some(ToJson(d)), "links")) == d.links
  {
    assert Prop(Some(ToJson(d)), "links") == Some(if d.links.Some? then LinksJson(d.links.value) else Null);
    if d.links.Some? { LinksRoundTrip(d.links.value); }
  }

  lemma HeadingsFieldRoundTrip(d: ScanData)
    ensures ViewHeadings(Prop(Some(ToJson(d)), "headings")) == d.headings
  {
    assert Prop(Some(ToJson(d)), "headings") == Some(OrNull(HeadingsOpt(d.headings)));
    HeadingsRoundTrip(d.headings);
  }

  lemma EmailsFieldRoundTrip(d: ScanData)
    ensures TextsField(Prop(Some(ToJson(d)), "emails")) == d.emails
  {
    assert Prop(Some(ToJson(d)), "emails") == Some(OrNull(TextsOpt(d.emails)));
    TextsRoundTrip(d.emails);
  }

  /** Reading the JSON of a well-shaped payload gives that payload back: on payloads of the
      declared shape the cast loses nothing. */
  lemma ViewToJson(d: ScanData)
    ensures View(ToJson(d)) == d
  {
    MetaFieldRoundTrip(d);
    ContentFieldRoundTrip(d);
    BasicFieldRoundTrip(d);
    ImagesFieldRoundTrip(d);
    LinksFieldRoundTrip(d);
    HeadingsFieldRoundTrip(d);
    EmailsFieldRoundTrip(d);
  }
}
