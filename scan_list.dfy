/** The logic embedded in the scan list (`components/scans/scan-list.tsx`): reading a stored
    payload, hiding test scans, counting links and e-mails, the score colour and the keyword
    badges. The payload is read as untyped JSON, as the component does. */
module ScanList {
  import opened Js
  import opened ScanData
  import opened SeoUtils

  /** A stored scan as the list receives it (`createdAt` in milliseconds). */
  datatype StoredScan = StoredScan(id: string, url: string, data: Json, createdAt: int)

  // ------------------------------------------------------------ reading the payload

  /** `typeof scan.data === "string" ? JSON.parse(scan.data) : scan.data`; `parse` stands for
      `JSON.parse`, which may throw. */
  function Raw(stored: Json, parse: string -> Completion<Json>): (r: Completion<Json>)
    ensures r.Thrown? ==> stored.Str? && parse(stored.s).Thrown?
    ensures !stored.Str? ==> r == Normal(stored)
  {
    if stored.Str? then parse(stored.s) else Normal(stored)
  }

  /** `raw && typeof raw.data === "object" ? raw.data : raw`: the payload nested under `data`
      is used exactly when `raw` is an object whose `data` is null, an array or an object. */
  function Unwrap(raw: Json): (data: Json)
    ensures raw.Obj? && "data" in raw.fields && (raw.fields["data"].Null? || raw.fields["data"].Arr? || raw.fields["data"].Obj?)
            ==> data == raw.fields["data"]
    ensures !(raw.Obj? && "data" in raw.fields && (raw.fields["data"].Null? || raw.fields["data"].Arr? || raw.fields["data"].Obj?))
            ==> data == raw
  {
    var nested := Prop(Some(raw), "data");
    if Truthy(Some(raw)) && TypeOf(nested) == "object" then nested.value else raw
  }

  /** The payload the list works on: it throws only when parsing a stored string throws, and
      otherwise it is the unwrapped raw value. */
  function Payload(scan: StoredScan, parse: string -> Completion<Json>): (r: Completion<Json>)
    ensures r.Thrown? <==> Raw(scan.data, parse).Thrown?
    ensures r.Normal? ==> r.value == Unwrap(Raw(scan.data, parse).value)
    ensures !scan.data.Str? ==> r == Normal(Unwrap(scan.data))
  {
    var raw :- Raw(scan.data, parse);
    Normal(Unwrap(raw))
  }

  // ---------------------------------------------------------------- the test filter

  /** `data.meta?.title`. */
  function Title(data: Json): Option<Json> {
    Prop(Prop(Some(data), "meta"), "title")
  }

  /** The lower-cased text contains "test" somewhere. */
  ghost predicate MentionsTest(s: string) {
    exists i :: OccursAt(Lower(s), "test", i)
  }

  /** The filter callback: `!data.meta?.title?.toLowerCase().includes("test") &&
      !scan.url.toLowerCase().includes("test")`. It throws on a null payload (`data.meta`) and on
      a title that is neither nullish nor a string (it has no `toLowerCase`). */
  function KeepScan(data: Json, url: string): (r: Completion<bool>)
    ensures r.Thrown? <==> data == Null || (!Nullish(Title(data)) && !Title(data).value.Str?)
    ensures r.Normal? ==>
              (r.value <==> !(Title(data).Some? && Title(data).value.Str? && MentionsTest(Title(data).value.s))
                            && !MentionsTest(url))
  {
    IncludesIffOccurs(Lower(url), "test");
    var meta :- Member(Some(data), "meta");
    var title := Prop(meta, "title");
    if Nullish(title) then
      Normal(!Includes(Lower(url), "test"))
    else if title.value.Str? then
      IncludesIffOccurs(Lower(title.value.s), "test");
      Normal(!Includes(Lower(title.value.s), "test") && !Includes(Lower(url), "test"))
    else
      Thrown("TypeError: title.toLowerCase is not a function")
  }

  /** The callback on a stored scan: it throws when the payload cannot be read, or on a null
      payload or a title that is neither nullish nor a string; otherwise it keeps the scan
      exactly when neither its title nor its url mentions "test". */
  function Keep(scan: StoredScan, parse: string -> Completion<Json>): (r: Completion<bool>)
    ensures r.Thrown? <==> Payload(scan, parse).Thrown?
                           || (var data := Payload(scan, parse).value;
                               data == Null || (!Nullish(Title(data)) && !Title(data).value.Str?))
    ensures r.Normal? ==>
              var data := Payload(scan, parse).value;
              (r.value <==> !(Title(data).Some? && Title(data).value.Str? && MentionsTest(Title(data).value.s))
                            && !MentionsTest(scan.url))
  {
    var data :- Payload(scan, parse);
    KeepScan(data, scan.url)
  }

  /** `a` is `b` with some elements left out, the rest in order. */
  ghost predicate SubsequenceOf<T>(a: seq<T>, b: seq<T>)
    decreases |b|
  {
    if a == [] then true
    else if b == [] then false
    else (a[0] == b[0] && SubsequenceOf(a[1..], b[1..])) || SubsequenceOf(a, b[1..])
  }

  lemma SubsequenceSkip<T>(a: seq<T>, b: seq<T>)
    requires b != [] && SubsequenceOf(a, b[1..])
    ensures SubsequenceOf(a, b)
  {
  }

  /** `scans.filter(...)`: the first callback that throws aborts the whole list. */
  function VisibleScans(scans: seq<StoredScan>, parse: string -> Completion<Json>): (r: Completion<seq<StoredScan>>)
    ensures r.Normal? ==> |r.value| <= |scans|
    ensures r.Normal? ==> forall s :: s in r.value ==> s in scans
  {
    if scans == [] then Normal([])
    else
      var keep :- Keep(scans[0], parse);
      var rest :- VisibleScans(scans[1..], parse);
      Normal(if keep then [scans[0]] + rest else rest)
  }

  /** The filter completes exactly when no callback throws. */
  lemma {:induction false} VisibleScansCompletes(scans: seq<StoredScan>, parse: string -> Completion<Json>)
    ensures VisibleScans(scans, parse).Normal? <==> forall i :: 0 <= i < |scans| ==> Keep(scans[i], parse).Normal?
  {
    if scans != [] {
      VisibleScansCompletes(scans[1..], parse);
      assert forall i :: 1 <= i < |scans| ==> scans[i] == scans[1..][i - 1];
      if forall i :: 1 <= i < |scans| ==> Keep(scans[i], parse).Normal? {
        assert forall i :: 0 <= i < |scans[1..]| ==> Keep(scans[1..][i], parse).Normal?;
      }
    }
  }

  /** A completed filter keeps exactly the scans whose callback returned true, each as often
      as it occurs in the list, in order. */
  lemma {:induction false} VisibleScansKeeps(scans: seq<StoredScan>, parse: string -> Completion<Json>)
    requires VisibleScans(scans, parse).Normal?
    ensures forall s :: s in VisibleScans(scans, parse).value <==> s in scans && Keep(s, parse) == Normal(true)
    ensures SubsequenceOf(VisibleScans(scans, parse).value, scans)
    ensures forall t :: multiset(VisibleScans(scans, parse).value)[t] ==
                        if Keep(t, parse) == Normal(true) then multiset(scans)[t] else 0
  {
    if scans != [] {
      assert scans == [scans[0]] + scans[1..];
      var rest := VisibleScans(scans[1..], parse).value;
      VisibleScansKeeps(scans[1..], parse);
      if Keep(scans[0], parse).value {
        assert ([scans[0]] + rest)[1..] == rest;
      } else {
        SubsequenceSkip(rest, scans);
      }
    }
  }

  /** A failed filter reports the error of the first callback that threw. */
  lemma {:induction false} VisibleScansFailsFirst(scans: seq<StoredScan>, parse: string -> Completion<Json>)
    requires VisibleScans(scans, parse).Thrown?
    ensures exists i :: 0 <= i < |scans| && Keep(scans[i], parse).Thrown?
                        && VisibleScans(scans, parse) == Thrown(Keep(scans[i], parse).error)
                        && forall j :: 0 <= j < i ==> Keep(scans[j], parse).Normal?
  {
    if Keep(scans[0], parse).Normal? {
      VisibleScansFailsFirst(scans[1..], parse);
      var i :| 0 <= i < |scans[1..]| && Keep(scans[1..][i], parse).Thrown?
               && VisibleScans(scans[1..], parse) == Thrown(Keep(scans[1..][i], parse).error)
               && forall j :: 0 <= j < i ==> Keep(scans[1..][j], parse).Normal?;
      forall j | 0 <= j < i + 1 ensures Keep(scans[j], parse).Normal? {
        if j > 0 { assert scans[j] == scans[1..][j - 1]; }
      }
      assert Keep(scans[i + 1], parse).Thrown?;
    } else {
      assert Keep(scans[0], parse).Thrown?;
    }
  }

  /** Every scan the filter lets through has a payload that is not null: the card code that
      follows may read its properties. */
  lemma {:induction false} VisiblePayloadsNotNull(scans: seq<StoredScan>, parse: string -> Completion<Json>)
    requires VisibleScans(scans, parse).Normal?
    ensures forall s :: s in VisibleScans(scans, parse).value ==>
              Payload(s, parse).Normal? && Payload(s, parse).value != Null
  {
    VisibleScansKeeps(scans, parse);
    forall s | s in VisibleScans(scans, parse).value
      ensures Payload(s, parse).Normal? && Payload(s, parse).value != Null
    {
      assert Keep(s, parse) == Normal(true);
    }
  }

  /** A payload nested as `{data: null}` unwraps to `null`, and the filter then throws. */
  lemma NullNestedPayloadThrows(url: string)
    ensures Unwrap(Obj(map["data" := Null])) == Null
    ensures KeepScan(Unwrap(Obj(map["data" := Null])), url).Thrown?
  {
  }

  // ------------------------------------------------------------------ link counts

  /** How one side of the links counts: a list by its length, a number as itself. The count
      is positive exactly when the score awards the side's points. */
  function SideCount(side: Option<LinkSide>): (n: int)
    ensures n > 0 <==> SideNonEmpty(side)
    ensures side.None? ==> n == 0
    ensures side.Some? && side.value.LinkRecords? ==> n >= 0
  {
    match side
    case None => 0
    case Some(LinkRecords(rs)) => |rs|
    case Some(LinkCount(n)) => n
  }

  /** The counting block: a numeric `total` wins; otherwise each side is its list's length, its
      number, or 0, and the total is their sum. */
  method CountLinks(data: ScanData) returns (links: int, internalLinks: int, externalLinks: int)
    ensures data.links.None? ==> links == 0 && internalLinks == 0 && externalLinks == 0
    ensures data.links.Some? && data.links.value.total.Some? ==>
              links == data.links.value.total.value && internalLinks == 0 && externalLinks == 0
    ensures data.links.Some? && data.links.value.total.None? ==>
              internalLinks == SideCount(data.links.value.internal)
              && externalLinks == SideCount(data.links.value.external)
              && links == internalLinks + externalLinks
  {
    links := 0;
    internalLinks := 0;
    externalLinks := 0;
    if data.links.Some? {
      var l := data.links.value;
      if l.total.Some? {
        links := l.total.value;
      } else {
        internalLinks := if l.internal.Some? && l.internal.value.LinkRecords? then |l.internal.value.records|
                         else if SideTruthy(l.internal) then l.internal.value.count
                         else 0;
        externalLinks := if l.external.Some? && l.external.value.LinkRecords? then |l.external.value.records|
                         else if SideTruthy(l.external) then l.external.value.count
                         else 0;
        links := internalLinks + externalLinks;
      }
    }
  }

  /** Without a `total`, the internal count is positive exactly when the score awards the
      internal-link points, and (for a list or a non-negative number) it is 0 exactly when the
      "no internal links" issue fires. */
  lemma InternalCountAgreesWithScore(d: ScanData)
    requires d.links.Some? && d.links.value.total.None?
    ensures SideCount(d.links.value.internal) > 0 <==> Present(d, InternalLinks)
    ensures SideCount(d.links.value.internal) > 0 ==> !Fires(d, NoInternalLinks)
    ensures SideCount(d.links.value.internal) >= 0 ==>
              (SideCount(d.links.value.internal) == 0 <==> Fires(d, NoInternalLinks))
  {
    SideNonEmptyMeans(d.links.value.internal);
  }

  /** `data.emails?.length || 0`: the length of a list (or of a string), 0 otherwise. */
  function EmailCount(data: Json): (n: nat)
    requires data != Null
    ensures Prop(Some(data), "emails").Some? && Prop(Some(data), "emails").value.Arr? ==>
              n == |Prop(Some(data), "emails").value.items|
    ensures Prop(Some(data), "emails").Some? && Prop(Some(data), "emails").value.Str? ==>
              n == |Prop(Some(data), "emails").value.s|
    ensures Nullish(Prop(Some(data), "emails")) ==> n == 0
  {
    match Prop(Some(data), "emails")
    case Some(Arr(items)) => |items|
    case Some(Str(s)) => |s|
    case _ => 0
  }

  /** On a payload of the declared shape the e-mail count is the number of addresses. */
  lemma EmailCountOfDeclared(d: ScanData)
    ensures EmailCount(ToJson(d)) == |d.emails.GetOr([])|
  {
    EmailsFieldRoundTrip(d);
    assert Prop(Some(ToJson(d)), "emails") == Some(OrNull(TextsOpt(d.emails)));
  }

  // ----------------------------------------------------------------- score colour

  const SuccessColor := "text-success bg-success/10"
  const WarningColor := "text-warning bg-warning/10"
  const DestructiveColor := "text-destructive bg-destructive/10"

  /** `getScoreColor`: three bands, at least 80, 60 to 79, below 60. */
  function ScoreColor(score: int): (c: string)
    ensures c == SuccessColor <==> score >= 80
    ensures c == WarningColor <==> 60 <= score < 80
    ensures c == DestructiveColor <==> score < 60
  {
    if score >= 80 then SuccessColor
    else if score >= 60 then WarningColor
    else DestructiveColor
  }

  /** Every score gets exactly one of the three colours. */
  lemma ColorBandsPartition(score: int)
    ensures ScoreColor(score) in {SuccessColor, WarningColor, DestructiveColor}
    ensures SuccessColor != WarningColor && WarningColor != DestructiveColor && SuccessColor != DestructiveColor
  {
  }

  /** An empty payload shows the destructive colour, a complete one the success colour. */
  lemma ColorOfEmptyAndComplete(d: ScanData)
    requires forall s :: Present(d, s)
    requires forall k :: 0 <= k < |d.images.GetOr([])| ==> TextTruthy(d.images.GetOr([])[k].alt)
    ensures ScoreColor(SeoScore(Empty)) == DestructiveColor
    ensures ScoreColor(SeoScore(d)) == SuccessColor
  {
    EmptyPayload();
    CompletePayload(d);
  }

  // --------------------------------------------------------------- keyword badges

  /** The badges under a scan: the first pieces shown, trimmed, and the "+N" count if any. */
  datatype Badges = Badges(shown: seq<string>, more: Option<nat>)

  /** `data.meta?.keywords`. */
  function MetaKeywordsOf(data: Json): Option<Json> {
    Prop(Prop(Some(data), "meta"), "keywords")
  }

  /** `data.meta?.keywords && ...split(",")...`: nothing when the keywords are falsy; the
      first three comma-separated pieces, trimmed, and "+(n - 3)" when there are `n > 3`
      pieces, for a string; a TypeError for anything else, which has no `split`. */
  function KeywordBadges(data: Json): (r: Completion<Option<Badges>>)
    requires data != Null
    ensures r == Normal(None) <==> !Truthy(MetaKeywordsOf(data))
    ensures r.Thrown? <==> Truthy(MetaKeywordsOf(data)) && !MetaKeywordsOf(data).value.Str?
    ensures r.Normal? && r.value.Some? ==>
              var text := MetaKeywordsOf(data).value.s;
              var n := Occurrences(text, ',') + 1;
              var b := r.value.value;
              |Split(text, ',')| == n
              && |b.shown| == (if n < 3 then n else 3)
              && (forall i :: 0 <= i < |b.shown| ==> b.shown[i] == Trim(Split(text, ',')[i]))
              && (b.more.Some? <==> n > 3)
              && (b.more.Some? ==> b.more.value == n - 3)
  {
    var keywords := MetaKeywordsOf(data);
    if !Truthy(keywords) then Normal(None)
    else if !keywords.value.Str? then Thrown("TypeError: keywords.split is not a function")
    else
      var pieces := Split(keywords.value.s, ',');
      SplitCount(keywords.value.s, ',');
      var shown := pieces[..if |pieces| < 3 then |pieces| else 3];
      Normal(Some(Badges(seq(|shown|, i requires 0 <= i < |shown| => Trim(shown[i])),
                         if |pieces| > 3 then Some(|pieces| - 3) else None)))
  }

  /** No badge contains a comma, and there are at most three. */
  lemma BadgesHaveNoComma(data: Json)
    requires data != Null
    requires KeywordBadges(data).Normal? && KeywordBadges(data).value.Some?
    ensures |KeywordBadges(data).value.value.shown| <= 3
    ensures forall i :: 0 <= i < |KeywordBadges(data).value.value.shown| ==>
              ',' !in KeywordBadges(data).value.value.shown[i]
  {
    var text := MetaKeywordsOf(data).value.s;
    var b := KeywordBadges(data).value.value;
    SplitPiecesHaveNoSeparator(text, ',');
    SplitCount(text, ',');
    forall i | 0 <= i < |b.shown| ensures ',' !in b.shown[i] {
      var piece := Split(text, ',')[i];
      var j :| PaddedAt(piece, b.shown[i], j);
    }
  }

  /** A keyword string without a comma shows one badge, the whole string trimmed, and no "+N". */
  lemma SingleKeyword(data: Json)
    requires data != Null
    requires MetaKeywordsOf(data).Some? && MetaKeywordsOf(data).value.Str?
    requires MetaKeywordsOf(data).value.s != "" && ',' !in MetaKeywordsOf(data).value.s
    ensures KeywordBadges(data) == Normal(Some(Badges([Trim(MetaKeywordsOf(data).value.s)], None)))
  {
    var text := MetaKeywordsOf(data).value.s;
    SplitWithoutSeparator(text, ',');
    var shown := Split(text, ',')[..1];
    assert shown == [text];
    assert seq(|shown|, i requires 0 <= i < |shown| => Trim(shown[i])) == [Trim(text)];
  }

  /** A string without the separator splits into itself alone. */
  lemma {:induction false} SplitWithoutSeparator(s: string, c: char)
    requires c !in s
    ensures Split(s, c) == [s]
  {
    if s != [] {
      assert s[0] != c && c !in s[1..];
      SplitWithoutSeparator(s[1..], c);
      assert [s[0]] + s[1..] == s;
    }
  }

  /** A list of keywords, the shape the payload type declares, earns the keyword points in the
      score but makes the badge code throw. */
  lemma DeclaredKeywordListThrows(items: seq<Json>)
    ensures KeywordBadges(Obj(map["meta" := Obj(map["keywords" := Arr(items)])])).Thrown?
    ensures Present(View(Obj(map["meta" := Obj(map["keywords" := Arr(items)])])), MetaKeywords)
  {
    var meta := Obj(map["keywords" := Arr(items)]);
    var data := Obj(map["meta" := meta]);
    assert Prop(Some(data), "meta") == Some(meta);
    assert Prop(Some(meta), "keywords") == Some(Arr(items));
    assert ViewMeta(Some(meta)).value.keywords == Some(KeywordList(Texts(items)));
  }

  /** An empty keyword string does neither: no badges and no points. */
  lemma EmptyKeywordStringShowsNothing()
    ensures KeywordBadges(Obj(map["meta" := Obj(map["keywords" := Str("")])])) == Normal(None)
    ensures !Present(View(Obj(map["meta" := Obj(map["keywords" := Str("")])])), MetaKeywords)
  {
    var meta := Obj(map["keywords" := Str("")]);
    var data := Obj(map["meta" := meta]);
    assert Prop(Some(data), "meta") == Some(meta);
    assert Prop(Some(meta), "keywords") == Some(Str(""));
    assert ViewMeta(Some(meta)).value.keywords == Some(KeywordText(""));
  }
}
