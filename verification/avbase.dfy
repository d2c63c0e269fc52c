/** The AVbase listing route (lib/routes/avbase/utils.ts): a domain guard, one listing page
    whose rows become feed items, and one detail page per item, fetched through the route cache,
    whose content enriches the item in place. Every page arrives as an input: the resolved
    listing URL, the listing page as cheerio would select it, and a function from a detail link
    to that page (`None` when the request rejects). */
module AvBase {
  import opened Wrappers
  import opened JsText
  import opened ResponseCache

  const DefaultDomain := "avbase.net"
  const AllowedHosts: set<string> := {"avbase.net", "www.avbase.net"}
  const DefaultLimit := 20
  const ListingEnclosure := "image/jpeg"
  const MagnetEnclosure := "application/x-bittorrent"

  /** Why a run rejects: the listing URL does not parse, the host is not allowed, the listing
      request fails, or a detail request fails. */
  datatype AvError = InvalidUrl | ConfigNotFound | ListingUnavailable | DetailUnavailable(link: string)

  /** The parts of `new URL(currentUrl, 'https://' + domain)` the route reads. */
  datatype Url = Url(hostname: string, href: string)

  /** What `parseDate` returns for a text; the parser itself is not part of this model. */
  datatype Date = ParseDate(text: string)

  /** The texts and attributes one `div.relative` row of the listing page offers. */
  datatype ListingRow = ListingRow(
    idText: string, titleText: string, href: Option<string>, coverSrc: Option<string>,
    dateText: string, actorTexts: seq<string>)

  /** The listing page: its rows and the text of its `<title>`. */
  datatype ListingPage = ListingPage(rows: seq<ListingRow>, htmlTitle: string)

  /** One `.chip` of a detail page, and the actor the route makes of it. */
  datatype Chip = Chip(spanText: string, avatar: Option<string>)
  datatype Actor = Actor(name: string, avatar: Option<string>)

  /** The parts of a detail page the enrichment reads. `.text()` of an empty selection is '',
      `.attr()` of a missing attribute is `undefined` and `.html()` of an empty selection is
      `null`; both of the latter are `None` here. */
  datatype DetailPage = DetailPage(
    magnet: Option<string>,
    releaseByContains: string,
    releaseByFilter: string,
    coverSrc: Option<string>,
    shotSrcs: seq<Option<string>>,
    chips: seq<Chip>,
    tagTexts: seq<string>,
    coverHtml: Option<string>,
    infoHtml: Option<string>,
    magnetsHtml: Option<string>,
    previewHtml: Option<string>)

  /** A feed item's properties; `None` stands for a property that is absent or `undefined`. */
  datatype AvRecord = AvRecord(
    title: string, link: string, pubDate: Date, author: string,
    enclosureUrl: Option<string>, enclosureType: string,
    releaseDate: Option<string>, actors: Option<seq<Actor>>, cover: Option<string>,
    screenshots: Option<seq<string>>, tags: Option<seq<string>>, description: Option<string>)

  // ---------------------------------------------------------------------------------------
  // The guard.

  /** `ctx.req.query('domain') ?? 'avbase.net'` */
  function DomainOrDefault(query: Option<string>): string {
    query.GetOr(DefaultDomain)
  }

  function Limit(query: Option<nat>): nat {
    query.GetOr(DefaultLimit)
  }

  /** The resolution of the listing URL and the allow-list check. */
  function Authorize(allowUnsafe: bool, url: Option<Url>): (r: Result<Url, AvError>)
    ensures url.None? ==> r == Failure(InvalidUrl)
    ensures url.Some? ==> (r.Failure? <==> !allowUnsafe && url.value.hostname !in AllowedHosts)
    ensures r.Failure? && url.Some? ==> r.error == ConfigNotFound
    ensures r.Success? ==> url == Some(r.value)
  {
    match url
    case None => Failure(InvalidUrl)
    case Some(u) =>
      if !allowUnsafe && u.hostname !in AllowedHosts then Failure(ConfigNotFound) else Success(u)
  }

  /** With the unsafe-domain switch on, the guard lets every parsed URL through. */
  lemma UnsafeNeverRejects(url: Url)
    ensures Authorize(true, Some(url)) == Success(url)
  {
  }

  // ---------------------------------------------------------------------------------------
  // The listing.

  /** Every text trimmed, in order: `.map((_, e) => $(e).text().trim())`. */
  function TrimAll(texts: seq<string>): (r: seq<string>)
    ensures |r| == |texts|
    ensures forall k :: 0 <= k < |r| ==> r[k] == Trim(texts[k]) && IsTrimmed(r[k])
  {
    seq(|texts|, k requires 0 <= k < |texts| => Trim(texts[k]))
  }

  /** The object a listing row becomes, or `null` when its trimmed title is empty. */
  function RowToItem(rootUrl: string, row: ListingRow): (r: Option<AvRecord>)
    ensures r.None? <==> Trim(row.titleText) == ""
    ensures r.Some? ==>
      && StartsWith(r.value.link, rootUrl)
      && r.value.enclosureType == ListingEnclosure
      && r.value.enclosureUrl == row.coverSrc
      && r.value.description.None?
  {
    var title := Trim(row.titleText);
    if title == "" then None
    else
      Some(AvRecord(
        Trim(row.idText) + " - " + title, rootUrl + OrUndefined(row.href),
        ParseDate(Trim(row.dateText)), Join(TrimAll(row.actorTexts), ", "),
        row.coverSrc, ListingEnclosure, None, None, None, None, None, None))
  }

  /** The title is the trimmed id and the trimmed title joined by " - ", and a row without an
      `href` gets a link ending in "undefined". */
  lemma RowToItemTitle(rootUrl: string, row: ListingRow)
    requires RowToItem(rootUrl, row).Some?
    ensures var r := RowToItem(rootUrl, row).value;
      && StartsWith(r.title, Trim(row.idText) + " - ")
      && EndsWith(r.title, " - " + Trim(row.titleText))
      && |r.title| == |Trim(row.idText)| + 3 + |Trim(row.titleText)|
      && (row.href.Some? ==> EndsWith(r.link, row.href.value) && |r.link| == |rootUrl| + |row.href.value|)
      && (row.href.None? ==> EndsWith(r.link, "undefined") && |r.link| == |rootUrl| + 9)
  {
    var id, title := Trim(row.idText), Trim(row.titleText);
    StartsWithAppend(id + " - ", title, id + " - ");
    EndsWithSeparated(id, " - ", title);
    if row.href.None? {
      EndsWithPrepend(rootUrl, "undefined", "undefined");
    } else {
      EndsWithPrepend(rootUrl, row.href.value, row.href.value);
    }
  }

  /** The author of a listing item: the trimmed actor names joined by ", ", in row order; the
      k-th name sits at its join offset and, unless it is the last, ", " follows it. */
  lemma AuthorNamesActors(rootUrl: string, row: ListingRow, k: nat)
    requires RowToItem(rootUrl, row).Some? && k < |row.actorTexts|
    ensures var author, names := RowToItem(rootUrl, row).value.author, TrimAll(row.actorTexts);
      && names[k] == Trim(row.actorTexts[k])
      && JoinedAt(author, names, ", ", k)
      && |author| == TotalLength(names) + (|names| - 1) * |", "|
    ensures Includes(RowToItem(rootUrl, row).value.author, Trim(row.actorTexts[k]))
    ensures |row.actorTexts| == 1 ==> RowToItem(rootUrl, row).value.author == Trim(row.actorTexts[0])
  {
    var names := TrimAll(row.actorTexts);
    JoinAt(names, ", ", k);
    JoinIncludesPart(names, ", ", k);
  }

  /** The rows kept by the slice, each mapped to its object or `null`. */
  function MappedRows(rootUrl: string, rows: seq<ListingRow>, limit: nat): (r: seq<Option<AvRecord>>)
    ensures |r| == |Take(rows, limit)|
  {
    var kept := Take(rows, limit);
    seq(|kept|, k requires 0 <= k < |kept| => RowToItem(rootUrl, kept[k]))
  }

  /** The k-th mapped row is the k-th row's object, which is there exactly when the row has a
      title. */
  lemma MappedRowsAt(rootUrl: string, rows: seq<ListingRow>, limit: nat)
    ensures var r := MappedRows(rootUrl, rows, limit);
      forall k :: 0 <= k < |r| ==>
        && k < limit && k < |rows| && r[k] == RowToItem(rootUrl, rows[k])
        && (r[k].Some? <==> Trim(rows[k].titleText) != "")
  {
  }

  /** `$('div.relative').slice(0, limit).toArray().map(…).filter(Boolean)` */
  function ListingItems(rootUrl: string, rows: seq<ListingRow>, limit: nat): seq<AvRecord> {
    Somes(MappedRows(rootUrl, rows, limit))
  }

  /** The positions of the rows that become items. */
  function KeptRows(rootUrl: string, rows: seq<ListingRow>, limit: nat): seq<nat> {
    SomeIndices(MappedRows(rootUrl, rows, limit))
  }

  /** The slice comes before the filter: the items are the rows among the first limit rows
      that have a title, in row order, none skipped. */
  lemma ListingItemsOrder(rootUrl: string, rows: seq<ListingRow>, limit: nat)
    ensures var items, ks := ListingItems(rootUrl, rows, limit), KeptRows(rootUrl, rows, limit);
      && |items| == |ks|
      && (forall j :: 0 <= j < |ks| ==>
            ks[j] < limit && ks[j] < |rows| && RowToItem(rootUrl, rows[ks[j]]) == Some(items[j]))
      && (forall a, b :: 0 <= a < b < |ks| ==> ks[a] < ks[b])
      && (forall k :: 0 <= k < limit && k < |rows| && RowToItem(rootUrl, rows[k]).Some? ==> k in ks)
  {
    var mapped := MappedRows(rootUrl, rows, limit);
    MappedRowsAt(rootUrl, rows, limit);
    SomesByIndex(mapped);
    SomeIndicesIncreasing(mapped);
    SomeIndicesComplete(mapped);
  }

  /** There are at most limit items, and fewer than the kept rows when one of them has no
      title. */
  lemma ListingItemsCount(rootUrl: string, rows: seq<ListingRow>, limit: nat)
    ensures var n := |ListingItems(rootUrl, rows, limit)|;
      && n <= limit && n <= |rows|
      && (n == |Take(rows, limit)| <==>
            forall k :: 0 <= k < limit && k < |rows| ==> Trim(rows[k].titleText) != "")
  {
    var mapped := MappedRows(rootUrl, rows, limit);
    MappedRowsAt(rootUrl, rows, limit);
    SomesLength(mapped);
  }

  /** Every listed link is the root URL followed by the `href` of the row it came from
      (`undefined` for a row without one). */
  lemma ListingLinks(rootUrl: string, rows: seq<ListingRow>, limit: nat)
    ensures var items, ks := ListingItems(rootUrl, rows, limit), KeptRows(rootUrl, rows, limit);
      forall j :: 0 <= j < |items| ==>
        && StartsWith(items[j].link, rootUrl)
        && j < |ks| && ks[j] < |rows| && items[j].link == rootUrl + OrUndefined(rows[ks[j]].href)
  {
    ListingItemsOrder(rootUrl, rows, limit);
  }

  // ---------------------------------------------------------------------------------------
  // The detail page.

  /** The release date: the text after the label found by `:contains`, or, when that is empty,
      the one found by filtering on `includes`; both trimmed. */
  function ReleaseDate(p: DetailPage): (r: string)
    ensures IsTrimmed(r)
    ensures r == "" <==> Trim(p.releaseByContains) == "" && Trim(p.releaseByFilter) == ""
    ensures Trim(p.releaseByContains) != "" ==> r == Trim(p.releaseByContains)
    ensures Trim(p.releaseByContains) == "" ==> r == Trim(p.releaseByFilter)
  {
    var first := Trim(p.releaseByContains);
    if first != "" then first else Trim(p.releaseByFilter)
  }

  /** One actor per `.chip`, in order: its trimmed name and its avatar's `src`. */
  function Actors(p: DetailPage): (r: seq<Actor>)
    ensures |r| == |p.chips|
    ensures forall k :: 0 <= k < |r| ==>
      r[k].name == Trim(p.chips[k].spanText) && IsTrimmed(r[k].name) && r[k].avatar == p.chips[k].avatar
  {
    seq(|p.chips|, k requires 0 <= k < |p.chips| => Actor(Trim(p.chips[k].spanText), p.chips[k].avatar))
  }

  // The fixed markup of the description.
  const ReleaseOpen := "<div><strong>发售日:</strong> "
  const ActorsOpen := "<div><strong>演员:</strong> "
  const CoverOpen := "<div><strong>封面:</strong><br><img src=\""
  const CoverClose := "\" style=\"max-width:300px;\"></div>"
  const ShotsOpen := "<div><strong>剧照:</strong><br>"
  const TagsOpen := "<div><strong>标签:</strong> "
  const DivClose := "</div>"
  const ImgOpen := "<img src=\""
  const AvatarAlt := "\" alt=\""
  const AvatarStyle := "\" style=\"width:24px;height:24px;border-radius:50%;vertical-align:middle;margin-right:4px;\">"
  const ShotStyle := "\" style=\"max-width:120px;margin:2px;\">"

  /** An actor's avatar, followed by the name. */
  function ActorHtml(a: Actor): string {
    ImgOpen + OrUndefined(a.avatar) + AvatarAlt + a.name + AvatarStyle + a.name
  }

  function ShotHtml(src: string): string {
    ImgOpen + src + ShotStyle
  }

  function ReleaseSection(releaseDate: string): string {
    ReleaseOpen + releaseDate + DivClose
  }

  function ActorParts(actors: seq<Actor>): (r: seq<string>)
    ensures |r| == |actors|
  {
    seq(|actors|, k requires 0 <= k < |actors| => ActorHtml(actors[k]))
  }

  function ActorSection(actors: seq<Actor>): string {
    ActorsOpen + Join(ActorParts(actors), ", ") + DivClose
  }

  function CoverSection(coverImg: Option<string>): string {
    CoverOpen + OrUndefined(coverImg) + CoverClose
  }

  function ShotParts(shots: seq<string>): (r: seq<string>)
    ensures |r| == |shots|
  {
    seq(|shots|, k requires 0 <= k < |shots| => ShotHtml(shots[k]))
  }

  function ShotSection(shots: seq<string>): string {
    ShotsOpen + Join(ShotParts(shots), "") + DivClose
  }

  function TagSection(tags: seq<string>): string {
    TagsOpen + Join(tags, ", ") + DivClose
  }

  /** The four raw fragments, each `"null"` when its selection is empty. */
  function Fragments(p: DetailPage): string {
    OrNull(p.coverHtml) + OrNull(p.infoHtml) + OrNull(p.magnetsHtml) + OrNull(p.previewHtml)
  }

  /** The description: release date, actors, cover, screenshots, tags, then the fragments. */
  function Description(p: DetailPage): string {
    ReleaseSection(ReleaseDate(p)) + ActorSection(Actors(p)) + CoverSection(p.coverSrc)
    + ShotSection(Somes(p.shotSrcs)) + TagSection(TrimAll(p.tagTexts)) + Fragments(p)
  }

  /** The description opens with the release date and closes with the four fragments. */
  lemma DescriptionLayout(p: DetailPage)
    ensures StartsWith(Description(p), ReleaseSection(ReleaseDate(p)))
    ensures EndsWith(Description(p), Fragments(p))
  {
    var r, a, c, s, t, f := ReleaseSection(ReleaseDate(p)), ActorSection(Actors(p)), CoverSection(p.coverSrc),
      ShotSection(Somes(p.shotSrcs)), TagSection(TrimAll(p.tagTexts)), Fragments(p);
    assert StartsWith(r, r);
    StartsWithAppend(r, a, r);
    StartsWithAppend(r + a, c, r);
    StartsWithAppend(r + a + c, s, r);
    StartsWithAppend(r + a + c + s, t, r);
    StartsWithAppend(r + a + c + s + t, f, r);
  }

  /** The description names every tag of the page. */
  lemma DescriptionNamesTags(p: DetailPage, k: nat)
    requires k < |p.tagTexts|
    ensures Includes(Description(p), Trim(p.tagTexts[k]))
  {
    var r, a, c, s, t, f := ReleaseSection(ReleaseDate(p)), ActorSection(Actors(p)), CoverSection(p.coverSrc),
      ShotSection(Somes(p.shotSrcs)), TagSection(TrimAll(p.tagTexts)), Fragments(p);
    var x := TrimAll(p.tagTexts)[k];
    SectionIncludes(TagsOpen, TrimAll(p.tagTexts), ", ", DivClose, k);
    IncludesRight(r + a + c + s, t, x);
    IncludesLeft(r + a + c + s + t, f, x);
  }

  /** The description shows every actor of the page, avatar and name. */
  lemma DescriptionNamesActors(p: DetailPage, k: nat)
    requires k < |p.chips|
    ensures Includes(Description(p), ActorHtml(Actors(p)[k]))
  {
    var r, a, c, s, t, f := ReleaseSection(ReleaseDate(p)), ActorSection(Actors(p)), CoverSection(p.coverSrc),
      ShotSection(Somes(p.shotSrcs)), TagSection(TrimAll(p.tagTexts)), Fragments(p);
    var x := ActorParts(Actors(p))[k];
    SectionIncludes(ActorsOpen, ActorParts(Actors(p)), ", ", DivClose, k);
    IncludesRight(r, a, x);
    IncludesLeft(r + a, c, x);
    IncludesLeft(r + a + c, s, x);
    IncludesLeft(r + a + c + s, t, x);
    IncludesLeft(r + a + c + s + t, f, x);
  }

  /** The description shows every screenshot of the page that has a source. */
  lemma DescriptionNamesShots(p: DetailPage, k: nat)
    requires k < |Somes(p.shotSrcs)|
    ensures Includes(Description(p), ShotHtml(Somes(p.shotSrcs)[k]))
  {
    var r, a, c, s, t, f := ReleaseSection(ReleaseDate(p)), ActorSection(Actors(p)), CoverSection(p.coverSrc),
      ShotSection(Somes(p.shotSrcs)), TagSection(TrimAll(p.tagTexts)), Fragments(p);
    var x := ShotParts(Somes(p.shotSrcs))[k];
    SectionIncludes(ShotsOpen, ShotParts(Somes(p.shotSrcs)), "", DivClose, k);
    IncludesRight(r + a + c, s, x);
    IncludesLeft(r + a + c + s, t, x);
    IncludesLeft(r + a + c + s + t, f, x);
  }

  /** Every property the enrichment sets is set. */
  predicate IsEnriched(r: AvRecord) {
    && r.enclosureType == MagnetEnclosure
    && r.releaseDate.Some? && r.actors.Some? && r.screenshots.Some? && r.tags.Some? && r.description.Some?
  }

  /** The item after the enrichment callback has run on it with a detail page. */
  function Enriched(rec: AvRecord, p: DetailPage): AvRecord {
    rec.(enclosureType := MagnetEnclosure, enclosureUrl := p.magnet,
         releaseDate := Some(ReleaseDate(p)), actors := Some(Actors(p)), cover := p.coverSrc,
         screenshots := Some(Somes(p.shotSrcs)), tags := Some(TrimAll(p.tagTexts)),
         description := Some(Description(p)))
  }

  /** The enrichment keeps title, link, date and author, takes the enclosure from the first
      magnet, and keeps only the screenshots that have a source. */
  lemma EnrichedSpec(rec: AvRecord, p: DetailPage)
    ensures var e := Enriched(rec, p);
      && IsEnriched(e)
      && e.title == rec.title && e.link == rec.link && e.pubDate == rec.pubDate && e.author == rec.author
      && e.enclosureUrl == p.magnet && e.cover == p.coverSrc
      && |e.screenshots.value| <= |p.shotSrcs|
      && (|e.screenshots.value| == |p.shotSrcs| <==> forall k :: 0 <= k < |p.shotSrcs| ==> p.shotSrcs[k].Some?)
  {
    SomesLength(p.shotSrcs);
  }

  // ---------------------------------------------------------------------------------------
  // The run over all items.

  /** The cache's contents, the detail requests made so far, and the first rejection, if any. */
  datatype RunState = RunState(cache: map<string, AvRecord>, requested: seq<string>, failure: Option<AvError>)

  /** Every cached item sits under its own link and is enriched. */
  predicate CacheOk(m: map<string, AvRecord>) {
    forall key :: key in m ==> m[key].link == key && IsEnriched(m[key])
  }

  /** `cache.tryGet(item.link, …)` for one item: a hit gives the stored item; a miss requests the
      detail page, and either rejects, storing nothing, or enriches the item and stores it. */
  function Step(st: RunState, rec: AvRecord, detail: string -> Option<DetailPage>): (AvRecord, RunState) {
    if rec.link in st.cache then (st.cache[rec.link], st)
    else
      var st1 := st.(requested := st.requested + [rec.link]);
      match detail(rec.link)
      case None =>
        (rec, st1.(failure := if st.failure.Some? then st.failure else Some(DetailUnavailable(rec.link))))
      case Some(p) =>
        var e := Enriched(rec, p);
        (e, st1.(cache := st.cache[rec.link := e]))
  }

  /** The enrichment of a list, item after item, from the first to the last. */
  function EnrichAll(st: RunState, recs: seq<AvRecord>, detail: string -> Option<DetailPage>): (seq<AvRecord>, RunState)
    decreases |recs|
  {
    if recs == [] then ([], st)
    else
      var (outs, st1) := EnrichAll(st, recs[..|recs| - 1], detail);
      var (out, st2) := Step(st1, recs[|recs| - 1], detail);
      (outs + [out], st2)
  }

  /** One more item extends the run by one step. */
  lemma EnrichAllSnoc(st: RunState, recs: seq<AvRecord>, i: nat, detail: string -> Option<DetailPage>)
    requires i < |recs|
    ensures var (outs, st1) := EnrichAll(st, recs[..i], detail);
      var (out, st2) := Step(st1, recs[i], detail);
      EnrichAll(st, recs[..i + 1], detail) == (outs + [out], st2)
  {
    assert recs[..i + 1][..i] == recs[..i];
  }

  /** The links of a list of items. */
  function Links(recs: seq<AvRecord>): (r: seq<string>)
    ensures |r| == |recs| && forall k :: 0 <= k < |r| ==> r[k] == recs[k].link
  {
    seq(|recs|, k requires 0 <= k < |recs| => recs[k].link)
  }

  /** One step keeps the item's link, keeps the cache well-formed and overwrites no cached
      item. */
  lemma StepCache(st: RunState, rec: AvRecord, detail: string -> Option<DetailPage>)
    requires CacheOk(st.cache)
    ensures var (out, st') := Step(st, rec, detail);
      out.link == rec.link && CacheOk(st'.cache) && Extends(st.cache, st'.cache)
  {
    if rec.link !in st.cache && detail(rec.link).Some? {
      var e := Enriched(rec, detail(rec.link).value);
      EnrichedSpec(rec, detail(rec.link).value);
      CacheAdd(st.cache, e);
    }
  }

  /** Storing an enriched item under its own link keeps the cache well-formed and overwrites
      nothing else. */
  lemma CacheAdd(m: map<string, AvRecord>, e: AvRecord)
    requires CacheOk(m) && IsEnriched(e) && e.link !in m
    ensures CacheOk(m[e.link := e]) && Extends(m, m[e.link := e])
  {
  }

  /** The run keeps the cache well-formed and overwrites no cached item. */
  lemma {:induction false} EnrichAllCache(st: RunState, recs: seq<AvRecord>, detail: string -> Option<DetailPage>)
    requires CacheOk(st.cache)
    ensures var st' := EnrichAll(st, recs, detail).1; CacheOk(st'.cache) && Extends(st.cache, st'.cache)
    decreases |recs|
  {
    if recs != [] {
      var init := recs[..|recs| - 1];
      EnrichAllCache(st, init, detail);
      var st1 := EnrichAll(st, init, detail).1;
      StepCache(st1, recs[|recs| - 1], detail);
    }
  }

  /** The run keeps item order: the n-th result carries the n-th item's link. */
  lemma {:induction false} EnrichAllLinks(st: RunState, recs: seq<AvRecord>, detail: string -> Option<DetailPage>)
    requires CacheOk(st.cache)
    ensures var outs := EnrichAll(st, recs, detail).0;
      |outs| == |recs| && forall k :: 0 <= k < |recs| ==> outs[k].link == recs[k].link
    decreases |recs|
  {
    if recs != [] {
      var init := recs[..|recs| - 1];
      EnrichAllLinks(st, init, detail);
      EnrichAllCache(st, init, detail);
      var (outs1, st1) := EnrichAll(st, init, detail);
      var rec := recs[|recs| - 1];
      StepCache(st1, rec, detail);
      var out := Step(st1, rec, detail).0;
      assert EnrichAll(st, recs, detail).0 == outs1 + [out];
      forall k | 0 <= k < |recs|
        ensures (outs1 + [out])[k].link == recs[k].link
      {
        if k < |recs| - 1 {
          assert recs[k] == init[k];
        }
      }
    }
  }

  /** The run only appends to the request log, and each detail request is for the link of an
      item of the list that was not cached when the run started. */
  lemma {:induction false} EnrichAllRequests(st: RunState, recs: seq<AvRecord>, detail: string -> Option<DetailPage>)
    requires CacheOk(st.cache)
    ensures var st' := EnrichAll(st, recs, detail).1;
      && |st.requested| <= |st'.requested| && st'.requested[..|st.requested|] == st.requested
      && (forall i :: |st.requested| <= i < |st'.requested| ==>
            st'.requested[i] !in st.cache && st'.requested[i] in Links(recs))
    decreases |recs|
  {
    if recs != [] {
      var init := recs[..|recs| - 1];
      EnrichAllRequests(st, init, detail);
      EnrichAllCache(st, init, detail);
      var st1 := EnrichAll(st, init, detail).1;
      var st2 := EnrichAll(st, recs, detail).1;
      assert st2 == Step(st1, recs[|recs| - 1], detail).1;
      StepRequested(st1, recs[|recs| - 1], detail);
      assert Links(init) == Links(recs)[..|recs| - 1];
      assert forall i :: |st.requested| <= i < |st1.requested| ==> st2.requested[i] == st1.requested[i];
    }
  }

  /** One step requests nothing, or only the detail page of an item missing from the cache. */
  lemma StepRequested(st: RunState, rec: AvRecord, detail: string -> Option<DetailPage>)
    ensures var st' := Step(st, rec, detail).1;
      || st'.requested == st.requested
      || (st'.requested == st.requested + [rec.link] && rec.link !in st.cache)
  {
  }

  /** One step keeps a recorded rejection; otherwise it records at most the rejection of its own
      detail request, and without a rejection its result is enriched. */
  lemma StepOutcome(st: RunState, rec: AvRecord, detail: string -> Option<DetailPage>)
    requires CacheOk(st.cache)
    ensures var (out, st') := Step(st, rec, detail);
      && (st.failure.Some? ==> st'.failure == st.failure)
      && (st'.failure.None? ==> IsEnriched(out))
      && (st.failure.None? && st'.failure.Some? ==> st'.failure == Some(DetailUnavailable(rec.link)))
  {
    if rec.link !in st.cache && detail(rec.link).Some? {
      EnrichedSpec(rec, detail(rec.link).value);
    }
  }

  /** A run without a rejection enriches every item; a rejection, once recorded, stays, and it
      names the link of an item of the list. */
  lemma {:induction false} EnrichAllOutcome(st: RunState, recs: seq<AvRecord>, detail: string -> Option<DetailPage>)
    requires CacheOk(st.cache)
    ensures var (outs, st') := EnrichAll(st, recs, detail);
      && (st.failure.Some? ==> st'.failure == st.failure)
      && (st'.failure.None? ==> forall k :: 0 <= k < |outs| ==> IsEnriched(outs[k]))
      && (st.failure.None? && st'.failure.Some? ==>
            st'.failure.value.DetailUnavailable? && st'.failure.value.link in Links(recs))
    decreases |recs|
  {
    if recs != [] {
      var init := recs[..|recs| - 1];
      EnrichAllOutcome(st, init, detail);
      EnrichAllCache(st, init, detail);
      var (outs1, st1) := EnrichAll(st, init, detail);
      var rec := recs[|recs| - 1];
      StepOutcome(st1, rec, detail);
      var (out, st2) := Step(st1, rec, detail);
      assert EnrichAll(st, recs, detail) == (outs1 + [out], st2);
      if st2.failure.None? {
        forall k | 0 <= k < |outs1| + 1
          ensures IsEnriched((outs1 + [out])[k])
        {
          if k < |outs1| {
            assert (outs1 + [out])[k] == outs1[k];
          }
        }
      }
      if st.failure.None? && st2.failure.Some? {
        if st1.failure.Some? {
          assert Links(init) == Links(recs)[..|recs| - 1];
        } else {
          assert Links(recs)[|recs| - 1] == rec.link;
        }
      }
    }
  }

  // ---------------------------------------------------------------------------------------
  // The feed.

  /** The feed title: the page title's text before the first '|', when there is a '|' and that
      text is not empty, followed by " - " and the caller's title; otherwise the caller's title. */
  function FeedTitle(htmlTitle: string, title: string): (r: string)
    ensures !('|' in htmlTitle && htmlTitle[0] != '|') ==> r == title
    ensures '|' in htmlTitle && htmlTitle[0] != '|' ==>
      && |r| > |title| + 3
      && EndsWith(r, " - " + title)
      && var subject := r[..|r| - |title| - 3];
        StartsWith(htmlTitle, subject + "|") && '|' !in subject
  {
    var subject := if '|' in htmlTitle then BeforeFirst(htmlTitle, '|') else "";
    if subject == "" then title
    else
      assert (subject + " - " + title)[..|subject|] == subject;
      subject + " - " + title
  }

  // ---------------------------------------------------------------------------------------
  // The objects.

  /** A feed item object; the enrichment changes its properties in place. A JavaScript object
      is a bag of named properties: they are held as one record, and each property assignment
      of the route is an in-place update of that record. */
  class AvItem {
    var props: AvRecord

    /** The object's current properties. */
    function Snapshot(): AvRecord
      reads this
    {
      props
    }

    /** An object with the given properties: a listing object literal, or an item read back
        from the cache. */
    constructor (r: AvRecord)
      ensures Snapshot() == r
    {
      props := r;
    }

    /** The torrent enclosure set first by the enrichment callback. */
    method SetEnclosure(magnet: Option<string>)
      modifies this
      ensures Snapshot() == old(Snapshot()).(enclosureType := MagnetEnclosure, enclosureUrl := magnet)
    {
      props := props.(enclosureType := MagnetEnclosure);
      props := props.(enclosureUrl := magnet);
    }

    /** The six property assignments that close the enrichment callback. */
    method SetDetails(date: string, chips: seq<Actor>, coverImg: Option<string>,
                      shots: seq<string>, tagList: seq<string>, html: string)
      modifies this
      ensures Snapshot() == old(Snapshot()).(
        releaseDate := Some(date), actors := Some(chips), cover := coverImg,
        screenshots := Some(shots), tags := Some(tagList), description := Some(html))
    {
      props := props.(releaseDate := Some(date));
      props := props.(actors := Some(chips));
      props := props.(cover := coverImg);
      props := props.(screenshots := Some(shots));
      props := props.(tags := Some(tagList));
      props := props.(description := Some(html));
    }

    /** All assignments of the enrichment callback, in its order. */
    method Enrich(magnet: Option<string>, date: string, chips: seq<Actor>, coverImg: Option<string>,
                  shots: seq<string>, tagList: seq<string>, html: string)
      modifies this
      ensures Snapshot() == old(Snapshot()).(
        enclosureType := MagnetEnclosure, enclosureUrl := magnet, releaseDate := Some(date),
        actors := Some(chips), cover := coverImg, screenshots := Some(shots), tags := Some(tagList),
        description := Some(html))
    {
      SetEnclosure(magnet);
      SetDetails(date, chips, coverImg, shots, tagList, html);
    }
  }

  /** One fresh object for each row that is not `null`, in order: `.filter(Boolean)` over the
      objects made by `.map`. */
  method NewItems(mapped: seq<Option<AvRecord>>) returns (items: seq<AvItem>)
    ensures |items| == |Somes(mapped)|
    ensures forall k :: 0 <= k < |items| ==> fresh(items[k]) && items[k].Snapshot() == Somes(mapped)[k]
    ensures forall a, b :: 0 <= a < b < |items| ==> items[a] != items[b]
  {
    items := [];
    for i := 0 to |mapped|
      invariant |items| == |Somes(mapped[..i])|
      invariant forall k :: 0 <= k < |items| ==> fresh(items[k]) && items[k].Snapshot() == Somes(mapped[..i])[k]
      invariant forall a, b :: 0 <= a < b < |items| ==> items[a] != items[b]
    {
      assert mapped[..i + 1][..i] == mapped[..i];
      if mapped[i].Some? {
        var obj := new AvItem(mapped[i].value);
        items := items + [obj];
      }
    }
    assert mapped[..|mapped|] == mapped;
  }

  /** The listing objects, one fresh object per titled row among the first limit rows. */
  method BuildListing(rootUrl: string, rows: seq<ListingRow>, limit: nat) returns (items: seq<AvItem>)
    ensures |items| == |ListingItems(rootUrl, rows, limit)|
    ensures forall k :: 0 <= k < |items| ==>
      fresh(items[k]) && items[k].Snapshot() == ListingItems(rootUrl, rows, limit)[k]
    ensures forall a, b :: 0 <= a < b < |items| ==> items[a] != items[b]
  {
    items := NewItems(MappedRows(rootUrl, rows, limit));
  }

  /** The callback of `cache.tryGet(item.link, …)` for one item, together with the lookup. */
  method EnrichOne(item: AvItem, cache: Cache<AvRecord>, requested: seq<string>, failure: Option<AvError>,
                   detail: string -> Option<DetailPage>)
    returns (out: AvItem, requested': seq<string>, failure': Option<AvError>)
    modifies item, cache
    ensures (out.Snapshot(), RunState(cache.entries, requested', failure'))
            == Step(RunState(old(cache.entries), requested, failure), old(item.Snapshot()), detail)
    ensures old(item.Snapshot()).link in old(cache.entries) ==> fresh(out) && item.Snapshot() == old(item.Snapshot())
    ensures old(item.Snapshot()).link !in old(cache.entries) ==> out == item
  {
    requested', failure' := requested, failure;
    var hit := cache.Get(item.props.link);
    if hit.Some? {
      out := new AvItem(hit.value);
      return;
    }
    out := item;
    requested' := requested' + [item.props.link];
    var page := detail(item.props.link);
    if page.None? {
      if failure'.None? {
        failure' := Some(DetailUnavailable(item.props.link));
      }
      return;
    }
    var p := page.value;
    item.Enrich(p.magnet, ReleaseDate(p), Actors(p), p.coverSrc, Somes(p.shotSrcs), TrimAll(p.tagTexts), Description(p));
    cache.Set(item.props.link, item.Snapshot());
  }

  /** One round of the loop of `EnrichItems`: the i-th item goes through the callback and its
      outcome is the object to append; the items not yet reached keep their properties. */
  method EnrichNext(items: seq<AvItem>, ghost recs: seq<AvRecord>, i: nat, out: seq<AvItem>,
                    ghost outs: seq<AvRecord>, ghost st0: RunState, cache: Cache<AvRecord>,
                    requested: seq<string>, failure: Option<AvError>,
                    detail: string -> Option<DetailPage>)
    returns (o: AvItem, ghost outs': seq<AvRecord>, requested': seq<string>, failure': Option<AvError>)
    requires i < |items| == |recs|
    requires forall a, b :: 0 <= a < b < |items| ==> items[a] != items[b]
    requires |out| == i && |outs| == i
    requires EnrichAll(st0, recs[..i], detail) == (outs, RunState(cache.entries, requested, failure))
    requires forall k :: 0 <= k < i ==> out[k].Snapshot() == outs[k]
    requires forall k :: i <= k < |items| ==> items[k].Snapshot() == recs[k]
    requires forall j :: 0 <= j < i ==> out[j] != items[i]
    requires forall k :: 0 <= k < i && out[k] != items[k] ==> items[k].Snapshot() == recs[k]
    modifies cache, items[i]
    ensures |outs'| == i + 1
    ensures EnrichAll(st0, recs[..i + 1], detail) == (outs', RunState(cache.entries, requested', failure'))
    ensures forall k :: 0 <= k < i + 1 ==> (out + [o])[k].Snapshot() == outs'[k]
    ensures forall k :: i + 1 <= k < |items| ==> items[k].Snapshot() == recs[k]
    ensures o == items[i] || fresh(o)
    ensures forall k :: 0 <= k < i + 1 && (out + [o])[k] != items[k] ==> items[k].Snapshot() == recs[k]
  {
    EnrichAllSnoc(st0, recs, i, detail);
    o, requested', failure' := EnrichOne(items[i], cache, requested, failure, detail);
    outs' := outs + [o.Snapshot()];
  }

  /** `Promise.all(items.map(item => cache.tryGet(item.link, …)))`, one item after another:
      a miss changes its item in place, a hit gives an object read back from the cache. */
  method EnrichItems(items: seq<AvItem>, ghost recs: seq<AvRecord>, cache: Cache<AvRecord>,
                     detail: string -> Option<DetailPage>)
    returns (out: seq<AvItem>, requested: seq<string>, failure: Option<AvError>)
    requires |recs| == |items|
    requires forall k :: 0 <= k < |items| ==> items[k].Snapshot() == recs[k]
    requires forall a, b :: 0 <= a < b < |items| ==> items[a] != items[b]
    modifies cache, items
    ensures var (outs, st) := EnrichAll(RunState(old(cache.entries), [], None), recs, detail);
      && |out| == |outs|
      && (forall k :: 0 <= k < |out| ==> out[k].Snapshot() == outs[k])
      && cache.entries == st.cache && requested == st.requested && failure == st.failure
    ensures |out| == |items|
    ensures forall k :: 0 <= k < |out| ==>
      out[k] == items[k] || (fresh(out[k]) && items[k].Snapshot() == old(items[k].Snapshot()))
  {
    out, requested, failure := [], [], None;
    ghost var outs: seq<AvRecord> := [];
    ghost var st0 := RunState(cache.entries, [], None);
    for i := 0 to |items|
      invariant |out| == i && |outs| == i
      invariant EnrichAll(st0, recs[..i], detail) == (outs, RunState(cache.entries, requested, failure))
      invariant forall k :: 0 <= k < i ==> out[k].Snapshot() == outs[k]
      invariant forall k :: i <= k < |items| ==> items[k].Snapshot() == recs[k]
      invariant forall k :: 0 <= k < i ==> out[k] == items[k] || fresh(out[k])
      invariant forall k :: 0 <= k < i && out[k] != items[k] ==> items[k].Snapshot() == recs[k]
    {
      var o;
      o, outs, requested, failure := EnrichNext(items, recs, i, out, outs, st0, cache, requested, failure, detail);
      out := out + [o];
    }
    assert recs[..|items|] == recs;
  }

  /** A feed: its title, its link, and its items. */
  datatype Feed = Feed(title: string, link: string, item: seq<AvItem>)

  /** `ProcessItems(ctx, currentUrl, title)`: the guard, the listing request and stage, the
      enrichment of every item, and the feed. `url` is the resolution of currentUrl against
      `'https://' + domain`. */
  method ProcessItems(cache: Cache<AvRecord>, allowUnsafe: bool, domainQuery: Option<string>,
                      limitQuery: Option<nat>, title: string, url: Option<Url>,
                      listing: Option<ListingPage>, detail: string -> Option<DetailPage>)
    returns (r: Result<Feed, AvError>, requested: seq<string>)
    requires CacheOk(cache.entries)
    modifies cache
    ensures CacheOk(cache.entries)
    ensures Authorize(allowUnsafe, url).Failure? ==>
      r == Failure(Authorize(allowUnsafe, url).error) && requested == [] && cache.entries == old(cache.entries)
    ensures Authorize(allowUnsafe, url).Success? ==> |requested| >= 1 && requested[0] == url.value.href
    ensures Authorize(allowUnsafe, url).Success? && listing.None? ==>
      r == Failure(ListingUnavailable) && requested == [url.value.href] && cache.entries == old(cache.entries)
    ensures Authorize(allowUnsafe, url).Success? && listing.Some? ==>
      var recs := ListingItems("https://" + DomainOrDefault(domainQuery), listing.value.rows, Limit(limitQuery));
      var (outs, st) := EnrichAll(RunState(old(cache.entries), [], None), recs, detail);
      && cache.entries == st.cache && requested == [url.value.href] + st.requested
      && (st.failure.Some? ==> r == Failure(st.failure.value))
      && (st.failure.None? ==>
            && r.Success? && r.value.title == FeedTitle(listing.value.htmlTitle, title)
            && r.value.link == url.value.href
            && |r.value.item| == |outs|
            && forall k :: 0 <= k < |outs| ==> fresh(r.value.item[k]) && r.value.item[k].Snapshot() == outs[k])
  {
    requested := [];
    var domain := DomainOrDefault(domainQuery);
    var guard := Authorize(allowUnsafe, url);
    if guard.Failure? {
      r := Failure(guard.error);
      return;
    }
    var rootUrl := "https://" + domain;
    requested := [guard.value.href];
    if listing.None? {
      r := Failure(ListingUnavailable);
      return;
    }
    var items := BuildListing(rootUrl, listing.value.rows, Limit(limitQuery));
    ghost var recs := ListingItems(rootUrl, listing.value.rows, Limit(limitQuery));
    var out, reqs, failure := EnrichItems(items, recs, cache, detail);
    requested := requested + reqs;
    EnrichAllCache(RunState(old(cache.entries), [], None), recs, detail);
    if failure.Some? {
      r := Failure(failure.value);
      return;
    }
    r := Success(Feed(FeedTitle(listing.value.htmlTitle, title), guard.value.href, out));
  }

  /** Every request of a run goes to the listing URL or to a link under the root URL, and none is
      made when the guard rejects. */
  lemma RequestsStayOnDomain(cache: map<string, AvRecord>, rootUrl: string, rows: seq<ListingRow>, limit: nat,
                             detail: string -> Option<DetailPage>)
    requires CacheOk(cache)
    ensures var recs := ListingItems(rootUrl, rows, limit);
      var st := EnrichAll(RunState(cache, [], None), recs, detail).1;
      forall i :: 0 <= i < |st.requested| ==> StartsWith(st.requested[i], rootUrl) && st.requested[i] !in cache
  {
    var recs := ListingItems(rootUrl, rows, limit);
    ListingLinks(rootUrl, rows, limit);
    EnrichAllRequests(RunState(cache, [], None), recs, detail);
  }
}
