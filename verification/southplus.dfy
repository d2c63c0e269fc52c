/** The South Plus route: the site's own RSS channel restructured into feed items. Each item's
    BBCode description is split into a cover, screenshots and plain text; an item without an
    image in its description gets its cover from the first image of its thread page; every item
    is enriched once per link through the route cache. */
module SouthPlus {
  import opened Wrappers
  import opened JsText
  import opened BbCode
  import opened ResponseCache

  const RssUrl: string := "https://www.south-plus.net/rss.php"
  const DefaultLimit: nat := 20

  /** One `<item>` of the channel as the XML parser gives it. The publication date is read under
      the lower-case key `pubdate`, and the description may be missing. */
  datatype RssItem = RssItem(
    title: string, link: string, pubdate: Option<string>, author: string, category: string,
    description: Option<string>)

  /** `parsed.rss.channel.item`: missing, a single object, or an array. */
  datatype ChannelItems = NoItem | OneItem(item: RssItem) | ItemArray(items: seq<RssItem>)

  /** What fetching a thread page gives: a failure, or the `src` of its first `<img>` if any. */
  datatype ThreadPage = FetchFailed | Loaded(firstImgSrc: Option<string>)

  datatype SouthError =
    | RssUnavailable                        // the channel request or its XML parsing rejected
    | MissingItem                           // `item.link` read on `undefined`
    | InvalidDate(pubdate: Option<string>)  // `toISOString` of an invalid date

  /** The properties of a feed item object at one moment; None is an absent property. */
  datatype ItemRecord = ItemRecord(
    title: string, link: string, pubDate: Option<string>, author: string, category: string,
    raw: Option<string>, coverHint: Option<string>, shotsHint: Option<seq<string>>,
    releaseDate: Option<string>, actors: Option<seq<string>>, cover: Option<string>,
    screenshots: Option<seq<string>>, tags: Option<seq<string>>, description: Option<string>)

  // ---------------------------------------------------------------------------------------
  // Listing stage.

  /** `limit` query value, 20 when absent. */
  function Limit(query: Option<nat>): nat {
    query.GetOr(DefaultLimit)
  }

  /** `Array.isArray(items) ? items : [items]`; None is an `undefined` element. */
  function Wrap(c: ChannelItems): (r: seq<Option<RssItem>>)
    ensures |r| == if c.ItemArray? then |c.items| else 1
    ensures c.ItemArray? ==> forall k :: 0 <= k < |r| ==> r[k] == Some(c.items[k])
  {
    match c
    case NoItem => [None]
    case OneItem(x) => [Some(x)]
    case ItemArray(xs) => seq(|xs|, k requires 0 <= k < |xs| => Some(xs[k]))
  }

  /** Protocol completion of a protocol-relative link. */
  function FixLink(link: string): (r: string)
    ensures StartsWith(r, "http")
    ensures EndsWith(r, link)
    ensures r == link <==> StartsWith(link, "http")
    ensures !StartsWith(link, "http") ==> StartsWith(r, "https:") && |r| == |link| + 6
  {
    if StartsWith(link, "http") then link else "https:" + link
  }

  lemma FixLinkIdempotent(link: string)
    ensures FixLink(FixLink(link)) == FixLink(link)
  {
  }

  /** `images[0] || ''` */
  function Cover(images: seq<string>): string {
    if images != [] && images[0] != "" then images[0] else ""
  }

  /** `images.slice(1)` */
  function Screenshots(images: seq<string>): seq<string> {
    if images == [] then [] else images[1..]
  }

  /** The cover and the screenshots together are the extracted images. */
  lemma CoverSplit(images: seq<string>)
    ensures images != [] ==> [Cover(images)] + Screenshots(images) == images
    ensures images == [] ==> Cover(images) == "" && Screenshots(images) == []
  {
    if images != [] {
      assert images == [images[0]] + images[1..];
    }
  }

  /** The object literal built for one channel item. */
  function Listed(it: RssItem): ItemRecord {
    var raw := it.description.GetOr("");
    var images := Images(raw);
    ItemRecord(
      it.title, FixLink(it.link), it.pubdate, it.author, it.category,
      Some(raw), Some(Cover(images)), Some(Screenshots(images)),
      None, None, None, None, None, None)
  }

  /** Wrapping, truncating to the limit and restructuring every item; an `undefined` item
      among the kept ones makes the restructuring throw. */
  function ListingStage(c: ChannelItems, limit: nat): Result<seq<ItemRecord>, SouthError> {
    var items := Take(Wrap(c), limit);
    if forall k :: 0 <= k < |items| ==> items[k].Some? then
      Success(seq(|items|, k requires 0 <= k < |items| => Listed(items[k].value)))
    else
      Failure(MissingItem)
  }

  /** The listing stage keeps feed order, wraps a single item into a one-element list, and
      returns at most limit items. */
  lemma ListingStageSpec(c: ChannelItems, limit: nat)
    ensures ListingStage(c, limit).Success? ==> |ListingStage(c, limit).value| <= limit
    ensures c.ItemArray? ==>
      && ListingStage(c, limit).Success?
      && |ListingStage(c, limit).value| == (if limit < |c.items| then limit else |c.items|)
      && forall k :: 0 <= k < |ListingStage(c, limit).value| ==>
           ListingStage(c, limit).value[k] == Listed(c.items[k])
    ensures c.OneItem? && limit > 0 ==> ListingStage(c, limit) == Success([Listed(c.item)])
    ensures c.NoItem? ==> ListingStage(c, limit) == if limit == 0 then Success([]) else Failure(MissingItem)
  {
    var items := Take(Wrap(c), limit);
    if c.NoItem? && limit > 0 {
      assert items[0].None?;
    }
    if c.OneItem? && limit > 0 {
      assert items == [Some(c.item)];
      assert ListingStage(c, limit).value == [Listed(c.item)];
    }
  }

  /** Every listed item's link is absolute. */
  lemma LinksAreAbsolute(c: ChannelItems, limit: nat)
    requires ListingStage(c, limit).Success?
    ensures forall k :: 0 <= k < |ListingStage(c, limit).value| ==> StartsWith(ListingStage(c, limit).value[k].link, "http")
  {
  }

  // ---------------------------------------------------------------------------------------
  // Enrichment of one item.

  /** `fetchCoverFromPage`: the first image's `src`, and '' when there is none or the fetch
      fails. */
  function CoverFromPage(page: ThreadPage): (r: string)
    ensures page.FetchFailed? || page.firstImgSrc.None? ==> r == ""
    ensures page.Loaded? && page.firstImgSrc.Some? ==> r == page.firstImgSrc.value
  {
    match page
    case FetchFailed => ""
    case Loaded(src) => src.GetOr("")
  }

  /** `item.category ? [item.category] : []` */
  function Tags(category: string): (r: seq<string>)
    ensures |r| <= 1
    ensures r == [] <==> category == ""
    ensures r != [] ==> r[0] == category
  {
    if category != "" then [category] else []
  }

  /** The cover image, or the 无 placeholder. */
  function CoverPart(coverImg: string): string {
    if coverImg != "" then "<img src=\"" + coverImg + "\" style=\"max-width:300px;\">" else "无"
  }

  function CoverSection(coverImg: string): string {
    "<div><strong>封面:</strong><br>" + CoverPart(coverImg) + "</div>"
  }

  function DateSection(releaseDate: string): string {
    "<div><strong>发帖日期:</strong> " + releaseDate + "</div>"
  }

  function BoardSection(tags: seq<string>): string {
    "<div><strong>版块:</strong> " + Join(tags, ", ") + "</div>"
  }

  /** The text, or the 无内容 placeholder. */
  function TextPart(text: string): string {
    if text != "" then text else "无内容"
  }

  function TextSection(text: string): string {
    "<pre>" + TextPart(text) + "</pre>"
  }

  /** The description: cover, posting date, board, a rule, then the plain text. */
  function Description(coverImg: string, releaseDate: string, tags: seq<string>, text: string): string {
    CoverSection(coverImg) + DateSection(releaseDate) + BoardSection(tags) + "<hr>" + TextSection(text)
  }

  /** The description opens with the cover section and closes with the text section. */
  lemma DescriptionLayout(coverImg: string, releaseDate: string, tags: seq<string>, text: string)
    ensures var d := Description(coverImg, releaseDate, tags, text);
      StartsWith(d, CoverSection(coverImg)) && EndsWith(d, TextSection(text))
  {
    var c, dt, b, t := CoverSection(coverImg), DateSection(releaseDate), BoardSection(tags), TextSection(text);
    StartsWithAppend(c, dt, c);
    StartsWithAppend(c + dt, b, c);
    StartsWithAppend(c + dt + b, "<hr>", c);
    StartsWithAppend(c + dt + b + "<hr>", t, c);
  }

  /** The cover section shows the cover image, or the 无 placeholder when there is none. */
  lemma CoverSectionShows(coverImg: string)
    ensures coverImg == "" ==> CoverSection(coverImg) == "<div><strong>封面:</strong><br>无</div>"
    ensures coverImg != "" ==> Includes(CoverSection(coverImg), "<img src=\"" + coverImg + "\" style=\"max-width:300px;\">")
  {
    FramedIncludes("<div><strong>封面:</strong><br>", CoverPart(coverImg), "</div>");
  }

  /** The text section shows the text, or the 无内容 placeholder when it is empty. */
  lemma TextSectionShows(text: string)
    ensures text == "" ==> TextSection(text) == "<pre>无内容</pre>"
    ensures text != "" ==> Includes(TextSection(text), text)
  {
    FramedIncludes("<pre>", TextPart(text), "</pre>");
  }

  /** The properties an item has once enriched: the helper properties deleted, the added ones
      present, `actors` empty. */
  predicate IsEnriched(r: ItemRecord) {
    && r.raw.None? && r.coverHint.None? && r.shotsHint.None?
    && r.releaseDate.Some? && r.actors == Some([]) && r.cover.Some? && r.tags.Some? && r.description.Some?
  }

  /** The properties taken from the channel item. */
  predicate SameBaseline(a: ItemRecord, b: ItemRecord) {
    a.title == b.title && a.link == b.link && a.pubDate == b.pubDate && a.author == b.author && a.category == b.category
  }

  /** The item after the enrichment callback's assignments and deletions. */
  function Enriched(rec: ItemRecord, coverImg: string, releaseDate: string): ItemRecord {
    var tags := Tags(rec.category);
    var text := CleanContent(rec.raw.GetOr(""));
    rec.(releaseDate := Some(releaseDate), actors := Some([]), cover := Some(coverImg),
         screenshots := rec.shotsHint, tags := Some(tags),
         description := Some(Description(coverImg, releaseDate, tags, text)),
         raw := None, coverHint := None, shotsHint := None)
  }

  /** Enrichment only adds: the channel's properties stay, the helper ones go, and the
      screenshots are those the listing stage extracted. */
  lemma EnrichedSpec(rec: ItemRecord, coverImg: string, releaseDate: string)
    ensures var e := Enriched(rec, coverImg, releaseDate);
      && IsEnriched(e) && SameBaseline(rec, e)
      && e.screenshots == rec.shotsHint && e.cover == Some(coverImg)
      && e.tags == Some(if rec.category != "" then [rec.category] else [])
  {
  }

  // ---------------------------------------------------------------------------------------
  // Enrichment of the whole list, one `cache.tryGet` after another.

  /** What one run changes besides the items: the cache, the URLs requested, and the first
      rejection. */
  datatype RunState = RunState(cache: map<string, ItemRecord>, requested: seq<string>, failure: Option<SouthError>)

  /** Every cached item is stored under its own link and is enriched. */
  predicate CacheOk(m: map<string, ItemRecord>) {
    forall key :: key in m ==> m[key].link == key && IsEnriched(m[key])
  }

  /** `cache.tryGet(item.link, …)` for one item: a hit gives the stored item; a miss fetches the
      thread page when the item has no cover, converts the date, enriches the item and stores
      it. A failing date conversion rejects, and nothing is stored. */
  function Step(st: RunState, rec: ItemRecord, page: string -> ThreadPage, iso: string -> Option<string>)
    : (ItemRecord, RunState)
  {
    if rec.link in st.cache then (st.cache[rec.link], st)
    else
      var hint := rec.coverHint.GetOr("");
      var fetch := hint == "" && rec.link != "";
      var coverImg := if fetch then CoverFromPage(page(rec.link)) else hint;
      var requested := if fetch then st.requested + [rec.link] else st.requested;
      var stamp := if rec.pubDate.Some? then iso(rec.pubDate.value) else None;
      if stamp.None? then
        (rec, st.(requested := requested,
                  failure := if st.failure.Some? then st.failure else Some(InvalidDate(rec.pubDate))))
      else
        var e := Enriched(rec, coverImg, BeforeFirst(stamp.value, 'T'));
        (e, st.(cache := st.cache[rec.link := e], requested := requested))
  }

  /** A hit changes nothing and requests nothing; a miss requests the thread page exactly when
      the item has no cover (its link is never empty), and a stored item is the enriched one. */
  lemma StepSpec(st: RunState, rec: ItemRecord, page: string -> ThreadPage, iso: string -> Option<string>)
    requires StartsWith(rec.link, "http")
    ensures var (out, st') := Step(st, rec, page, iso);
      && (rec.link in st.cache ==> out == st.cache[rec.link] && st' == st)
      && (rec.link !in st.cache && rec.coverHint.GetOr("") == "" ==>
            && st'.requested == st.requested + [rec.link]
            && (rec.link in st'.cache ==> out.cover == Some(CoverFromPage(page(rec.link)))))
      && (rec.link !in st.cache && rec.coverHint.GetOr("") != "" ==>
            && st'.requested == st.requested
            && (rec.link in st'.cache ==> out.cover == rec.coverHint))
      && (st'.cache != st.cache ==> st'.cache == st.cache[rec.link := out] && IsEnriched(out))
      && (st'.failure != st.failure ==> st'.cache == st.cache && st.failure.None?)
  {
  }

  /** The enrichment of a list, item after item, from the first to the last. */
  function EnrichAll(st: RunState, recs: seq<ItemRecord>, page: string -> ThreadPage, iso: string -> Option<string>)
    : (seq<ItemRecord>, RunState)
    decreases |recs|
  {
    if recs == [] then ([], st)
    else
      var (outs, st1) := EnrichAll(st, recs[..|recs| - 1], page, iso);
      var (out, st2) := Step(st1, recs[|recs| - 1], page, iso);
      (outs + [out], st2)
  }

  /** One step keeps the item's link, keeps the cache well-formed and overwrites no cached
      item. */
  lemma StepCache(st: RunState, rec: ItemRecord, page: string -> ThreadPage, iso: string -> Option<string>)
    requires CacheOk(st.cache)
    ensures var (out, st') := Step(st, rec, page, iso);
      out.link == rec.link && CacheOk(st'.cache) && Extends(st.cache, st'.cache)
  {
    if rec.link !in st.cache && rec.pubDate.Some? && iso(rec.pubDate.value).Some? {
      var hint := rec.coverHint.GetOr("");
      var coverImg := if hint == "" && rec.link != "" then CoverFromPage(page(rec.link)) else hint;
      var e := Enriched(rec, coverImg, BeforeFirst(iso(rec.pubDate.value).value, 'T'));
      EnrichedSpec(rec, coverImg, BeforeFirst(iso(rec.pubDate.value).value, 'T'));
      CacheAdd(st.cache, e);
    }
  }

  /** Storing an enriched item under its own link keeps the cache well-formed and overwrites
      nothing else. */
  lemma CacheAdd(m: map<string, ItemRecord>, e: ItemRecord)
    requires CacheOk(m) && IsEnriched(e) && e.link !in m
    ensures CacheOk(m[e.link := e]) && Extends(m, m[e.link := e])
  {
  }

  /** The run keeps the cache well-formed and overwrites no cached item. */
  lemma {:induction false} EnrichAllCache(st: RunState, recs: seq<ItemRecord>, page: string -> ThreadPage, iso: string -> Option<string>)
    requires CacheOk(st.cache)
    ensures var st' := EnrichAll(st, recs, page, iso).1; CacheOk(st'.cache) && Extends(st.cache, st'.cache)
    decreases |recs|
  {
    if recs != [] {
      var init := recs[..|recs| - 1];
      EnrichAllCache(st, init, page, iso);
      var st1 := EnrichAll(st, init, page, iso).1;
      StepCache(st1, recs[|recs| - 1], page, iso);
    }
  }

  /** The run keeps item order: the n-th result carries the n-th item's link. */
  lemma {:induction false} EnrichAllLinks(st: RunState, recs: seq<ItemRecord>, page: string -> ThreadPage, iso: string -> Option<string>)
    requires CacheOk(st.cache)
    ensures var outs := EnrichAll(st, recs, page, iso).0;
      |outs| == |recs| && forall k :: 0 <= k < |recs| ==> outs[k].link == recs[k].link
    decreases |recs|
  {
    if recs != [] {
      var init := recs[..|recs| - 1];
      EnrichAllLinks(st, init, page, iso);
      EnrichAllCache(st, init, page, iso);
      var (outs1, st1) := EnrichAll(st, init, page, iso);
      var rec := recs[|recs| - 1];
      StepCache(st1, rec, page, iso);
      var out := Step(st1, rec, page, iso).0;
      assert EnrichAll(st, recs, page, iso).0 == outs1 + [out];
      forall k | 0 <= k < |recs|
        ensures (outs1 + [out])[k].link == recs[k].link
      {
        if k < |recs| - 1 {
          assert recs[k] == init[k];
        }
      }
    }
  }

  /** The links of the items, in order. `AvBase.Links` is the same map over AVbase's own record
      type; the two modules share no item type, so each keeps its own. */
  function Links(recs: seq<ItemRecord>): (r: seq<string>)
    ensures |r| == |recs| && forall k :: 0 <= k < |r| ==> r[k] == recs[k].link
  {
    seq(|recs|, k requires 0 <= k < |recs| => recs[k].link)
  }

  /** One step requests nothing, or only the thread page of an item missing from the cache. */
  lemma StepRequested(st: RunState, rec: ItemRecord, page: string -> ThreadPage, iso: string -> Option<string>)
    ensures var st' := Step(st, rec, page, iso).1;
      || st'.requested == st.requested
      || (st'.requested == st.requested + [rec.link] && rec.link !in st.cache)
  {
  }

  /** The run only appends to the request log, and requests only the links of its items, never
      one that was cached when it started. */
  lemma {:induction false} EnrichAllRequests(st: RunState, recs: seq<ItemRecord>, page: string -> ThreadPage, iso: string -> Option<string>)
    requires CacheOk(st.cache)
    ensures var st' := EnrichAll(st, recs, page, iso).1;
      && |st.requested| <= |st'.requested| && st'.requested[..|st.requested|] == st.requested
      && (forall i :: |st.requested| <= i < |st'.requested| ==>
            st'.requested[i] !in st.cache && st'.requested[i] in Links(recs))
    decreases |recs|
  {
    if recs != [] {
      var init := recs[..|recs| - 1];
      EnrichAllRequests(st, init, page, iso);
      EnrichAllCache(st, init, page, iso);
      var st1 := EnrichAll(st, init, page, iso).1;
      var st2 := EnrichAll(st, recs, page, iso).1;
      assert st2 == Step(st1, recs[|recs| - 1], page, iso).1;
      StepRequested(st1, recs[|recs| - 1], page, iso);
      assert Links(init) == Links(recs)[..|recs| - 1];
      assert forall i :: |st.requested| <= i < |st1.requested| ==> st2.requested[i] == st1.requested[i];
    }
  }

  /** One step keeps a recorded rejection; otherwise it records at most the invalid date of its
      own item, and without a rejection its result is enriched. */
  lemma StepOutcome(st: RunState, rec: ItemRecord, page: string -> ThreadPage, iso: string -> Option<string>)
    requires CacheOk(st.cache)
    ensures var (out, st') := Step(st, rec, page, iso);
      && (st.failure.Some? ==> st'.failure == st.failure)
      && (st'.failure.None? ==> IsEnriched(out))
      && (st.failure.None? && st'.failure.Some? ==> st'.failure == Some(InvalidDate(rec.pubDate)))
  {
    if rec.link !in st.cache && rec.pubDate.Some? && iso(rec.pubDate.value).Some? {
      var hint := rec.coverHint.GetOr("");
      var coverImg := if hint == "" && rec.link != "" then CoverFromPage(page(rec.link)) else hint;
      EnrichedSpec(rec, coverImg, BeforeFirst(iso(rec.pubDate.value).value, 'T'));
    }
  }

  /** The first rejection is kept, and when nothing rejects every item comes out enriched. */
  lemma {:induction false} EnrichAllOutcome(st: RunState, recs: seq<ItemRecord>, page: string -> ThreadPage, iso: string -> Option<string>)
    requires CacheOk(st.cache)
    ensures var (outs, st') := EnrichAll(st, recs, page, iso);
      && (st.failure.Some? ==> st'.failure == st.failure)
      && (st'.failure.None? ==> forall k :: 0 <= k < |outs| ==> IsEnriched(outs[k]))
    decreases |recs|
  {
    if recs != [] {
      var init := recs[..|recs| - 1];
      EnrichAllOutcome(st, init, page, iso);
      EnrichAllCache(st, init, page, iso);
      var (outs, st1) := EnrichAll(st, init, page, iso);
      StepOutcome(st1, recs[|recs| - 1], page, iso);
    }
  }

  // ---------------------------------------------------------------------------------------
  // The feed.

  /** `category ? `${RSS_URL}?fid=${category}` : RSS_URL` */
  function FeedLink(category: string): (r: string)
    ensures StartsWith(r, RssUrl)
    ensures r == RssUrl <==> category == ""
    ensures category != "" ==> EndsWith(r, "?fid=" + category) && |r| == |RssUrl| + 5 + |category|
  {
    if category != "" then RssUrl + "?fid=" + category else RssUrl
  }

  /** Different boards get different feed links. */
  lemma FeedLinkInjective(a: string, b: string)
    requires FeedLink(a) == FeedLink(b)
    ensures a == b
  {
    if a != "" && b != "" {
      assert FeedLink(a)[|RssUrl| + 5..] == a;
      assert FeedLink(b)[|RssUrl| + 5..] == b;
    }
  }

  /** `title || `South Plus - ${category || '全部'}`` */
  function FeedTitle(title: string, category: string): (r: string)
    ensures title != "" ==> r == title
    ensures title == "" ==> StartsWith(r, "South Plus - ") && EndsWith(r, if category != "" then category else "全部")
    ensures title == "" ==> |r| == 13 + |if category != "" then category else "全部"|
  {
    if title != "" then title else "South Plus - " + (if category != "" then category else "全部")
  }

  /** Feed order survives the run: for a channel with several items, the n-th output item
      carries the completed link of the n-th channel item, there are at most limit of them,
      and, when nothing rejects, each is enriched. */
  lemma FeedItemsInOrder(xs: seq<RssItem>, limit: nat, cache: map<string, ItemRecord>,
                         page: string -> ThreadPage, iso: string -> Option<string>)
    requires CacheOk(cache)
    ensures var recs := ListingStage(ItemArray(xs), limit).value;
      var (outs, st) := EnrichAll(RunState(cache, [], None), recs, page, iso);
      && |outs| == (if limit < |xs| then limit else |xs|)
      && (forall k :: 0 <= k < |outs| ==> outs[k].link == FixLink(xs[k].link))
      && (st.failure.None? ==> forall k :: 0 <= k < |outs| ==> IsEnriched(outs[k]))
  {
    ListingStageSpec(ItemArray(xs), limit);
    var recs := ListingStage(ItemArray(xs), limit).value;
    EnrichAllLinks(RunState(cache, [], None), recs, page, iso);
    EnrichAllOutcome(RunState(cache, [], None), recs, page, iso);
  }

  // ---------------------------------------------------------------------------------------
  // The objects.

  /** A feed item object; its properties change in place during enrichment. A JavaScript object
      is a bag of named properties: they are held as one record, and each property assignment
      or `delete` of the route is an in-place update of that record (a deleted property reads
      as None). */
  class Item {
    var props: ItemRecord

    /** The object's current properties. */
    function Snapshot(): ItemRecord
      reads this
    {
      props
    }

    /** The object literal of the listing stage, with its three helper properties. */
    constructor Literal(title: string, link: string, pubDate: Option<string>, author: string,
                        category: string, raw: string, cover: string, shots: seq<string>)
      ensures Snapshot() == ItemRecord(title, link, pubDate, author, category,
                                       Some(raw), Some(cover), Some(shots), None, None, None, None, None, None)
    {
      props := ItemRecord(title, link, pubDate, author, category,
                          Some(raw), Some(cover), Some(shots), None, None, None, None, None, None);
    }

    /** An object read back from the cache. */
    constructor Restore(r: ItemRecord)
      ensures Snapshot() == r
    {
      props := r;
    }

    /** The six property assignments of the enrichment callback. */
    method SetDetails(releaseDate: string, coverImg: string, screenshots: Option<seq<string>>,
                      tags: seq<string>, descriptionHtml: string)
      modifies this
      ensures Snapshot() == old(Snapshot()).(
        releaseDate := Some(releaseDate), actors := Some([]), cover := Some(coverImg),
        screenshots := screenshots, tags := Some(tags), description := Some(descriptionHtml))
    {
      props := props.(releaseDate := Some(releaseDate));
      props := props.(actors := Some([]));
      props := props.(cover := Some(coverImg));
      props := props.(screenshots := screenshots);
      props := props.(tags := Some(tags));
      props := props.(description := Some(descriptionHtml));
    }

    /** `delete` of the three helper properties. */
    method DropHints()
      modifies this
      ensures Snapshot() == old(Snapshot()).(raw := None, coverHint := None, shotsHint := None)
    {
      props := props.(raw := None);
      props := props.(coverHint := None);
      props := props.(shotsHint := None);
    }

    /** The detail step's in-place update of the item. */
    method Enrich(releaseDate: string, coverImg: string, screenshots: Option<seq<string>>,
                  tags: seq<string>, descriptionHtml: string)
      modifies this
      ensures Snapshot() == old(Snapshot()).(
        releaseDate := Some(releaseDate), actors := Some([]), cover := Some(coverImg),
        screenshots := screenshots, tags := Some(tags), description := Some(descriptionHtml),
        raw := None, coverHint := None, shotsHint := None)
    {
      SetDetails(releaseDate, coverImg, screenshots, tags, descriptionHtml);
      DropHints();
    }
  }

  /** The callback of `items.map(item => ({ … }))`: the object literal for one channel item,
      with the images of its description extracted. */
  method ListOne(item: RssItem) returns (obj: Item)
    ensures fresh(obj) && obj.Snapshot() == Listed(item)
  {
    var link := FixLink(item.link);
    var raw := item.description.GetOr("");
    var images := ExtractImages(raw);
    obj := new Item.Literal(item.title, link, item.pubdate, item.author, item.category,
                            raw, Cover(images), Screenshots(images));
  }

  /** The first n objects carry the listed properties of the first n channel items. */
  ghost predicate ListsUpTo(result: seq<Item>, items: seq<RssItem>, n: nat)
    reads result
  {
    n <= |result| && n <= |items| && forall k :: 0 <= k < n ==> result[k].Snapshot() == Listed(items[k])
  }

  /** One more application of the map callback: a fresh object that, appended to the objects
      built so far, lists one more channel item. */
  method ListNext(items: seq<RssItem>, i: nat, result: seq<Item>) returns (obj: Item)
    requires i < |items| && |result| == i && ListsUpTo(result, items, i)
    ensures fresh(obj) && ListsUpTo(result + [obj], items, i + 1)
  {
    obj := ListOne(items[i]);
  }

  /** `items.map(item => ({ … }))`: one fresh object per channel item. */
  method BuildListing(items: seq<RssItem>) returns (result: seq<Item>)
    ensures |result| == |items|
    ensures forall k :: 0 <= k < |items| ==> fresh(result[k]) && result[k].Snapshot() == Listed(items[k])
    ensures forall a, b :: 0 <= a < b < |result| ==> result[a] != result[b]
  {
    result := [];
    for i := 0 to |items|
      invariant |result| == i
      invariant forall k :: 0 <= k < i ==> fresh(result[k])
      invariant ListsUpTo(result, items, i)
      invariant forall a, b :: 0 <= a < b < i ==> result[a] != result[b]
    {
      var obj := ListNext(items, i, result);
      result := result + [obj];
    }
  }

  /** One more item extends the run by one step. */
  lemma EnrichAllSnoc(st: RunState, recs: seq<ItemRecord>, i: nat, page: string -> ThreadPage, iso: string -> Option<string>)
    requires i < |recs|
    ensures var (outs, st1) := EnrichAll(st, recs[..i], page, iso);
      var (out, st2) := Step(st1, recs[i], page, iso);
      EnrichAll(st, recs[..i + 1], page, iso) == (outs + [out], st2)
  {
    assert recs[..i + 1][..i] == recs[..i];
  }

  /** The callback of `cache.tryGet(item.link, …)` for one item, together with the lookup. */
  method EnrichOne(item: Item, cache: Cache<ItemRecord>, requested: seq<string>, failure: Option<SouthError>,
                   page: string -> ThreadPage, iso: string -> Option<string>)
    returns (out: Item, requested': seq<string>, failure': Option<SouthError>)
    modifies item, cache
    ensures (out.Snapshot(), RunState(cache.entries, requested', failure'))
            == Step(RunState(old(cache.entries), requested, failure), old(item.Snapshot()), page, iso)
    ensures old(item.Snapshot()).link in old(cache.entries) ==> fresh(out) && item.Snapshot() == old(item.Snapshot())
    ensures old(item.Snapshot()).link !in old(cache.entries) ==> out == item
  {
    requested', failure' := requested, failure;
    var hit := cache.Get(item.props.link);
    if hit.Some? {
      out := new Item.Restore(hit.value);
      return;
    }
    out := item;
    var coverImg := item.props.coverHint.GetOr("");
    if coverImg == "" && item.props.link != "" {
      requested' := requested' + [item.props.link];
      coverImg := CoverFromPage(page(item.props.link));
    }
    var stamp := if item.props.pubDate.Some? then iso(item.props.pubDate.value) else None;
    if stamp.None? {
      if failure'.None? {
        failure' := Some(InvalidDate(item.props.pubDate));
      }
      return;
    }
    var releaseDate := BeforeFirst(stamp.value, 'T');
    var tags := Tags(item.props.category);
    var html := Description(coverImg, releaseDate, tags, CleanContent(item.props.raw.GetOr("")));
    item.Enrich(releaseDate, coverImg, item.props.shotsHint, tags, html);
    cache.Set(item.props.link, item.Snapshot());
  }

  /** One round of the loop of `EnrichItems`: the i-th item goes through the callback and its
      outcome is the object to append; the items not yet reached keep their properties. */
  method EnrichNext(items: seq<Item>, ghost recs: seq<ItemRecord>, i: nat, out: seq<Item>,
                    ghost outs: seq<ItemRecord>, ghost st0: RunState, cache: Cache<ItemRecord>,
                    requested: seq<string>, failure: Option<SouthError>,
                    page: string -> ThreadPage, iso: string -> Option<string>)
    returns (o: Item, ghost outs': seq<ItemRecord>, requested': seq<string>, failure': Option<SouthError>)
    requires i < |items| == |recs|
    requires forall a, b :: 0 <= a < b < |items| ==> items[a] != items[b]
    requires |out| == i && |outs| == i
    requires EnrichAll(st0, recs[..i], page, iso) == (outs, RunState(cache.entries, requested, failure))
    requires forall k :: 0 <= k < i ==> out[k].Snapshot() == outs[k]
    requires forall k :: i <= k < |items| ==> items[k].Snapshot() == recs[k]
    requires forall j :: 0 <= j < i ==> out[j] != items[i]
    requires forall k :: 0 <= k < i && out[k] != items[k] ==> items[k].Snapshot() == recs[k]
    modifies cache, items[i]
    ensures |outs'| == i + 1
    ensures EnrichAll(st0, recs[..i + 1], page, iso) == (outs', RunState(cache.entries, requested', failure'))
    ensures forall k :: 0 <= k < i + 1 ==> (out + [o])[k].Snapshot() == outs'[k]
    ensures forall k :: i + 1 <= k < |items| ==> items[k].Snapshot() == recs[k]
    ensures o == items[i] || fresh(o)
    ensures forall k :: 0 <= k < i + 1 && (out + [o])[k] != items[k] ==> items[k].Snapshot() == recs[k]
  {
    o, requested', failure' := EnrichOne(items[i], cache, requested, failure, page, iso);
    outs' := outs + [o.Snapshot()];
    EnrichAllSnoc(st0, recs, i, page, iso);
  }

  /** `Promise.all(result.map(item => cache.tryGet(item.link, …)))`, one item after another:
      a miss changes its item in place, a hit gives an object read back from the cache. */
  method EnrichItems(items: seq<Item>, ghost recs: seq<ItemRecord>, cache: Cache<ItemRecord>,
                     page: string -> ThreadPage, iso: string -> Option<string>)
    returns (out: seq<Item>, requested: seq<string>, failure: Option<SouthError>)
    requires |recs| == |items|
    requires forall k :: 0 <= k < |items| ==> items[k].Snapshot() == recs[k]
    requires forall a, b :: 0 <= a < b < |items| ==> items[a] != items[b]
    modifies cache, items
    ensures var (outs, st) := EnrichAll(RunState(old(cache.entries), [], None), recs, page, iso);
      && |out| == |outs|
      && (forall k :: 0 <= k < |out| ==> out[k].Snapshot() == outs[k])
      && cache.entries == st.cache && requested == st.requested && failure == st.failure
    ensures |out| == |items|
    ensures forall k :: 0 <= k < |out| ==>
      out[k] == items[k] || (fresh(out[k]) && items[k].Snapshot() == old(items[k].Snapshot()))
  {
    out, requested, failure := [], [], None;
    ghost var outs: seq<ItemRecord> := [];
    ghost var st0 := RunState(cache.entries, [], None);
    for i := 0 to |items|
      invariant |out| == i && |outs| == i
      invariant EnrichAll(st0, recs[..i], page, iso) == (outs, RunState(cache.entries, requested, failure))
      invariant forall k :: 0 <= k < i ==> out[k].Snapshot() == outs[k]
      invariant forall k :: i <= k < |items| ==> items[k].Snapshot() == recs[k]
      invariant forall k :: 0 <= k < i ==> out[k] == items[k] || fresh(out[k])
      invariant forall k :: 0 <= k < i && out[k] != items[k] ==> items[k].Snapshot() == recs[k]
    {
      var o;
      o, outs, requested, failure := EnrichNext(items, recs, i, out, outs, st0, cache, requested, failure, page, iso);
      out := out + [o];
    }
    assert recs[..|items|] == recs;
  }

  /** The listing stage on objects: the wrapped, truncated channel items restructured into fresh
      objects, or the failure of the restructuring. */
  method Listing(c: ChannelItems, limit: nat) returns (r: Result<seq<Item>, SouthError>)
    ensures r.Failure? <==> ListingStage(c, limit).Failure?
    ensures r.Failure? ==> r.error == ListingStage(c, limit).error
    ensures r.Success? ==>
      && |r.value| == |ListingStage(c, limit).value|
      && (forall k :: 0 <= k < |r.value| ==> fresh(r.value[k]) && r.value[k].Snapshot() == ListingStage(c, limit).value[k])
      && (forall a, b :: 0 <= a < b < |r.value| ==> r.value[a] != r.value[b])
  {
    var items := Take(Wrap(c), limit);
    if exists k :: 0 <= k < |items| && items[k].None? {
      return Failure(MissingItem);
    }
    var listed := BuildListing(seq(|items|, k requires 0 <= k < |items| => items[k].value));
    return Success(listed);
  }

  /** A feed: its title, its link, and its items. */
  datatype Feed = Feed(title: string, link: string, item: seq<Item>)

  /** `ProcessItems(ctx, category, title)`: the channel request, the listing stage, the
      enrichment of every kept item, and the feed. */
  method ProcessItems(cache: Cache<ItemRecord>, limitQuery: Option<nat>, category: string, title: string,
                      rss: Option<ChannelItems>, page: string -> ThreadPage, iso: string -> Option<string>)
    returns (r: Result<Feed, SouthError>, requested: seq<string>)
    requires CacheOk(cache.entries)
    modifies cache
    ensures CacheOk(cache.entries)
    ensures |requested| >= 1 && requested[0] == FeedLink(category)
    ensures rss.None? ==>
      r == Failure(RssUnavailable) && requested == [FeedLink(category)] && cache.entries == old(cache.entries)
    ensures rss.Some? ==>
      match ListingStage(rss.value, Limit(limitQuery))
      case Failure(e) =>
        r == Failure(e) && requested == [FeedLink(category)] && cache.entries == old(cache.entries)
      case Success(recs) =>
        var (outs, st) := EnrichAll(RunState(old(cache.entries), [], None), recs, page, iso);
        && cache.entries == st.cache && requested == [FeedLink(category)] + st.requested
        && (st.failure.Some? ==> r == Failure(st.failure.value))
        && (st.failure.None? ==>
              && r.Success? && r.value.title == FeedTitle(title, category) && r.value.link == FeedLink(category)
              && |r.value.item| == |outs|
              && forall k :: 0 <= k < |outs| ==> fresh(r.value.item[k]) && r.value.item[k].Snapshot() == outs[k])
  {
    var url := FeedLink(category);
    requested := [url];
    if rss.None? {
      r := Failure(RssUnavailable);
      return;
    }
    var listing := Listing(rss.value, Limit(limitQuery));
    if listing.Failure? {
      r := Failure(listing.error);
      return;
    }
    ghost var recs := ListingStage(rss.value, Limit(limitQuery)).value;
    var out, reqs, failure := EnrichItems(listing.value, recs, cache, page, iso);
    requested := requested + reqs;
    LinksAreAbsolute(rss.value, Limit(limitQuery));
    EnrichAllCache(RunState(old(cache.entries), [], None), recs, page, iso);
    if failure.Some? {
      r := Failure(failure.value);
      return;
    }
    r := Success(Feed(FeedTitle(title, category), url, out));
  }
}
