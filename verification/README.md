# RSSHub South Plus and AVbase feed pipelines, modelled in Dafny

This project models the two `ProcessItems` helpers of RSSHub's South Plus and AVbase routes.
It covers what they do between their network requests: how fetched pages become feed items,
how each item is enriched once per link through the route cache, and how the feed's title and
link are derived. Every fetched or parsed value is an input: the RSS channel, the thread pages,
the listing page, the detail pages, the resolved listing URL and the date conversion.

Modules:

- `Wrappers` (wrappers.dfy): `Option` and `Result`.
- `JsText` (js_text.dfy): the parts of the JavaScript string and array library the routes use:
  - `trim`, with ECMAScript's WhiteSpace and LineTerminator sets;
  - `split(c)[0]`, `join` and `slice(0, n)`;
  - `undefined`/`null` inside template literals;
  - cheerio's `.map(…).get()`, which drops `undefined`.
- `BbCode` (bbcode.dfy): the two global regular expressions of the South Plus route.
  - `/\[img\](.*?)\[\/img\]/gi` is run by an exec loop (`extractImages`) and by `replaceAll`.
  - `/\[\/?.*?\]/g` is run by `replaceAll`.
  - Matching follows ECMAScript: `.` excludes line terminators and `.*?` is lazy. Under the `i`
    flag without `u`, no non-ASCII character matches an ASCII letter, so exactly the case
    variants of `img` match. A global search resumes where the last match ended.
- `ResponseCache` (response_cache.dfy): the route cache as `cache.tryGet(key, compute)` uses it:
  a lookup, and on a miss a store of the computed value.
- `SouthPlus` (southplus.dfy): the South Plus pipeline.
  1. Channel items are wrapped into a list and truncated to the limit.
  2. Each becomes an object literal with three helper properties (`_raw`, `_cover`, `_screenshots`).
  3. Each object is enriched in place through the cache. An item without a cover takes the first
     image of its thread page, and a failed page fetch gives `''`.
  4. The description is built; the helper properties are deleted.
  5. The feed gets its title and its `?fid=` link.
- `AvBase` (avbase.dfy): the AVbase pipeline.
  1. The domain allow-list guard is checked before any request.
  2. Listing rows are sliced to the limit, mapped to items, and rows without a title are dropped.
  3. Each item is enriched in place from its detail page through the cache, with the
     fixed-order description.
  4. The feed title is derived from the listing page's `<title>`.

Feed items are objects whose properties the routes assign and delete in place. Each object is a
`class` (`SouthPlus.Item`, `AvBase.AvItem`) holding its current properties as one record. A
property assignment or `delete` is an update of that record, and a deleted property reads as
`None`. Each callback's assignments are methods (`SetDetails`, `DropHints`, `SetEnclosure`)
whose `ensures` give the whole new state.

A run over all items (`EnrichItems`) is a loop that mutates the objects and the cache. It is
proved against a specification function `EnrichAll`: a left fold of one `Step` per item over
the cache contents, the requested URLs and the first rejection. The lemmas about `EnrichAll`
state the run's properties. `ProcessItems` returns the feed or its error, together with every
URL it requested, in order.

## Model

| member | source | states |
|---|---|---|
| JsText.Trim | lib/routes/avbase/utils.ts:51-52 | `trim()` leaves no whitespace or line terminator at either end and never lengthens its input |
| JsText.TrimStart | lib/routes/southplus/utils.ts:23 | the leading part removed by `trim()` is all whitespace, and what remains is a suffix not starting with whitespace |
| JsText.TrimEnd | lib/routes/southplus/utils.ts:23 | the trailing part removed by `trim()` is all whitespace, and what remains is a prefix not ending with whitespace |
| JsText.TrimIdempotent | lib/routes/southplus/utils.ts:23 | trimming a trimmed string changes nothing |
| JsText.BeforeFirst | lib/routes/avbase/utils.ts:130 | `split(c)[0]` is the longest prefix without `c`: the prefix holds no `c`, and when it is shorter than the input the next character is `c` |
| JsText.Join | lib/routes/avbase/utils.ts:62 | a one-element list joins to that element; the joined length is the parts' total plus one separator between neighbours |
| JsText.JoinAt | lib/routes/avbase/utils.ts:62 | the parts of a `join` appear in list order, each at its offset (the parts before it and a separator after each of them), and every part but the last is followed by the separator |
| JsText.JoinIncludesPart | lib/routes/avbase/utils.ts:62 | every part of a `join` occurs in the joined text |
| JsText.Take | lib/routes/southplus/utils.ts:54 | `slice(0, n)` keeps the first `min(n, length)` elements, in order |
| JsText.Somes | lib/routes/avbase/utils.ts:93 | dropping `undefined` entries never lengthens the list |
| JsText.SomesByIndex | lib/routes/avbase/utils.ts:66 | the j-th kept value is the value at the j-th defined position |
| JsText.SomeIndicesIncreasing | lib/routes/avbase/utils.ts:66 | the kept positions lie in the list and strictly increase, so kept values stay in order |
| JsText.SomeIndicesComplete | lib/routes/avbase/utils.ts:66 | no defined entry is skipped |
| JsText.SomesLength | lib/routes/avbase/utils.ts:66 | nothing is dropped exactly when every entry is defined |
| ResponseCache.Cache.constructor | lib/routes/southplus/utils.ts:79 | the cache starts with the given entries |
| ResponseCache.Cache.Get | lib/routes/southplus/utils.ts:79 | a lookup finds a value exactly when the key is stored, and returns the stored value |
| ResponseCache.Cache.Set | lib/routes/southplus/utils.ts:79 | storing maps the key to the value and leaves every other entry as it was |
| BbCode.LazyUntil | lib/routes/southplus/utils.ts:10 | a lazy `.*?` followed by its closing literal, if found, fits inside the text |
| BbCode.LazyUntilSome | lib/routes/southplus/utils.ts:10 | when found, the closer matches after a run with no line terminator, and after no shorter run (laziness) |
| BbCode.LazyUntilNone | lib/routes/southplus/utils.ts:10 | when not found, no run without a line terminator is followed by the closer |
| BbCode.MatchLen | lib/routes/southplus/utils.ts:10 | an anchored match is non-empty and fits in the text; an image block is at least as long as `[img][/img]` |
| BbCode.RemoveAll | lib/routes/southplus/utils.ts:21-22 | `replaceAll(p, '')` never lengthens its input |
| BbCode.ImagesAreClean | lib/routes/southplus/utils.ts:13-14 | every capture holds no line terminator and no `[/img]` in any letter case |
| BbCode.Exec | lib/routes/southplus/utils.ts:13 | a match found from `lastIndex` ends after it and inside the text, so the exec loop advances |
| BbCode.ExecImages | lib/routes/southplus/utils.ts:13-14 | the match `exec` finds is the first image from `lastIndex` on, and the search resumes at its end; no match means no image remains |
| BbCode.Images | lib/routes/southplus/utils.ts:9-17 | no contract of its own: the captures of all image blocks of a global search, leftmost first. Stated by `BbCode.ExtractImages`, `BbCode.ImagesOfMarkup`, `BbCode.ImagesEmptyIff`, `BbCode.ImagesAreClean` and `BbCode.ImagesBound` |
| BbCode.ImagesBound | lib/routes/southplus/utils.ts:9-17 | every image uses up a whole block of at least 11 characters (`[img][/img]`), so eleven times the number of images is at most the text's length |
| BbCode.ExtractImages | lib/routes/southplus/utils.ts:9-17 | the exec loop returns exactly the captures of all image blocks, leftmost first |
| BbCode.ImagesOfMarkup | lib/routes/southplus/utils.ts:9-17 | round trip: clean captures written as consecutive `[img]…[/img]` blocks are extracted back, in order |
| BbCode.ImagesOfOneBlock | lib/routes/southplus/utils.ts:9-17 | `[img]u[/img]` gives `[u]` for a clean `u` |
| BbCode.ImagesEmptyIff | lib/routes/southplus/utils.ts:9-17 | no image is extracted exactly when the image pattern matches nowhere |
| BbCode.RemoveAllUnchangedIff | lib/routes/southplus/utils.ts:21-22 | `replaceAll(p, '')` returns its input unchanged exactly when `p` matches nowhere |
| BbCode.ImagesEmptyIffNothingRemoved | lib/routes/southplus/utils.ts:9-21 | `extractImages` finds nothing exactly when cleanContent's first `replaceAll` removes nothing |
| BbCode.RemoveAllOfMarkup | lib/routes/southplus/utils.ts:21 | markup made only of image blocks is removed completely |
| BbCode.NoTagIffNoBracketPair | lib/routes/southplus/utils.ts:22 | the tag pattern matches nowhere exactly when no `[` is followed by a `]` on the same line |
| BbCode.RemoveTagsLeavesNone | lib/routes/southplus/utils.ts:22 | after removing every tag, the tag pattern matches nowhere in the result |
| BbCode.TrimKeepsNoBracketPair | lib/routes/southplus/utils.ts:23 | trimming cannot create a `[`…`]` pair |
| BbCode.NoTagNoImgBlock | lib/routes/southplus/utils.ts:21-22 | text without tags has no image block (every image block is also a tag) |
| BbCode.CleanContent | lib/routes/southplus/utils.ts:19-24 | cleaning never lengthens the description. Its shape, idempotence and special cases are stated by the four `BbCode.CleanContent…` lemmas below |
| BbCode.CleanContentShape | lib/routes/southplus/utils.ts:19-24 | cleanContent's result has no whitespace at either end and no `[` followed by `]` on the same line |
| BbCode.CleanContentIdempotent | lib/routes/southplus/utils.ts:19-24 | cleaning cleaned content changes nothing |
| BbCode.CleanContentWithoutBracket | lib/routes/southplus/utils.ts:19-24 | content without `[` is only trimmed |
| BbCode.CleanContentOfMarkup | lib/routes/southplus/utils.ts:19-24 | content made only of image blocks cleans to `''` |
| SouthPlus.Wrap | lib/routes/southplus/utils.ts:49-51 | a non-array `item` becomes a one-element list; an array is kept element by element |
| SouthPlus.FixLink | lib/routes/southplus/utils.ts:57 | the link starts with `http` and ends with the original. It is unchanged exactly when the original starts with `http`; otherwise it is `https:` followed by the original, six characters longer |
| SouthPlus.FixLinkIdempotent | lib/routes/southplus/utils.ts:57 | fixing a fixed link changes nothing |
| SouthPlus.Listed | lib/routes/southplus/utils.ts:56-74 | no contract of its own: the map callback's object as a value. Stated by `SouthPlus.Item.Literal`, `SouthPlus.CoverSplit`, `SouthPlus.LinksAreAbsolute` and `SouthPlus.ListingStageSpec` |
| SouthPlus.ListingStage | lib/routes/southplus/utils.ts:47-74 | no contract of its own: wrap, slice and map on values. Stated by `SouthPlus.ListingStageSpec` and `SouthPlus.FeedItemsInOrder` |
| SouthPlus.CoverSplit | lib/routes/southplus/utils.ts:61-62 | cover followed by screenshots is the image list when it is non-empty; otherwise the cover is `''` and there are no screenshots |
| SouthPlus.ListingStageSpec | lib/routes/southplus/utils.ts:47-74 | at most `limit` items. An array keeps feed order, the n-th item from the n-th channel item. A single item gives a one-element list. A missing item makes the map throw when `limit > 0` |
| SouthPlus.LinksAreAbsolute | lib/routes/southplus/utils.ts:57 | every listed link starts with `http` |
| SouthPlus.Tags | lib/routes/southplus/utils.ts:88 | `tags` is `[category]` for a non-empty category and `[]` otherwise |
| SouthPlus.CoverFromPage | lib/routes/southplus/utils.ts:26-37 | a failed fetch, a page without `<img>`, or one whose first `<img>` has no `src`, gives `''`; otherwise that `src` |
| SouthPlus.Description | lib/routes/southplus/utils.ts:93-98 | no contract of its own: the cover, date and board sections, `<hr>`, then the text section. Stated by `SouthPlus.DescriptionLayout`, `SouthPlus.CoverSectionShows` and `SouthPlus.TextSectionShows` |
| SouthPlus.DescriptionLayout | lib/routes/southplus/utils.ts:93-98 | the description opens with the cover section and closes with the `<pre>` text section |
| SouthPlus.CoverSectionShows | lib/routes/southplus/utils.ts:94 | the cover section shows the cover `<img>`, or exactly the `无` placeholder when there is no cover |
| SouthPlus.TextSectionShows | lib/routes/southplus/utils.ts:98 | the text section contains the cleaned text, or is exactly `<pre>无内容</pre>` when the text is empty |
| SouthPlus.Enriched | lib/routes/southplus/utils.ts:87-109 | no contract of its own: the callback's assignments and deletes on values. Stated by `SouthPlus.EnrichedSpec` |
| SouthPlus.EnrichedSpec | lib/routes/southplus/utils.ts:87-109 | enrichment keeps the channel properties, deletes the three helper properties and sets `actors` to `[]`. `cover` is the chosen cover, `screenshots` the extracted ones, `tags` follows the category |
| SouthPlus.Step | lib/routes/southplus/utils.ts:79-112 | no contract of its own: one lookup-or-compute on values. Stated by `SouthPlus.StepSpec`, `SouthPlus.StepCache`, `SouthPlus.StepRequested` and `SouthPlus.StepOutcome`, and implemented by `SouthPlus.EnrichOne` |
| SouthPlus.StepSpec | lib/routes/southplus/utils.ts:79-85 | a cache hit returns the stored item and changes nothing. A miss fetches the thread page exactly when the item has no cover, and a stored item is enriched with that cover. A rejection stores nothing, and only the first is kept |
| SouthPlus.StepCache | lib/routes/southplus/utils.ts:79 | one lookup-or-compute keeps the item's link, keeps every cached item under its own link and enriched, and overwrites no entry |
| SouthPlus.StepRequested | lib/routes/southplus/utils.ts:79-85 | one item requests nothing, or only the thread page of an uncached item |
| SouthPlus.StepOutcome | lib/routes/southplus/utils.ts:79-112 | one item keeps a recorded rejection. A new rejection is this item's invalid date. Without a rejection the result is enriched |
| SouthPlus.EnrichAll | lib/routes/southplus/utils.ts:77-114 | no contract of its own: one `Step` per item in list order. Stated by the `SouthPlus.EnrichAll…` lemmas, and implemented by `SouthPlus.EnrichItems` |
| SouthPlus.EnrichAllCache | lib/routes/southplus/utils.ts:77-114 | a whole run keeps the cache well-formed and only adds entries |
| SouthPlus.EnrichAllLinks | lib/routes/southplus/utils.ts:77-114 | `Promise.all` keeps order: the n-th result has the n-th item's link |
| SouthPlus.EnrichAllRequests | lib/routes/southplus/utils.ts:77-114 | a run only appends requests, each the link of one of its items that was uncached at the start |
| SouthPlus.EnrichAllOutcome | lib/routes/southplus/utils.ts:77-114 | for any links, a recorded rejection stays, and a run without rejection returns every item enriched |
| SouthPlus.FeedLink | lib/routes/southplus/utils.ts:40 | the feed link starts with `RSS_URL` and is `RSS_URL` alone exactly when the category is empty. Otherwise it ends with `?fid=` and the category, with nothing else added |
| SouthPlus.FeedLinkInjective | lib/routes/southplus/utils.ts:40 | different categories get different feed links |
| SouthPlus.FeedTitle | lib/routes/southplus/utils.ts:117 | a given title is used as is. Otherwise the title is `South Plus - ` followed by the category, or by `全部`, and is 13 characters longer than that |
| SouthPlus.FeedItemsInOrder | lib/routes/southplus/utils.ts:53-114 | for a channel array, the feed has `min(limit, n)` items, the k-th with the completed link of the k-th channel item, all enriched when nothing rejects |
| SouthPlus.Item.Literal | lib/routes/southplus/utils.ts:64-73 | the object literal has the channel properties and the three helper properties, and nothing else |
| SouthPlus.Item.Restore | lib/routes/southplus/utils.ts:79 | an object read from the cache has the stored properties |
| SouthPlus.Item.SetDetails | lib/routes/southplus/utils.ts:100-105 | the six assignments set exactly `releaseDate`, `actors`, `cover`, `screenshots`, `tags` and `description` |
| SouthPlus.Item.DropHints | lib/routes/southplus/utils.ts:107-109 | the three deletes remove exactly `_raw`, `_cover` and `_screenshots` |
| SouthPlus.Item.Enrich | lib/routes/southplus/utils.ts:100-109 | the assignments then the deletes, as one in-place update |
| SouthPlus.ListOne | lib/routes/southplus/utils.ts:56-74 | the map callback returns a fresh object with the restructured item's properties |
| SouthPlus.ListNext | lib/routes/southplus/utils.ts:56 | one more callback appends a fresh object with the next item's properties |
| SouthPlus.BuildListing | lib/routes/southplus/utils.ts:56-74 | `map` returns one distinct fresh object per item, in order |
| SouthPlus.EnrichAllSnoc | lib/routes/southplus/utils.ts:77-78 | one more item extends a run by one lookup-or-compute |
| SouthPlus.EnrichOne | lib/routes/southplus/utils.ts:79-112 | one `tryGet` and its callback change the object, the cache, the requests and the rejection as one `Step` says. On a miss the result is the same object, enriched in place; on a hit it is a fresh object and the original is left as it was |
| SouthPlus.EnrichNext | lib/routes/southplus/utils.ts:77-114 | one more item through `tryGet` extends the run by one step and leaves later items untouched. A fresh result leaves its item as it was |
| SouthPlus.EnrichItems | lib/routes/southplus/utils.ts:77-114 | the loop over all items leaves the objects, cache, requests and rejection that the sequential run `EnrichAll` specifies. Each result is its own item, enriched in place, or a fresh object from the cache whose item keeps its old properties |
| SouthPlus.Listing | lib/routes/southplus/utils.ts:47-74 | the listing stage on objects: it fails exactly when the restructuring fails, and otherwise returns distinct fresh objects with the listed properties |
| SouthPlus.ProcessItems | lib/routes/southplus/utils.ts:39-121 | the channel URL is requested first. A failed request or restructuring rejects with the cache untouched. Otherwise the items are enriched in order, the first rejection wins, and the feed has the derived title and link. The cache stays well-formed |
| AvBase.Authorize | lib/routes/avbase/utils.ts:12-16 | an unparsable URL rejects. A parsed one is refused with ConfigNotFound exactly when the unsafe-domain switch is off and the hostname is not an allowed host. Otherwise the URL passes through |
| AvBase.UnsafeNeverRejects | lib/routes/avbase/utils.ts:14 | with the unsafe-domain switch on, every parsed URL passes the guard |
| AvBase.TrimAll | lib/routes/avbase/utils.ts:56 | the k-th result is the trimmed k-th text, for every k |
| AvBase.RowToItem | lib/routes/avbase/utils.ts:48-65 | a row becomes `null` exactly when its trimmed title is empty. Otherwise its link starts with the root URL, its enclosure is the cover with type `image/jpeg`, and it has no description |
| AvBase.RowToItemTitle | lib/routes/avbase/utils.ts:51-59 | the title is the trimmed id, ` - `, then the trimmed title, and nothing else. The link is exactly the root URL followed by the row's `href`, or by `undefined` when there is none |
| AvBase.AuthorNamesActors | lib/routes/avbase/utils.ts:56-62 | the author is the trimmed actor names in row order: the k-th name sits at its join offset, `, ` follows every name but the last, and the length is the names' total plus two per separator. It is the name alone for a single actor |
| AvBase.MappedRows | lib/routes/avbase/utils.ts:45-57 | the map sees exactly the rows the slice keeps |
| AvBase.MappedRowsAt | lib/routes/avbase/utils.ts:45-57 | the k-th mapped row is the object of the k-th row, present exactly when that row has a title, and k is below the limit |
| AvBase.ListingItems | lib/routes/avbase/utils.ts:45-66 | no contract of its own: slice, map, then `filter(Boolean)`. Stated by `AvBase.ListingItemsOrder`, `AvBase.ListingItemsCount` and `AvBase.ListingLinks` |
| AvBase.ListingItemsOrder | lib/routes/avbase/utils.ts:45-66 | slice before filter: the items are exactly the titled rows among the first `limit` rows, in row order, none skipped |
| AvBase.ListingItemsCount | lib/routes/avbase/utils.ts:46-66 | at most `limit` items; as many as the sliced rows exactly when every sliced row has a title |
| AvBase.ListingLinks | lib/routes/avbase/utils.ts:53 | every listed link is the root URL followed by the `href` of the row it came from, or by `undefined` |
| AvBase.ReleaseDate | lib/routes/avbase/utils.ts:86-87 | the trimmed text of the first selector, or exactly the trimmed text of the second when the first is empty. Empty exactly when both are |
| AvBase.Actors | lib/routes/avbase/utils.ts:96-100 | one actor per chip, in order. Its name is the chip's trimmed span text and its avatar is the chip's avatar |
| AvBase.Description | lib/routes/avbase/utils.ts:106-115 | no contract of its own: the five sections, then the four raw fragments. Stated by `AvBase.DescriptionLayout` and the three `AvBase.DescriptionNames…` lemmas |
| AvBase.DescriptionLayout | lib/routes/avbase/utils.ts:106-115 | the description opens with the release-date section and closes with the four raw fragments |
| AvBase.DescriptionNamesActors | lib/routes/avbase/utils.ts:108 | the description shows every actor's avatar and name |
| AvBase.DescriptionNamesShots | lib/routes/avbase/utils.ts:110 | the description shows every screenshot that has a source |
| AvBase.DescriptionNamesTags | lib/routes/avbase/utils.ts:111 | the description names every trimmed tag |
| AvBase.Enriched | lib/routes/avbase/utils.ts:82-122 | no contract of its own: the callback's assignments on values. Stated by `AvBase.EnrichedSpec` |
| AvBase.EnrichedSpec | lib/routes/avbase/utils.ts:82-122 | enrichment keeps title, link, date and author, and sets the magnet enclosure with type `application/x-bittorrent`. It sets every added property, and keeps all screenshots exactly when each has a source |
| AvBase.Step | lib/routes/avbase/utils.ts:71-125 | no contract of its own: one lookup-or-compute on values. Stated by `AvBase.StepCache`, `AvBase.StepRequested` and `AvBase.StepOutcome`, and implemented by `AvBase.EnrichOne` |
| AvBase.StepCache | lib/routes/avbase/utils.ts:71 | one lookup-or-compute keeps the item's link, keeps the cache well-formed and overwrites no entry |
| AvBase.StepRequested | lib/routes/avbase/utils.ts:71-78 | one item requests nothing, or only the detail page of an uncached item |
| AvBase.StepOutcome | lib/routes/avbase/utils.ts:71-78 | a recorded rejection stays; a new one names this item's link; without one the result is enriched |
| AvBase.EnrichAllSnoc | lib/routes/avbase/utils.ts:69-70 | one more item extends a run by one lookup-or-compute |
| AvBase.EnrichAll | lib/routes/avbase/utils.ts:69-127 | no contract of its own: one `Step` per item in list order. Stated by the `AvBase.EnrichAll…` lemmas, and implemented by `AvBase.EnrichItems` |
| AvBase.EnrichAllCache | lib/routes/avbase/utils.ts:69-127 | a whole run keeps the cache well-formed and only adds entries |
| AvBase.EnrichAllLinks | lib/routes/avbase/utils.ts:69-127 | `Promise.all` keeps order: the n-th result has the n-th item's link |
| AvBase.EnrichAllRequests | lib/routes/avbase/utils.ts:69-127 | a run only appends requests, each the link of one of its items that was uncached at the start |
| AvBase.EnrichAllOutcome | lib/routes/avbase/utils.ts:69-127 | a run without rejection returns every item enriched; a rejection stays and names the link of one of the items |
| AvBase.FeedTitle | lib/routes/avbase/utils.ts:129-133 | when the page title has a vertical bar with text before the first one, the feed title is that text (a prefix without a bar) then ` - ` and the caller's title; otherwise the caller's title |
| AvBase.AvItem.constructor | lib/routes/avbase/utils.ts:58-65 | a new object has exactly the given properties |
| AvBase.AvItem.SetEnclosure | lib/routes/avbase/utils.ts:82-83 | the first two assignments set exactly the enclosure type and URL |
| AvBase.AvItem.SetDetails | lib/routes/avbase/utils.ts:117-122 | the six assignments set exactly `releaseDate`, `actors`, `cover`, `screenshots`, `tags` and `description` |
| AvBase.AvItem.Enrich | lib/routes/avbase/utils.ts:82-122 | all assignments of the callback, in order, as one in-place update |
| AvBase.NewItems | lib/routes/avbase/utils.ts:66 | `filter(Boolean)` then objects: one distinct fresh object per non-null row, in order |
| AvBase.BuildListing | lib/routes/avbase/utils.ts:45-66 | the listing objects are distinct fresh objects with the listing items' properties |
| AvBase.EnrichOne | lib/routes/avbase/utils.ts:71-125 | one `tryGet` and its callback change the object, the cache, the requests and the rejection as one `Step` says. On a miss the result is the same object, enriched in place; on a hit it is a fresh object and the original is left as it was |
| AvBase.EnrichNext | lib/routes/avbase/utils.ts:69-127 | one more item through `tryGet` extends the run by one step and leaves later items untouched. A fresh result leaves its item as it was |
| AvBase.EnrichItems | lib/routes/avbase/utils.ts:69-127 | the loop over all items leaves the objects, cache, requests and rejection that the sequential run `EnrichAll` specifies. Each result is its own item, enriched in place, or a fresh object from the cache whose item keeps its old properties |
| AvBase.ProcessItems | lib/routes/avbase/utils.ts:11-137 | a refused or unparsable URL rejects before any request. A failed listing rejects after one request. Otherwise items are enriched in order, the first rejection wins, and the feed has the derived title and the resolved URL. The cache stays well-formed |
| AvBase.RequestsStayOnDomain | lib/routes/avbase/utils.ts:69-74 | every detail request goes to a link under the root URL that was not cached |

## Left out

- Network and parsing are inputs, not modelled: `got`, cheerio's selectors and `xml2js`. A
  fetched page is a value, or `None`/`FetchFailed` when its request rejects.
- `new Date(…).toISOString()` and `parseDate` are inputs. South Plus takes an `iso` function
  whose `None` is the RangeError of an invalid date. AVbase keeps the parsed text as `ParseDate(text)`.
- `new URL(currentUrl, 'https://' + domain)` is an input (`Url`), following the URL parsing of
  the WHATWG URL Standard, section 4.4. `None` stands for a URL that does not parse.
- `@/utils/cache` is not part of this model. The model assumes a sequential lookup-or-compute:
  a hit returns the stored item, and a miss runs the callback and stores its result unless it
  rejects. Expiry, serialisation and single-flight are left out. A hit yields a new object with
  exactly the stored properties.
- Serialisation through the cache is not captured. On an AVbase hit, `pubDate` comes back as the
  ISO string of the stored `Date` (lib/routes/avbase/utils.ts:55,61), so a hit's item differs
  from a freshly computed one. The model restores the stored `Date` unchanged.
- `Promise.all` concurrency is left out. Items are processed one after another, and every item is
  still processed after a rejection. The rejection reported is the first in list order, not the
  first in time. Two items with the same link hit the cache in the model, where concurrent
  callbacks could both miss.
- Parsing of the `limit` query (`Number`, `Number.parseInt`, NaN, negative or fractional values)
  is left out; the limit is a natural number, 20 when absent.
- Properties that are missing and properties that are `undefined` are both `None`. Channel
  fields other than `pubdate` and `description` are assumed present as strings, with `''` for
  an empty category.
- The commented-out cookie-jar code and the unused `tough-cookie` import of
  lib/routes/avbase/utils.ts are not modelled.
- The hostname that `Authorize` checks belongs to the `Url` input. The model does not tie it to
  the `domain` query from which the root URL is built (lib/routes/avbase/utils.ts:13 against
  :18): an absolute `currentUrl` can pass the guard while the root URL names another host. So
  `AvBase.RequestsStayOnDomain` means "under the root URL", not "on an allowed host".
- AVbase detail failures are not isolated per item. The code has no try/catch around the detail
  request, so one failure rejects the whole run. The only swallowed failure is the South Plus
  cover-page fetch.
- SouthPlus.StepSpec: requires the item's link to start with `http`, which the listing stage
  guarantees (`SouthPlus.LinksAreAbsolute`). Without it, an empty link skips the page fetch.
- BbCode.MatchLen, BbCode.RemoveAll, BbCode.LazyUntil and BbCode.Exec: their own contracts give
  only bounds. What they compute is stated by the lemmas listed above.
