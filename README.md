# cham-kiosk in Dafny

A model of the logic in the My Son Sanctuary visitor kiosk, with proofs about it. The kiosk is a
React single-page app run offline by a service worker. Five parts are modelled:

- **The offline cache worker** (`public/sw.js`), in `service_worker.dfy`. The origin's cache
  storage is a `Caches` value: store names in creation order, and a map from store name to a map
  from request URL to response. The class `Worker` holds that storage and a log of outside
  effects (network fetches, cache writes, store deletions, `skipWaiting`, `clients.claim`). Its
  methods `Install`, `Activate` and `HandleFetch` are each proved equal to a pure specification
  function (`Installed`, `Activated`, `Route`). The properties the routing promises are proved
  about those functions: all-or-nothing pre-caching, version isolation, a cache-first hit that
  makes no network call, network-first writes only on status 200, and when the `/index.html`
  fallback can be reached.
- **The picture carousel** (`src/components/ImageCarousel.tsx`), in `image_carousel.dfy`. This is
  the wrap-around index arithmetic, and a `Carousel` class whose methods are the button, dot,
  touch, mouse and key handlers.
- **The site map's hover and pin logic** (`src/pages/MapPage.tsx`), in `map_page.dfy`. There are
  pure transition functions over the pair (hovered, pinned), and a `MapView` class whose handlers
  are proved to follow them.
- **The events listing** (`src/pages/EventsPage.tsx`), in `events_page.dfy`. This is the type
  filter, the search, the sort (a stable insertion sort, as `Array.prototype.sort` is stable), the
  count label and the "Show All Events" reset.
- **Image paths and `srcset`** (`src/utils/imageOptimization.ts`), in `image_optimization.dfy`.

`cache_coverage.dfy` connects the last part to the worker. Every picture path the page builds is
served cache-first. The nine pictures of the extension table are exactly manifest entries 2 to 10,
so after a successful install each of them is stored in `CacheName`, and the global
`caches.match` finds it. `strings.dfy` models the JavaScript
string operations used (`includes`, `trim`, ASCII `toLowerCase`, `${n}`, `join`), and
`wrappers.dfy` models `null`.

The worker's routing is narrower than a stale-while-revalidate worker; the model follows the code:

- **No background revalidation.** A cache-first hit is answered from the cache with no network
  fetch at all (`public/sw.js:51-52`).
- **No fallback on a plain miss.** When the network fails on the network-first path,
  `caches.match` resolves to `undefined` on a miss; it does not reject. So the `/index.html`
  document fallback is reached only when the lookup itself rejects (`public/sw.js:77-82`). An
  offline navigation to an uncached route gets no document even when `/index.html` is cached
  (`OfflineNavigationMissGetsNoDocument`).
- **Two ways to end without a response.** A `respondWith` that resolves with `undefined` is
  modelled as `NoResponse`. The browser then reports a network error to the page. That is kept
  apart from a rejected `respondWith` (`Failed`).
- **What `addAll` accepts.** It accepts a response whose status is 200 to 299 other than 206, the
  rule of the Cache `addAll` algorithm in section 5.4 of the W3C Service Workers specification.
  The store `CacheName` is created by `caches.open` even when `addAll` then rejects.

## Model

| member | source | states |
|---|---|---|
| Strings.ContainsAt | src/pages/EventsPage.tsx:78-79 | `includes` holds iff the needle occurs at some offset of the haystack, both directions |
| Strings.ContainedCharsOccur | src/pages/EventsPage.tsx:78-79 | every character of a contained needle is a character of the haystack |
| Strings.PrefixContained | public/sw.js:49 | a string contains each of its prefixes |
| Strings.TrimStart | src/pages/EventsPage.tsx:75 | the result is the suffix left after the leading white space: every character cut off is white space, and the result does not start with white space |
| Strings.TrimEnd | src/pages/EventsPage.tsx:75 | the result is the prefix left before the trailing white space: every character cut off is white space, and the result does not end with white space |
| Strings.Trim | src/pages/EventsPage.tsx:75 | `trim` never lengthens its input, and a non-empty result neither starts nor ends with white space |
| Strings.TrimIsSlice | src/pages/EventsPage.tsx:75 | `trim` is one contiguous slice of its input, and everything outside that slice is white space |
| Strings.TrimEmptyIffBlank | src/pages/EventsPage.tsx:75 | `query.trim()` is empty (falsy) iff every character is ECMAScript white space or a line terminator |
| Strings.Lower | src/pages/EventsPage.tsx:76-79 | lower-casing keeps the length and maps each character on its own, A-Z to a-z and every other character to itself |
| Strings.NatToString | src/pages/EventsPage.tsx:182 | the decimal rendering is non-empty, all digits, with no leading zero |
| Strings.DecimalRoundTrip | src/pages/EventsPage.tsx:182 | reading the rendered digits back gives the number |
| Strings.Join | src/utils/imageOptimization.ts:76 | joining no items gives "", joining one item gives that item |
| Strings.JoinConcat | src/utils/imageOptimization.ts:76 | joining two non-empty lists puts exactly one separator between the two joins |
| ServiceWorker.Match | public/sw.js:51 | the global `caches.match(url)` misses iff no listed store holds the URL; on a hit it answers from the first listed store that holds it |
| ServiceWorker.MatchFindsAnyStore | public/sw.js:51 | over well-formed storage, when any store holds the URL, the global lookup finds it |
| ServiceWorker.MatchIn | public/sw.js:51 | the global `caches.match` misses iff no store holds the URL; on a hit it answers from the first store, in creation order, that holds it |
| ServiceWorker.Open | public/sw.js:21 | `caches.open` keeps the storage invariant, adds the named store once, and changes no entry |
| ServiceWorker.Put | public/sw.js:56-57 | `cache.put` sets exactly one entry of one store and leaves every other entry alone |
| ServiceWorker.Manifest | public/sw.js:3-16 | the install requests are the 12 listed paths, in order |
| ServiceWorker.Batch | public/sw.js:22 | the `addAll` batch holds exactly the requested URLs, each with its fetched response |
| ServiceWorker.Installed | public/sw.js:19-25 | install creates store `CacheName`; on success every requested URL is stored with its response; on any rejected fetch no entry anywhere changes; no other store or key ever changes |
| ServiceWorker.FetchAll | public/sw.js:22 | `addAll`'s fetch loop issues one fetch per request in order, succeeds iff every response is acceptable, and then yields the whole batch |
| ServiceWorker.FetchEffects | public/sw.js:22 | one network fetch per request, in request order |
| ServiceWorker.SurvivorsMembers | public/sw.js:33-34 | exactly the name `CacheName` survives the filter, if present |
| ServiceWorker.Deletions | public/sw.js:32-36 | every effect activate issues before claiming is a deletion; a name other than `CacheName` is deleted exactly as often as `caches.keys()` lists it (once, as the names are distinct), and `CacheName` never |
| ServiceWorker.DeletionsExact | public/sw.js:33-35 | activate deletes exactly the listed stores not named `CacheName` |
| ServiceWorker.Activated | public/sw.js:28-40 | after activate the only store that can remain is `CacheName`, and it remains iff it existed, with unchanged contents |
| ServiceWorker.SurvivorsOfDistinct | public/sw.js:33-34 | over distinct names at most the one name `CacheName` remains listed |
| ServiceWorker.DeleteOtherStores | public/sw.js:30-37 | deleting every name `caches.keys()` lists except `CacheName`, one by one, ends in the activated storage and issues exactly those deletions |
| ServiceWorker.VisitName | public/sw.js:34-35 | one step of that loop: a visited name other than `CacheName` is deleted from the names and the stores |
| ServiceWorker.ActivateEnd | public/sw.js:30-37 | once every name has been visited, the storage is the activated storage and keeps the invariant |
| ServiceWorker.ActivatedValid | public/sw.js:28-40 | activation keeps the storage invariant |
| ServiceWorker.AfterActivationMatchIsCurrentStore | public/sw.js:51 | after activation the global lookup equals a lookup in store `CacheName` alone |
| ServiceWorker.VersionIsolation | public/sw.js:34 | no store of another generation survives activation, so no lookup in one can hit |
| ServiceWorker.StoreIfOk | public/sw.js:54-58 | a fetched response is written only when its status is 200, keeping the storage invariant |
| ServiceWorker.StrategyByOffset | public/sw.js:44-49 | a request is left alone iff it is not a GET; a GET is cache-first iff its pathname has "/images/" at some offset, and network-first iff it has it at none |
| ServiceWorker.CacheFirstRoute | public/sw.js:50-62 | the request is always answered; a lookup that rejects fails it and changes nothing; the network is asked, first, only after a lookup that resolved with nothing; the storage changes only by storing the 200 response that is also the reply |
| ServiceWorker.NetworkFirstRoute | public/sw.js:67-83 | the request is always answered and the network is always asked first; the storage changes only by storing the 200 response that is also the reply; the request fails iff the network, the lookup and the `/index.html` lookup all reject, for a document |
| ServiceWorker.Route | public/sw.js:43-84 | a request is passed through iff it is not a GET; only the entry for this URL in store `CacheName` can change, and only to a 200 response that is also the reply |
| ServiceWorker.NonGetPassesThrough | public/sw.js:44 | a non-GET request is not intercepted, whatever its path, and changes nothing |
| ServiceWorker.StrategyIgnoresSearch | public/sw.js:46-49 | the strategy depends only on the method and the pathname, never on the query string or destination |
| ServiceWorker.ManifestJsonIsCacheFirst | public/sw.js:15 | `/images/manifest.json` is served cache-first like the pictures |
| ServiceWorker.CacheFirstHit | public/sw.js:51-52 | a cache-first hit replies with the cached response, fetches nothing and changes nothing |
| ServiceWorker.CacheFirstMiss | public/sw.js:52-60 | a cache-first miss fetches once; it replies with the fetched response whatever its status and stores it iff the status is 200; a network error fails the request |
| ServiceWorker.NetworkFirstSuccess | public/sw.js:68-76 | a network-first success replies with the network's response and overwrites the entry only when the status is 200 |
| ServiceWorker.NetworkFirstFailure | public/sw.js:77 | on a network failure with a resolving lookup, the reply is exactly that lookup (`undefined` on a miss, for a document too) |
| ServiceWorker.DocumentFallbackOnlyOnRejection | public/sw.js:78-82 | the `/index.html` fallback is used only when the lookup rejects and the request is a document; otherwise the reply is `undefined` or a failure |
| ServiceWorker.UnknownRouteIsNetworkFirst | public/sw.js:66-68 | an app route outside `/images/` is served network-first |
| ServiceWorker.WithoutLetterNotImage | public/sw.js:49 | a path without the letter 'i' is never classified as an image |
| ServiceWorker.UnknownRouteMisses | public/sw.js:77 | a store holding only `/index.html` misses an unknown route |
| ServiceWorker.OfflineNavigationMissGetsNoDocument | public/sw.js:77-82 | an offline navigation to an uncached route resolves with `undefined` although `/index.html` is cached |
| ServiceWorker.Worker.constructor | public/sw.js:3-16 | the worker starts on the storage earlier generations left, with the manifest requests built from `STATIC_ASSETS` |
| ServiceWorker.Worker.OpenCurrent | public/sw.js:21 | `caches.open(CACHE_NAME)` on the worker's storage is `Open`, with no outside effect |
| ServiceWorker.Worker.PutCurrent | public/sw.js:56-57 | the put into `CACHE_NAME` is `Put`, and it is logged as one cache write |
| ServiceWorker.Worker.Install | public/sw.js:19-25 | the install handler leaves the storage `Installed`; it fetches every manifest entry in order, and logs `skipWaiting` iff every fetch was accepted |
| ServiceWorker.Worker.OpenAndAddAll | public/sw.js:21-22 | open, then `addAll`, gives `Installed`, with one fetch per request |
| ServiceWorker.Worker.Activate | public/sw.js:28-40 | the activate handler leaves the storage `Activated`; all deletions are logged before `clients.claim` |
| ServiceWorker.Worker.HandleFetch | public/sw.js:43-84 | the fetch handler's reply, new storage and effects are those of `Route` |
| ServiceWorker.Worker.ServeCacheFirst | public/sw.js:50-62 | the cache-first branch is `CacheFirstRoute` |
| ServiceWorker.Worker.ServeNetworkFirst | public/sw.js:67-83 | the network-first branch is `NetworkFirstRoute` |
| ImageOptimization.ImageExtension | src/utils/imageOptimization.ts:10-25 | the table's extension for the nine listed names and "jpg" for every other name; always "png" or "jpg" |
| ImageOptimization.Breakpoints | src/utils/imageOptimization.ts:35-63 | every category has three sizes; a known category gets its own entry and an unknown one the gallery's |
| ImageOptimization.ImagePathParts | src/utils/imageOptimization.ts:68 | a picture's path is "/images/", its name, a dot and its extension, 12 characters longer than the name |
| ImageOptimization.ImagePathInjective | src/utils/imageOptimization.ts:68 | different names give different paths |
| ImageOptimization.ResponsiveImages | src/utils/imageOptimization.ts:28-72 | exactly one source, at `/images/<name>.<ext>`, with the width and height of the category's first size |
| ImageOptimization.CategorySizes | src/utils/imageOptimization.ts:35-63 | hero 1200x600, map 1200x800, sites and events 600x400, gallery 800x600 |
| ImageOptimization.UnknownCategoryIsGallery | src/utils/imageOptimization.ts:63 | any other category falls back to 800x600 |
| ImageOptimization.SrcSetItemReadsBack | src/utils/imageOptimization.ts:76 | an entry is the picture's path, one space, the width's decimal digits and "w", and the digits read back as the width |
| ImageOptimization.SrcSetItems | src/utils/imageOptimization.ts:76 | one `"<src> <width>w"` item per source, in order |
| ImageOptimization.SrcSet | src/utils/imageOptimization.ts:75-77 | no sources give "", one source gives its item with no comma |
| ImageOptimization.SrcSetConcat | src/utils/imageOptimization.ts:76 | the `srcset` of two non-empty lists is theirs joined by exactly one ", " |
| ImageOptimization.ResponsiveSrcSet | src/utils/imageOptimization.ts:67-77 | a generated image's `srcset` is its one path and its category's width |
| CacheCoverage.GeneratedSourceIsCacheFirst | public/sw.js:49 | every generated picture path contains "/images/", so a GET for it is served cache-first whatever its query string |
| CacheCoverage.ListedImagePathsFirst | src/utils/imageOptimization.ts:13-15 | the generated paths of my-son-1, -2 and -3, with their table extensions |
| CacheCoverage.ListedImagePathsSecond | src/utils/imageOptimization.ts:16-18 | the generated paths of my-son-4, my-son-map and thap-a |
| CacheCoverage.ListedImagePathsThird | src/utils/imageOptimization.ts:19-21 | the generated paths of thap-h, thap-k and cham-festival |
| ImageOptimization.TableNamesAreTheTable | src/utils/imageOptimization.ts:11-21 | the list of table names holds exactly the names of the extension table |
| CacheCoverage.ListedImageIsManifestEntry | public/sw.js:6-14 | the path of the i-th listed table name is manifest entry i + 2, so the nine picture entries of the manifest are exactly the table's pictures |
| CacheCoverage.ListedImagesArePrecached | public/sw.js:19-25 | for every name of the extension table and every category, the picture is a manifest entry; after a successful install it is stored in `CacheName` with its fetched response, and over well-formed storage the global lookup finds it |
| CacheCoverage.InstalledIsFound | public/sw.js:19-25 | after a successful install over well-formed storage every requested URL is found by the global lookup |
| ImageCarousel.NextIndex | src/components/ImageCarousel.tsx:22-24 | next stays in range and is `(i + 1) mod n` |
| ImageCarousel.PrevIndex | src/components/ImageCarousel.tsx:18-20 | previous stays in range and is `(i + n - 1) mod n` |
| ImageCarousel.NextPrevInverse | src/components/ImageCarousel.tsx:18-24 | next undoes previous and previous undoes next |
| ImageCarousel.SinglePictureStays | src/components/ImageCarousel.tsx:18-24 | with one picture both directions stay on it |
| ImageCarousel.ForwardWraps | src/components/ImageCarousel.tsx:22-24 | k steps forward within one turn add k and wrap past the end once |
| ImageCarousel.FullTurn | src/components/ImageCarousel.tsx:22-24 | n steps forward come back to the start |
| ImageCarousel.EmptyCarouselLeavesRange | src/components/ImageCarousel.tsx:90-113 | with no pictures the still-registered key listener moves the index to 1 or -1 |
| ImageCarousel.SwipeIndex | src/components/ImageCarousel.tsx:34-43 | a swipe of more than 50 px (a real distance, fractions included) to the left advances, to the right goes back, only with two pictures or more; otherwise no change; range kept |
| ImageCarousel.SwipeBackAndForth | src/components/ImageCarousel.tsx:34-43 | a swipe followed by the opposite swipe comes back |
| ImageCarousel.KeyIndex | src/components/ImageCarousel.tsx:91-102 | ArrowLeft goes back, ArrowRight and Space advance, any other key changes nothing |
| ImageCarousel.KeyKeepsRange | src/components/ImageCarousel.tsx:91-102 | with at least one picture a key press keeps the index in range |
| ImageCarousel.Carousel.constructor | src/components/ImageCarousel.tsx:13-16 | index 0, not dragging, no positions recorded |
| ImageCarousel.Carousel.Previous | src/components/ImageCarousel.tsx:18-20 | the index becomes `PrevIndex` and stays in range |
| ImageCarousel.Carousel.Next | src/components/ImageCarousel.tsx:22-24 | the index becomes `NextIndex` and stays in range |
| ImageCarousel.Carousel.DotClick | src/components/ImageCarousel.tsx:26-28 | the index becomes exactly the dot's number |
| ImageCarousel.Carousel.ImageClick | src/components/ImageCarousel.tsx:109-111 | a click on the picture advances |
| ImageCarousel.Carousel.SwipeEnd | src/components/ImageCarousel.tsx:31-48 | with a falsy position (none, or 0) nothing changes; otherwise the index moves by `SwipeIndex` and both positions are reset |
| ImageCarousel.Carousel.TouchStart | src/components/ImageCarousel.tsx:51-53 | records the start position |
| ImageCarousel.Carousel.TouchMove | src/components/ImageCarousel.tsx:55-57 | records the end position |
| ImageCarousel.Carousel.TouchEnd | src/components/ImageCarousel.tsx:59-61 | evaluates the swipe |
| ImageCarousel.Carousel.MouseDown | src/components/ImageCarousel.tsx:64-68 | starts a drag at the pointer position |
| ImageCarousel.Carousel.MouseMove | src/components/ImageCarousel.tsx:70-73 | records the end position only while dragging |
| ImageCarousel.Carousel.MouseUp | src/components/ImageCarousel.tsx:75-80 | ends the drag and evaluates the swipe only if a drag was under way |
| ImageCarousel.Carousel.MouseLeave | src/components/ImageCarousel.tsx:82-87 | the same as releasing the button |
| ImageCarousel.Carousel.KeyDown | src/components/ImageCarousel.tsx:91-102 | the index becomes `KeyIndex`; the default action is prevented exactly for the three handled keys |
| MapPage.Shown | src/pages/MapPage.tsx:120-124 | the popup shows the pinned marker if any, else the hovered one; no popup iff neither is set |
| MapPage.Hover | src/pages/MapPage.tsx:29-34 | hovering previews the marker unless it is the pinned one, in which case nothing changes; the pin never changes |
| MapPage.Leave | src/pages/MapPage.tsx:36-41 | leaving clears the preview only when nothing is pinned |
| MapPage.Click | src/pages/MapPage.tsx:43-53 | a click unpins the pinned marker and pins any other; the preview is always cleared |
| MapPage.ClickBackground | src/pages/MapPage.tsx:64-67 | a background click leaves no popup |
| MapPage.ClickPopup | src/pages/MapPage.tsx:128-135 | a popup click clears everything when a marker is pinned and otherwise changes nothing |
| MapPage.PopupHint | src/pages/MapPage.tsx:158 | the caption is "Click to close" iff a marker is pinned |
| MapPage.ClickTwice | src/pages/MapPage.tsx:43-53 | two clicks on a marker not pinned end with nothing pinned; on the pinned marker they end with it pinned again |
| MapPage.PinnedIgnoresHover | src/pages/MapPage.tsx:29-41 | while a marker is pinned, hovering or leaving any marker does not change what is shown |
| MapPage.PopupClickKeepsPreview | src/pages/MapPage.tsx:128-135 | a popup click on an unpinned preview keeps the preview |
| MapPage.HandlersKeepConsistent | src/pages/MapPage.tsx:29-67 | no handler makes the preview the pinned marker itself |
| MapPage.MapView.constructor | src/pages/MapPage.tsx:10-11 | nothing hovered and nothing pinned |
| MapPage.MapView.MarkerHover | src/pages/MapPage.tsx:29-34 | the handler performs `Hover` |
| MapPage.MapView.MarkerLeave | src/pages/MapPage.tsx:36-41 | the handler performs `Leave` |
| MapPage.MapView.MarkerClick | src/pages/MapPage.tsx:43-53 | the handler performs `Click` |
| MapPage.MapView.BackgroundClick | src/pages/MapPage.tsx:64-67 | the handler performs `ClickBackground` |
| MapPage.MapView.PopupClick | src/pages/MapPage.tsx:128-135 | the handler performs `ClickPopup` |
| MapPage.MapView.ShownMarker | src/pages/MapPage.tsx:144-154 | the marker the popup describes is `Shown` of the state |
| EventsPage.Filter | src/pages/EventsPage.tsx:72 | `filter` keeps every element satisfying the predicate as often as the input holds it, and no other element |
| EventsPage.FilterConcat | src/pages/EventsPage.tsx:72 | `filter` keeps the order: the filter of a concatenation is the concatenation of the filters |
| EventsPage.FilterAll | src/pages/EventsPage.tsx:71-73 | a predicate every element satisfies keeps the whole list |
| EventsPage.MatchesQueryAt | src/pages/EventsPage.tsx:77-80 | the search hits an event iff the lower-cased query occurs at some offset of its lower-cased title or description |
| EventsPage.Filtered | src/pages/EventsPage.tsx:69-81 | an event is kept iff it has the selected type (or the type is "all") and, when the trimmed query is not blank, its lower-cased title or description contains the lower-cased untrimmed query; each kept event as often as the loaded list holds it |
| EventsPage.FilteredAll | src/pages/EventsPage.tsx:69-81 | type "all" with a blank query filters nothing out |
| EventsPage.LeadingSpaceIsMatched | src/pages/EventsPage.tsx:75-80 | the untrimmed query is matched: a leading space misses every event with no space in its title or description |
| EventsPage.LexCompare | src/pages/EventsPage.tsx:87 | the comparison is -1, 0 or 1, and 0 iff the titles are equal |
| EventsPage.LexCompareAntisymmetric | src/pages/EventsPage.tsx:87 | swapping the titles negates the comparison |
| EventsPage.LexCompareTransitive | src/pages/EventsPage.tsx:87 | the title order is transitive |
| EventsPage.Compare | src/pages/EventsPage.tsx:83-88 | the date comparator is negative iff the first event is newer and zero iff the dates are equal; the title comparator is -1, 0 or 1, zero iff the titles are equal, and antisymmetric |
| EventsPage.BeforeTotal | src/pages/EventsPage.tsx:83-88 | for either sort, of two events one may precede the other |
| EventsPage.BeforeTransitive | src/pages/EventsPage.tsx:83-88 | for either sort, the order is transitive |
| EventsPage.Insert | src/pages/EventsPage.tsx:83-88 | inserting adds exactly the one element |
| EventsPage.InsertSorted | src/pages/EventsPage.tsx:83-88 | inserting into a sorted list keeps it sorted |
| EventsPage.Sort | src/pages/EventsPage.tsx:83 | the sort permutes its input |
| EventsPage.SortSorted | src/pages/EventsPage.tsx:83-88 | the sort's result is ordered by the comparator |
| EventsPage.Visible | src/pages/EventsPage.tsx:68-89 | the listing holds exactly the filtered events, each as often |
| EventsPage.VisibleIsSortedSelection | src/pages/EventsPage.tsx:68-89 | the listing is a permutation of the filtered events, holds each loaded event that passes both controls as often as it is loaded, and is sorted |
| EventsPage.VisibleMembers | src/pages/EventsPage.tsx:68-89 | an event is listed iff it is loaded, passes the type filter, and passes the search or the query is blank |
| EventsPage.DateSortNewestFirst | src/pages/EventsPage.tsx:84-86 | the date sort lists no event before a newer one |
| EventsPage.TitleSortAscending | src/pages/EventsPage.tsx:87 | the title sort lists titles in ascending order |
| EventsPage.ShowsAllWhenUnfiltered | src/pages/EventsPage.tsx:69-89 | type "all" with a blank query lists every event, reordered |
| EventsPage.EventWord | src/pages/EventsPage.tsx:182 | "event" iff the count is 1, "events" otherwise |
| EventsPage.CountLabel | src/pages/EventsPage.tsx:182 | the label is the count in decimal, a space, and the noun |
| EventsPage.CountLabelReadsBack | src/pages/EventsPage.tsx:182 | the label starts with digits that read back as the count |
| EventsPage.EventsView.constructor | src/pages/EventsPage.tsx:53-57 | the listing starts with an empty query, type "all" and the date sort, and shows every loaded event |
| EventsPage.EventsView.SetSearchQuery | src/pages/EventsPage.tsx:123 | the search box sets only the query |
| EventsPage.EventsView.SetSelectedType | src/pages/EventsPage.tsx:140 | the type selector sets only the type |
| EventsPage.EventsView.SetSortType | src/pages/EventsPage.tsx:156-166 | the sort buttons set only the sort, leaving the loaded events in their order |
| EventsPage.EventsView.ShowAllEvents | src/pages/EventsPage.tsx:191-194 | the reset clears the query and the type filter, keeps the sort, and then lists every event |

## Left out

- Concurrency in the worker. The `cache.put` calls that `fetch` starts without awaiting them
  (`public/sw.js:56-57`, `72-73`) are applied at once, when the response is produced.
  Overlapping requests and the deletions that `Promise.all` runs in parallel are taken one at a
  time, in `caches.keys()` order. A write that the storage rejects (a full quota, say) is not
  modelled: `cache.put` and the writes of `addAll` always succeed.
- Origins, `Request` objects and the `Vary` header. A cache key is the path and query string on
  the worker's own origin. `addAll`'s duplicate-request check is not modelled, because the
  manifest lists each path once.
- Browser state outside the cache storage. The network, and the rejection of a cache lookup, are
  inputs. Worker registration, waiting and lifecycle are not modelled beyond the logged
  `skipWaiting` and `clients.claim`.
- Floating point. `getAspectRatioClasses` and the map markers' percentage positions are left out.
- Locale behaviour. `localeCompare` is taken as a comparison of characters by code point, `toLowerCase`
  maps ASCII letters only, and an event's date is the integer number of milliseconds its ISO
  string denotes (an unparsable date, `NaN`, is not modelled).
- UTF-16. A `string` is a sequence of Unicode scalar values, where JavaScript has UTF-16 code
  units. A character outside the Basic Multilingual Plane is one character here and two code
  units there, so lengths and offsets differ. Code-point order and code-unit order differ for
  U+E000 to U+FFFF against astral characters. Lone surrogates cannot be written.
- JavaScript property lookup. A lookup of a name such as "constructor" in `imageExtensions` or
  `breakpoints` would return an inherited property; the tables are modelled as plain maps.
- ImageOptimization.ResponsiveImages: widths and heights are natural numbers, as every table entry is.
- ImageCarousel.Carousel.MouseDown: does not model `preventDefault`, which only stops text
  selection.
- ImageCarousel.Carousel.TouchStart, TouchMove, MouseDown and MouseMove take `clientX` as an exact
  real number: the rounding of double subtraction, `NaN` and the infinities are not modelled.
- React's batching of state updates. Each handler runs to completion on the current state. This
  does not matter for these handlers, which follow the event-time state.
- EventsPage.Sort: stability is not stated. The model sorts like the stable built-in sort, but no
  lemma says that equal events keep their order.
- The loading state of the map and events pages (`src/pages/MapPage.tsx:18-27`,
  `src/pages/EventsPage.tsx:96-102`). It is a rendering detail before the data arrives.
- Rendering: JSX, class names, the other pages, navigation, lazy loading and
  `src/components/OptimizedImage.tsx`. `src/utils/performanceOptimizations.ts` is not part of
  this model.
