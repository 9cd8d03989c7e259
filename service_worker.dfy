/**
 * The kiosk's offline cache worker: a named, ordered collection of cache stores, each a map
 * from request URL to stored response, changed by three lifecycle handlers.
 *
 *  - install   opens the store `CacheName` and pre-caches the manifest with `addAll`, which
 *              stores every response or none; only on success does it call `skipWaiting`;
 *  - activate  deletes every store whose name is not `CacheName`, then claims the clients;
 *  - fetch     ignores non-GET requests, serves paths containing "/images/" cache-first and
 *              everything else network-first.
 *
 * The network, and the rejection of a cache lookup, are inputs (`fetch`, `Env`). Every cache
 * write the handlers start without awaiting it is applied at once, when its response is produced.
 */
module ServiceWorker {
  import opened Wrappers
  import opened Strings

  /** The current cache generation. */
  const CacheName: string := "my-son-kiosk-v4"

  /** The manifest that install pre-caches, in the order it is listed. */
  const StaticAssets: seq<string> := [
    "/",
    "/index.html",
    "/images/my-son-1.png",
    "/images/my-son-2.jpg",
    "/images/my-son-3.png",
    "/images/my-son-4.jpg",
    "/images/my-son-map.jpg",
    "/images/thap-a.jpg",
    "/images/thap-h.jpg",
    "/images/thap-k.png",
    "/images/cham-festival.jpg",
    "/images/manifest.json"
  ]

  /** The document that a failed navigation falls back to. */
  const FallbackPath: string := "/index.html"

  /** A URL on the worker's own origin: its `pathname` and its `search` (query string). */
  datatype Url = Url(path: string, search: string)

  /** The URL a bare path such as "/index.html" resolves to. */
  function AssetUrl(path: string): Url {
    Url(path, "")
  }

  datatype Request = Request(verb: string, url: Url, destination: string)

  datatype Response = Response(status: int, body: string)

  /** What the network gives for one fetch: a response of any status, or a network error. */
  datatype NetResult = Ok(response: Response) | NetError

  type Store = map<Url, Response>

  /**
   * The origin's cache storage: store names in creation order, and each store's entries.
   * `caches.match` consults the stores in that order.
   */
  datatype Caches = Caches(names: seq<string>, stores: map<string, Store>) {
    /** Each store is listed once, and the listed names are exactly the stores. */
    predicate Valid() {
      Distinct(names) && stores.Keys == Elements(names)
    }
  }

  /** No name is listed twice. */
  predicate Distinct(ns: seq<string>) {
    ns == [] || (ns[|ns| - 1] !in ns[..|ns| - 1] && Distinct(ns[..|ns| - 1]))
  }

  /** The names listed in `ns`. */
  function Elements(ns: seq<string>): set<string> {
    if ns == [] then {} else Elements(ns[..|ns| - 1]) + {ns[|ns| - 1]}
  }

  lemma {:induction false} ElementsAreMembers(ns: seq<string>, n: string)
    ensures n in Elements(ns) <==> n in ns
  {
    if ns != [] {
      ElementsAreMembers(ns[..|ns| - 1], n);
      assert ns == ns[..|ns| - 1] + [ns[|ns| - 1]];
    }
  }

  lemma {:induction false} DistinctIndices(ns: seq<string>, p: nat, q: nat)
    requires Distinct(ns) && p < q < |ns|
    ensures ns[p] != ns[q]
  {
    var init := ns[..|ns| - 1];
    if q == |ns| - 1 {
      assert ns[p] == init[p];
    } else {
      DistinctIndices(init, p, q);
    }
  }

  /** Listing one more name. */
  lemma Append(ns: seq<string>, name: string)
    ensures Distinct(ns) && name !in ns ==> Distinct(ns + [name])
    ensures Elements(ns + [name]) == Elements(ns) + {name}
  {
    assert (ns + [name])[..|ns|] == ns;
  }

  /** What the handlers do to the outside world, in order. */
  datatype Effect =
    | Fetched(url: Url)      // a network fetch is issued
    | Stored(url: Url)       // a response is written into store `CacheName`
    | Deleted(name: string)  // a whole store is deleted
    | SkippedWaiting         // `self.skipWaiting()`
    | ClaimedClients         // `self.clients.claim()`

  // ---------------------------------------------------------------------------------------
  // Cache storage operations

  /** The store called `name` holds an entry for `url`. */
  predicate Holds(stores: map<string, Store>, name: string, url: Url) {
    name in stores && url in stores[name]
  }

  /** `cache.match(url)` on the one store called `name`. */
  function StoreMatch(c: Caches, name: string, url: Url): Option<Response> {
    if Holds(c.stores, name, url) then Some(c.stores[name][url]) else None
  }

  /** The global `caches.match(url)`: the first store, in creation order, that holds `url` answers. */
  function MatchIn(names: seq<string>, stores: map<string, Store>, url: Url): (r: Option<Response>)
    ensures r.None? <==> forall k :: 0 <= k < |names| ==> !Holds(stores, names[k], url)
    ensures r.Some? ==> exists k :: (0 <= k < |names| && Holds(stores, names[k], url)
      && r.value == stores[names[k]][url]
      && forall j :: 0 <= j < k ==> !Holds(stores, names[j], url))
  {
    if names == [] then None
    else if Holds(stores, names[0], url) then Some(stores[names[0]][url])
    else
      var r := MatchIn(names[1..], stores, url);
      assert forall k :: 1 <= k < |names| ==> names[k] == names[1..][k - 1];
      r
  }

  function Match(c: Caches, url: Url): (r: Option<Response>)
    ensures r.None? <==> forall k :: 0 <= k < |c.names| ==> StoreMatch(c, c.names[k], url).None?
    ensures r.Some? ==> exists k :: (0 <= k < |c.names| && r == StoreMatch(c, c.names[k], url)
      && forall j :: 0 <= j < k ==> StoreMatch(c, c.names[j], url).None?)
  {
    MatchIn(c.names, c.stores, url)
  }

  /** Over well-formed storage the global lookup misses only when no store at all holds `url`. */
  lemma MatchFindsAnyStore(c: Caches, url: Url, name: string)
    requires c.Valid() && StoreMatch(c, name, url).Some?
    ensures Match(c, url).Some?
  {
    ElementsAreMembers(c.names, name);
    var k :| 0 <= k < |c.names| && c.names[k] == name;
  }

  /** `caches.open(name)`: an absent store is created empty, after the existing ones. */
  function Open(c: Caches, name: string): (r: Caches)
    ensures c.Valid() ==> r.Valid()
    ensures name in r.stores && r.stores.Keys == c.stores.Keys + {name}
    ensures forall n, u :: StoreMatch(r, n, u) == StoreMatch(c, n, u)
    ensures name in c.stores ==> r == c
  {
    if name in c.stores then c
    else
      ElementsAreMembers(c.names, name);
      Append(c.names, name);
      Caches(c.names + [name], c.stores[name := map[]])
  }

  /** `caches.open(name).then(cache => cache.put(url, response))`: the entry is replaced wholesale. */
  function Put(c: Caches, name: string, url: Url, response: Response): (r: Caches)
    ensures c.Valid() ==> r.Valid()
    ensures r.stores.Keys == c.stores.Keys + {name}
    ensures StoreMatch(r, name, url) == Some(response)
    ensures forall n, u :: n != name || u != url ==> StoreMatch(r, n, u) == StoreMatch(c, n, u)
  {
    var o := Open(c, name);
    Caches(o.names, o.stores[name := o.stores[name][url := response]])
  }

  // ---------------------------------------------------------------------------------------
  // install: caches.open(CACHE_NAME).then(cache => cache.addAll(STATIC_ASSETS)).then(skipWaiting)

  /** The requests `addAll(STATIC_ASSETS)` makes, one per listed path and in the same order. */
  function Manifest(): (r: seq<Url>)
    ensures |r| == |StaticAssets|
    ensures forall i :: 0 <= i < |StaticAssets| ==> r[i] == AssetUrl(StaticAssets[i])
  {
    seq(|StaticAssets|, i requires 0 <= i < |StaticAssets| => AssetUrl(StaticAssets[i]))
  }

  /** `addAll` accepts a fetch result: a response whose status is ok (200 to 299) and not 206. */
  predicate Acceptable(n: NetResult) {
    n.Ok? && 200 <= n.response.status <= 299 && n.response.status != 206
  }

  predicate AllAcceptable(urls: seq<Url>, fetch: Url -> NetResult) {
    forall u :: u in urls ==> Acceptable(fetch(u))
  }

  /** The entries `addAll` writes in one batch once every fetch has been accepted. */
  function Batch(urls: seq<Url>, fetch: Url -> NetResult): (b: Store)
    requires AllAcceptable(urls, fetch)
    ensures forall u :: u in b <==> u in urls
    ensures forall u :: u in b ==> b[u] == fetch(u).response
  {
    if urls == [] then map[]
    else
      var last := urls[|urls| - 1];
      assert forall u :: u in urls <==> u in urls[..|urls| - 1] || u == last;
      Batch(urls[..|urls| - 1], fetch)[last := fetch(last).response]
  }

  /**
   * The caches after `caches.open(CACHE_NAME).then(cache => cache.addAll(urls))`: the store
   * `CacheName` exists, and it holds the batch iff every fetch was accepted.
   */
  function Installed(c: Caches, urls: seq<Url>, fetch: Url -> NetResult): (r: Caches)
    ensures c.Valid() ==> r.Valid()
    ensures CacheName in r.stores && r.stores.Keys == c.stores.Keys + {CacheName}
    // success: every listed URL is stored, with the response fetched for it
    ensures AllAcceptable(urls, fetch) ==>
      forall u :: u in urls ==> StoreMatch(r, CacheName, u) == Some(fetch(u).response)
    // failure: nothing is stored anywhere
    ensures !AllAcceptable(urls, fetch) ==> forall n, u :: StoreMatch(r, n, u) == StoreMatch(c, n, u)
    // success or failure, no other store and no other key of `CacheName` changes
    ensures forall n, u :: (n != CacheName || u !in urls) ==> StoreMatch(r, n, u) == StoreMatch(c, n, u)
  {
    var o := Open(c, CacheName);
    if AllAcceptable(urls, fetch) then
      Caches(o.names, o.stores[CacheName := o.stores[CacheName] + Batch(urls, fetch)])
    else o
  }

  /**
   * The fetches `addAll` issues, one per request and in order; `ok` tells whether every
   * response was accepted, and then `batch` holds them all.
   */
  method FetchAll(urls: seq<Url>, fetch: Url -> NetResult) returns (ok: bool, batch: Store, fetched: seq<Effect>)
    ensures ok == AllAcceptable(urls, fetch)
    ensures ok ==> batch == Batch(urls, fetch)
    ensures fetched == FetchEffects(urls)
  {
    batch, fetched := map[], [];
    ok := true;
    var i := 0;
    while i < |urls|
      invariant 0 <= i <= |urls|
      invariant ok == AllAcceptable(urls[..i], fetch)
      invariant ok ==> batch == Batch(urls[..i], fetch)
      invariant fetched == FetchEffects(urls[..i])
    {
      var result := fetch(urls[i]);
      fetched := fetched + [Fetched(urls[i])];
      assert urls[..i + 1][..i] == urls[..i];
      assert forall u :: u in urls[..i + 1] <==> u in urls[..i] || u == urls[i];
      if !Acceptable(result) {
        ok := false;
      } else if ok {
        batch := batch[urls[i] := result.response];
      }
      i := i + 1;
    }
    assert urls[..i] == urls;
  }

  /** The network fetches issued for a list of requests, in order. */
  function FetchEffects(urls: seq<Url>): (e: seq<Effect>)
    ensures |e| == |urls|
    ensures forall i :: 0 <= i < |urls| ==> e[i] == Fetched(urls[i])
  {
    if urls == [] then [] else FetchEffects(urls[..|urls| - 1]) + [Fetched(urls[|urls| - 1])]
  }

  // ---------------------------------------------------------------------------------------
  // activate: delete every store not named CACHE_NAME, then clients.claim()

  /** The names the activate handler leaves: those equal to `CacheName`, in their order. */
  function Survivors(names: seq<string>): seq<string> {
    if names == [] then []
    else
      var last := names[|names| - 1];
      Survivors(names[..|names| - 1]) + (if last == CacheName then [last] else [])
  }

  /** Exactly `CacheName` survives, if it was there. */
  lemma {:induction false} SurvivorsMembers(names: seq<string>, n: string)
    ensures n in Survivors(names) <==> n in names && n == CacheName
  {
    if names != [] {
      var init, last := names[..|names| - 1], names[|names| - 1];
      SurvivorsMembers(init, n);
      assert names == init + [last];
    }
  }

  /** One `Deleted` effect per store not named `CacheName`, in the order `caches.keys()` lists them. */
  function Deletions(names: seq<string>): (e: seq<Effect>)
    ensures |e| <= |names|
    ensures forall x :: x in e ==> x.Deleted?
    ensures forall n :: multiset(e)[Deleted(n)] == if n == CacheName then 0 else multiset(names)[n]
  {
    if names == [] then []
    else
      var init, last := names[..|names| - 1], names[|names| - 1];
      assert names == init + [last];
      Deletions(init) + (if last != CacheName then [Deleted(last)] else [])
  }

  /** Activate deletes exactly the stores not named `CacheName`, and does nothing else before claiming. */
  lemma DeletionsExact(names: seq<string>, e: Effect)
    ensures e in Deletions(names) <==> e.Deleted? && e.name in names && e.name != CacheName
  {
    var d := Deletions(names);
    assert e in d <==> multiset(d)[e] > 0;
    if e.Deleted? {
      assert e.name in names <==> multiset(names)[e.name] > 0;
    }
  }

  /** The stores left once every name in `done` other than `CacheName` has been deleted. */
  function Remaining(stores: map<string, Store>, done: seq<string>): map<string, Store> {
    map n | n in stores && (n == CacheName || n !in done) :: stores[n]
  }

  lemma RemainingStep(stores: map<string, Store>, ns: seq<string>, i: nat)
    requires i < |ns|
    ensures Remaining(stores, ns[..i + 1]) ==
      if ns[i] == CacheName then Remaining(stores, ns[..i]) else Remaining(stores, ns[..i]) - {ns[i]}
  {
    assert ns[..i + 1] == ns[..i] + [ns[i]];
  }

  /** The caches after activate. */
  function Activated(c: Caches): (r: Caches)
    ensures r.stores.Keys <= {CacheName}
    ensures CacheName in r.stores <==> CacheName in c.stores
    ensures forall u :: StoreMatch(r, CacheName, u) == StoreMatch(c, CacheName, u)
  {
    Caches(Survivors(c.names), if CacheName in c.stores then map[CacheName := c.stores[CacheName]] else map[])
  }

  /** Distinct names keep at most the one survivor. */
  lemma {:induction false} SurvivorsOfDistinct(names: seq<string>)
    requires Distinct(names)
    ensures Survivors(names) == if CacheName in names then [CacheName] else []
  {
    if names != [] {
      var init, last := names[..|names| - 1], names[|names| - 1];
      SurvivorsOfDistinct(init);
      assert names == init + [last];
    }
  }

  /**
   * The activate handler's clean-up: every store that `caches.keys()` lists under another name
   * than `CacheName` is deleted, one deletion after the other.
   */
  method DeleteOtherStores(c: Caches) returns (r: Caches, deleted: seq<Effect>)
    requires c.Valid()
    ensures r == Activated(c) && r.Valid()
    ensures deleted == Deletions(c.names)
  {
    var cacheNames := c.names;  // caches.keys()
    r, deleted := c, [];
    var i := 0;
    while i < |cacheNames|
      invariant 0 <= i <= |cacheNames|
      invariant r == Visited(c, i)
      invariant deleted == Deletions(cacheNames[..i])
    {
      r, deleted := VisitName(c, i, r, deleted);
      i := i + 1;
    }
    assert cacheNames[..i] == cacheNames;
    ActivateEnd(c);
  }

  /** The name `caches.keys()` listed at position `i`: `caches.delete(name)` unless it is `CacheName`. */
  method VisitName(c: Caches, i: nat, r: Caches, deleted: seq<Effect>) returns (r': Caches, deleted': seq<Effect>)
    requires c.Valid() && i < |c.names|
    requires r == Visited(c, i) && deleted == Deletions(c.names[..i])
    ensures r' == Visited(c, i + 1) && deleted' == Deletions(c.names[..i + 1])
  {
    var name := c.names[i];
    VisitStep(c, i);
    PrefixStep(c.names, i);
    if name == CacheName {
      r', deleted' := r, deleted;
    } else {
      r' := Caches(Without(r.names, name), r.stores - {name});
      deleted' := deleted + [Deleted(name)];
    }
  }

  /** The storage once the first `i` names that `caches.keys()` listed have been visited. */
  function Visited(c: Caches, i: nat): Caches
    requires i <= |c.names|
  {
    Caches(Survivors(c.names[..i]) + c.names[i..], Remaining(c.stores, c.names[..i]))
  }

  /** Visiting one name: `caches.delete(name)` unless it is `CacheName`. */
  function Visit(c: Caches, name: string): Caches {
    if name == CacheName then c else Caches(Without(c.names, name), c.stores - {name})
  }

  lemma VisitStep(c: Caches, i: nat)
    requires c.Valid() && i < |c.names|
    ensures Visited(c, i + 1) == Visit(Visited(c, i), c.names[i])
  {
    NamesStep(c.names, i);
    RemainingStep(c.stores, c.names, i);
  }

  /** One step of the deletion loop: visiting `ns[i]` removes it from the names unless it is `CacheName`. */
  lemma NamesStep(ns: seq<string>, i: nat)
    requires i < |ns| && Distinct(ns)
    ensures (if ns[i] == CacheName then Survivors(ns[..i]) + ns[i..] else Without(Survivors(ns[..i]) + ns[i..], ns[i]))
      == Survivors(ns[..i + 1]) + ns[i + 1..]
  {
    if ns[i] != CacheName {
      DeleteStep(ns, i);
    } else {
      KeepStep(ns, i);
    }
  }

  /** Visiting `CacheName` keeps it: it moves from the unvisited names to the survivors. */
  lemma KeepStep(ns: seq<string>, i: nat)
    requires i < |ns| && ns[i] == CacheName
    ensures Survivors(ns[..i]) + ns[i..] == Survivors(ns[..i + 1]) + ns[i + 1..]
  {
    SurvivorsStep(ns, i);
    SplitAt(ns, i);
  }

  /** The survivors of one more name. */
  lemma SurvivorsStep(ns: seq<string>, i: nat)
    requires i < |ns|
    ensures Survivors(ns[..i + 1]) == Survivors(ns[..i]) + (if ns[i] == CacheName then [ns[i]] else [])
  {
    assert ns[..i + 1][..i] == ns[..i];
  }

  /** Survivors and deletions of one more name. */
  lemma PrefixStep(ns: seq<string>, i: nat)
    requires i < |ns|
    ensures Survivors(ns[..i + 1]) == Survivors(ns[..i]) + (if ns[i] == CacheName then [ns[i]] else [])
    ensures Deletions(ns[..i + 1]) == Deletions(ns[..i]) + (if ns[i] != CacheName then [Deleted(ns[i])] else [])
  {
    assert ns[..i + 1][..i] == ns[..i];
  }

  /** Once every name has been visited, what is left is the activated storage. */
  lemma ActivateEnd(c: Caches)
    requires c.Valid()
    ensures Visited(c, |c.names|) == Activated(c)
    ensures Activated(c).Valid()
  {
    SurvivorsOfDistinct(c.names);
    ElementsAreMembers(c.names, CacheName);
    assert c.names[..|c.names|] == c.names;
    forall n | n in c.stores
      ensures n in c.names
    {
      ElementsAreMembers(c.names, n);
    }
    assert Remaining(c.stores, c.names) == Activated(c).stores;
  }

  /** Activation keeps the store invariant. */
  lemma ActivatedValid(c: Caches)
    requires c.Valid()
    ensures Activated(c).Valid()
  {
    SurvivorsOfDistinct(c.names);
    ElementsAreMembers(c.names, CacheName);
  }

  /** After activation the global lookup is a lookup in the store `CacheName` alone. */
  lemma AfterActivationMatchIsCurrentStore(c: Caches, url: Url)
    requires c.Valid()
    ensures Match(Activated(c), url) == StoreMatch(c, CacheName, url)
  {
    SurvivorsOfDistinct(c.names);
    ElementsAreMembers(c.names, CacheName);
  }

  /** Version isolation: no store of an earlier generation survives activation. */
  lemma VersionIsolation(c: Caches, old_version: string, url: Url)
    requires old_version != CacheName
    ensures old_version !in Activated(c).stores
    ensures StoreMatch(Activated(c), old_version, url) == None
  {
  }

  // ---------------------------------------------------------------------------------------
  // fetch: the routing of one intercepted request

  /** What the page making the request experiences. */
  datatype Reply =
    | NotIntercepted             // the handler returns before `respondWith`: the request goes to the network untouched
    | Served(response: Response) // `respondWith` resolves with a response
    | NoResponse                 // `respondWith` resolves with `undefined`
    | Failed                     // `respondWith` rejects

  /**
   * The outside world for one request: what the network does with it, whether
   * `caches.match(request)` rejects, and whether `caches.match('/index.html')` rejects.
   */
  datatype Env = Env(net: NetResult, lookupRejects: bool, fallbackRejects: bool)

  datatype Outcome = Outcome(reply: Reply, caches: Caches, effects: seq<Effect>)

  datatype Strategy = PassThrough | CacheFirst | NetworkFirst

  predicate IsImagePath(path: string) {
    Contains(path, "/images/")
  }

  /** How a request is handled: by its method, then by its URL's pathname. */
  function StrategyFor(req: Request): Strategy {
    if req.verb != "GET" then PassThrough
    else if IsImagePath(req.url.path) then CacheFirst
    else NetworkFirst
  }

  /**
   * A request is left alone exactly when it is not a GET, and served cache-first exactly when it
   * is a GET whose pathname has "/images/" at some offset; every other GET is network-first.
   */
  lemma StrategyByOffset(req: Request)
    ensures StrategyFor(req) == PassThrough <==> req.verb != "GET"
    ensures StrategyFor(req) == CacheFirst <==>
      req.verb == "GET" && exists i: nat :: OccursAt(req.url.path, "/images/", i)
    ensures StrategyFor(req) == NetworkFirst <==>
      req.verb == "GET" && forall i: nat :: !OccursAt(req.url.path, "/images/", i)
  {
    ContainsAt(req.url.path, "/images/");
  }

  /** `if (status === 200) caches.open(CACHE_NAME).then(cache => cache.put(request, clone))`. */
  function StoreIfOk(c: Caches, url: Url, response: Response): (r: Caches)
    ensures c.Valid() ==> r.Valid()
    ensures response.status != 200 ==> r == c
  {
    if response.status == 200 then Put(c, CacheName, url, response) else c
  }

  function StoreEffects(url: Url, response: Response): seq<Effect> {
    if response.status == 200 then [Stored(url)] else []
  }

  /** A resolved lookup as the page sees it: a response, or `undefined`. */
  function LookupReply(r: Option<Response>): Reply {
    match r
    case Some(response) => Served(response)
    case None => NoResponse
  }

  /** `caches.match(request).then(response => response || fetch(request).then(...))`. */
  function CacheFirstRoute(c: Caches, req: Request, env: Env): (o: Outcome)
    ensures o.reply != NotIntercepted
    ensures c.Valid() ==> o.caches.Valid()
    // a lookup that rejects fails the request and changes nothing
    ensures env.lookupRejects ==> o.reply == Failed && o.caches == c
    // the network is asked only after a lookup that resolved with nothing, and then first
    ensures o.effects == [] <==> env.lookupRejects || Match(c, req.url).Some?
    ensures o.effects != [] ==> o.effects[0] == Fetched(req.url)
    // the storage changes only by storing the 200 response that is also the reply
    ensures o.caches == c || (o.reply.Served? && o.reply.response.status == 200
      && o.caches == Put(c, CacheName, req.url, o.reply.response))
  {
    if env.lookupRejects then Outcome(Failed, c, [])
    else match Match(c, req.url)
      case Some(cached) => Outcome(Served(cached), c, [])
      case None =>
        match env.net
        case NetError => Outcome(Failed, c, [Fetched(req.url)])
        case Ok(response) =>
          Outcome(Served(response), StoreIfOk(c, req.url, response), [Fetched(req.url)] + StoreEffects(req.url, response))
  }

  /**
   * `fetch(request).then(...).catch(() => caches.match(request)).catch(() => ...)`: the second
   * handler runs only when the lookup itself rejects; it returns the `/index.html` lookup for a
   * document request and `undefined` for any other.
   */
  function NetworkFirstRoute(c: Caches, req: Request, env: Env): (o: Outcome)
    ensures o.reply != NotIntercepted
    ensures c.Valid() ==> o.caches.Valid()
    // the network is always asked, first
    ensures o.effects != [] && o.effects[0] == Fetched(req.url)
    // the storage changes only by storing the 200 response that is also the reply
    ensures o.caches == c || (o.reply.Served? && o.reply.response.status == 200
      && o.caches == Put(c, CacheName, req.url, o.reply.response))
    // the request fails only when the network, the lookup and the document fallback all reject
    ensures o.reply == Failed <==>
      env.net.NetError? && env.lookupRejects && req.destination == "document" && env.fallbackRejects
  {
    match env.net
    case Ok(response) =>
      Outcome(Served(response), StoreIfOk(c, req.url, response), [Fetched(req.url)] + StoreEffects(req.url, response))
    case NetError =>
      var reply :=
        if !env.lookupRejects then LookupReply(Match(c, req.url))
        else if req.destination != "document" then NoResponse
        else if env.fallbackRejects then Failed
        else LookupReply(Match(c, AssetUrl(FallbackPath)));
      Outcome(reply, c, [Fetched(req.url)])
  }

  /** The fetch handler. */
  function Route(c: Caches, req: Request, env: Env): (o: Outcome)
    ensures c.Valid() ==> o.caches.Valid()
    ensures o.reply == NotIntercepted <==> req.verb != "GET"
    // only the entry for this request in store `CacheName` can change ...
    ensures forall n, u :: n != CacheName || u != req.url ==> StoreMatch(o.caches, n, u) == StoreMatch(c, n, u)
    // ... and only to the 200 response that is also the reply
    ensures StoreMatch(o.caches, CacheName, req.url) != StoreMatch(c, CacheName, req.url) ==>
      o.reply.Served? && o.reply.response.status == 200 &&
      StoreMatch(o.caches, CacheName, req.url) == Some(o.reply.response)
  {
    match StrategyFor(req)
    case PassThrough => Outcome(NotIntercepted, c, [])
    case CacheFirst => CacheFirstRoute(c, req, env)
    case NetworkFirst => NetworkFirstRoute(c, req, env)
  }

  // ---------------------------------------------------------------------------------------
  // Properties of the routing

  /** A non-GET request is not intercepted, whatever its path, and touches nothing. */
  lemma NonGetPassesThrough(c: Caches, req: Request, env: Env)
    requires req.verb != "GET"
    ensures Route(c, req, env) == Outcome(NotIntercepted, c, [])
  {
  }

  /** The strategy depends on the method and the pathname only: never on the query string or destination. */
  lemma StrategyIgnoresSearch(verb: string, path: string, s1: string, s2: string, d1: string, d2: string)
    ensures StrategyFor(Request(verb, Url(path, s1), d1)) == StrategyFor(Request(verb, Url(path, s2), d2))
  {
  }

  /** The manifest file under /images/ is served cache-first like the pictures. */
  lemma ManifestJsonIsCacheFirst(destination: string)
    ensures StrategyFor(Request("GET", AssetUrl("/images/manifest.json"), destination)) == CacheFirst
  {
    PrefixContained("/images/", "manifest.json");
    assert "/images/manifest.json" == "/images/" + "manifest.json";
  }

  /** Cache-first hit: the stored response, no network fetch, no cache change. */
  lemma CacheFirstHit(c: Caches, req: Request, env: Env, cached: Response)
    requires StrategyFor(req) == CacheFirst && !env.lookupRejects
    requires Match(c, req.url) == Some(cached)
    ensures Route(c, req, env) == Outcome(Served(cached), c, [])
  {
  }

  /**
   * Cache-first miss: one fetch; the fetched response is the reply whatever its status, and it is
   * stored iff its status is exactly 200; a network error fails the request.
   */
  lemma CacheFirstMiss(c: Caches, req: Request, env: Env)
    requires c.Valid()
    requires StrategyFor(req) == CacheFirst && !env.lookupRejects
    requires Match(c, req.url) == None
    ensures var o := Route(c, req, env);
      && (env.net.NetError? ==> o == Outcome(Failed, c, [Fetched(req.url)]))
      && (env.net.Ok? ==>
            && o.reply == Served(env.net.response)
            && o.effects[0] == Fetched(req.url)
            && (env.net.response.status == 200 <==> StoreMatch(o.caches, CacheName, req.url) == Some(env.net.response))
            && (env.net.response.status != 200 ==> o.caches == c))
  {
    assert StoreMatch(c, CacheName, req.url) == None by {
      if CacheName in c.stores {
        ElementsAreMembers(c.names, CacheName);
        var k :| 0 <= k < |c.names| && c.names[k] == CacheName;
      }
    }
  }

  /** Network-first success: the network's response is the reply and overwrites the entry iff its status is 200. */
  lemma NetworkFirstSuccess(c: Caches, req: Request, env: Env)
    requires StrategyFor(req) == NetworkFirst && env.net.Ok?
    ensures var o := Route(c, req, env);
      && o.reply == Served(env.net.response)
      && o.effects[0] == Fetched(req.url)
      && (env.net.response.status == 200 ==> StoreMatch(o.caches, CacheName, req.url) == Some(env.net.response))
      && (env.net.response.status != 200 ==> o.caches == c)
  {
  }

  /**
   * Network-first failure with a lookup that resolves: the reply is exactly that lookup, so a miss
   * is `undefined`, for a document request too; the caches are untouched.
   */
  lemma NetworkFirstFailure(c: Caches, req: Request, env: Env)
    requires StrategyFor(req) == NetworkFirst && env.net.NetError? && !env.lookupRejects
    ensures Route(c, req, env) == Outcome(LookupReply(Match(c, req.url)), c, [Fetched(req.url)])
    ensures Match(c, req.url) == None ==> Route(c, req, env).reply == NoResponse
  {
  }

  /** The `/index.html` document fallback is reached only when the lookup itself rejects, and only for a document. */
  lemma DocumentFallbackOnlyOnRejection(c: Caches, req: Request, env: Env)
    requires StrategyFor(req) == NetworkFirst && env.net.NetError?
    ensures env.lookupRejects && req.destination == "document" && !env.fallbackRejects ==>
      Route(c, req, env).reply == LookupReply(Match(c, AssetUrl(FallbackPath)))
    ensures env.lookupRejects && req.destination != "document" ==> Route(c, req, env).reply == NoResponse
    ensures env.lookupRejects && req.destination == "document" && env.fallbackRejects ==> Route(c, req, env).reply == Failed
  {
  }

  const UnknownRoute: string := "/some/unknown/route"

  /** A route of the single-page app that no store holds: it is served network-first. */
  lemma UnknownRouteIsNetworkFirst(destination: string)
    ensures StrategyFor(Request("GET", Url(UnknownRoute, ""), destination)) == NetworkFirst
  {
    assert 'i' !in UnknownRoute;
    WithoutLetterNotImage(UnknownRoute);
  }

  /** A path without the letter 'i' cannot contain "/images/". */
  lemma WithoutLetterNotImage(path: string)
    requires 'i' !in path
    ensures !IsImagePath(path)
  {
    if IsImagePath(path) {
      ContainedCharsOccur(path, "/images/", 1);
    }
  }

  /** The route is not the cached document, so a store holding only `/index.html` misses it. */
  lemma UnknownRouteMisses(index: Response)
    ensures Match(Caches([CacheName], map[CacheName := map[AssetUrl(FallbackPath) := index]]), Url(UnknownRoute, "")) == None
  {
    assert |UnknownRoute| != |FallbackPath|;
    assert Url(UnknownRoute, "") != AssetUrl(FallbackPath);
  }

  /**
   * An offline navigation to an uncached route, with `/index.html` cached and the lookup resolving
   * normally, resolves with `undefined` rather than with the cached document.
   */
  lemma OfflineNavigationMissGetsNoDocument(index: Response)
    ensures var c := Caches([CacheName], map[CacheName := map[AssetUrl(FallbackPath) := index]]);
      var req := Request("GET", Url(UnknownRoute, ""), "document");
      Route(c, req, Env(NetError, false, false)).reply == NoResponse
  {
    var c := Caches([CacheName], map[CacheName := map[AssetUrl(FallbackPath) := index]]);
    var req := Request("GET", Url(UnknownRoute, ""), "document");
    UnknownRouteIsNetworkFirst("document");
    UnknownRouteMisses(index);
    NetworkFirstFailure(c, req, Env(NetError, false, false));
  }

  // ---------------------------------------------------------------------------------------
  // The worker

  class Worker {
    var names: seq<string>
    var stores: map<string, Store>
    var log: seq<Effect>
    /** The requests built from `STATIC_ASSETS` when the worker script is evaluated. */
    const manifest: seq<Url>

    function State(): Caches
      reads this
    {
      Caches(names, stores)
    }

    ghost predicate Valid()
      reads this
    {
      State().Valid()
    }

    /** A worker over the cache storage that earlier generations left behind. */
    constructor(existing: Caches)
      requires existing.Valid()
      ensures Valid() && State() == existing && log == [] && manifest == Manifest()
    {
      manifest := Manifest();
      names, stores := existing.names, existing.stores;
      log := [];
    }

    /** `caches.open(CACHE_NAME)`: the current store is created, empty, if it is absent. */
    method OpenCurrent()
      requires Valid()
      modifies this
      ensures Valid()
      ensures State() == Open(old(State()), CacheName)
      ensures log == old(log)
    {
      if CacheName !in stores {
        ElementsAreMembers(names, CacheName);
        Append(names, CacheName);
        names := names + [CacheName];
        stores := stores[CacheName := map[]];
      }
      assert State() == Open(old(State()), CacheName);
    }

    /** `caches.open(CACHE_NAME).then(cache => cache.put(url, response))`. */
    method PutCurrent(url: Url, response: Response)
      requires Valid()
      modifies this
      ensures Valid()
      ensures State() == Put(old(State()), CacheName, url, response)
      ensures log == old(log) + [Stored(url)]
    {
      OpenCurrent();
      stores := stores[CacheName := stores[CacheName][url := response]];
      log := log + [Stored(url)];
    }

    /** The install handler; `ok` tells whether `addAll` resolved, and so whether `skipWaiting` ran. */
    method Install(fetch: Url -> NetResult) returns (ok: bool)
      requires Valid()
      modifies this
      ensures Valid()
      ensures ok == AllAcceptable(manifest, fetch)
      ensures State() == Installed(old(State()), manifest, fetch)
      ensures log == old(log) + FetchEffects(manifest) + (if ok then [SkippedWaiting] else [])
    {
      ok := OpenAndAddAll(manifest, fetch);
      if ok {
        log := log + [SkippedWaiting];
      }
    }

    /**
     * `caches.open(CACHE_NAME).then(cache => cache.addAll(urls))`: every request is fetched,
     * and the batch is written only if every response is accepted.
     */
    method OpenAndAddAll(urls: seq<Url>, fetch: Url -> NetResult) returns (ok: bool)
      requires Valid()
      modifies this
      ensures Valid()
      ensures ok == AllAcceptable(urls, fetch)
      ensures State() == Installed(old(State()), urls, fetch)
      ensures log == old(log) + FetchEffects(urls)
    {
      OpenCurrent();
      var batch, fetched;
      ok, batch, fetched := FetchAll(urls, fetch);
      log := log + fetched;
      if ok {
        stores := stores[CacheName := stores[CacheName] + batch];
      }
    }

    /** The activate handler. */
    method Activate()
      requires Valid()
      modifies this
      ensures Valid()
      ensures State() == Activated(old(State()))
      ensures log == old(log) + Deletions(old(names)) + [ClaimedClients]
    {
      var remaining, deleted := DeleteOtherStores(State());
      // every deletion has settled (Promise.all) before the clients are claimed
      names, stores := remaining.names, remaining.stores;
      log := log + deleted + [ClaimedClients];
    }

    /** The fetch handler; `reply` is what the requesting page experiences. */
    method HandleFetch(req: Request, env: Env) returns (reply: Reply)
      requires Valid()
      modifies this
      ensures Valid()
      ensures reply == Route(old(State()), req, env).reply
      ensures State() == Route(old(State()), req, env).caches
      ensures log == old(log) + Route(old(State()), req, env).effects
    {
      if req.verb != "GET" {
        return NotIntercepted;
      }
      if IsImagePath(req.url.path) {
        reply := ServeCacheFirst(req, env);
      } else {
        reply := ServeNetworkFirst(req, env);
      }
    }

    /** The cache-first branch: a stored response, else the network's, stored when its status is 200. */
    method ServeCacheFirst(req: Request, env: Env) returns (reply: Reply)
      requires Valid()
      modifies this
      ensures Valid()
      ensures reply == CacheFirstRoute(old(State()), req, env).reply
      ensures State() == CacheFirstRoute(old(State()), req, env).caches
      ensures log == old(log) + CacheFirstRoute(old(State()), req, env).effects
    {
      if env.lookupRejects {
        return Failed;
      }
      var cached := Match(State(), req.url);
      if cached.Some? {
        return Served(cached.value);
      }
      log := log + [Fetched(req.url)];
      match env.net {
        case NetError =>
          reply := Failed;
        case Ok(response) =>
          if response.status == 200 {
            PutCurrent(req.url, response);
          }
          reply := Served(response);
      }
    }

    /** The network-first branch: the network's response, stored when its status is 200, else a cached one. */
    method ServeNetworkFirst(req: Request, env: Env) returns (reply: Reply)
      requires Valid()
      modifies this
      ensures Valid()
      ensures reply == NetworkFirstRoute(old(State()), req, env).reply
      ensures State() == NetworkFirstRoute(old(State()), req, env).caches
      ensures log == old(log) + NetworkFirstRoute(old(State()), req, env).effects
    {
      log := log + [Fetched(req.url)];
      match env.net {
        case Ok(response) =>
          if response.status == 200 {
            PutCurrent(req.url, response);
          }
          reply := Served(response);
        case NetError =>
          if !env.lookupRejects {
            reply := LookupReply(Match(State(), req.url));
          } else if req.destination == "document" {
            reply := if env.fallbackRejects then Failed else LookupReply(Match(State(), AssetUrl(FallbackPath)));
          } else {
            reply := NoResponse;
          }
      }
    }
  }

  /** `names` with every occurrence of `name` removed. */
  function Without(names: seq<string>, name: string): seq<string> {
    if names == [] then []
    else (if names[0] == name then [] else [names[0]]) + Without(names[1..], name)
  }

  lemma {:induction false} WithoutConcat(a: seq<string>, b: seq<string>, name: string)
    ensures Without(a + b, name) == Without(a, name) + Without(b, name)
  {
    if a != [] {
      WithoutConcat(a[1..], b, name);
      assert (a + b)[0] == a[0];
      assert (a + b)[1..] == a[1..] + b;
      assert Without(a + b, name) == (if a[0] == name then [] else [a[0]]) + Without(a[1..] + b, name);
    } else {
      assert a + b == b;
    }
  }

  lemma {:induction false} WithoutAbsent(a: seq<string>, name: string)
    requires name !in a
    ensures Without(a, name) == a
  {
    if a != [] {
      WithoutAbsent(a[1..], name);
    }
  }

  /** In distinct names, a name does not occur again after its position. */
  lemma DistinctTail(ns: seq<string>, i: nat)
    requires i < |ns| && Distinct(ns)
    ensures ns[i] !in ns[i + 1..]
  {
    var rest := ns[i + 1..];
    forall k | 0 <= k < |rest| ensures rest[k] != ns[i] {
      assert rest[k] == ns[i + 1 + k];
      DistinctIndices(ns, i, i + 1 + k);
    }
  }

  /** Deleting store `ns[i]` (not the current one) from the names left after the first `i` steps. */
  lemma DeleteStep(ns: seq<string>, i: nat)
    requires i < |ns| && ns[i] != CacheName && Distinct(ns)
    ensures Without(Survivors(ns[..i]) + ns[i..], ns[i]) == Survivors(ns[..i + 1]) + ns[i + 1..]
  {
    var kept := Survivors(ns[..i]);
    assert Survivors(ns[..i + 1]) == kept by {
      SurvivorsStep(ns, i);
      assert kept + [] == kept;
    }
    SurvivorsMembers(ns[..i], ns[i]);
    DistinctTail(ns, i);
    SplitAt(ns, i);
    WithoutOne(kept, ns[i], ns[i + 1..]);
  }

  lemma SplitAt(ns: seq<string>, i: nat)
    requires i < |ns|
    ensures ns[i..] == [ns[i]] + ns[i + 1..]
  {
  }

  /** Removing a name that occurs once, between two runs without it. */
  lemma WithoutOne(kept: seq<string>, name: string, rest: seq<string>)
    requires name !in kept && name !in rest
    ensures Without(kept + ([name] + rest), name) == kept + rest
  {
    assert Without([name], name) == [] by {
      assert [name][1..] == [];
    }
    calc {
      Without(kept + ([name] + rest), name);
      { WithoutConcat(kept, [name] + rest, name); }
      Without(kept, name) + Without([name] + rest, name);
      { WithoutConcat([name], rest, name); }
      Without(kept, name) + (Without([name], name) + Without(rest, name));
      { WithoutAbsent(kept, name); WithoutAbsent(rest, name); }
      kept + ([] + rest);
      { assert [] + rest == rest; }
      kept + rest;
    }
  }
}
