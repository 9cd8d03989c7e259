/**
 * How the picture paths the page builds meet the cache worker: every one of them is served
 * cache-first, and the listed pictures are exactly the ones install pre-caches.
 */
module CacheCoverage {
  import opened Wrappers
  import opened Strings
  import opened ImageOptimization
  import opened ServiceWorker

  /** Every generated picture path lies under "/images/", so a GET for it is served cache-first. */
  lemma GeneratedSourceIsCacheFirst(category: string, name: string, search: string, destination: string)
    ensures IsImagePath(ResponsiveImages(category, name)[0].src)
    ensures StrategyFor(Request("GET", Url(ResponsiveImages(category, name)[0].src, search), destination)) == CacheFirst
  {
    var rest := name + "." + ImageExtension(name);
    assert ImagePath(name) == "/images/" + rest;
    PrefixContained("/images/", rest);
  }

  /** The paths of the first three listed pictures, with the extensions the table gives them. */
  lemma ListedImagePathsFirst()
    ensures ImagePath("my-son-1") == "/images/my-son-1.png"
    ensures ImagePath("my-son-2") == "/images/my-son-2.jpg"
    ensures ImagePath("my-son-3") == "/images/my-son-3.png"
  {
  }

  /** The paths of the next three listed pictures. */
  lemma ListedImagePathsSecond()
    ensures ImagePath("my-son-4") == "/images/my-son-4.jpg"
    ensures ImagePath("my-son-map") == "/images/my-son-map.jpg"
    ensures ImagePath("thap-a") == "/images/thap-a.jpg"
  {
  }

  /** The paths of the last three listed pictures. */
  lemma ListedImagePathsThird()
    ensures ImagePath("thap-h") == "/images/thap-h.jpg"
    ensures ImagePath("thap-k") == "/images/thap-k.png"
    ensures ImagePath("cham-festival") == "/images/cham-festival.jpg"
  {
  }

  /**
   * The path of the `i`-th listed picture is the manifest entry after "/" and "/index.html";
   * together with `TableNamesAreTheTable`, the manifest's picture entries are exactly the table's names.
   */
  lemma ListedImageIsManifestEntry(i: nat)
    requires i < |TableNames|
    ensures ImagePath(TableNames[i]) == StaticAssets[i + 2]
  {
    if i < 3 {
      ListedImagePathsFirst();
    } else if i < 6 {
      ListedImagePathsSecond();
    } else {
      ListedImagePathsThird();
    }
  }

  /**
   * A successful install holds every picture of the extension table, at the path the page asks
   * for, in store `CacheName`; over well-formed storage the global lookup of it is then a hit.
   */
  lemma ListedImagesArePrecached(c: Caches, fetch: Url -> NetResult, category: string, name: string)
    requires name in ExtensionTable && AllAcceptable(Manifest(), fetch)
    ensures var url := AssetUrl(ResponsiveImages(category, name)[0].src);
      && url in Manifest()
      && Acceptable(fetch(url))
      && StoreMatch(Installed(c, Manifest(), fetch), CacheName, url) == Some(fetch(url).response)
      && (c.Valid() ==> Match(Installed(c, Manifest(), fetch), url).Some?)
  {
    TableNamesAreTheTable();
    var i :| 0 <= i < |TableNames| && TableNames[i] == name;
    ListedPictureIsPrecached(c, fetch, category, i);
    if c.Valid() {
      InstalledIsFound(c, Manifest(), fetch, AssetUrl(ResponsiveImages(category, name)[0].src));
    }
  }

  /** The stored half of `ListedImagesArePrecached`, for the `i`-th name of the table. */
  lemma ListedPictureIsPrecached(c: Caches, fetch: Url -> NetResult, category: string, i: nat)
    requires i < |TableNames| && AllAcceptable(Manifest(), fetch)
    ensures var url := AssetUrl(ResponsiveImages(category, TableNames[i])[0].src);
      && url in Manifest()
      && Acceptable(fetch(url))
      && StoreMatch(Installed(c, Manifest(), fetch), CacheName, url) == Some(fetch(url).response)
  {
    ListedImageIsManifestEntry(i);
    assert Manifest()[i + 2] == AssetUrl(StaticAssets[i + 2]);
  }

  /** After a successful install over well-formed storage every listed URL is found by the global lookup. */
  lemma InstalledIsFound(c: Caches, urls: seq<Url>, fetch: Url -> NetResult, url: Url)
    requires c.Valid() && AllAcceptable(urls, fetch) && url in urls
    ensures Match(Installed(c, urls, fetch), url).Some?
  {
    MatchFindsAnyStore(Installed(c, urls, fetch), url, CacheName);
  }
}
