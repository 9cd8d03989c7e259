/**
 * Responsive image sources for the kiosk's pictures: the file extension of each picture, the
 * size its category is shown at, and the `srcset` attribute built from the sources.
 */
module ImageOptimization {
  import opened Strings

  /** One entry of a `srcset`: a path and the width it is drawn for. */
  datatype ImageSource = ImageSource(src: string, width: nat, height: nat)

  /** One size a category can be drawn at; `suffix` names the file variant of that size. */
  datatype Breakpoint = Breakpoint(suffix: string, width: nat, height: nat)

  /** The pictures whose extension is known; every other name is taken to be a JPEG. */
  const ExtensionTable: map<string, string> := map[
    "my-son-1" := "png",
    "my-son-2" := "jpg",
    "my-son-3" := "png",
    "my-son-4" := "jpg",
    "my-son-map" := "jpg",
    "thap-a" := "jpg",
    "thap-h" := "jpg",
    "thap-k" := "png",
    "cham-festival" := "jpg"
  ]

  /** The names of `ExtensionTable`, in the order they are listed. */
  const TableNames: seq<string> :=
    ["my-son-1", "my-son-2", "my-son-3", "my-son-4", "my-son-map", "thap-a", "thap-h", "thap-k", "cham-festival"]

  /** `TableNames` lists exactly the names of `ExtensionTable`. */
  lemma TableNamesAreTheTable()
    ensures forall n :: n in ExtensionTable <==> n in TableNames
  {
  }

  /** `imageExtensions[imageName] || 'jpg'`. */
  function ImageExtension(name: string): (r: string)
    ensures r == "png" || r == "jpg"
    ensures name in ExtensionTable ==> r == ExtensionTable[name]
    ensures name !in ExtensionTable ==> r == "jpg"
  {
    if name in ExtensionTable && ExtensionTable[name] != "" then ExtensionTable[name] else "jpg"
  }

  /** The sizes of each category, largest first. */
  const BreakpointTable: map<string, seq<Breakpoint>> := map[
    "hero" := [Breakpoint("", 1200, 600), Breakpoint("-md", 800, 400), Breakpoint("-sm", 600, 300)],
    "gallery" := [Breakpoint("", 800, 600), Breakpoint("-md", 600, 450), Breakpoint("-sm", 400, 300)],
    "map" := [Breakpoint("", 1200, 800), Breakpoint("-md", 900, 600), Breakpoint("-sm", 600, 400)],
    "sites" := [Breakpoint("", 600, 400), Breakpoint("-md", 400, 267), Breakpoint("-sm", 300, 200)],
    "events" := [Breakpoint("", 600, 400), Breakpoint("-md", 400, 267), Breakpoint("-sm", 300, 200)]
  ]

  /** The sizes of `category`; a category without an entry is drawn like the gallery. */
  function Breakpoints(category: string): (r: seq<Breakpoint>)
    ensures |r| == 3
    ensures category in BreakpointTable ==> r == BreakpointTable[category]
    ensures category !in BreakpointTable ==> r == BreakpointTable["gallery"]
  {
    if category in BreakpointTable then BreakpointTable[category] else BreakpointTable["gallery"]
  }

  /** The path of the picture called `name`, in the one flat images folder. */
  function ImagePath(name: string): string {
    "/images/" + name + "." + ImageExtension(name)
  }

  /** A picture's path is "/images/", the name, a dot and a three-letter extension, so the name can be read back. */
  lemma ImagePathParts(name: string)
    ensures var p := ImagePath(name);
      && |p| == |name| + 12
      && p[..8] == "/images/"
      && p[8..8 + |name|] == name
      && p[8 + |name|..] == "." + ImageExtension(name)
  {
  }

  /** Different names get different paths. */
  lemma ImagePathInjective(a: string, b: string)
    requires ImagePath(a) == ImagePath(b)
    ensures a == b
  {
    ImagePathParts(a);
    ImagePathParts(b);
  }

  /**
   * `generateResponsiveImages(category, imageName)`: only the full-size picture, at the
   * category's largest size.
   */
  function ResponsiveImages(category: string, name: string): (r: seq<ImageSource>)
    ensures |r| == 1
    ensures r[0].src == ImagePath(name)
    ensures r[0].width == Breakpoints(category)[0].width && r[0].height == Breakpoints(category)[0].height
  {
    var largest := Breakpoints(category)[0];
    [ImageSource(ImagePath(name), largest.width, largest.height)]
  }

  /** The size a category's picture is drawn at, by category. */
  lemma CategorySizes(name: string)
    ensures var r := ResponsiveImages("hero", name)[0]; r.width == 1200 && r.height == 600
    ensures var r := ResponsiveImages("map", name)[0]; r.width == 1200 && r.height == 800
    ensures var r := ResponsiveImages("sites", name)[0]; r.width == 600 && r.height == 400
    ensures var r := ResponsiveImages("events", name)[0]; r.width == 600 && r.height == 400
    ensures var r := ResponsiveImages("gallery", name)[0]; r.width == 800 && r.height == 600
  {
  }

  /** A category outside the table falls back to the gallery's 800 by 600. */
  lemma UnknownCategoryIsGallery(category: string, name: string)
    requires category !in {"hero", "gallery", "map", "sites", "events"}
    ensures ResponsiveImages(category, name)[0].width == 800
    ensures ResponsiveImages(category, name)[0].height == 600
  {
  }

  /** One `srcset` entry: `${source.src} ${source.width}w`. */
  function SrcSetItem(source: ImageSource): string {
    source.src + " " + NatToString(source.width) + "w"
  }

  /** An entry reads back as the picture's path, one space, its width in decimal digits and "w". */
  lemma SrcSetItemReadsBack(source: ImageSource)
    ensures var item, n := SrcSetItem(source), |source.src|;
      && |item| >= n + 3
      && item[..n] == source.src
      && item[n] == ' '
      && item[|item| - 1] == 'w'
      && (forall i :: n < i < |item| - 1 ==> IsDigit(item[i]))
      && DecimalValue(item[n + 1..|item| - 1]) == source.width
  {
    var item, n, digits := SrcSetItem(source), |source.src|, NatToString(source.width);
    assert item == source.src + [' '] + digits + ['w'];
    assert item[n + 1..|item| - 1] == digits;
    assert forall i :: n < i < |item| - 1 ==> item[i] == digits[i - n - 1];
    DecimalRoundTrip(source.width);
  }

  function SrcSetItems(sources: seq<ImageSource>): (r: seq<string>)
    ensures |r| == |sources|
    ensures forall i :: 0 <= i < |sources| ==> r[i] == SrcSetItem(sources[i])
  {
    seq(|sources|, i requires 0 <= i < |sources| => SrcSetItem(sources[i]))
  }

  /** `generateSrcSet(sources)`: the entries joined by ", ". */
  function SrcSet(sources: seq<ImageSource>): (r: string)
    ensures sources == [] ==> r == ""
    ensures |sources| == 1 ==> r == SrcSetItem(sources[0])
  {
    Join(SrcSetItems(sources), ", ")
  }

  /** The `srcset` of a concatenation: the two `srcset`s with one ", " between them. */
  lemma SrcSetConcat(a: seq<ImageSource>, b: seq<ImageSource>)
    requires a != [] && b != []
    ensures SrcSet(a + b) == SrcSet(a) + ", " + SrcSet(b)
  {
    assert SrcSetItems(a + b) == SrcSetItems(a) + SrcSetItems(b);
    JoinConcat(SrcSetItems(a), SrcSetItems(b), ", ");
  }

  /** The `srcset` an image component gets: its one picture at its category's width, with no separator. */
  lemma ResponsiveSrcSet(category: string, name: string)
    ensures SrcSet(ResponsiveImages(category, name))
      == ImagePath(name) + " " + NatToString(Breakpoints(category)[0].width) + "w"
  {
  }
}
