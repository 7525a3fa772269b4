/**
  * The curated collection page: a configured list of sections, where a
  * carousel's images are an explicit list of filenames, every image of the
  * gallery, or a query over the gallery (type, aspect ratio, filename pattern,
  * order, limit), and every filename is resolved to a URL through the gallery.
  */
module CuratedLayout {
  import opened Wrappers
  import opened Text
  import opened StableSort
  import opened Gallery

  // ---------------------------------------------------------------------------
  // Resolving a filename to a URL

  /**
    * The item `resolveImageUrl` is meant to find: one with a large URL whose
    * filename is `f` or whose large URL contains `f`.
    */
  predicate Matches(item: MediaItem, f: string) {
    item.urls.large.Some? && (item.filename == f || Contains(item.urls.large.value, f))
  }

  /** The position of the first matching item, or `|items|` when there is none. */
  function FirstMatch(items: seq<MediaItem>, f: string): (k: nat)
    ensures k <= |items|
    ensures k < |items| ==> Matches(items[k], f)
    ensures forall j :: 0 <= j < k ==> !Matches(items[j], f)
    decreases |items|
  {
    if items == [] then 0
    else if Matches(items[0], f) then 0
    else 1 + FirstMatch(items[1..], f)
  }

  /**
    * `resolveImageUrl(filename)`: a full URL is kept; otherwise the large URL
    * of the first matching gallery item; otherwise the collection's media path.
    */
  function ResolveImageUrl(gallery: Option<seq<MediaItem>>, slug: string, f: string): string {
    if StartsWith(f, "http") then f
    else
      var items := gallery.GetOr([]);
      var k := FirstMatch(items, f);
      if k < |items| then items[k].urls.large.value
      else "/media/" + slug + "/" + f
  }

  /**
    * A name starting with `http` is returned as is. Otherwise the result is
    * the large URL of an item that matches with no matching item before it,
    * and the media path only when no item matches.
    */
  lemma ResolveImageUrlSpec(gallery: Option<seq<MediaItem>>, slug: string, f: string)
    ensures StartsWith(f, "http") ==> ResolveImageUrl(gallery, slug, f) == f
    ensures !StartsWith(f, "http") ==>
      var items := gallery.GetOr([]);
      var r := ResolveImageUrl(gallery, slug, f);
      (r == "/media/" + slug + "/" + f && forall item :: item in items ==> !Matches(item, f)) ||
      (exists k :: 0 <= k < |items| && Matches(items[k], f) && r == items[k].urls.large.value &&
        forall j :: 0 <= j < k ==> !Matches(items[j], f))
  {
    if !StartsWith(f, "http") {
      var items := gallery.GetOr([]);
      var k := FirstMatch(items, f);
      if k == |items| {
        forall item | item in items
          ensures !Matches(item, f)
        {
          var j :| 0 <= j < |items| && items[j] == item;
        }
      }
    }
  }

  /** What `gallery.find(...)` does as written: it may throw. */
  datatype Search = At(k: nat) | NotFound | ThrowsTypeError

  /**
    * As written, `g.urls.large.includes(filename)` is evaluated for every
    * item whose filename differs, and throws when that item has no large URL.
    */
  function FindAsWritten(items: seq<MediaItem>, f: string): Search
    decreases |items|
  {
    if items == [] then NotFound
    else if items[0].filename == f then At(0)
    else if items[0].urls.large.None? then ThrowsTypeError
    else if Contains(items[0].urls.large.value, f) then At(0)
    else match FindAsWritten(items[1..], f)
      case At(k) => At(k + 1)
      case other => other
  }

  /** When every item has a large URL, the search as written finds the same item. */
  lemma {:induction false} FindAgreesWhenAllLarge(items: seq<MediaItem>, f: string)
    requires forall item :: item in items ==> item.urls.large.Some?
    ensures FindAsWritten(items, f) == if FirstMatch(items, f) < |items| then At(FirstMatch(items, f)) else NotFound
    decreases |items|
  {
    if items != [] {
      FindAgreesWhenAllLarge(items[1..], f);
    }
  }

  /** An image no wider than 1920 pixels: it is stored without a large URL. */
  const SmallImage: MediaItem := MediaItem("1", true, "small.jpg", None, None, Urls(None, Some("/m.jpg"), None, Some("/o.jpg")), 1.0)

  /** Placed before the wanted file, such an image makes the search as written throw. */
  lemma SmallImageBeforeThrows()
    ensures FindAsWritten([SmallImage], "wanted.jpg") == ThrowsTypeError
  {
    assert [SmallImage][0].filename != "wanted.jpg" by {
      assert |SmallImage.filename| != |"wanted.jpg"|;
    }
  }

  /** Where the media path was meant. */
  lemma SmallImageBeforeResolves()
    ensures ResolveImageUrl(Some([SmallImage]), "art", "wanted.jpg") == "/media/" + "art" + "/" + "wanted.jpg"
  {
    assert !StartsWith("wanted.jpg", "http") by {
      assert "wanted.jpg"[0] != "http"[0];
    }
    assert FirstMatch([SmallImage], "wanted.jpg") == 1 by {
      assert !Matches(SmallImage, "wanted.jpg");
      assert [SmallImage][1..] == [];
    }
  }

  // ---------------------------------------------------------------------------
  // Image queries

  /** The comparison an aspect-ratio string such as `">2.5"` names. */
  datatype Comparison = Above | Below | AtLeast | AtMost

  /**
    * `query.aspectRatio`: missing (or falsy), a string, or an object of bounds.
    * For a string, `parsed` is what the pattern `([><]=?)([\d.]+)` yields:
    * `None` when it does not match, and a `None` value when `parseFloat` gives
    * `NaN`.
    */
  datatype Aspect =
    | NoAspect
    | AspectText(parsed: Option<(Comparison, Option<real>)>)
    | AspectRange(min: Option<real>, max: Option<real>)

  /** `query.limit`; a limit that is `0` is treated as missing. */
  datatype Query = Query(aspect: Aspect, filename: Option<string>, sortBy: Option<string>, limit: Option<int>)

  predicate NumTruthy(o: Option<real>) {
    o.Some? && o.value != 0.0
  }

  predicate Compares(c: Comparison, ratio: real, value: Option<real>) {
    value.Some? &&
    match c
    case Above => ratio > value.value
    case Below => ratio < value.value
    case AtLeast => ratio >= value.value
    case AtMost => ratio <= value.value
  }

  /** The aspect-ratio filter's test for one item. */
  predicate AspectKeeps(a: Aspect, item: MediaItem) {
    match a
    case NoAspect => true
    case AspectText(parsed) => parsed.None? || Compares(parsed.value.0, item.aspectRatio, parsed.value.1)
    case AspectRange(min, max) =>
      (!NumTruthy(min) || item.aspectRatio >= min.value) && (!NumTruthy(max) || item.aspectRatio <= max.value)
  }

  /** `(a, b) => a.filename.localeCompare(b.filename)` as an order, by character code. */
  function ByFilename(a: MediaItem, b: MediaItem): bool {
    LexLeq(a.filename, b.filename)
  }

  lemma ByFilenamePreorder()
    ensures TotalPreorder(ByFilename)
  {
    forall a: MediaItem, b: MediaItem
      ensures ByFilename(a, b) || ByFilename(b, a)
    {
      LexTotal(a.filename, b.filename);
    }
    forall a: MediaItem, b: MediaItem, c: MediaItem | ByFilename(a, b) && ByFilename(b, c)
      ensures ByFilename(a, c)
    {
      LexTransitive(a.filename, b.filename, c.filename);
    }
  }

  /** `s.slice(0, limit)`: a negative limit counts from the end. */
  function SliceTo<T>(s: seq<T>, limit: int): (r: seq<T>)
    ensures limit >= 0 ==> r == s[..Min(limit, |s|)]
    ensures limit < 0 ==> r == s[..if |s| + limit < 0 then 0 else |s| + limit]
  {
    if limit >= 0 then s[..Min(limit, |s|)]
    else if |s| + limit < 0 then []
    else s[..|s| + limit]
  }

  function FilenamesOf(items: seq<MediaItem>): (r: seq<string>)
    ensures |r| == |items| && forall i :: 0 <= i < |items| ==> r[i] == items[i].filename
  {
    seq(|items|, i requires 0 <= i < |items| => items[i].filename)
  }

  /** `filter((item) => item.type === 'image')` */
  function KeepImages(items: seq<MediaItem>): (r: seq<MediaItem>)
    ensures |r| <= |items|
    ensures forall x :: x in r <==> x in items && x.isImage
  {
    if items == [] then []
    else (if items[0].isImage then [items[0]] else []) + KeepImages(items[1..])
  }

  /** The aspect-ratio filter. */
  function KeepAspect(items: seq<MediaItem>, a: Aspect): (r: seq<MediaItem>)
    ensures |r| <= |items|
    ensures forall x :: x in r <==> x in items && AspectKeeps(a, x)
  {
    if items == [] then []
    else (if AspectKeeps(a, items[0]) then [items[0]] else []) + KeepAspect(items[1..], a)
  }

  /** `filter((item) => pattern.test(item.filename))` */
  function KeepPattern(items: seq<MediaItem>, pattern: string, patternMatches: (string, string) -> bool): (r: seq<MediaItem>)
    ensures |r| <= |items|
    ensures forall x :: x in r <==> x in items && patternMatches(pattern, x.filename)
  {
    if items == [] then []
    else
      var head := if patternMatches(pattern, items[0].filename) then [items[0]] else [];
      head + KeepPattern(items[1..], pattern, patternMatches)
  }

  /** The aspect filter runs for a string the pattern matches, or for bounds of which one is set. */
  predicate AspectFilters(a: Aspect) {
    (a.AspectText? && a.parsed.Some?) || (a.AspectRange? && (NumTruthy(a.min) || NumTruthy(a.max)))
  }

  /**
    * The filters, in the source's order. `patternMatches(pattern, name)` is the
    * case-insensitive regular-expression test.
    */
  function Selected(items: seq<MediaItem>, q: Query, patternMatches: (string, string) -> bool): seq<MediaItem> {
    var images := KeepImages(items);
    var byAspect := if AspectFilters(q.aspect) then KeepAspect(images, q.aspect) else images;
    if Truthy(q.filename) then KeepPattern(byAspect, q.filename.value, patternMatches) else byAspect
  }

  /** The sort; `shuffle` stands for the random one. */
  function Ordered(items: seq<MediaItem>, sortBy: Option<string>, shuffle: seq<MediaItem> -> seq<MediaItem>): seq<MediaItem> {
    if sortBy == Some("filename") then SortBy(items, ByFilename)
    else if sortBy == Some("random") then shuffle(items)
    else items
  }

  /** The limit; `0` is no limit. */
  function Limited(items: seq<MediaItem>, limit: Option<int>): (r: seq<MediaItem>)
    ensures r <= items
  {
    if limit.Some? && limit.value != 0 then SliceTo(items, limit.value) else items
  }

  /** The items a query selects, in its order. */
  function QueryItems(
    gallery: Option<seq<MediaItem>>, q: Query,
    patternMatches: (string, string) -> bool, shuffle: seq<MediaItem> -> seq<MediaItem>): seq<MediaItem>
  {
    if gallery.None? then []
    else Limited(Ordered(Selected(gallery.value, q, patternMatches), q.sortBy, shuffle), q.limit)
  }

  /**
    * `resolveImageQuery(query)`: `filtered` is reassigned filter by filter,
    * then sorted and cut; the tags filter only warns.
    */
  method ResolveImageQuery(
    gallery: Option<seq<MediaItem>>, q: Query,
    patternMatches: (string, string) -> bool, shuffle: seq<MediaItem> -> seq<MediaItem>)
    returns (filenames: seq<string>)
    ensures filenames == FilenamesOf(QueryItems(gallery, q, patternMatches, shuffle))
  {
    if gallery.None? {
      return [];
    }
    var filtered := KeepImages(gallery.value);
    if q.aspect.AspectText? {
      if q.aspect.parsed.Some? {
        filtered := KeepAspect(filtered, q.aspect);
      }
    } else if q.aspect.AspectRange? && (NumTruthy(q.aspect.min) || NumTruthy(q.aspect.max)) {
      filtered := KeepAspect(filtered, q.aspect);
    }
    if Truthy(q.filename) {
      filtered := KeepPattern(filtered, q.filename.value, patternMatches);
    }
    if q.sortBy == Some("filename") {
      filtered := SortBy(filtered, ByFilename);
    } else if q.sortBy == Some("random") {
      filtered := shuffle(filtered);
    }
    if q.limit.Some? && q.limit.value != 0 {
      filtered := SliceTo(filtered, q.limit.value);
    }
    filenames := FilenamesOf(filtered);
  }

  /**
    * An item passes the filters exactly when it is an image of the gallery,
    * its aspect ratio is within the given bounds (a bound of `0` is no bound),
    * and its filename matches the pattern when one is given.
    */
  lemma SelectedSpec(items: seq<MediaItem>, q: Query, patternMatches: (string, string) -> bool, item: MediaItem)
    ensures item in Selected(items, q, patternMatches) <==>
      item in items && item.isImage && AspectKeeps(q.aspect, item) &&
      (Truthy(q.filename) ==> patternMatches(q.filename.value, item.filename))
  {
  }

  /** With bounds, only images with `min <= ratio <= max` for the bounds that are set are selected. */
  lemma RangeKeepsBounds(items: seq<MediaItem>, q: Query, patternMatches: (string, string) -> bool)
    requires q.aspect.AspectRange?
    ensures forall item :: item in Selected(items, q, patternMatches) ==>
      item.isImage &&
      (NumTruthy(q.aspect.min) ==> q.aspect.min.value <= item.aspectRatio) &&
      (NumTruthy(q.aspect.max) ==> item.aspectRatio <= q.aspect.max.value)
  {
  }

  /** Without a gallery a query gives nothing. */
  lemma NoGalleryNoImages(q: Query, patternMatches: (string, string) -> bool, shuffle: seq<MediaItem> -> seq<MediaItem>)
    ensures QueryItems(None, q, patternMatches, shuffle) == []
  {
  }

  /**
    * Sorted by filename, the result is the selected images in ascending
    * filename order, cut by the limit: at most `limit` of them for a positive
    * limit, all but the last `-limit` for a negative one.
    */
  lemma FilenameSortedQuery(gallery: Option<seq<MediaItem>>, q: Query,
    patternMatches: (string, string) -> bool, shuffle: seq<MediaItem> -> seq<MediaItem>)
    requires gallery.Some? && q.sortBy == Some("filename")
    ensures var r := QueryItems(gallery, q, patternMatches, shuffle);
      var sorted := SortBy(Selected(gallery.value, q, patternMatches), ByFilename);
      (forall i, j :: 0 <= i < j < |r| ==> LexLeq(r[i].filename, r[j].filename)) &&
      multiset(sorted) == multiset(Selected(gallery.value, q, patternMatches)) &&
      r <= sorted &&
      (q.limit.Some? && q.limit.value > 0 ==> |r| == Min(q.limit.value, |sorted|)) &&
      (q.limit.Some? && q.limit.value < 0 ==> |r| == if |sorted| + q.limit.value < 0 then 0 else |sorted| + q.limit.value)
  {
    var selected := Selected(gallery.value, q, patternMatches);
    assert QueryItems(gallery, q, patternMatches, shuffle) == Limited(SortBy(selected, ByFilename), q.limit);
    ByFilenamePreorder();
    SortByPermutes(selected, ByFilename);
    SortByOrdered(selected, ByFilename);
    SortByLength(selected, ByFilename);
  }

  lemma PrefixMultiset(a: seq<MediaItem>, b: seq<MediaItem>)
    requires a <= b
    ensures multiset(a) <= multiset(b)
  {
    assert b == a + b[|a|..];
  }

  /** Unless the order is random, a query gives only selected images, none more often than it is selected. */
  lemma QueryGivesSelected(gallery: Option<seq<MediaItem>>, q: Query,
    patternMatches: (string, string) -> bool, shuffle: seq<MediaItem> -> seq<MediaItem>)
    requires gallery.Some? && q.sortBy != Some("random")
    ensures multiset(QueryItems(gallery, q, patternMatches, shuffle)) <= multiset(Selected(gallery.value, q, patternMatches))
  {
    var selected := Selected(gallery.value, q, patternMatches);
    var sorted := Ordered(selected, q.sortBy, shuffle);
    if q.sortBy == Some("filename") {
      SortByPermutes(selected, ByFilename);
    }
    PrefixMultiset(Limited(sorted, q.limit), sorted);
  }

  // ---------------------------------------------------------------------------
  // Sections

  /** `section.images`: an array, `'auto'`, a query object, or anything else. */
  datatype SectionImages = Names(names: seq<string>) | Auto | ImageQuery(q: Query) | NoImages

  /** `{ id: `${type}-${index}-${filename}`, src: resolveImageUrl(filename), alt: filename }` */
  function SectionImage(gallery: Option<seq<MediaItem>>, slug: string, sectionType: string, index: nat, f: string): CarouselImage {
    CarouselImage(sectionType + "-" + NatToString(index) + "-" + f, ResolveImageUrl(gallery, slug, f), f)
  }

  function ImagesFor(gallery: Option<seq<MediaItem>>, slug: string, sectionType: string, names: seq<string>): (r: seq<CarouselImage>)
    ensures |r| == |names|
    ensures forall i :: 0 <= i < |names| ==> r[i] == SectionImage(gallery, slug, sectionType, i, names[i])
  {
    seq(|names|, i requires 0 <= i < |names| => SectionImage(gallery, slug, sectionType, i, names[i]))
  }

  /** The filenames a section names. */
  function SectionNames(
    gallery: Option<seq<MediaItem>>, images: SectionImages,
    patternMatches: (string, string) -> bool, shuffle: seq<MediaItem> -> seq<MediaItem>): seq<string>
  {
    match images
    case Names(names) => names
    case Auto => if gallery.None? then [] else FilenamesOf(KeepImages(gallery.value))
    case ImageQuery(q) => FilenamesOf(QueryItems(gallery, q, patternMatches, shuffle))
    case NoImages => []
  }

  /** `resolveSectionImages(section)` */
  function ResolveSectionImages(
    gallery: Option<seq<MediaItem>>, slug: string, sectionType: string, images: SectionImages,
    patternMatches: (string, string) -> bool, shuffle: seq<MediaItem> -> seq<MediaItem>): seq<CarouselImage>
  {
    ImagesFor(gallery, slug, sectionType, SectionNames(gallery, images, patternMatches, shuffle))
  }

  /**
    * A listed filename is used as given, in its position, with itself as alt
    * text; `'auto'` takes exactly the gallery's images, in gallery order.
    */
  lemma SectionImagesSpec(
    gallery: Option<seq<MediaItem>>, slug: string, sectionType: string, images: SectionImages,
    patternMatches: (string, string) -> bool, shuffle: seq<MediaItem> -> seq<MediaItem>)
    ensures var r := ResolveSectionImages(gallery, slug, sectionType, images, patternMatches, shuffle);
      images.Names? ==>
        |r| == |images.names| &&
        forall i :: 0 <= i < |r| ==>
          r[i].alt == images.names[i] &&
          r[i].id == sectionType + "-" + NatToString(i) + "-" + images.names[i] &&
          r[i].src == ResolveImageUrl(gallery, slug, images.names[i])
    ensures var r := ResolveSectionImages(gallery, slug, sectionType, images, patternMatches, shuffle);
      images.Auto? && gallery.Some? ==>
        forall item :: item in gallery.value && item.isImage <==>
          item in gallery.value && exists i :: 0 <= i < |r| && r[i].alt == item.filename && item.isImage
    ensures images.NoImages? || (images.Auto? && gallery.None?) ==>
      ResolveSectionImages(gallery, slug, sectionType, images, patternMatches, shuffle) == []
  {
    if images.Auto? && gallery.Some? {
      var kept := KeepImages(gallery.value);
      var r := ResolveSectionImages(gallery, slug, sectionType, images, patternMatches, shuffle);
      forall item | item in gallery.value && item.isImage
        ensures exists i :: 0 <= i < |r| && r[i].alt == item.filename
      {
        var i :| 0 <= i < |kept| && kept[i] == item;
        assert r[i].alt == item.filename;
      }
    }
  }

  /** `getWidthClass(width)` */
  function WidthClass(width: Option<string>): string {
    if width == Some("half") then "w-1/2"
    else if width == Some("third") then "w-1/3"
    else if width == Some("quarter") then "w-1/4"
    else "w-full"
  }

  datatype SectionKind = Hero | TextBlock | CarouselBlock | ImageBlock | VideoBlock | Separator | Unknown

  datatype Section = Section(
    kind: SectionKind,
    typeName: string,
    width: Option<string>,
    images: SectionImages,
    carouselOptions: Option<CarouselOptions>,
    src: string)

  /** What one section renders; `None` renders nothing. */
  datatype View =
    | HeroView
    | TextView(widthClass: string)
    | CarouselView(widthClass: string, images: seq<CarouselImage>, props: CarouselProps)
    | ImageView(widthClass: string, src: string)
    | VideoView(widthClass: string, src: string)
    | SeparatorView

  function SectionView(
    gallery: Option<seq<MediaItem>>, slug: string, s: Section,
    patternMatches: (string, string) -> bool, shuffle: seq<MediaItem> -> seq<MediaItem>): Option<View>
  {
    match s.kind
    case Hero => Some(HeroView)
    case TextBlock => Some(TextView(WidthClass(s.width)))
    case CarouselBlock =>
      var images := ResolveSectionImages(gallery, slug, s.typeName, s.images, patternMatches, shuffle);
      if images == [] then None
      else Some(CarouselView(WidthClass(s.width), images, MapCarouselOptions(s.carouselOptions.GetOr(NoOptions), 0.0)))
    case ImageBlock => Some(ImageView(WidthClass(s.width), ResolveImageUrl(gallery, slug, s.src)))
    case VideoBlock => Some(VideoView(WidthClass(s.width), ResolveImageUrl(gallery, slug, s.src)))
    case Separator => Some(SeparatorView)
    case Unknown => None
  }

  /**
    * A carousel section renders exactly when it has images, with them and with
    * no bottom reservation by default; an unknown section renders nothing.
    */
  lemma SectionViewSpec(
    gallery: Option<seq<MediaItem>>, slug: string, s: Section,
    patternMatches: (string, string) -> bool, shuffle: seq<MediaItem> -> seq<MediaItem>)
    ensures var v := SectionView(gallery, slug, s, patternMatches, shuffle);
      var images := ResolveSectionImages(gallery, slug, s.typeName, s.images, patternMatches, shuffle);
      s.kind == CarouselBlock ==>
        (v.None? <==> images == []) &&
        (v.Some? ==> v.value.images == images && v.value.props.reserveBottom == OrNum(s.carouselOptions.GetOr(NoOptions).reservedSpace.bottom, 0.0))
    ensures s.kind == Unknown <==> SectionView(gallery, slug, s, patternMatches, shuffle).None? && s.kind != CarouselBlock
  {
  }
}
