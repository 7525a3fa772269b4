/**
  * The content API (src/backend/src/routes/content.ts): the collection list,
  * a collection with a page of its gallery, a page of images, the directory
  * list and detail, and the image detail. Each handler is a function of the
  * query values and the database tables; `parseInt` is given as its result
  * (`None` for NaN or a missing parameter).
  */
module ContentRoutes {
  import opened Wrappers
  import opened OrderedDict
  import opened DatabaseService

  /** What a handler answers: a 404 with its code, an exception passed to `next`, or a body. */
  datatype Response<T> = NotFound(code: string) | Threw | Ok(body: T)

  // ---------------------------------------------------------------------------
  // Pagination

  const DefaultPage: int := 1
  const DefaultLimit: int := 20
  const MaxLimit: int := 50

  function Min(a: int, b: int): int { if a <= b then a else b }
  function Max(a: int, b: int): int { if a >= b then a else b }

  /** `parseInt(x) || d`: NaN and 0 are falsy, so both give the default. */
  function OrDefault(parsed: Option<int>, d: int): int {
    if parsed.Some? && parsed.value != 0 then parsed.value else d
  }

  /** `Array.prototype.slice(start, end)`: negative positions count from the end. */
  function JsSlice<T>(s: seq<T>, start: int, end: int): (r: seq<T>)
    ensures 0 <= start <= end ==> r == s[Min(start, |s|)..Min(end, |s|)]
  {
    var from := if start < 0 then Max(|s| + start, 0) else Min(start, |s|);
    var to := if end < 0 then Max(|s| + end, 0) else Min(end, |s|);
    if from < to then s[from..to] else []
  }

  /** `Math.ceil(total / limit)` for a limit that is not 0. */
  function CeilDiv(total: nat, limit: int): int
    requires limit != 0
  {
    if limit > 0 then (total + limit - 1) / limit else -(total / -limit)
  }

  datatype Pagination = Pagination(page: int, limit: int, total: nat, totalPages: int, hasNext: bool, hasPrev: bool)
  datatype Page<T> = Page(items: seq<T>, pagination: Pagination)

  /** `page` and `limit` as written: `parseInt(page) || 1` and `Math.min(parseInt(limit) || 20, 50)`. */
  function PageAsWritten(pageQuery: Option<int>): int {
    OrDefault(pageQuery, DefaultPage)
  }

  function LimitAsWritten(limitQuery: Option<int>): (limit: int)
    ensures limit <= MaxLimit && limit != 0
  {
    Min(OrDefault(limitQuery, DefaultLimit), MaxLimit)
  }

  function PageOf<T>(all: seq<T>, page: int, limit: int): Page<T>
    requires limit != 0
  {
    var offset := (page - 1) * limit;
    var totalPages := CeilDiv(|all|, limit);
    Page(JsSlice(all, offset, offset + limit), Pagination(page, limit, |all|, totalPages, page < totalPages, page > 1))
  }

  /** The pagination of both paginated handlers, as written. */
  function PaginateAsWritten<T>(all: seq<T>, pageQuery: Option<int>, limitQuery: Option<int>): Page<T> {
    PageOf(all, PageAsWritten(pageQuery), LimitAsWritten(limitQuery))
  }

  /**
    * As written, a negative `limit` is kept: `?limit=-3` on ten images answers
    * seven of them (the slice drops the last three) under a limit of -3.
    */
  lemma NegativeLimitOverflows()
    ensures var p := PaginateAsWritten([0, 1, 2, 3, 4, 5, 6, 7, 8, 9], Some(1), Some(-3));
      p.pagination.limit == -3 && |p.items| == 7
  {
    var all := [0, 1, 2, 3, 4, 5, 6, 7, 8, 9];
    assert JsSlice(all, 0, -3) == all[0..7];
  }

  /** As written, a negative `page` counts from the end: `?page=-1&limit=4` on ten images answers images 2 to 5. */
  lemma NegativePageWraps()
    ensures var p := PaginateAsWritten([0, 1, 2, 3, 4, 5, 6, 7, 8, 9], Some(-1), Some(4));
      p.pagination.page == -1 && p.items == [2, 3, 4, 5]
  {
    var all := [0, 1, 2, 3, 4, 5, 6, 7, 8, 9];
    assert PageAsWritten(Some(-1)) == -1;
    assert LimitAsWritten(Some(4)) == 4;
    assert PageOf(all, -1, 4).items == JsSlice(all, -8, -4);
    assert JsSlice(all, -8, -4) == all[2..6];
  }

  /** `page`, falling back to 1 for anything below 1 as well. */
  function PageParam(pageQuery: Option<int>): (page: int)
    ensures page >= 1
    ensures pageQuery.Some? && pageQuery.value >= 1 ==> page == pageQuery.value
  {
    if pageQuery.Some? && pageQuery.value >= 1 then pageQuery.value else DefaultPage
  }

  /** `limit`, capped at 50 and falling back to 20 for anything below 1 as well. */
  function LimitParam(limitQuery: Option<int>): (limit: int)
    ensures 1 <= limit <= MaxLimit
    ensures limitQuery.Some? && limitQuery.value >= 1 ==> limit == Min(limitQuery.value, MaxLimit)
  {
    if limitQuery.Some? && limitQuery.value >= 1 then Min(limitQuery.value, MaxLimit) else DefaultLimit
  }

  /** The pagination of both paginated handlers, with out-of-range values replaced by the defaults. */
  function Paginate<T>(all: seq<T>, pageQuery: Option<int>, limitQuery: Option<int>): Page<T> {
    PageOf(all, PageParam(pageQuery), LimitParam(limitQuery))
  }

  /** The two agree on every query the as-written code handles sensibly. */
  lemma PaginateAgrees<T>(all: seq<T>, pageQuery: Option<int>, limitQuery: Option<int>)
    requires pageQuery.None? || pageQuery.value >= 0
    requires limitQuery.None? || limitQuery.value >= 0
    ensures Paginate(all, pageQuery, limitQuery) == PaginateAsWritten(all, pageQuery, limitQuery)
  {
  }

  /** `a <= b / l` exactly when `a * l <= b`, for a positive `l`. */
  lemma DivBound(a: int, b: int, l: int)
    requires l > 0
    ensures a <= b / l <==> a * l <= b
  {
    var q := b / l;
    assert b == q * l + b % l && 0 <= b % l < l;
    if a <= q {
      ScaleNonneg(q - a, l);
      ScaleDifference(q, a, l);
    } else {
      ScaleNonneg(a - q - 1, l);
      ScaleDifference(a, q + 1, l);
      ScaleDifference(q + 1, q, l);
    }
  }

  lemma ScaleNonneg(x: int, l: int)
    requires x >= 0 && l >= 0
    ensures x * l >= 0
  {
  }

  lemma ScaleDifference(x: int, y: int, l: int)
    ensures (x - y) * l == x * l - y * l
  {
  }

  /** A page holds the images from its offset on, at most `limit` of them. */
  lemma PageWindow<T>(all: seq<T>, pageQuery: Option<int>, limitQuery: Option<int>)
    ensures var p := Paginate(all, pageQuery, limitQuery);
      var offset := (p.pagination.page - 1) * p.pagination.limit;
      0 <= offset &&
      p.items == all[Min(offset, |all|)..Min(offset + p.pagination.limit, |all|)] &&
      |p.items| <= p.pagination.limit
  {
    PageOfWindow(all, PageParam(pageQuery), LimitParam(limitQuery));
  }

  lemma PageOfWindow<T>(all: seq<T>, page: int, limit: int)
    requires page >= 1 && limit >= 1
    ensures var offset := (page - 1) * limit;
      0 <= offset && PageOf(all, page, limit).items == all[Min(offset, |all|)..Min(offset + limit, |all|)]
  {
    var offset := (page - 1) * limit;
    OffsetNatural(page, limit);
    assert PageOf(all, page, limit).items == JsSlice(all, offset, offset + limit);
  }

  lemma OffsetNatural(page: int, limit: int)
    requires page >= 1 && limit >= 1
    ensures (page - 1) * limit >= 0
  {
  }

  /** There is a next page exactly when images remain after this one. */
  lemma HasNextIffMore<T>(all: seq<T>, pageQuery: Option<int>, limitQuery: Option<int>)
    ensures var p := Paginate(all, pageQuery, limitQuery);
      p.pagination.hasNext <==> p.pagination.page * p.pagination.limit < |all|
  {
    PageOfHasNext(all, PageParam(pageQuery), LimitParam(limitQuery));
  }

  lemma PageOfHasNext<T>(all: seq<T>, page: int, limit: int)
    requires page >= 1 && limit >= 1
    ensures PageOf(all, page, limit).pagination.hasNext <==> page * limit < |all|
  {
    DivBound(page + 1, |all| + limit - 1, limit);
    assert (page + 1) * limit == page * limit + limit;
    assert PageOf(all, page, limit).pagination.hasNext <==> page < (|all| + limit - 1) / limit;
  }

  /** Image `i` is on page `i / limit + 1`, at position `i % limit`. */
  lemma EveryImageOnItsPage<T>(all: seq<T>, limit: int, i: nat)
    requires 1 <= limit <= MaxLimit && i < |all|
    ensures var p := Paginate(all, Some(i / limit + 1), Some(limit));
      i % limit < |p.items| && p.items[i % limit] == all[i]
  {
    var page := i / limit + 1;
    assert PageParam(Some(page)) == page;
    assert LimitParam(Some(limit)) == limit;
    var offset := (page - 1) * limit;
    assert offset == (i / limit) * limit;
    assert i == offset + i % limit;
    PageWindow(all, Some(page), Some(limit));
  }

  // ---------------------------------------------------------------------------
  // Collections

  datatype MediaKind = ImageKind | VideoKind

  /** One gallery entry: the image row's fields, with `type` derived from its format. */
  datatype GalleryItem = GalleryItem(
    id: string,
    filename: string,
    title: string,
    caption: Option<string>,
    kind: MediaKind,
    urls: Urls,
    status: string)

  function GalleryItemOf(img: ImageRow): GalleryItem {
    GalleryItem(img.id, img.filename, img.title, img.caption,
      if img.format == Some("mp4") then VideoKind else ImageKind, img.urls, img.status)
  }

  function GalleryOf(images: seq<ImageRow>): (r: seq<GalleryItem>)
    ensures |r| == |images|
    ensures forall i :: 0 <= i < |images| ==> r[i] == GalleryItemOf(images[i])
  {
    seq(|images|, i requires 0 <= i < |images| => GalleryItemOf(images[i]))
  }

  /** `JSON.parse(col || default)`: `None` when it throws. */
  function ParseColumn<T>(col: JsonColumn<T>, default: T): Option<T> {
    match col
    case Blank => Some(default)
    case Json(v) => Some(v)
    case Malformed => None
  }

  /** An entry of `GET /collections`. */
  datatype CollectionSummary = CollectionSummary(
    id: string,
    name: string,
    slug: string,
    heroImage: Option<string>,
    hasConfig: bool,
    imageCount: int,
    videoCount: int,
    subcollections: seq<string>,
    description: Option<string>,
    featured: bool,
    tags: seq<JsonValue>,
    config: JsonObject)

  /** The directory filter of `GET /collections`: only `status`, when it is not ''. */
  function CollectionsFilter(status: Option<string>): DirectoryFilter {
    DirectoryFilter(if status.Some? && status.value != "" then status else None, None)
  }

  function SummaryOf(dir: DirRow): Option<CollectionSummary> {
    match ParseColumn(dir.tags, [])
    case None => None
    case Some(tags) =>
      match ParseColumn(dir.config, Empty())
      case None => None
      case Some(config) =>
        Some(CollectionSummary(dir.id, dir.title, dir.slug, dir.coverImage, |config.keys| > 0,
          dir.imageCount.GetOr(0), 0, [], dir.description, dir.featured != 0, tags, config))
  }

  /** `GET /collections` over the rows `getDirectories` returned; one malformed JSON column fails the request. */
  function ListCollections(rows: seq<DirRow>): (r: Response<seq<CollectionSummary>>)
    ensures r.Ok? || r.Threw?
  {
    if rows == [] then Ok([])
    else
      match ListCollections(rows[..|rows| - 1])
      case Ok(front) =>
        (match SummaryOf(rows[|rows| - 1])
         case Some(s) => Ok(front + [s])
         case None => Threw)
      case _ => Threw
  }

  /**
    * Listed collections keep the row order and identity, never report videos
    * or subcollections, count a missing image count as 0, and have a config
    * exactly when the parsed config has a key.
    */
  lemma {:induction false} ListCollectionsSpec(rows: seq<DirRow>)
    ensures var r := ListCollections(rows);
      r.Ok? <==> forall i :: 0 <= i < |rows| ==> SummaryOf(rows[i]).Some?
    ensures var r := ListCollections(rows);
      r.Ok? ==> (|r.body| == |rows| &&
        forall i :: 0 <= i < |rows| ==>
          (r.body[i].slug == rows[i].slug && r.body[i].videoCount == 0 && r.body[i].subcollections == [] &&
           r.body[i].imageCount == rows[i].imageCount.GetOr(0) &&
           (r.body[i].hasConfig <==> r.body[i].config.keys != [])))
  {
    if rows != [] {
      ListCollectionsSpec(rows[..|rows| - 1]);
    }
  }

  /** `data.collection` of `GET /collections/:slug`. */
  datatype CollectionDetail = CollectionDetail(
    id: string,
    name: string,
    slug: string,
    heroImage: Option<string>,
    description: Option<string>,
    config: JsonObject,
    featured: bool,
    tags: seq<JsonValue>,
    gallery: seq<GalleryItem>,
    pagination: Pagination,
    subcollections: seq<string>)

  /** `GET /collections/:slug?page&limit` */
  function GetCollection(dirs: seq<DirRow>, images: seq<ImageRow>, slug: string, pageQuery: Option<int>, limitQuery: Option<int>)
    : Response<CollectionDetail>
  {
    match DirectoryBySlug(dirs, slug)
    case None => NotFound("COLLECTION_NOT_FOUND")
    case Some(dir) =>
      var p := Paginate(ImagesByDirectory(images, dir.id, None, None), pageQuery, limitQuery);
      match ParseColumn(dir.config, Empty())
      case None => Threw
      case Some(config) =>
        match ParseColumn(dir.tags, [])
        case None => Threw
        case Some(tags) =>
          Ok(CollectionDetail(dir.id, dir.title, dir.slug, dir.coverImage, dir.description, config,
            dir.featured != 0, tags, GalleryOf(p.items), p.pagination, []))
  }

  /**
    * An unknown slug is a 404; otherwise the gallery is the requested page of
    * the directory's published images, each typed video exactly when its
    * format is mp4.
    */
  lemma GetCollectionSpec(dirs: seq<DirRow>, images: seq<ImageRow>, slug: string, pageQuery: Option<int>, limitQuery: Option<int>)
    ensures var r := GetCollection(dirs, images, slug, pageQuery, limitQuery);
      (r == NotFound("COLLECTION_NOT_FOUND") <==> forall i :: 0 <= i < |dirs| ==> dirs[i].slug != slug) &&
      (r.Ok? ==>
        var dir := DirectoryBySlug(dirs, slug).value;
        var p := Paginate(ImagesByDirectory(images, dir.id, None, None), pageQuery, limitQuery);
        |r.body.gallery| == |p.items| <= p.pagination.limit && r.body.pagination == p.pagination &&
        forall i :: 0 <= i < |p.items| ==>
          r.body.gallery[i].id == p.items[i].id &&
          (r.body.gallery[i].kind == VideoKind <==> p.items[i].format == Some("mp4")))
  {
    match DirectoryBySlug(dirs, slug)
    case None =>
    case Some(dir) =>
      PageWindow(ImagesByDirectory(images, dir.id, None, None), pageQuery, limitQuery);
  }

  datatype ImagesPage = ImagesPage(images: seq<GalleryItem>, pagination: Pagination)

  /** `GET /collections/:slug/images?page&limit`: the same page, without parsing the collection's JSON. */
  function GetCollectionImages(dirs: seq<DirRow>, images: seq<ImageRow>, slug: string, pageQuery: Option<int>, limitQuery: Option<int>)
    : Response<ImagesPage>
  {
    match DirectoryBySlug(dirs, slug)
    case None => NotFound("COLLECTION_NOT_FOUND")
    case Some(dir) =>
      var p := Paginate(ImagesByDirectory(images, dir.id, None, None), pageQuery, limitQuery);
      Ok(ImagesPage(GalleryOf(p.items), p.pagination))
  }

  /** The lighter handler answers the same gallery and pagination whenever the full one succeeds, and never throws. */
  lemma CollectionImagesAgree(dirs: seq<DirRow>, images: seq<ImageRow>, slug: string, pageQuery: Option<int>, limitQuery: Option<int>)
    ensures var light := GetCollectionImages(dirs, images, slug, pageQuery, limitQuery);
      var full := GetCollection(dirs, images, slug, pageQuery, limitQuery);
      !light.Threw? &&
      (light.NotFound? <==> full.NotFound?) &&
      (full.Ok? ==> light.Ok? && light.body.images == full.body.gallery && light.body.pagination == full.body.pagination)
  {
  }

  // ---------------------------------------------------------------------------
  // Directories

  /** The directory filter of `GET /directories`: `status` when not '', `featured` when given, as `=== 'true'`. */
  function DirectoriesFilter(status: Option<string>, featured: Option<string>): DirectoryFilter {
    DirectoryFilter(if status.Some? && status.value != "" then status else None,
      if featured.Some? then Some(featured.value == "true") else None)
  }

  /** A directory row with its JSON columns parsed and `featured` as a boolean. */
  datatype FormattedDirectory = FormattedDirectory(row: DirRow, tags: seq<JsonValue>, config: JsonObject, featured: bool)

  function FormatDirectory(dir: DirRow): Option<FormattedDirectory> {
    match ParseColumn(dir.tags, [])
    case None => None
    case Some(tags) =>
      match ParseColumn(dir.config, Empty())
      case None => None
      case Some(config) => Some(FormattedDirectory(dir, tags, config, dir.featured != 0))
  }

  function FormatAll(rows: seq<DirRow>): Option<seq<FormattedDirectory>> {
    if rows == [] then Some([])
    else
      match FormatAll(rows[..|rows| - 1])
      case None => None
      case Some(front) =>
        match FormatDirectory(rows[|rows| - 1])
        case None => None
        case Some(d) => Some(front + [d])
  }

  function FeaturedOnly(dirs: seq<FormattedDirectory>): (r: seq<FormattedDirectory>)
    ensures forall d :: d in r <==> d in dirs && d.featured
  {
    if dirs == [] then []
    else
      var d := dirs[|dirs| - 1];
      assert dirs == dirs[..|dirs| - 1] + [d];
      FeaturedOnly(dirs[..|dirs| - 1]) + (if d.featured then [d] else [])
  }

  /** `reduce((sum, d) => sum + (d.image_count || 0), 0)` */
  function TotalImages(dirs: seq<FormattedDirectory>): int {
    if dirs == [] then 0 else TotalImages(dirs[..|dirs| - 1]) + dirs[|dirs| - 1].row.imageCount.GetOr(0)
  }

  datatype DirectoryList = DirectoryList(directories: seq<FormattedDirectory>, featured: seq<FormattedDirectory>, totalImages: int)

  /** `GET /directories` over the rows `getDirectories` returned. */
  function ListDirectories(rows: seq<DirRow>): Response<DirectoryList> {
    match FormatAll(rows)
    case None => Threw
    case Some(dirs) => Ok(DirectoryList(dirs, FeaturedOnly(dirs), TotalImages(dirs)))
  }

  lemma {:induction false} TotalImagesAppend(a: seq<FormattedDirectory>, b: seq<FormattedDirectory>)
    ensures TotalImages(a + b) == TotalImages(a) + TotalImages(b)
  {
    if b != [] {
      assert (a + b)[..|a + b| - 1] == a + b[..|b| - 1];
      TotalImagesAppend(a, b[..|b| - 1]);
    } else {
      assert a + b == a;
    }
  }

  /** The total splits into the featured directories' images and the others'. */
  lemma {:induction false} TotalImagesSplits(dirs: seq<FormattedDirectory>)
    ensures TotalImages(dirs) == TotalImages(FeaturedOnly(dirs)) + TotalImages(NotFeatured(dirs))
  {
    if dirs != [] {
      var front, d := dirs[..|dirs| - 1], dirs[|dirs| - 1];
      TotalImagesSplits(front);
      TotalImagesAppend(FeaturedOnly(front), if d.featured then [d] else []);
      TotalImagesAppend(NotFeatured(front), if d.featured then [] else [d]);
      assert TotalImages([d]) == d.row.imageCount.GetOr(0) by {
        assert [d][..0] == [];
      }
    }
  }

  function NotFeatured(dirs: seq<FormattedDirectory>): seq<FormattedDirectory> {
    if dirs == [] then []
    else NotFeatured(dirs[..|dirs| - 1]) + (if dirs[|dirs| - 1].featured then [] else [dirs[|dirs| - 1]])
  }

  /** The directory list keeps every row; `featured` is exactly its featured members; the total counts missing counts as 0. */
  lemma {:induction false} ListDirectoriesSpec(rows: seq<DirRow>)
    ensures var r := ListDirectories(rows);
      r.Ok? ==> (|r.body.directories| == |rows| &&
        (forall i :: 0 <= i < |rows| ==>
           (r.body.directories[i].row == rows[i] && (r.body.directories[i].featured <==> rows[i].featured != 0))) &&
        (forall d :: d in r.body.featured <==> d in r.body.directories && d.featured))
  {
    if rows != [] {
      ListDirectoriesSpec(rows[..|rows| - 1]);
    }
  }

  datatype Navigation = Navigation(prev: Option<string>, next: Option<string>, parent: Option<string>)
  datatype DirectoryDetail = DirectoryDetail(
    directory: FormattedDirectory,
    images: seq<ImageRow>,
    carousels: seq<string>,
    navigation: Navigation)

  /** `GET /directories/:slug`: every published image, no pagination. */
  function GetDirectory(dirs: seq<DirRow>, images: seq<ImageRow>, slug: string): Response<DirectoryDetail> {
    match DirectoryBySlug(dirs, slug)
    case None => NotFound("DIRECTORY_NOT_FOUND")
    case Some(dir) =>
      match FormatDirectory(dir)
      case None => Threw
      case Some(d) => Ok(DirectoryDetail(d, ImagesByDirectory(images, dir.id, None, None), [], Navigation(None, None, None)))
  }

  /** The directory detail answers all of the directory's published images, without a page. */
  lemma GetDirectorySpec(dirs: seq<DirRow>, images: seq<ImageRow>, slug: string)
    ensures var r := GetDirectory(dirs, images, slug);
      (r == NotFound("DIRECTORY_NOT_FOUND") <==> forall i :: 0 <= i < |dirs| ==> dirs[i].slug != slug) &&
      (r.Ok? ==> (multiset(r.body.images) == multiset(PublishedIn(images, r.body.directory.row.id)) &&
        r.body.directory.row.slug == slug && r.body.carousels == []))
  {
    match DirectoryBySlug(dirs, slug)
    case None =>
    case Some(dir) =>
      ImagesByDirectoryAll(images, dir.id, None);
  }

  // ---------------------------------------------------------------------------
  // Image detail

  function ImageById(rows: seq<ImageRow>, id: string): (r: Option<ImageRow>)
    ensures r.None? <==> forall i :: 0 <= i < |rows| ==> rows[i].id != id
    ensures r.Some? ==> r.value.id == id
  {
    if rows == [] then None
    else if rows[0].id == id then Some(rows[0])
    else
      assert forall i :: 0 < i < |rows| ==> rows[i] == rows[1..][i - 1];
      ImageById(rows[1..], id)
  }

  datatype ImageDetail = ImageDetail(image: ImageRow, exif: JsonObject, altText: string, directUrl: string)
  datatype ImageAnswer = ImageAnswer(detail: ImageDetail, reactions: ODict<string, int>)

  /** `${process.env.FRONTEND_URL}`: an unset variable prints as "undefined". */
  function EnvText(v: Option<string>): string {
    if v.Some? then v.value else "undefined"
  }

  /**
    * `GET /images/:imageId`; `countRows` is what the reaction-count query
    * returns for the image, and `frontendUrl` the environment variable.
    */
  function GetImage(images: seq<ImageRow>, imageId: string, countRows: seq<CountRow>, frontendUrl: Option<string>): Response<ImageAnswer> {
    match ImageById(images, imageId)
    case None => NotFound("IMAGE_NOT_FOUND")
    case Some(img) =>
      match ParseColumn(img.exif, Empty())
      case None => Threw
      case Some(exif) =>
        var alt := if img.altText.Some? && img.altText.value != "" then img.altText.value else img.title;
        Ok(ImageAnswer(ImageDetail(img, exif, alt, EnvText(frontendUrl) + "/image/" + imageId), ReactionCounts(countRows)))
  }

  /** The alt text falls back to the title exactly when it is missing or empty; the reactions hold all eight types. */
  lemma GetImageSpec(images: seq<ImageRow>, imageId: string, countRows: seq<CountRow>, frontendUrl: Option<string>)
    ensures var r := GetImage(images, imageId, countRows, frontendUrl);
      (r == NotFound("IMAGE_NOT_FOUND") <==> forall i :: 0 <= i < |images| ==> images[i].id != imageId) &&
      (r.Ok? ==>
        var img := r.body.detail.image;
        img.id == imageId &&
        (r.body.detail.altText == img.title <== img.altText.None? || img.altText.value == "") &&
        (img.altText.Some? && img.altText.value != "" ==> r.body.detail.altText == img.altText.value) &&
        forall t :: t in ReactionTypes ==> t in r.body.reactions.vals)
  {
    if ImageById(images, imageId).Some? {
      forall t | t in ReactionTypes {
        ReactionCountsKeys(countRows, t);
      }
    }
  }
}
