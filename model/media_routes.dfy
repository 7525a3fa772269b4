/**
  * Media serving (src/backend/src/routes/media.ts): which file a request for
  * `/:slug/:subdirectory/:filename`, `/:slug/:filename` or
  * `/:slug/gallery/:filename` names, at which size, and whether it is served.
  * The content directory is given resolved, as segments; the filesystem is a
  * parameter telling which paths `fs.access` accepts and what `fs.stat` says.
  */
module MediaRoutes {
  import opened Wrappers
  import opened Text
  import opened PosixPath
  import ContentScanning

  /**
    * The seven keys of `SIZE_MAPPINGS`, and a name the object inherits from
    * `Object.prototype`, which the `size in SIZE_MAPPINGS` test also accepts.
    */
  datatype Size = Thumbnail | Small | Medium | Large | XLarge | FourK | Original | Inherited(name: string)

  /** `size in SIZE_MAPPINGS`, with the size it names. */
  function ParseSize(size: string): Option<Size> {
    if size == "thumbnail" then Some(Thumbnail)
    else if size == "small" then Some(Small)
    else if size == "medium" then Some(Medium)
    else if size == "large" then Some(Large)
    else if size == "xlarge" then Some(XLarge)
    else if size == "4k" then Some(FourK)
    else if size == "original" then Some(Original)
    else if size in ObjectPrototypeNames then Some(Inherited(size))
    else None
  }

  const SizeNames: seq<string> := ["thumbnail", "small", "medium", "large", "xlarge", "4k", "original"]

  /**
    * The seven names and the inherited ones are accepted and nothing else; only
    * `original` parses to `Original`, and an inherited name to itself.
    */
  lemma ParseSizeSpec(size: string)
    ensures ParseSize(size).Some? <==> size in SizeNames || size in ObjectPrototypeNames
    ensures ParseSize(size) == Some(Original) <==> size == "original"
    ensures ParseSize(size).Some? && ParseSize(size).value.Inherited? <==> size in ObjectPrototypeNames
    ensures size in ObjectPrototypeNames ==> ParseSize(size) == Some(Inherited(size))
  {
  }

  /** `SIZE_MAPPINGS`: the file-name suffix of each size. */
  function Suffix(size: Size): string {
    match size
    case Thumbnail => "_640w"
    case Small => "_828w"
    case Medium => "_1200w"
    case Large => "_1920w"
    case XLarge => "_2048w"
    case FourK => "_3840w"
    case Original => ""
    case Inherited(n) => InheritedText(n)
  }

  /**
    * The text `${SIZE_MAPPINGS[n]}` gives for an inherited name: the getter of
    * `__proto__` yields `Object.prototype`, every other name a built-in function.
    */
  function InheritedText(n: string): string {
    if n == "__proto__" then "[object Object]"
    else if n == "constructor" then "function Object() { [native code] }"
    else "function " + n + "() { [native code] }"
  }

  /** The width each thumbnail size is generated at. */
  function Width(size: Size): nat {
    match size
    case Thumbnail => 640
    case Small => 828
    case Medium => 1200
    case Large => 1920
    case XLarge => 2048
    case FourK => 3840
    case Original => 0
    case Inherited(_) => 0
  }

  /** Every size of the table but `original` has the suffix `_<width>w`. */
  lemma SuffixIsWidth(size: Size)
    requires size != Original && !size.Inherited?
    ensures Suffix(size) == "_" + NatToString(Width(size)) + "w"
  {
    match size
    case Thumbnail => ThreeDigitSuffix(size, 6, 4, 0);
    case Small => ThreeDigitSuffix(size, 8, 2, 8);
    case Medium => FourDigitSuffix(size, 1, 2, 0, 0);
    case Large => FourDigitSuffix(size, 1, 9, 2, 0);
    case XLarge => FourDigitSuffix(size, 2, 0, 4, 8);
    case FourK => FourDigitSuffix(size, 3, 8, 4, 0);
  }

  lemma ThreeDigitSuffix(size: Size, a: nat, b: nat, c: nat)
    requires 1 <= a < 10 && b < 10 && c < 10
    requires Width(size) == 100 * a + 10 * b + c
    requires Suffix(size) == ['_', DigitChar(a), DigitChar(b), DigitChar(c), 'w']
    ensures Suffix(size) == "_" + NatToString(Width(size)) + "w"
  {
    AppendDigit(a, b);
    AppendDigit(10 * a + b, c);
  }

  lemma FourDigitSuffix(size: Size, a: nat, b: nat, c: nat, d: nat)
    requires 1 <= a < 10 && b < 10 && c < 10 && d < 10
    requires Width(size) == 1000 * a + 100 * b + 10 * c + d
    requires Suffix(size) == ['_', DigitChar(a), DigitChar(b), DigitChar(c), DigitChar(d), 'w']
    ensures Suffix(size) == "_" + NatToString(Width(size)) + "w"
  {
    AppendDigit(a, b);
    AppendDigit(10 * a + b, c);
    AppendDigit(100 * a + 10 * b + c, d);
  }

  /** One more decimal digit. */
  lemma AppendDigit(n: nat, d: nat)
    requires 1 <= n && d < 10
    ensures NatToString(10 * n + d) == NatToString(n) + [DigitChar(d)]
  {
    assert (10 * n + d) / 10 == n && (10 * n + d) % 10 == d;
  }

  /** `(req.query.size as string) || 'original'` */
  function RequestedSize(query: Option<string>): string {
    if query.Some? && query.value != "" then query.value else "original"
  }

  /** The values of `MIME_TYPES`, and the fallback. */
  datatype Mime = ImageMime(subtype: string) | VideoMime(subtype: string) | OctetStream

  function MimeText(m: Mime): string {
    match m
    case ImageMime(t) => "image/" + t
    case VideoMime(t) => "video/" + t
    case OctetStream => "application/octet-stream"
  }

  const ImageExtensions: seq<string> := [".jpg", ".jpeg", ".png", ".webp", ".avif", ".gif"]
  const VideoExtensions: seq<string> := [".mp4", ".webm"]

  /** `MIME_TYPES[ext] || 'application/octet-stream'` */
  function MimeOf(ext: string): (mime: Mime)
    ensures mime.ImageMime? <==> ext in ImageExtensions
    ensures mime.VideoMime? <==> ext in VideoExtensions
  {
    if ext == ".jpg" || ext == ".jpeg" then ImageMime("jpeg")
    else if ext == ".png" then ImageMime("png")
    else if ext == ".webp" then ImageMime("webp")
    else if ext == ".avif" then ImageMime("avif")
    else if ext == ".gif" then ImageMime("gif")
    else if ext == ".mp4" then VideoMime("mp4")
    else if ext == ".webm" then VideoMime("webm")
    else OctetStream
  }

  /** `mimeType.startsWith('image/')` holds exactly for the image types. */
  lemma ImagePrefix(m: Mime)
    ensures StartsWith(MimeText(m), "image/") <==> m.ImageMime?
  {
    match m
    case ImageMime(t) =>
    case VideoMime(t) => assert MimeText(m)[0] == 'v';
    case OctetStream => assert MimeText(m)[0] == 'a';
  }

  /** The three handlers, in registration order. */
  datatype Route = Nested(subdirectory: string) | RootLevel | Gallery

  /**
    * Express tries the handlers in order: a three-segment request always
    * matches `/:slug/:subdirectory/:filename` first, so the gallery handler
    * is never reached.
    */
  function Dispatch(params: seq<string>): Option<(Route, string, string)> {
    if |params| == 3 then Some((Nested(params[1]), params[0], params[2]))
    else if |params| == 2 then Some((RootLevel, params[0], params[1]))
    else None
  }

  /** `filename` as each handler forms it. */
  function FileName(route: Route, name: string): string {
    if route.Nested? then route.subdirectory + "/" + name else name
  }

  /** `path.join(CONTENT_DIR, slug, filename)` and its `gallery` variant. */
  function OriginalPath(root: Segments, route: Route, slug: string, name: string): Segments {
    match route
    case Nested(sub) => root + SegmentsOf(slug) + SegmentsOf(sub + "/" + name)
    case RootLevel => root + SegmentsOf(slug) + SegmentsOf(name)
    case Gallery => root + SegmentsOf(slug) + ["gallery"] + SegmentsOf(name)
  }

  /** The thumbnail's path: `.thumbnails` next to the original. */
  function ThumbnailPath(root: Segments, route: Route, slug: string, name: string, thumbName: string): Segments {
    match route
    case Nested(sub) =>
      var dirName := ContentScanning.Dirname(sub + "/" + name);
      if dirName != "" && dirName != "." then root + SegmentsOf(slug) + SegmentsOf(dirName) + [".thumbnails", thumbName]
      else root + SegmentsOf(slug) + [".thumbnails", thumbName]
    case RootLevel => root + SegmentsOf(slug) + [".thumbnails", thumbName]
    case Gallery => root + SegmentsOf(slug) + ["gallery", ".thumbnails", thumbName]
  }

  /** What the filesystem reports: the paths `fs.access` accepts, and `fs.stat` of each path. */
  datatype Stat = RegularFile | NotRegular | Missing | StatFailed
  datatype Disk = Disk(accessible: set<Segments>, stat: map<Segments, Stat>)

  function StatOf(disk: Disk, p: Segments): Stat {
    if p in disk.stat then disk.stat[p] else Missing
  }

  /** The file the handler settles on before the traversal check. */
  function FilePath(root: Segments, route: Route, slug: string, name: string, size: Size, mime: Mime,
                    thumbName: string, disk: Disk): Segments
  {
    var original := OriginalPath(root, route, slug, name);
    if size == Original || !mime.ImageMime? then original
    else
      var thumb := ThumbnailPath(root, route, slug, name, thumbName);
      if Normalize(thumb) in disk.accessible then thumb else original
  }

  datatype MediaAnswer = InvalidSize | Forbidden | FileNotFound | ImageNotFound | Failed | Serve(path: Segments, mimeType: Mime)

  /** `fs.stat` and the answer it leads to. */
  function StatAnswer(resolved: Segments, mime: Mime, disk: Disk): (r: MediaAnswer)
    ensures r == Serve(resolved, mime) <==> StatOf(disk, resolved) == RegularFile
    ensures r == FileNotFound <==> StatOf(disk, resolved) == NotRegular
    ensures r == ImageNotFound <==> StatOf(disk, resolved) == Missing
    ensures r != InvalidSize && r != Forbidden
  {
    match StatOf(disk, resolved)
    case RegularFile => Serve(resolved, mime)
    case NotRegular => FileNotFound
    case Missing => ImageNotFound
    case StatFailed => Failed
  }

  /** The name the request's file has, and its type from the lower-cased extension. */
  function BaseOf(route: Route, name: string): string {
    ContentScanning.Basename(FileName(route, name))
  }

  function ExtOf(route: Route, name: string): string {
    Lower(ContentScanning.Extname(BaseOf(route, name)))
  }

  // ---------------------------------------------------------------------------
  // As written

  /** `path.basename(base, ext)`: removes `ext` only where `base` ends with it exactly. */
  function BasenameStrip(base: string, ext: string): string {
    if ext != "" && |ext| < |base| && EndsWith(base, ext) then base[..|base| - |ext|] else base
  }

  /** `resolvedPath.startsWith(contentDirResolved)`: a string prefix, not a path prefix. */
  predicate GuardAsWritten(root: Segments, resolved: Segments) {
    StartsWith(Render(resolved), Render(root))
  }

  function ServeMediaAsWritten(root: Segments, route: Route, slug: string, name: string, sizeQuery: Option<string>, disk: Disk)
    : MediaAnswer
  {
    match ParseSize(RequestedSize(sizeQuery))
    case None => InvalidSize
    case Some(size) =>
      var mime := MimeOf(ExtOf(route, name));
      var thumbName := BasenameStrip(BaseOf(route, name), ExtOf(route, name)) + Suffix(size) + ".webp";
      var resolved := Normalize(FilePath(root, route, slug, name, size, mime, thumbName, disk));
      if !GuardAsWritten(root, resolved) then Forbidden else StatAnswer(resolved, mime, disk)
  }

  /** `/..` then a sibling and a file, from inside `root`, resolves to that file in the sibling. */
  lemma ClimbToSibling(base: Segments, d: string, sibling: string, name: string)
    requires Clean(base + [d])
    requires sibling != "" && sibling != "." && sibling != ".."
    requires name != "" && name != "." && name != ".."
    ensures Normalize(base + [d] + [".."] + [sibling, name]) == base + [sibling, name]
  {
    var root := base + [d];
    var up := root + [".."];
    NormalizeClean(root);
    NormalizeSnoc(root, "..");
    assert root[..|root| - 1] == base;
    NormalizeSnoc(up, sibling);
    NormalizeSnoc(up + [sibling], name);
    assert base + [d] + [".."] + [sibling, name] == up + [sibling] + [name];
  }

  lemma NormalizeSnoc(p: Segments, x: string)
    ensures Normalize(p + [x]) == Step(Normalize(p), x)
  {
    assert (p + [x])[..|p|] == p;
  }

  lemma NotParent(d: string, more: string)
    requires d != "" && d != "." && more != []
    ensures d + more != "" && d + more != "." && d + more != ".."
  {
    assert |d + more| >= 2;
    if |d + more| == 2 {
      assert d == [(d + more)[0]];
    }
  }

  /** No `size` query means `original`. */
  lemma DefaultIsOriginal()
    ensures ParseSize(RequestedSize(None)) == Some(Original)
  {
  }

  lemma OriginalIgnoresThumbnail(root: Segments, route: Route, slug: string, name: string, mime: Mime, thumbName: string, disk: Disk)
    ensures FilePath(root, route, slug, name, Original, mime, thumbName, disk) == OriginalPath(root, route, slug, name)
  {
  }

  /** A sibling whose name extends the directory's own passes the string-prefix check. */
  lemma SiblingPassesPrefix(base: Segments, d: string, more: string, name: string)
    ensures GuardAsWritten(base + [d], base + [d + more, name])
  {
    var resolved := base + [d + more, name];
    if base == [] {
      JoinLast("/", [d + more], name);
      assert [d + more] + [name] == resolved;
    } else {
      JoinLast("/", base, d);
      assert resolved == base + [d + more] + [name];
      JoinLast("/", base, d + more);
      JoinLast("/", base + [d + more], name);
    }
  }

  /**
    * The prefix check admits a sibling of the content directory whose name
    * extends the directory's own: under `<base>/<d>`, the request
    * `/../<d><more>/<name>` (slug `..`) reads `<base>/<d><more>/<name>`.
    */
  lemma TraversalToSibling(base: Segments, d: string, more: string, name: string, disk: Disk)
    requires Clean(base + [d]) && '/' !in d && more != [] && '/' !in more && '/' !in name
    requires name != "" && name != "." && name != ".."
    requires StatOf(disk, base + [d + more, name]) == RegularFile
    ensures var r := ServeMediaAsWritten(base + [d], Nested(d + more), "..", name, None, disk);
      r.Serve? && !(base + [d] <= r.path)
  {
    var root := base + [d];
    var sibling := d + more;
    assert root[|base|] == d;
    NotParent(d, more);
    SegmentsOfName("..");
    SegmentsOfPair(sibling, name);
    assert OriginalPath(root, Nested(sibling), "..", name) == root + [".."] + [sibling, name];
    ClimbToSibling(base, d, sibling, name);
    var resolved := base + [sibling, name];
    SiblingPassesPrefix(base, d, more, name);
    DefaultIsOriginal();
    var thumbName := BasenameStrip(BaseOf(Nested(sibling), name), ExtOf(Nested(sibling), name)) + Suffix(Original) + ".webp";
    OriginalIgnoresThumbnail(root, Nested(sibling), "..", name, MimeOf(ExtOf(Nested(sibling), name)), thumbName, disk);
    assert ServeMediaAsWritten(root, Nested(sibling), "..", name, None, disk) == Serve(resolved, MimeOf(ExtOf(Nested(sibling), name)));
    assert resolved[|base|] == sibling && |sibling| > |d|;
  }

  /** An upper-case extension is not stripped: `IMG.JPG` looks for `IMG.JPG_640w.webp`, not the scanner's `IMG_640w.webp`. */
  lemma UpperCaseExtensionKept()
    ensures var base := "IMG.JPG";
      var ext := Lower(ContentScanning.Extname(base));
      ext == ".jpg" && BasenameStrip(base, ext) == "IMG.JPG" && ContentScanning.StemOf(base) == "IMG"
  {
    var base := "IMG.JPG";
    assert RFind(base, '.') == 3 by {
      assert base[3] == '.';
      assert RFind(base[..6], '.') == RFind(base[..5], '.');
      assert base[..5][..4] == base[..4];
    }
    assert ContentScanning.Extname(base) == ".JPG";
    assert Lower(".JPG") == ".jpg";
  }

  // ---------------------------------------------------------------------------
  // Corrected

  /** The guard compared segment by segment: the content directory itself or something under it. */
  predicate Inside(root: Segments, resolved: Segments) {
    root <= resolved
  }

  /** The thumbnail a size names: the original's name without its own extension, the size suffix, `.webp`. */
  function ThumbnailName(base: string, size: Size): string {
    ContentScanning.StemOf(base) + Suffix(size) + ".webp"
  }

  /** The resolved file a valid request settles on. */
  function MediaFile(root: Segments, route: Route, slug: string, name: string, size: Size, disk: Disk): Segments {
    Normalize(FilePath(root, route, slug, name, size, MimeOf(ExtOf(route, name)), ThumbnailName(BaseOf(route, name), size), disk))
  }

  /** The three handlers, with the two corrections. */
  function ServeMedia(root: Segments, route: Route, slug: string, name: string, sizeQuery: Option<string>, disk: Disk)
    : MediaAnswer
  {
    match ParseSize(RequestedSize(sizeQuery))
    case None => InvalidSize
    case Some(size) =>
      var resolved := MediaFile(root, route, slug, name, size, disk);
      if !Inside(root, resolved) then Forbidden else StatAnswer(resolved, MimeOf(ExtOf(route, name)), disk)
  }

  /** Only a file inside the content directory is ever served; the check implies the as-written one. */
  lemma ServedInside(root: Segments, route: Route, slug: string, name: string, sizeQuery: Option<string>, disk: Disk)
    ensures var r := ServeMedia(root, route, slug, name, sizeQuery, disk);
      r.Serve? ==> Inside(root, r.path) && GuardAsWritten(root, r.path)
  {
    var r := ServeMedia(root, route, slug, name, sizeQuery, disk);
    if r.Serve? {
      RenderPrefix(root, r.path);
    }
  }

  /**
    * A size outside the seven names and the inherited ones is refused before
    * anything else, whatever the filesystem holds.
    */
  lemma InvalidSizeFirst(root: Segments, route: Route, slug: string, name: string, sizeQuery: Option<string>, disk: Disk)
    ensures ServeMedia(root, route, slug, name, sizeQuery, disk) == InvalidSize <==>
      RequestedSize(sizeQuery) !in SizeNames && RequestedSize(sizeQuery) !in ObjectPrototypeNames
    ensures ServeMediaAsWritten(root, route, slug, name, sizeQuery, disk) == InvalidSize <==>
      RequestedSize(sizeQuery) !in SizeNames && RequestedSize(sizeQuery) !in ObjectPrototypeNames
  {
    ParseSizeSpec(RequestedSize(sizeQuery));
  }

  /** `toString` passes the size check as an inherited name, with the built-in function's text as its suffix. */
  lemma ToStringIsInherited()
    ensures ParseSize("toString") == Some(Inherited("toString"))
    ensures Suffix(Inherited("toString")) == "function toString() { [native code] }"
  {
    assert ObjectPrototypeNames[8] == "toString";
  }

  /**
    * `?size=toString` on an image passes the size check, and when no thumbnail
    * of that name exists the original is served.
    */
  lemma InheritedSizeFallsBack(root: Segments, route: Route, slug: string, name: string, disk: Disk)
    requires MimeOf(ExtOf(route, name)).ImageMime?
    ensures ServeMediaAsWritten(root, route, slug, name, Some("toString"), disk) != InvalidSize
    ensures var thumbName := BasenameStrip(BaseOf(route, name), ExtOf(route, name)) + Suffix(Inherited("toString")) + ".webp";
      Normalize(ThumbnailPath(root, route, slug, name, thumbName)) !in disk.accessible ==>
        FilePath(root, route, slug, name, Inherited("toString"), MimeOf(ExtOf(route, name)), thumbName, disk) ==
        OriginalPath(root, route, slug, name)
  {
    ToStringIsInherited();
  }

  /** A refused path is refused whatever `fs.stat` would say: no file is looked at. */
  lemma ForbiddenReadsNothing(root: Segments, route: Route, slug: string, name: string, sizeQuery: Option<string>,
                              accessible: set<Segments>, stat1: map<Segments, Stat>, stat2: map<Segments, Stat>)
    requires ServeMedia(root, route, slug, name, sizeQuery, Disk(accessible, stat1)) == Forbidden
    ensures ServeMedia(root, route, slug, name, sizeQuery, Disk(accessible, stat2)) == Forbidden
  {
    var size := ParseSize(RequestedSize(sizeQuery)).value;
    MediaFileIgnoresStat(root, route, slug, name, size, accessible, stat1, stat2);
  }

  /** Which file is chosen depends on `fs.access` alone. */
  lemma MediaFileIgnoresStat(root: Segments, route: Route, slug: string, name: string, size: Size,
                             accessible: set<Segments>, stat1: map<Segments, Stat>, stat2: map<Segments, Stat>)
    ensures MediaFile(root, route, slug, name, size, Disk(accessible, stat1)) ==
      MediaFile(root, route, slug, name, size, Disk(accessible, stat2))
  {
  }

  /** The original is served at size `original` and for anything that is not an image. */
  lemma OriginalWhenNotThumbnail(root: Segments, route: Route, slug: string, name: string, sizeQuery: Option<string>, disk: Disk)
    requires RequestedSize(sizeQuery) == "original" || !MimeOf(ExtOf(route, name)).ImageMime?
    ensures var r := ServeMedia(root, route, slug, name, sizeQuery, disk);
      r.Serve? ==> r.path == Normalize(OriginalPath(root, route, slug, name))
  {
    ParseSizeSpec(RequestedSize(sizeQuery));
  }

  /** An image at a thumbnail size is served from `.thumbnails` when that file is there, and from the original otherwise. */
  lemma ThumbnailWhenAccessible(root: Segments, route: Route, slug: string, name: string, size: Size, disk: Disk)
    requires size != Original && MimeOf(ExtOf(route, name)).ImageMime?
    ensures var thumb := Normalize(ThumbnailPath(root, route, slug, name, ThumbnailName(BaseOf(route, name), size)));
      var file := MediaFile(root, route, slug, name, size, disk);
      (thumb in disk.accessible ==> file == thumb) &&
      (thumb !in disk.accessible ==> file == Normalize(OriginalPath(root, route, slug, name)))
  {
  }

  /** Every valid request is answered from `MediaFile`: the thumbnail choice above is what is served. */
  lemma ServesMediaFile(root: Segments, route: Route, slug: string, name: string, sizeQuery: Option<string>, disk: Disk)
    requires ParseSize(RequestedSize(sizeQuery)).Some?
    ensures var file := MediaFile(root, route, slug, name, ParseSize(RequestedSize(sizeQuery)).value, disk);
      var r := ServeMedia(root, route, slug, name, sizeQuery, disk);
      (r == Forbidden <==> !Inside(root, file)) &&
      (Inside(root, file) && StatOf(disk, file) == RegularFile ==> r == Serve(file, MimeOf(ExtOf(route, name))))
  {
  }

  lemma DirnameOfPair(a: string, b: string)
    requires '/' !in a && '/' !in b
    ensures ContentScanning.Dirname(a + "/" + b) == a
  {
    var s := a + "/" + b;
    assert RFind(s, '/') == |a| by {
      assert s[|a|] == '/';
      forall j | |a| < j < |s| ensures s[j] != '/' {
        assert s[j] == b[j - |a| - 1];
      }
    }
    assert s[..|a|] == a;
  }

  /** Segments appended under `root` that hold no '..' stay under it. */
  lemma UnderRoot(root: Segments, slugParts: Segments, tail: Segments)
    requires Clean(root)
    requires forall i :: 0 <= i < |slugParts| ==> slugParts[i] != ".."
    requires forall i :: 0 <= i < |tail| ==> tail[i] != ".."
    ensures root <= Normalize(root + slugParts + tail)
  {
    var x := slugParts + tail;
    assert root + slugParts + tail == root + x;
    NoParentAppend(slugParts, tail);
    NormalizeKeepsRoot(root, x);
  }

  lemma NoParentAppend(a: Segments, b: Segments)
    requires forall i :: 0 <= i < |a| ==> a[i] != ".."
    requires forall i :: 0 <= i < |b| ==> b[i] != ".."
    ensures forall i :: 0 <= i < |a + b| ==> (a + b)[i] != ".."
  {
    forall i | 0 <= i < |a + b| ensures (a + b)[i] != ".." {
      if i >= |a| {
        assert (a + b)[i] == b[i - |a|];
      }
    }
  }

  /** With no '..' in the request, the original lies under the content directory. */
  lemma PlainOriginal(root: Segments, route: Route, slug: string, name: string)
    requires Clean(root) && '/' !in name && name != ".."
    requires forall i :: 0 <= i < |SegmentsOf(slug)| ==> SegmentsOf(slug)[i] != ".."
    requires route.Nested? ==> '/' !in route.subdirectory && route.subdirectory != ".."
    ensures root <= Normalize(OriginalPath(root, route, slug, name))
  {
    SegmentsOfName(name);
    match route
    case Nested(sub) =>
      SegmentsOfPair(sub, name);
      UnderRoot(root, SegmentsOf(slug), [sub, name]);
    case RootLevel =>
      UnderRoot(root, SegmentsOf(slug), [name]);
    case Gallery =>
      UnderRoot(root, SegmentsOf(slug), ["gallery", name]);
      assert root + SegmentsOf(slug) + ["gallery"] + [name] == root + SegmentsOf(slug) + ["gallery", name];
  }

  /** With no '..' in the request, the thumbnail lies under the content directory. */
  lemma PlainThumbnail(root: Segments, route: Route, slug: string, name: string, thumbName: string)
    requires Clean(root) && '/' !in name && name != ".."
    requires forall i :: 0 <= i < |SegmentsOf(slug)| ==> SegmentsOf(slug)[i] != ".."
    requires route.Nested? ==> '/' !in route.subdirectory && route.subdirectory != ".."
    requires thumbName != ".."
    ensures root <= Normalize(ThumbnailPath(root, route, slug, name, thumbName))
  {
    match route
    case Nested(sub) =>
      DirnameOfPair(sub, name);
      SegmentsOfName(sub);
      UnderRoot(root, SegmentsOf(slug), [sub, ".thumbnails", thumbName]);
      assert root + SegmentsOf(slug) + [sub] + [".thumbnails", thumbName] == root + SegmentsOf(slug) + [sub, ".thumbnails", thumbName];
      UnderRoot(root, SegmentsOf(slug), [".thumbnails", thumbName]);
    case RootLevel =>
      UnderRoot(root, SegmentsOf(slug), [".thumbnails", thumbName]);
    case Gallery =>
      UnderRoot(root, SegmentsOf(slug), ["gallery", ".thumbnails", thumbName]);
  }

  /** The file chosen lies under `root` when both candidates do. */
  lemma FilePathUnder(root: Segments, route: Route, slug: string, name: string, size: Size, mime: Mime, thumbName: string, disk: Disk)
    requires root <= Normalize(OriginalPath(root, route, slug, name))
    requires root <= Normalize(ThumbnailPath(root, route, slug, name, thumbName))
    ensures root <= Normalize(FilePath(root, route, slug, name, size, mime, thumbName, disk))
  {
  }

  /** A request none of whose parts climbs with '..' is never refused. */
  lemma PlainRequestsAdmitted(root: Segments, route: Route, slug: string, name: string, sizeQuery: Option<string>, disk: Disk)
    requires Clean(root) && '/' !in name && name != ".."
    requires forall i :: 0 <= i < |SegmentsOf(slug)| ==> SegmentsOf(slug)[i] != ".."
    requires route.Nested? ==> '/' !in route.subdirectory && route.subdirectory != ".."
    ensures ServeMedia(root, route, slug, name, sizeQuery, disk) != Forbidden
  {
    if ParseSize(RequestedSize(sizeQuery)).Some? {
      var size := ParseSize(RequestedSize(sizeQuery)).value;
      var thumbName := ThumbnailName(BaseOf(route, name), size);
      WebpNameNotParent(ContentScanning.StemOf(BaseOf(route, name)) + Suffix(size));
      PlainOriginal(root, route, slug, name);
      PlainThumbnail(root, route, slug, name, thumbName);
      FilePathUnder(root, route, slug, name, size, MimeOf(ExtOf(route, name)), thumbName, disk);
    }
  }

  /** The as-written check admits the same plain requests. */
  lemma PlainRequestsAdmittedAsWritten(root: Segments, route: Route, slug: string, name: string, sizeQuery: Option<string>, disk: Disk)
    requires Clean(root) && '/' !in name && name != ".."
    requires forall i :: 0 <= i < |SegmentsOf(slug)| ==> SegmentsOf(slug)[i] != ".."
    requires route.Nested? ==> '/' !in route.subdirectory && route.subdirectory != ".."
    ensures ServeMediaAsWritten(root, route, slug, name, sizeQuery, disk) != Forbidden
  {
    if ParseSize(RequestedSize(sizeQuery)).Some? {
      var size := ParseSize(RequestedSize(sizeQuery)).value;
      var thumbName := BasenameStrip(BaseOf(route, name), ExtOf(route, name)) + Suffix(size) + ".webp";
      WebpNameNotParent(BasenameStrip(BaseOf(route, name), ExtOf(route, name)) + Suffix(size));
      PlainOriginal(root, route, slug, name);
      PlainThumbnail(root, route, slug, name, thumbName);
      var mime := MimeOf(ExtOf(route, name));
      FilePathUnder(root, route, slug, name, size, mime, thumbName, disk);
      RenderPrefix(root, Normalize(FilePath(root, route, slug, name, size, mime, thumbName, disk)));
    }
  }

  lemma WebpNameNotParent(stem: string)
    ensures stem + ".webp" != ".."
  {
    assert |stem + ".webp"| >= 5;
  }

  /** For a name without '/', the gallery handler and the subdirectory handler for `gallery` name the same files. */
  lemma GalleryPathsAgree(root: Segments, slug: string, name: string, thumbName: string)
    requires '/' !in name
    ensures BaseOf(Gallery, name) == BaseOf(Nested("gallery"), name)
    ensures OriginalPath(root, Gallery, slug, name) == OriginalPath(root, Nested("gallery"), slug, name)
    ensures ThumbnailPath(root, Gallery, slug, name, thumbName) == ThumbnailPath(root, Nested("gallery"), slug, name, thumbName)
  {
    BasenameAfterSlash("gallery", name);
    ContentScanning.BasenameOfName(name);
    GalleryOriginal(root, slug, name);
    GalleryThumbnail(root, slug, name, thumbName);
  }

  lemma GalleryOriginal(root: Segments, slug: string, name: string)
    requires '/' !in name
    ensures OriginalPath(root, Gallery, slug, name) == OriginalPath(root, Nested("gallery"), slug, name)
  {
    SegmentsOfName(name);
    SegmentsOfPair("gallery", name);
    assert root + SegmentsOf(slug) + ["gallery"] + [name] == root + SegmentsOf(slug) + ["gallery", name];
  }

  lemma GalleryThumbnail(root: Segments, slug: string, name: string, thumbName: string)
    requires '/' !in name
    ensures ThumbnailPath(root, Gallery, slug, name, thumbName) == ThumbnailPath(root, Nested("gallery"), slug, name, thumbName)
  {
    GalleryThumbDir(name);
    assert root + SegmentsOf(slug) + ["gallery"] + [".thumbnails", thumbName] == root + SegmentsOf(slug) + ["gallery", ".thumbnails", thumbName];
  }

  lemma GalleryThumbDir(name: string)
    requires '/' !in name
    ensures var dirName := ContentScanning.Dirname("gallery" + "/" + name);
      dirName != "" && dirName != "." && SegmentsOf(dirName) == ["gallery"]
  {
    DirnameOfPair("gallery", name);
    SegmentsOfName("gallery");
  }

  /** The gallery handler, were it reached, would answer what the subdirectory handler answers for `gallery`. */
  lemma GalleryRouteRedundant(root: Segments, slug: string, name: string, sizeQuery: Option<string>, disk: Disk)
    requires '/' !in name
    ensures ServeMedia(root, Gallery, slug, name, sizeQuery, disk) == ServeMedia(root, Nested("gallery"), slug, name, sizeQuery, disk)
  {
    BasenameAfterSlash("gallery", name);
    ContentScanning.BasenameOfName(name);
    assert ExtOf(Gallery, name) == ExtOf(Nested("gallery"), name);
    if ParseSize(RequestedSize(sizeQuery)).Some? {
      GalleryMediaFile(root, slug, name, ParseSize(RequestedSize(sizeQuery)).value, disk);
    }
    SameFileSameAnswer(root, Gallery, Nested("gallery"), slug, name, sizeQuery, disk);
  }

  lemma GalleryMediaFile(root: Segments, slug: string, name: string, size: Size, disk: Disk)
    requires '/' !in name
    ensures MediaFile(root, Gallery, slug, name, size, disk) == MediaFile(root, Nested("gallery"), slug, name, size, disk)
  {
    var thumbName := ThumbnailName(BaseOf(Gallery, name), size);
    GalleryPathsAgree(root, slug, name, thumbName);
    assert ExtOf(Gallery, name) == ExtOf(Nested("gallery"), name);
    var mime := MimeOf(ExtOf(Gallery, name));
    FilePathsAgree(root, Gallery, Nested("gallery"), slug, name, size, mime, thumbName, disk);
  }

  /** Two routes that settle on the same file for the requested size give the same answer. */
  lemma SameFileSameAnswer(root: Segments, r1: Route, r2: Route, slug: string, name: string, sizeQuery: Option<string>, disk: Disk)
    requires ExtOf(r1, name) == ExtOf(r2, name)
    requires ParseSize(RequestedSize(sizeQuery)).Some? ==>
      var size := ParseSize(RequestedSize(sizeQuery)).value;
      MediaFile(root, r1, slug, name, size, disk) == MediaFile(root, r2, slug, name, size, disk)
    ensures ServeMedia(root, r1, slug, name, sizeQuery, disk) == ServeMedia(root, r2, slug, name, sizeQuery, disk)
  {
  }


  lemma FilePathsAgree(root: Segments, r1: Route, r2: Route, slug: string, name: string, size: Size, mime: Mime, thumbName: string, disk: Disk)
    requires OriginalPath(root, r1, slug, name) == OriginalPath(root, r2, slug, name)
    requires ThumbnailPath(root, r1, slug, name, thumbName) == ThumbnailPath(root, r2, slug, name, thumbName)
    ensures FilePath(root, r1, slug, name, size, mime, thumbName, disk) == FilePath(root, r2, slug, name, size, mime, thumbName, disk)
  {
  }

  /** No request is dispatched to the gallery handler. */
  lemma GalleryRouteUnreachable(params: seq<string>)
    ensures Dispatch(params).Some? ==> !Dispatch(params).value.0.Gallery?
    ensures |params| == 3 ==> Dispatch(params) == Some((Nested(params[1]), params[0], params[2]))
  {
  }

  lemma BasenameAfterSlash(a: string, b: string)
    requires '/' !in b
    ensures ContentScanning.Basename(a + "/" + b) == b
  {
    var s := a + "/" + b;
    assert RFind(s, '/') == |a| by {
      assert s[|a|] == '/';
      forall j | |a| < j < |s| ensures s[j] != '/' {
        assert s[j] == b[j - |a| - 1];
      }
    }
  }

  lemma ThumbPathSplit(p: string, w: nat)
    ensures ContentScanning.ThumbPath(p, w) ==
      (ContentScanning.Dirname(p) + "/.thumbnails") + "/" +
      (ContentScanning.StemOf(ContentScanning.Basename(p)) + "_" + NatToString(w) + "w.webp")
  {
    ThumbPathAssoc(ContentScanning.Dirname(p), ContentScanning.StemOf(ContentScanning.Basename(p)), NatToString(w));
  }

  lemma ThumbPathAssoc(dir: string, stem: string, width: string)
    ensures dir + "/.thumbnails/" + stem + "_" + width + "w.webp" ==
      (dir + "/.thumbnails") + "/" + (stem + "_" + width + "w.webp")
  {
    assert "/.thumbnails/" == "/.thumbnails" + "/";
  }

  lemma StemNoSlash(name: string)
    requires '/' !in name
    ensures '/' !in ContentScanning.StemOf(name)
  {
    var stem := ContentScanning.StemOf(name);
    assert stem + ContentScanning.Extname(name) == name;
    forall j | 0 <= j < |stem| ensures stem[j] != '/' {
      assert stem[j] == name[j];
    }
  }

  lemma TailNoSlash(stem: string, w: string)
    requires '/' !in stem && forall c :: c in w ==> IsDigit(c)
    ensures '/' !in stem + "_" + w + "w.webp"
  {
    assert !IsDigit('/');
  }

  lemma ThumbnailNameIsTail(name: string, size: Size)
    requires size != Original && !size.Inherited?
    ensures ThumbnailName(name, size) == ContentScanning.StemOf(name) + "_" + NatToString(Width(size)) + "w.webp"
  {
    var stem, w := ContentScanning.StemOf(name), NatToString(Width(size));
    SuffixIsWidth(size);
    assert ThumbnailName(name, size) == stem + Suffix(size) + ".webp";
    WebpTail(stem, w);
  }

  lemma WebpTail(stem: string, w: string)
    ensures stem + ("_" + w + "w") + ".webp" == stem + "_" + w + "w.webp"
  {
    assert "w" + ".webp" == "w.webp";
  }

  /** The thumbnail a size names is the file the scanner writes for that width. */
  lemma ThumbnailMatchesScanner(dir: string, name: string, size: Size)
    requires '/' !in name && size != Original && !size.Inherited?
    ensures ThumbnailName(name, size) ==
      ContentScanning.Basename(ContentScanning.ThumbPath(dir + "/" + name, Width(size)))
  {
    var p := dir + "/" + name;
    BasenameAfterSlash(dir, name);
    StemNoSlash(name);
    var tail := ContentScanning.StemOf(name) + "_" + NatToString(Width(size)) + "w.webp";
    TailNoSlash(ContentScanning.StemOf(name), NatToString(Width(size)));
    ThumbPathSplit(p, Width(size));
    BasenameAfterSlash(ContentScanning.Dirname(p) + "/.thumbnails", tail);
    ThumbnailNameIsTail(name, size);
  }
}
