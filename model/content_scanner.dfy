/**
  * `ContentScanner` of src/backend/src/services/ContentScanner.ts: derives
  * slugs and titles from directory and file names, classifies files by
  * extension, walks the content tree accumulating a `ScanResult`, and guards
  * `processImage` against re-entry through its `processing` set.
  *
  * Disk, image decoding, hashing and database access are inputs: every file
  * carries the facts those calls would report.
  */
module ContentScanning {
  import opened Wrappers
  import opened Text

  // ---------------------------------------------------------------------------
  // Paths (Node's `path.basename`, `path.dirname`, `path.extname`)

  /** The last path element. */
  function Basename(p: string): (r: string)
    ensures '/' !in r
    ensures EndsWith(p, r)
  {
    p[RFind(p, '/') + 1..]
  }

  /** Everything before the last '/', or "." when there is none. */
  function Dirname(p: string): string {
    var i := RFind(p, '/');
    if i < 0 then "." else p[..i]
  }

  /** `path.extname` of a name: from its last dot, unless that dot is the first character. */
  function Extname(name: string): (r: string)
    ensures r == [] || (r[0] == '.' && '.' !in r[1..] && EndsWith(name, r) && |r| < |name|)
  {
    var i := RFind(name, '.');
    if i > 0 then name[i..] else ""
  }

  /** `path.basename(name, path.extname(name))`: the name without its extension. */
  function StemOf(name: string): (r: string)
    ensures r + Extname(name) == name
  {
    var i := RFind(name, '.');
    if i > 0 then name[..i] else name
  }

  lemma BasenameOfName(name: string)
    requires '/' !in name
    ensures Basename(name) == name
  {
    assert RFind(name, '/') == -1;
  }

  // ---------------------------------------------------------------------------
  // generateSlug

  /** No two hyphens in a row. */
  predicate NoDoubleHyphen(s: string) {
    forall i :: 0 < i < |s| ==> s[i - 1] != '-' || s[i] != '-'
  }

  /** What a generated slug looks like: `[a-z0-9-]` only, no hyphen at either end, no "--". */
  predicate IsCleanSlug(s: string) {
    && (forall i :: 0 <= i < |s| ==> IsLowerAlnum(s[i]) || s[i] == '-')
    && (s != [] ==> s[0] != '-' && s[|s| - 1] != '-')
    && NoDoubleHyphen(s)
  }

  /** `.replace(/[^a-z0-9]+/g, '-')`: every maximal run of other characters becomes one hyphen. */
  function CollapseRuns(s: string): (r: string)
    ensures (r != [] && r[|r| - 1] == '-') <==> (s != [] && !IsLowerAlnum(s[|s| - 1]))
    ensures forall i :: 0 <= i < |r| ==> IsLowerAlnum(r[i]) || r[i] == '-'
    ensures NoDoubleHyphen(r)
  {
    if s == [] then []
    else
      var p := CollapseRuns(s[..|s| - 1]);
      var c := s[|s| - 1];
      if IsLowerAlnum(c) then p + [c]
      else if p != [] && p[|p| - 1] == '-' then p
      else p + "-"
  }

  /** `.replace(/^-+/, '')` */
  function TrimStart(s: string): (r: string)
    ensures |r| <= |s| && r == s[|s| - |r|..]
    ensures r == [] || r[0] != '-'
    ensures forall i :: 0 <= i < |s| - |r| ==> s[i] == '-'
  {
    if s != [] && s[0] == '-' then TrimStart(s[1..]) else s
  }

  /** `.replace(/-+$/, '')` */
  function TrimEnd(s: string): (r: string)
    ensures |r| <= |s| && r == s[..|r|]
    ensures r == [] || r[|r| - 1] != '-'
    ensures forall i :: |r| <= i < |s| ==> s[i] == '-'
  {
    if s != [] && s[|s| - 1] == '-' then TrimEnd(s[..|s| - 1]) else s
  }

  /** The slug of a single name. */
  function Slugify(name: string): string {
    TrimEnd(TrimStart(CollapseRuns(Lower(name))))
  }

  /** `generateSlug(dirPath)` */
  function GenerateSlug(dirPath: string): string {
    Slugify(Basename(dirPath))
  }

  /** Hyphens and lower-case letters and digits only, never two hyphens in a row. */
  predicate Collapsed(s: string) {
    (forall i :: 0 <= i < |s| ==> IsLowerAlnum(s[i]) || s[i] == '-') && NoDoubleHyphen(s)
  }

  lemma SliceCollapsed(s: string, a: nat, b: nat)
    requires Collapsed(s) && a <= b <= |s|
    ensures Collapsed(s[a..b])
  {
    var t := s[a..b];
    assert forall i :: 0 <= i < |t| ==> t[i] == s[a + i];
    forall i | 0 < i < |t| ensures t[i - 1] != '-' || t[i] != '-' {
      assert t[i - 1] == s[a + i - 1];
    }
  }

  /** Trimming a collapsed string leaves a clean slug. */
  lemma TrimmedClean(c: string)
    requires Collapsed(c)
    ensures IsCleanSlug(TrimEnd(TrimStart(c)))
  {
    var t := TrimStart(c);
    SliceCollapsed(c, |c| - |t|, |c|);
    var r := TrimEnd(t);
    SliceCollapsed(t, 0, |r|);
    if r != [] {
      assert r[0] == t[0];
    }
  }

  /** A generated slug holds only `[a-z0-9-]`, neither starts nor ends with '-', and has no "--". */
  lemma GenerateSlugClean(dirPath: string)
    ensures IsCleanSlug(GenerateSlug(dirPath))
  {
    TrimmedClean(CollapseRuns(Lower(Basename(dirPath))));
  }

  /** Collapsing leaves a string that is already in collapsed form unchanged. */
  lemma {:induction false} CollapseRunsFixed(s: string)
    requires forall i :: 0 <= i < |s| ==> IsLowerAlnum(s[i]) || s[i] == '-'
    requires NoDoubleHyphen(s)
    ensures CollapseRuns(s) == s
  {
    if s != [] {
      var front := s[..|s| - 1];
      assert forall i :: 0 <= i < |front| ==> front[i] == s[i];
      CollapseRunsFixed(front);
      if !IsLowerAlnum(s[|s| - 1]) && |s| >= 2 {
        assert s[|s| - 2] != '-';
      }
      assert front + [s[|s| - 1]] == s;
    }
  }

  /** Re-slugging a clean slug returns it unchanged. */
  lemma SlugifyClean(s: string)
    requires IsCleanSlug(s)
    ensures Slugify(s) == s
  {
    assert Lower(s) == s;
    CollapseRunsFixed(s);
  }

  /** generateSlug is idempotent. */
  lemma GenerateSlugIdempotent(dirPath: string)
    ensures GenerateSlug(GenerateSlug(dirPath)) == GenerateSlug(dirPath)
  {
    var s := GenerateSlug(dirPath);
    GenerateSlugClean(dirPath);
    assert forall i :: 0 <= i < |s| ==> s[i] != '/';
    BasenameOfName(s);
    SlugifyClean(s);
  }

  /** The letters and digits of a string, in order. */
  function AlnumOf(s: string): (r: string)
    ensures forall c :: c in r ==> IsLowerAlnum(c)
  {
    if s == [] then []
    else AlnumOf(s[..|s| - 1]) + (if IsLowerAlnum(s[|s| - 1]) then [s[|s| - 1]] else [])
  }

  lemma {:induction false} AlnumOfAppend(a: string, b: string)
    ensures AlnumOf(a + b) == AlnumOf(a) + AlnumOf(b)
    decreases |b|
  {
    if b != [] {
      var front := b[..|b| - 1];
      assert (a + b)[..|a + b| - 1] == a + front;
      AlnumOfAppend(a, front);
    } else {
      assert a + b == a;
    }
  }

  lemma {:induction false} AlnumOfHyphens(s: string)
    requires forall i :: 0 <= i < |s| ==> s[i] == '-'
    ensures AlnumOf(s) == []
  {
    if s != [] {
      AlnumOfHyphens(s[..|s| - 1]);
    }
  }

  lemma {:induction false} AlnumOfCollapse(s: string)
    ensures AlnumOf(CollapseRuns(s)) == AlnumOf(s)
  {
    if s != [] {
      var front := s[..|s| - 1];
      var p := CollapseRuns(front);
      AlnumOfCollapse(front);
      var c := s[|s| - 1];
      if IsLowerAlnum(c) {
        assert (p + [c])[..|p + [c]| - 1] == p;
      } else if !(p != [] && p[|p| - 1] == '-') {
        assert (p + "-")[..|p|] == p;
      }
    }
  }

  lemma AlnumOfTrimStart(c: string)
    ensures AlnumOf(TrimStart(c)) == AlnumOf(c)
  {
    var t := TrimStart(c);
    var h := c[..|c| - |t|];
    assert c == h + t;
    AlnumOfAppend(h, t);
    assert forall i :: 0 <= i < |h| ==> h[i] == c[i];
    AlnumOfHyphens(h);
  }

  lemma AlnumOfTrimEnd(t: string)
    ensures AlnumOf(TrimEnd(t)) == AlnumOf(t)
  {
    var r := TrimEnd(t);
    var h := t[|r|..];
    assert t == r + h;
    AlnumOfAppend(r, h);
    assert forall i :: 0 <= i < |h| ==> h[i] == t[|r| + i];
    AlnumOfHyphens(h);
  }

  /** Trimming hyphens from both ends keeps the letters and digits. */
  lemma AlnumOfTrimmed(c: string)
    ensures AlnumOf(TrimEnd(TrimStart(c))) == AlnumOf(c)
  {
    AlnumOfTrimStart(c);
    AlnumOfTrimEnd(TrimStart(c));
  }

  /** A slug keeps exactly the letters and digits of the lower-cased directory name, in order. */
  lemma SlugKeepsAlnum(dirPath: string)
    ensures AlnumOf(GenerateSlug(dirPath)) == AlnumOf(Lower(Basename(dirPath)))
  {
    AlnumOfCollapse(Lower(Basename(dirPath)));
    AlnumOfTrimmed(CollapseRuns(Lower(Basename(dirPath))));
  }

  // ---------------------------------------------------------------------------
  // formatTitle and extractTitle

  /** `\w` */
  predicate IsWordChar(c: char) {
    'a' <= c <= 'z' || 'A' <= c <= 'Z' || IsDigit(c) || c == '_'
  }

  /** `.replace(/[-_]/g, ' ')` */
  function Spaced(s: string): string {
    ReplaceChar(ReplaceChar(s, '-', ' '), '_', ' ')
  }

  /** Position `i` matches `\b\w`: a word character not preceded by one. */
  predicate StartsWord(t: string, i: nat)
    requires i < |t|
  {
    IsWordChar(t[i]) && (i == 0 || !IsWordChar(t[i - 1]))
  }

  /** `.replace(/\b\w/g, c => c.toUpperCase())` */
  function Capitalize(t: string): string {
    seq(|t|, i requires 0 <= i < |t| => if StartsWord(t, i) then UpperChar(t[i]) else t[i])
  }

  /** `formatTitle(str)` */
  function FormatTitle(s: string): string {
    Capitalize(Spaced(s))
  }

  /** `extractTitle(filePath)`: the title of the file name without its extension. */
  function ExtractTitle(filePath: string): string {
    FormatTitle(StemOf(Basename(filePath)))
  }

  /**
    * A title has the length of its source, contains no '-' or '_', differs
    * from the spaced source only in letter case, and starts every word with a
    * character that is not a lower-case letter.
    */
  lemma FormatTitleShape(s: string)
    ensures var r := FormatTitle(s);
      && |r| == |s|
      && '-' !in r && '_' !in r
      && Lower(r) == Lower(Spaced(s))
      && (forall i :: 0 <= i < |r| && StartsWord(Spaced(s), i) ==> !('a' <= r[i] <= 'z'))
      && (forall i :: 0 <= i < |r| && !StartsWord(Spaced(s), i) ==> r[i] == Spaced(s)[i])
  {
    var t := Spaced(s);
    var r := FormatTitle(s);
    assert forall i :: 0 <= i < |t| ==> t[i] != '-' && t[i] != '_';
    assert '-' !in r && '_' !in r by {
      forall i | 0 <= i < |r| ensures r[i] != '-' && r[i] != '_' {
      }
    }
    assert Lower(r) == Lower(t) by {
      forall i | 0 <= i < |r| ensures LowerChar(r[i]) == LowerChar(t[i]) {
      }
    }
  }

  /** Formatting a title again changes nothing. */
  lemma FormatTitleIdempotent(s: string)
    ensures FormatTitle(FormatTitle(s)) == FormatTitle(s)
  {
    var t := Spaced(s);
    var r := FormatTitle(s);
    FormatTitleShape(s);
    assert Spaced(r) == r by {
      forall i | 0 <= i < |r| ensures Spaced(r)[i] == r[i] {
        assert r[i] in r;
      }
    }
    assert forall i :: 0 <= i < |r| ==> (IsWordChar(r[i]) <==> IsWordChar(t[i]));
    assert forall i :: 0 <= i < |r| ==> (StartsWord(r, i) <==> StartsWord(t, i));
  }

  /** The title of a file inside a directory is the title of its own stem. */
  lemma ExtractTitleOfFile(dir: string, name: string)
    requires '/' !in name
    ensures ExtractTitle(dir + "/" + name) == FormatTitle(StemOf(name))
  {
    var p := dir + "/" + name;
    assert RFind(p, '/') == |dir| by {
      assert p[|dir|] == '/';
      forall j | |dir| < j < |p| ensures p[j] != '/' {
        assert p[j] == name[j - |dir| - 1];
      }
    }
    assert p[|dir| + 1..] == name;
  }

  // ---------------------------------------------------------------------------
  // Supported formats and classification

  const DefaultFormats: string := "jpg,jpeg,png,webp,avif,gif,tiff,bmp"
  const DefaultImageSizes: seq<nat> := [640, 750, 828, 1080, 1200, 1920, 2048, 3840]
  const DocumentExtensions: set<string> := {"md", "txt"}

  /** `new Set(formats.split(',').map(f => f.toLowerCase()))` */
  function ParseFormats(formats: string): (r: set<string>)
    ensures forall f :: f in r ==> Lower(f) == f
    ensures forall p :: p in Split(formats, ',') ==> Lower(p) in r
  {
    var parts := Split(formats, ',');
    forall p | p in parts ensures Lower(Lower(p)) == Lower(p) {
      LowerIdempotent(p);
    }
    set p | p in parts :: Lower(p)
  }

  /** `path.extname(name).toLowerCase().slice(1)`: the lower-case extension without its dot. */
  function FileExt(name: string): string {
    var e := Extname(name);
    Lower(if e == [] then [] else e[1..])
  }

  /** The extension compared with the formats is lower case and has no dot. */
  lemma FileExtShape(name: string)
    ensures Lower(FileExt(name)) == FileExt(name)
    ensures '.' !in FileExt(name)
  {
    var e := Extname(name);
    LowerIdempotent(if e == [] then [] else e[1..]);
  }

  datatype FileKind = ImageFile | VideoFile | DocumentFile | OtherFile

  /** Which branch of the scanning loop a file takes: images first, then mp4, then md/txt. */
  function Classify(name: string, formats: set<string>): FileKind {
    KindOfExt(FileExt(name), formats)
  }

  function KindOfExt(ext: string, formats: set<string>): FileKind {
    if ext in formats then ImageFile
    else if ext == "mp4" then VideoFile
    else if ext in DocumentExtensions then DocumentFile
    else OtherFile
  }

  /**
    * A file is an image exactly when its extension is a supported format, a
    * video when it is otherwise "mp4" (so an "mp4" listed among the formats
    * is an image), and a document when it is otherwise "md" or "txt".
    */
  lemma ClassifySpec(name: string, formats: set<string>)
    ensures var k := Classify(name, formats);
      && (k == ImageFile <==> FileExt(name) in formats)
      && (k == VideoFile <==> FileExt(name) !in formats && FileExt(name) == "mp4")
      && (k == DocumentFile <==> FileExt(name) !in formats && FileExt(name) != "mp4" && FileExt(name) in DocumentExtensions)
  {
  }

  /** Upper-case extensions are supported as well: the match is on the lower-cased extension. */
  lemma ClassifyIgnoresCase(stem: string, ext: string, formats: set<string>)
    requires stem != [] && '.' !in ext && ext != []
    ensures Classify(stem + "." + ext, formats) == Classify(stem + "." + Lower(ext), formats)
  {
    FileExtOfDotted(stem, ext);
    assert '.' !in Lower(ext) by {
      forall j | 0 <= j < |ext| ensures Lower(ext)[j] != '.' {
        assert ext[j] != '.';
      }
    }
    FileExtOfDotted(stem, Lower(ext));
    LowerIdempotent(ext);
    assert FileExt(stem + "." + ext) == FileExt(stem + "." + Lower(ext));
  }

  /** The extension of `stem.ext` is the lower-cased `ext`, when `ext` holds no dot. */
  lemma FileExtOfDotted(stem: string, ext: string)
    requires stem != [] && '.' !in ext && ext != []
    ensures FileExt(stem + "." + ext) == Lower(ext)
  {
    var a := stem + "." + ext;
    assert RFind(a, '.') == |stem| by {
      assert a[|stem|] == '.';
      forall j | |stem| < j < |a| ensures a[j] != '.' {
        assert a[j] == ext[j - |stem| - 1];
      }
    }
    assert Extname(a)[1..] == ext;
  }

  // ---------------------------------------------------------------------------
  // processImage

  /** What the database holds for an image path: no row, or a row with the hash recorded in its EXIF data. */
  datatype StoredRow = NoRow | Row(exifHash: Option<string>)

  /**
    * What disk, sharp, hashing and the database report for one file: the error
    * the first failing call throws (if any), the decoded width, the content
    * hash, and the existing row.
    */
  datatype FileFacts = FileFacts(failure: Option<string>, width: nat, hash: string, stored: StoredRow)

  /** `<dir>/.thumbnails/<stem>_<size>w.webp`, next to the original. */
  function ThumbPath(imagePath: string, size: nat): string {
    Dirname(imagePath) + "/.thumbnails/" + StemOf(Basename(imagePath)) + "_" + NatToString(size) + "w.webp"
  }

  /** The `thumbnails` record after the loop over `sizes`, keyed by width (`${size}w`). */
  function ThumbnailPlan(imagePath: string, sizes: seq<nat>, width: nat): (m: map<nat, string>)
    ensures forall n :: n in m <==> n in sizes && n < width
    ensures forall n :: n in m ==> m[n] == ThumbPath(imagePath, n)
  {
    if sizes == [] then map[]
    else
      var m := ThumbnailPlan(imagePath, sizes[..|sizes| - 1], width);
      var n := sizes[|sizes| - 1];
      assert forall x :: x in sizes <==> x in sizes[..|sizes| - 1] || x == n;
      if n < width then m[n := ThumbPath(imagePath, n)] else m
  }

  function UrlFor(m: map<nat, string>, n: nat): Option<string> {
    if n in m then Some(m[n]) else None
  }

  /** The image row `processImage` writes (the fields the scan decides). */
  datatype ImageRow = ImageRow(
    id: string,
    directoryId: string,
    filename: string,
    title: string,
    thumbnailUrl: Option<string>,
    smallUrl: Option<string>,
    mediumUrl: Option<string>,
    largeUrl: Option<string>,
    originalUrl: string,
    width: nat)

  function ImageRowFor(imagePath: string, directoryId: string, facts: FileFacts, thumbnails: map<nat, string>): (row: ImageRow) {
    ImageRow(facts.hash, directoryId, Basename(imagePath), ExtractTitle(imagePath),
      UrlFor(thumbnails, 640), UrlFor(thumbnails, 828), UrlFor(thumbnails, 1200), UrlFor(thumbnails, 1920),
      imagePath, facts.width)
  }

  datatype ImageOutcome =
    | AlreadyProcessing
    | Failed(error: string)
    | Unchanged
    | Created(row: ImageRow)
    | Updated(row: ImageRow)

  /** What `processImage(imagePath, directoryId)` does while `busy` is the `processing` set. */
  function ImageOutcomeFor(imagePath: string, directoryId: string, facts: FileFacts, sizes: seq<nat>, busy: set<string>): ImageOutcome {
    if imagePath in busy then AlreadyProcessing
    else if facts.failure.Some? then Failed(facts.failure.value)
    else if facts.stored.Row? && facts.stored.exifHash == Some(facts.hash) then Unchanged
    else
      var row := ImageRowFor(imagePath, directoryId, facts, ThumbnailPlan(imagePath, sizes, facts.width));
      if facts.stored.Row? then Updated(row) else Created(row)
  }

  /**
    * `processImage` reports a failure exactly when the path is not already in
    * progress and one of its calls throws; the error is the thrown one.
    */
  lemma ImageFailsOnlyOnError(imagePath: string, directoryId: string, facts: FileFacts, sizes: seq<nat>, busy: set<string>)
    ensures ImageOutcomeFor(imagePath, directoryId, facts, sizes, busy).Failed? <==> imagePath !in busy && facts.failure.Some?
    ensures ImageOutcomeFor(imagePath, directoryId, facts, sizes, busy).Failed? ==>
      ImageOutcomeFor(imagePath, directoryId, facts, sizes, busy).error == facts.failure.value
  {
  }

  /**
    * A stored row carries a thumbnail URL for each of 640, 828, 1200 and 1920
    * exactly when that width is configured and smaller than the image, and the
    * content hash as its id.
    */
  lemma StoredRowUrls(imagePath: string, directoryId: string, facts: FileFacts, sizes: seq<nat>, busy: set<string>)
    requires ImageOutcomeFor(imagePath, directoryId, facts, sizes, busy).Created? ||
             ImageOutcomeFor(imagePath, directoryId, facts, sizes, busy).Updated?
    ensures var row := ImageOutcomeFor(imagePath, directoryId, facts, sizes, busy).row;
      && row.id == facts.hash && row.originalUrl == imagePath
      && (row.thumbnailUrl.Some? <==> 640 in sizes && 640 < facts.width)
      && (row.smallUrl.Some? <==> 828 in sizes && 828 < facts.width)
      && (row.mediumUrl.Some? <==> 1200 in sizes && 1200 < facts.width)
      && (row.largeUrl.Some? <==> 1920 in sizes && 1920 < facts.width)
      && (row.thumbnailUrl.Some? ==> row.thumbnailUrl.value == ThumbPath(imagePath, 640))
  {
  }

  /** Only images whose stored hash equals the current one are skipped; a row without a hash is rewritten. */
  lemma UnchangedOnlyOnSameHash(imagePath: string, directoryId: string, facts: FileFacts, sizes: seq<nat>, busy: set<string>)
    requires imagePath !in busy && facts.failure.None?
    ensures ImageOutcomeFor(imagePath, directoryId, facts, sizes, busy) == Unchanged <==>
      facts.stored == Row(Some(facts.hash))
  {
  }

  // ---------------------------------------------------------------------------
  // The content tree and the scan result

  /** The parts of a `config.json` the scanner reads. */
  datatype DirectoryConfig = DirectoryConfig(title: string, slug: string, description: string)

  datatype ContentEntry =
    | FileEntry(name: string, facts: FileFacts)
    | DirEntry(dir: ContentDir)
    | OtherEntry(name: string)

  /**
    * One directory: its name, its parsed `config.json` (None when missing or
    * unparsable), the id `ensureDirectory` returns or the error it throws,
    * and its listing or the error `readdir` throws.
    */
  datatype ContentDir = ContentDir(
    name: string,
    config: Option<DirectoryConfig>,
    registration: Registration,
    listing: Listing)

  datatype Registration = Registered(dirId: string) | RegisterFailed(error: string)
  datatype Listing = ListFailed(error: string) | Listed(entries: seq<ContentEntry>)

  /** `generateDirectoryConfig(dirPath)` */
  function GenerateDirectoryConfig(dirPath: string): DirectoryConfig {
    var name := Basename(dirPath);
    DirectoryConfig(FormatTitle(name), GenerateSlug(dirPath), FormatTitle(name) + " collection")
  }

  /** The config a directory is registered with: its own `config.json`, or a generated one. */
  function EffectiveConfig(dirPath: string, d: ContentDir): DirectoryConfig {
    d.config.GetOr(GenerateDirectoryConfig(dirPath))
  }

  /** Without a `config.json`, the slug is the generated one, which is clean, and the title is the formatted name. */
  lemma GeneratedConfigSlug(dirPath: string, d: ContentDir)
    requires d.config.None?
    ensures EffectiveConfig(dirPath, d).slug == GenerateSlug(dirPath)
    ensures IsCleanSlug(EffectiveConfig(dirPath, d).slug)
    ensures EffectiveConfig(dirPath, d).title == FormatTitle(Basename(dirPath))
  {
    GenerateSlugClean(dirPath);
  }

  datatype ScanResult = ScanResult(
    imagesProcessed: nat,
    thumbnailsGenerated: nat,
    directoriesCreated: nat,
    configsApplied: nat,
    errors: seq<ScanError>)

  const Zero := ScanResult(0, 0, 0, 0, [])

  /** An entry of `errors`: a directory that could not be scanned, or a file whose processing threw. */
  datatype ScanError = DirectoryFailure(error: string) | FileFailure(kind: FileKind, name: string, error: string)

  /** The text pushed onto `errors`. */
  function Message(e: ScanError): string {
    match e
    case DirectoryFailure(error) => "Directory scan failed: " + error
    case FileFailure(kind, name, error) =>
      "Failed to process " + (match kind case ImageFile => "image" case VideoFile => "video" case _ => "document")
      + " " + name + ": " + error
  }

  /** Adding a sub-result: counters summed, errors concatenated. */
  function Add(a: ScanResult, b: ScanResult): ScanResult {
    ScanResult(a.imagesProcessed + b.imagesProcessed, a.thumbnailsGenerated + b.thumbnailsGenerated,
      a.directoriesCreated + b.directoriesCreated, a.configsApplied + b.configsApplied, a.errors + b.errors)
  }

  /** The effect of one file on the result, with `busy` the `processing` set. */
  function FileStep(r: ScanResult, path: string, name: string, kind: FileKind, facts: FileFacts, busy: set<string>): ScanResult {
    match kind
    case ImageFile =>
      if path !in busy && facts.failure.Some? then r.(errors := r.errors + [FileFailure(ImageFile, name, facts.failure.value)])
      else r.(imagesProcessed := r.imagesProcessed + 1)
    case VideoFile =>
      if facts.failure.Some? then r.(errors := r.errors + [FileFailure(VideoFile, name, facts.failure.value)])
      else r.(imagesProcessed := r.imagesProcessed + 1)
    case DocumentFile =>
      if facts.failure.Some? then r.(errors := r.errors + [FileFailure(DocumentFile, name, facts.failure.value)])
      else r
    case OtherFile => r
  }

  /** The result before the entries are looked at: the config and the registration. */
  function Header(d: ContentDir): ScanResult {
    ScanResult(0, 0, if d.registration.Registered? then 1 else 0, if d.config.Some? then 1 else 0, [])
  }

  /** `scanDirectory(dirPath)` */
  function ScanDir(dirPath: string, d: ContentDir, formats: set<string>, busy: set<string>): ScanResult
    decreases d, 1
  {
    if d.registration.RegisterFailed? then Header(d).(errors := [DirectoryFailure(d.registration.error)])
    else if d.listing.ListFailed? then Header(d).(errors := [DirectoryFailure(d.listing.error)])
    else ScanEntries(dirPath, d, |d.listing.entries|, formats, busy)
  }

  /** The result after the loop has handled the first `k` entries. */
  function ScanEntries(dirPath: string, d: ContentDir, k: nat, formats: set<string>, busy: set<string>): ScanResult
    requires d.listing.Listed? && k <= |d.listing.entries|
    decreases d, 0, k
  {
    if k == 0 then Header(d)
    else EntryScan(ScanEntries(dirPath, d, k - 1, formats, busy), dirPath, d, k - 1, formats, busy)
  }

  /** One pass of the loop, over entry `i`. */
  function EntryScan(r: ScanResult, dirPath: string, d: ContentDir, i: nat, formats: set<string>, busy: set<string>): ScanResult
    requires d.listing.Listed? && i < |d.listing.entries|
    decreases d, 0, i
  {
    match d.listing.entries[i]
    case DirEntry(sub) => Add(r, ScanDir(dirPath + "/" + sub.name, sub, formats, busy))
    case FileEntry(name, facts) => FileStep(r, dirPath + "/" + name, name, Classify(name, formats), facts, busy)
    case OtherEntry(_) => r
  }

  /** `scanAll()`: every directory at the top of the content directory. */
  function ScanAllOf(contentDir: string, entries: seq<ContentEntry>, formats: set<string>, busy: set<string>): ScanResult {
    if entries == [] then Zero
    else
      var r := ScanAllOf(contentDir, entries[..|entries| - 1], formats, busy);
      match entries[|entries| - 1]
      case DirEntry(sub) => Add(r, ScanDir(contentDir + "/" + sub.name, sub, formats, busy))
      case _ => r
  }

  // ---------------------------------------------------------------------------
  // The scan as a flat walk

  /** One thing the walk meets: a directory, a file in a listed directory, or a directory that could not be scanned. */
  datatype Event =
    | Visited(dir: ContentDir)
    | ReachedFile(path: string, name: string, kind: FileKind, facts: FileFacts)
    | Blocked(error: string)

  /** Everything `scanDirectory(dirPath)` meets, in the order it meets it. */
  function Walk(dirPath: string, d: ContentDir, formats: set<string>): seq<Event>
    decreases d, 1
  {
    [Visited(d)] +
    match (d.registration, d.listing)
    case (RegisterFailed(e), _) => [Blocked(e)]
    case (_, ListFailed(e)) => [Blocked(e)]
    case (_, Listed(entries)) => WalkEntries(dirPath, d, |entries|, formats)
  }

  function WalkEntries(dirPath: string, d: ContentDir, k: nat, formats: set<string>): seq<Event>
    requires d.listing.Listed? && k <= |d.listing.entries|
    decreases d, 0, k
  {
    if k == 0 then [] else WalkEntries(dirPath, d, k - 1, formats) + EntryWalk(dirPath, d, k - 1, formats)
  }

  /** What the walk meets at entry `i`. */
  function EntryWalk(dirPath: string, d: ContentDir, i: nat, formats: set<string>): seq<Event>
    requires d.listing.Listed? && i < |d.listing.entries|
    decreases d, 0, i
  {
    match d.listing.entries[i]
    case DirEntry(sub) => Walk(dirPath + "/" + sub.name, sub, formats)
    case FileEntry(name, facts) => [ReachedFile(dirPath + "/" + name, name, Classify(name, formats), facts)]
    case OtherEntry(_) => []
  }

  /** What one event contributes to the result on its own. */
  function Contribution(e: Event, busy: set<string>): ScanResult {
    match e
    case Visited(d) => Header(d)
    case Blocked(err) => ScanResult(0, 0, 0, 0, [DirectoryFailure(err)])
    case ReachedFile(path, name, kind, facts) => FileStep(Zero, path, name, kind, facts, busy)
  }

  /** The sum of the contributions of `events`. */
  function Tally(events: seq<Event>, busy: set<string>): ScanResult {
    if events == [] then Zero
    else Add(Tally(events[..|events| - 1], busy), Contribution(events[|events| - 1], busy))
  }

  lemma AddAssoc(a: ScanResult, b: ScanResult, c: ScanResult)
    ensures Add(Add(a, b), c) == Add(a, Add(b, c))
  {
    assert (a.errors + b.errors) + c.errors == a.errors + (b.errors + c.errors);
  }

  lemma {:induction false} TallyAppend(a: seq<Event>, b: seq<Event>, busy: set<string>)
    ensures Tally(a + b, busy) == Add(Tally(a, busy), Tally(b, busy))
    decreases |b|
  {
    if b == [] {
      assert a + b == a;
      assert Tally(a, busy).errors + [] == Tally(a, busy).errors;
    } else {
      var front := b[..|b| - 1];
      var last := Contribution(b[|b| - 1], busy);
      assert (a + b)[..|a + b| - 1] == a + front;
      assert (a + b)[|a + b| - 1] == b[|b| - 1];
      assert Tally(a + b, busy) == Add(Tally(a + front, busy), last);
      assert Tally(b, busy) == Add(Tally(front, busy), last);
      TallyAppend(a, front, busy);
      AddAssoc(Tally(a, busy), Tally(front, busy), last);
    }
  }

  /** The sum over a single event is its contribution. */
  lemma TallyOne(e: Event, busy: set<string>)
    ensures Tally([e], busy) == Contribution(e, busy)
  {
    var r := Contribution(e, busy);
    assert [e][..0] == [];
    assert Tally([e], busy) == Add(Zero, r);
    assert [] + r.errors == r.errors;
  }

  lemma FileStepAdds(r: ScanResult, path: string, name: string, kind: FileKind, facts: FileFacts, busy: set<string>)
    ensures FileStep(r, path, name, kind, facts, busy) == Add(r, FileStep(Zero, path, name, kind, facts, busy))
  {
  }

  /**
    * The scan of a directory is the sum of what each directory and file it
    * meets contributes on its own: sub-results are added, a failing file or
    * directory adds its one error, and the scan goes on after it.
    */
  lemma {:induction false} ScanIsTally(dirPath: string, d: ContentDir, formats: set<string>, busy: set<string>)
    ensures ScanDir(dirPath, d, formats, busy) == Tally(Walk(dirPath, d, formats), busy)
    decreases d, 1
  {
    match (d.registration, d.listing) {
      case (RegisterFailed(e), _) =>
        BlockedIsTally(dirPath, d, e, busy);
      case (_, ListFailed(e)) =>
        BlockedIsTally(dirPath, d, e, busy);
      case (_, Listed(entries)) =>
        ScanEntriesIsTally(dirPath, d, |entries|, formats, busy);
    }
  }

  lemma BlockedIsTally(dirPath: string, d: ContentDir, e: string, busy: set<string>)
    ensures Tally([Visited(d), Blocked(e)], busy) == Header(d).(errors := [DirectoryFailure(e)])
  {
    TallyPair(Visited(d), Blocked(e), busy);
    HeaderThenFailure(d, e, busy);
  }

  lemma TallyPair(x: Event, y: Event, busy: set<string>)
    ensures Tally([x, y], busy) == Add(Contribution(x, busy), Contribution(y, busy))
  {
    assert [x, y][..1] == [x];
    TallyOne(x, busy);
  }

  lemma HeaderThenFailure(d: ContentDir, e: string, busy: set<string>)
    ensures Add(Contribution(Visited(d), busy), Contribution(Blocked(e), busy)) == Header(d).(errors := [DirectoryFailure(e)])
  {
    assert [] + [DirectoryFailure(e)] == [DirectoryFailure(e)];
  }

  lemma {:induction false} ScanEntriesIsTally(dirPath: string, d: ContentDir, k: nat, formats: set<string>, busy: set<string>)
    requires d.listing.Listed? && k <= |d.listing.entries|
    ensures ScanEntries(dirPath, d, k, formats, busy) == Tally([Visited(d)] + WalkEntries(dirPath, d, k, formats), busy)
    decreases d, 0, k
  {
    if k == 0 {
      assert [Visited(d)] + WalkEntries(dirPath, d, k, formats) == [Visited(d)];
      TallyOne(Visited(d), busy);
    } else {
      ScanEntriesIsTally(dirPath, d, k - 1, formats, busy);
      assert [Visited(d)] + WalkEntries(dirPath, d, k, formats)
        == ([Visited(d)] + WalkEntries(dirPath, d, k - 1, formats)) + EntryWalk(dirPath, d, k - 1, formats);
      TallyAppend([Visited(d)] + WalkEntries(dirPath, d, k - 1, formats), EntryWalk(dirPath, d, k - 1, formats), busy);
      EntryScanIsTally(ScanEntries(dirPath, d, k - 1, formats, busy), dirPath, d, k - 1, formats, busy);
    }
  }

  lemma {:induction false} EntryScanIsTally(r: ScanResult, dirPath: string, d: ContentDir, i: nat, formats: set<string>, busy: set<string>)
    requires d.listing.Listed? && i < |d.listing.entries|
    ensures EntryScan(r, dirPath, d, i, formats, busy) == Add(r, Tally(EntryWalk(dirPath, d, i, formats), busy))
    decreases d, 0, i
  {
    match d.listing.entries[i] {
      case DirEntry(sub) =>
        assert d.listing.entries[i] in d.listing.entries;
        ScanIsTally(dirPath + "/" + sub.name, sub, formats, busy);
      case FileEntry(name, facts) =>
        var kind := Classify(name, formats);
        TallyOne(ReachedFile(dirPath + "/" + name, name, kind, facts), busy);
        FileStepAdds(r, dirPath + "/" + name, name, kind, facts, busy);
      case OtherEntry(_) =>
        assert r.errors + [] == r.errors;
    }
  }

  lemma {:induction false} TallyNoThumbnails(events: seq<Event>, busy: set<string>)
    ensures Tally(events, busy).thumbnailsGenerated == 0
  {
    if events != [] {
      TallyNoThumbnails(events[..|events| - 1], busy);
    }
  }

  /** `thumbnailsGenerated` is never incremented: every scan reports 0 however many thumbnails were written. */
  lemma ScanReportsNoThumbnails(dirPath: string, d: ContentDir, formats: set<string>, busy: set<string>)
    ensures ScanDir(dirPath, d, formats, busy).thumbnailsGenerated == 0
  {
    ScanIsTally(dirPath, d, formats, busy);
    TallyNoThumbnails(Walk(dirPath, d, formats), busy);
  }

  /** Each directory or file contributes at most one error, and only files in a known format can fail the scan. */
  lemma ContributionAtMostOneError(e: Event, busy: set<string>)
    ensures |Contribution(e, busy).errors| <= 1
    ensures e.ReachedFile? && e.kind == OtherFile ==> Contribution(e, busy) == Zero
  {
  }

  // ---------------------------------------------------------------------------
  // The scanner object

  class ContentScanner {
    const imageSizes: seq<nat>
    const supportedFormats: set<string>
    /** Paths whose `processImage` call is in progress. */
    var processing: set<string>

    constructor(imageSizes: seq<nat>, formats: string)
      ensures this.imageSizes == imageSizes
      ensures supportedFormats == ParseFormats(formats)
      ensures processing == {}
    {
      this.imageSizes := imageSizes;
      supportedFormats := ParseFormats(formats);
      processing := {};
    }

    /**
      * `processImage(imagePath, directoryId)`: returns at once for a path
      * already in progress; otherwise holds the path in `processing` while it
      * works and removes it on every exit.
      */
    method ProcessImage(imagePath: string, directoryId: string, facts: FileFacts) returns (outcome: ImageOutcome)
      modifies this
      ensures processing == old(processing)
      ensures outcome == ImageOutcomeFor(imagePath, directoryId, facts, imageSizes, old(processing))
    {
      if imagePath in processing {
        return AlreadyProcessing;
      }
      processing := processing + {imagePath};
      if facts.failure.Some? {
        processing := processing - {imagePath};
        return Failed(facts.failure.value);
      }
      if facts.stored.Row? && facts.stored.exifHash == Some(facts.hash) {
        processing := processing - {imagePath};
        return Unchanged;
      }
      var thumbnails: map<nat, string> := map[];
      var i := 0;
      while i < |imageSizes|
        invariant 0 <= i <= |imageSizes|
        invariant thumbnails == ThumbnailPlan(imagePath, imageSizes[..i], facts.width)
      {
        var size := imageSizes[i];
        assert imageSizes[..i + 1][..i] == imageSizes[..i];
        if size < facts.width {
          thumbnails := thumbnails[size := ThumbPath(imagePath, size)];
        }
        i := i + 1;
      }
      assert imageSizes[..i] == imageSizes;
      var row := ImageRowFor(imagePath, directoryId, facts, thumbnails);
      outcome := if facts.stored.Row? then Updated(row) else Created(row);
      processing := processing - {imagePath};
    }

    /** `scanDirectory(dirPath)` */
    method ScanDirectory(dirPath: string, d: ContentDir) returns (r: ScanResult)
      modifies this
      ensures processing == old(processing)
      ensures r == ScanDir(dirPath, d, supportedFormats, old(processing))
      decreases d, 1
    {
      r := Zero;
      if d.config.Some? {
        r := r.(configsApplied := r.configsApplied + 1);
      }
      match d.registration {
        case RegisterFailed(e) =>
          r := r.(errors := r.errors + [DirectoryFailure(e)]);
          return;
        case Registered(dirId) =>
          r := r.(directoriesCreated := r.directoriesCreated + 1);
          match d.listing {
            case ListFailed(e) =>
              r := r.(errors := r.errors + [DirectoryFailure(e)]);
              return;
            case Listed(entries) =>
              var i := 0;
              while i < |entries|
                invariant 0 <= i <= |entries|
                invariant processing == old(processing)
                invariant r == ScanEntries(dirPath, d, i, supportedFormats, processing)
              {
                r := ScanEntry(r, dirPath, dirId, d, i);
                i := i + 1;
              }
          }
      }
    }

    /** One pass of the scanning loop, over entry `i` of `d`. */
    method ScanEntry(r0: ScanResult, dirPath: string, dirId: string, d: ContentDir, i: nat) returns (r: ScanResult)
      requires d.listing.Listed? && i < |d.listing.entries|
      modifies this
      ensures processing == old(processing)
      ensures r == EntryScan(r0, dirPath, d, i, supportedFormats, old(processing))
      decreases d, 0
    {
      match d.listing.entries[i] {
        case DirEntry(sub) =>
          assert d.listing.entries[i] in d.listing.entries;
          var subResult := ScanDirectory(dirPath + "/" + sub.name, sub);
          r := Add(r0, subResult);
        case FileEntry(name, facts) =>
          r := ScanFile(r0, dirPath + "/" + name, dirId, name, facts);
        case OtherEntry(_) =>
          r := r0;
      }
    }

    /** One pass of the file branch of the scanning loop. */
    method ScanFile(r0: ScanResult, fullPath: string, dirId: string, name: string, facts: FileFacts) returns (r: ScanResult)
      modifies this
      ensures processing == old(processing)
      ensures r == FileStep(r0, fullPath, name, Classify(name, supportedFormats), facts, old(processing))
    {
      r := r0;
      match Classify(name, supportedFormats) {
        case ImageFile =>
          var outcome := ProcessImage(fullPath, dirId, facts);
          ImageFailsOnlyOnError(fullPath, dirId, facts, imageSizes, old(processing));
          if outcome.Failed? {
            r := r.(errors := r.errors + [FileFailure(ImageFile, name, outcome.error)]);
          } else {
            r := r.(imagesProcessed := r.imagesProcessed + 1);
          }
        case VideoFile =>
          if facts.failure.Some? {
            r := r.(errors := r.errors + [FileFailure(VideoFile, name, facts.failure.value)]);
          } else {
            r := r.(imagesProcessed := r.imagesProcessed + 1);
          }
        case DocumentFile =>
          if facts.failure.Some? {
            r := r.(errors := r.errors + [FileFailure(DocumentFile, name, facts.failure.value)]);
          }
        case OtherFile =>
      }
    }

    /** `scanAll()` over the entries of the content directory. */
    method ScanAll(contentDir: string, entries: seq<ContentEntry>) returns (r: ScanResult)
      modifies this
      ensures processing == old(processing)
      ensures r == ScanAllOf(contentDir, entries, supportedFormats, old(processing))
    {
      r := Zero;
      var i := 0;
      while i < |entries|
        invariant 0 <= i <= |entries|
        invariant processing == old(processing)
        invariant r == ScanAllOf(contentDir, entries[..i], supportedFormats, processing)
      {
        assert entries[..i + 1][..i] == entries[..i];
        match entries[i] {
          case DirEntry(sub) =>
            var dirResult := ScanDirectory(contentDir + "/" + sub.name, sub);
            r := Add(r, dirResult);
          case _ =>
        }
        i := i + 1;
      }
      assert entries[..i] == entries;
    }
  }
}
