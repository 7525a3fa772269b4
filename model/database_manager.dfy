/**
  * The SQLite-backed store of the backend (src/backend/src/services/DatabaseManager.ts):
  * the query it builds for the directory list, the reaction-count fold, the
  * deterministic reaction id with `INSERT OR REPLACE`, the config merge of
  * `updateDirectoryMetadata`, the image query of `getImagesByDirectory`, and
  * the partial update of `updateImageThumbnails`.
  *
  * Tables are sequences of rows in rowid order. SQL text is kept as a string;
  * executing arbitrary SQL is not modelled, only the statements above, each as
  * the function of the table it computes.
  */
module DatabaseService {
  import opened Wrappers
  import opened Text
  import opened OrderedDict

  /** A JSON value, kept as its canonical text. */
  type JsonValue = string

  /** A JSON object; `JSON.stringify` keeps key insertion order. */
  type JsonObject = ODict<string, JsonValue>

  /** A JSON text column: NULL or '' (so `|| '{}'` applies), parseable, or not (`JSON.parse` throws). */
  datatype JsonColumn<T> = Blank | Json(value: T) | Malformed

  // ---------------------------------------------------------------------------
  // Rows

  datatype DirRow = DirRow(
    id: string,
    title: string,
    slug: string,
    coverImage: Option<string>,
    description: Option<string>,
    imageCount: Option<int>,
    featured: int,
    status: string,
    config: JsonColumn<JsonObject>,
    tags: JsonColumn<seq<JsonValue>>)

  datatype Urls = Urls(
    thumbnail: Option<string>,
    small: Option<string>,
    medium: Option<string>,
    large: Option<string>,
    original: Option<string>)

  datatype ImageRow = ImageRow(
    id: string,
    filename: string,
    title: string,
    caption: Option<string>,
    directoryId: string,
    position: int,
    status: string,
    format: Option<string>,
    urls: Urls,
    altText: Option<string>,
    exif: JsonColumn<JsonObject>)

  datatype Reaction = Reaction(
    id: string,
    imageId: string,
    reactionType: string,
    ipHash: string,
    sessionId: Option<string>)

  /** `prepare('SELECT * FROM directories WHERE slug = ?').get(slug)`: the first row in rowid order. */
  function DirectoryBySlug(rows: seq<DirRow>, slug: string): (r: Option<DirRow>)
    ensures r.Some? <==> exists i :: 0 <= i < |rows| && rows[i].slug == slug
    ensures r.Some? ==> r.value in rows && r.value.slug == slug
  {
    if rows == [] then None
    else if rows[0].slug == slug then Some(rows[0])
    else
      var rest := DirectoryBySlug(rows[1..], slug);
      assert forall i :: 0 < i < |rows| ==> rows[i] == rows[1..][i - 1];
      rest
  }

  // ---------------------------------------------------------------------------
  // getDirectories: the query text and its parameters

  datatype DirectoryFilter = DirectoryFilter(status: Option<string>, featured: Option<bool>)
  datatype SqlParam = Text(text: string) | Int(number: int)
  datatype Query = Query(sql: string, params: seq<SqlParam>)

  const SelectDirectories: string := "SELECT * FROM directories"
  const StatusCondition: string := "status = ?"
  const FeaturedCondition: string := "featured = ?"
  const OrderByMenu: string := " ORDER BY menu_order ASC, created_at DESC"

  /** `filter?.status` as JavaScript tests it: present and not ''. */
  predicate HasStatus(filter: DirectoryFilter) {
    filter.status.Some? && filter.status.value != ""
  }

  /** The `conditions` array, in push order. */
  function DirectoryConditions(filter: DirectoryFilter): seq<string> {
    (if HasStatus(filter) then [StatusCondition] else []) + (if filter.featured.Some? then [FeaturedCondition] else [])
  }

  /** The `params` array, in push order; `featured` becomes 1 or 0. */
  function DirectoryParams(filter: DirectoryFilter): seq<SqlParam> {
    (if HasStatus(filter) then [Text(filter.status.value)] else [])
    + (if filter.featured.Some? then [Int(if filter.featured.value then 1 else 0)] else [])
  }

  function WhereClause(conditions: seq<string>): string {
    if conditions == [] then "" else " WHERE " + Join(" AND ", conditions)
  }

  /** The statement `getDirectories(filter)` prepares and the arguments it runs it with. */
  function DirectoriesQuery(filter: DirectoryFilter): Query {
    Query(SelectDirectories + WhereClause(DirectoryConditions(filter)) + OrderByMenu, DirectoryParams(filter))
  }

  lemma ConditionPlaceholders()
    ensures Count(StatusCondition, '?') == 1 && Count(FeaturedCondition, '?') == 1
  {
    assert StatusCondition == "status = " + "?";
    CountAbsent("status = ", '?');
    CountAppend("status = ", "?", '?');
    assert FeaturedCondition == "featured = " + "?";
    CountAbsent("featured = ", '?');
    CountAppend("featured = ", "?", '?');
  }

  lemma WherePlaceholders(filter: DirectoryFilter)
    ensures Count(WhereClause(DirectoryConditions(filter)), '?') == |DirectoryConditions(filter)|
  {
    var conds := DirectoryConditions(filter);
    ConditionPlaceholders();
    if |conds| == 1 {
      assert Join(" AND ", conds) == conds[0];
      CountAbsent(" WHERE ", '?');
      CountAppend(" WHERE ", conds[0], '?');
    } else if |conds| == 2 {
      assert conds[..1] == [conds[0]];
      assert Join(" AND ", conds) == conds[0] + " AND " + conds[1];
      CountAbsent(" WHERE ", '?');
      CountAbsent(" AND ", '?');
      CountAppend(conds[0], " AND ", '?');
      CountAppend(conds[0] + " AND ", conds[1], '?');
      CountAppend(" WHERE ", conds[0] + " AND " + conds[1], '?');
      assert " WHERE " + (conds[0] + " AND " + conds[1]) == " WHERE " + Join(" AND ", conds);
    }
  }

  /** Every `?` of the statement has exactly one argument. */
  lemma FixedTextHasNoPlaceholder()
    ensures Count(SelectDirectories, '?') == 0 && Count(OrderByMenu, '?') == 0
  {
    CountAbsent(SelectDirectories, '?');
    CountAbsent(OrderByMenu, '?');
  }

  lemma DirectoriesQueryPlaceholders(filter: DirectoryFilter)
    ensures var q := DirectoriesQuery(filter); Count(q.sql, '?') == |q.params|
  {
    var where := WhereClause(DirectoryConditions(filter));
    WherePlaceholders(filter);
    FixedTextHasNoPlaceholder();
    CountAppend(SelectDirectories, where, '?');
    CountAppend(SelectDirectories + where, OrderByMenu, '?');
  }

  /** The i-th argument belongs to the i-th condition. */
  lemma DirectoriesParamsAligned(filter: DirectoryFilter)
    ensures var conds, params := DirectoryConditions(filter), DirectoryParams(filter);
      |conds| == |params| &&
      (forall i :: 0 <= i < |conds| && conds[i] == StatusCondition ==> params[i] == Text(filter.status.value)) &&
      (forall i :: 0 <= i < |conds| && conds[i] == FeaturedCondition ==>
         params[i] == Int(if filter.featured.value then 1 else 0))
  {
  }

  lemma NoWherePrefix()
    ensures !StartsWith(SelectDirectories + OrderByMenu, SelectDirectories + " WHERE ")
  {
    assert (SelectDirectories + OrderByMenu)[|SelectDirectories| + 1] == 'O';
    assert (SelectDirectories + " WHERE ")[|SelectDirectories| + 1] == 'W';
  }

  /** A WHERE clause appears exactly when some filter is given. */
  lemma DirectoriesQueryWhere(filter: DirectoryFilter)
    ensures StartsWith(DirectoriesQuery(filter).sql, SelectDirectories + " WHERE ") <==> HasStatus(filter) || filter.featured.Some?
  {
    var conds := DirectoryConditions(filter);
    if conds == [] {
      assert DirectoriesQuery(filter).sql == SelectDirectories + OrderByMenu;
      NoWherePrefix();
    } else {
      var rest := Join(" AND ", conds) + OrderByMenu;
      assert DirectoriesQuery(filter).sql == (SelectDirectories + " WHERE ") + rest;
    }
  }

  /** The rows always come in menu order. */
  lemma DirectoriesQueryOrdered(filter: DirectoryFilter)
    ensures EndsWith(DirectoriesQuery(filter).sql, OrderByMenu)
  {
    var sql := DirectoriesQuery(filter).sql;
    var front := SelectDirectories + WhereClause(DirectoryConditions(filter));
    assert sql == front + OrderByMenu;
    assert sql[|sql| - |OrderByMenu|..] == OrderByMenu;
  }

  // ---------------------------------------------------------------------------
  // getReactionCounts

  const ReactionTypes: seq<string> := ["like", "love", "wow", "sad", "hate", "dislike", "inquire", "purchase"]

  /** One row of `SELECT reaction_type, COUNT(*) as count ... GROUP BY reaction_type`. */
  datatype CountRow = CountRow(reactionType: string, count: int)

  /** The `counts` object before the loop: the eight types and `total`, all 0. */
  function InitialCounts(): (c: ODict<string, int>)
    ensures c.Valid()
    ensures c.keys == ReactionTypes + ["total"]
    ensures forall t :: t in c.vals ==> c.vals[t] == 0
  {
    ODict(ReactionTypes + ["total"], map t | t in ReactionTypes + ["total"] :: 0)
  }

  /** One pass of the loop: the row's type gets its count, and `total` grows by it. */
  function CountStep(c: ODict<string, int>, row: CountRow): (r: ODict<string, int>)
    requires c.Valid() && "total" in c.vals
    ensures r.Valid() && "total" in r.vals
  {
    var c1 := Put(c, row.reactionType, row.count);
    Put(c1, "total", c1.vals["total"] + row.count)
  }

  /** `counts` after the loop has seen `rows`. */
  function ReactionCounts(rows: seq<CountRow>): (c: ODict<string, int>)
    ensures c.Valid() && "total" in c.vals
  {
    if rows == [] then InitialCounts() else CountStep(ReactionCounts(rows[..|rows| - 1]), rows[|rows| - 1])
  }

  /** The loop of `getReactionCounts`. */
  method GetReactionCounts(rows: seq<CountRow>) returns (counts: ODict<string, int>)
    ensures counts == ReactionCounts(rows)
  {
    counts := InitialCounts();
    var i := 0;
    while i < |rows|
      invariant 0 <= i <= |rows|
      invariant counts == ReactionCounts(rows[..i])
    {
      ReactionCountsNext(rows, i);
      counts := AddRowCount(counts, rows[i]);
      i := i + 1;
    }
    assert rows[..i] == rows;
  }

  /** The loop body: `counts[row.reaction_type] = row.count; counts.total += row.count`. */
  method AddRowCount(c: ODict<string, int>, row: CountRow) returns (counts: ODict<string, int>)
    requires c.Valid() && "total" in c.vals
    ensures counts == CountStep(c, row)
  {
    counts := Put(c, row.reactionType, row.count);
    counts := Put(counts, "total", counts.vals["total"] + row.count);
  }

  lemma ReactionCountsNext(rows: seq<CountRow>, i: nat)
    requires i < |rows|
    ensures ReactionCounts(rows[..i + 1]) == CountStep(ReactionCounts(rows[..i]), rows[i])
  {
    assert rows[..i + 1][..i] == rows[..i];
  }

  function SumCounts(rows: seq<CountRow>): int {
    if rows == [] then 0 else SumCounts(rows[..|rows| - 1]) + rows[|rows| - 1].count
  }

  /** The count of the last row of type `t`, if any. */
  function CountOf(rows: seq<CountRow>, t: string): Option<int> {
    if rows == [] then None
    else if rows[|rows| - 1].reactionType == t then Some(rows[|rows| - 1].count)
    else CountOf(rows[..|rows| - 1], t)
  }

  /** `total` is the sum of the row counts, when no row is itself of type `total`. */
  lemma {:induction false} ReactionCountsTotal(rows: seq<CountRow>)
    requires forall i :: 0 <= i < |rows| ==> rows[i].reactionType != "total"
    ensures ReactionCounts(rows).vals["total"] == SumCounts(rows)
  {
    if rows != [] {
      var front := rows[..|rows| - 1];
      ReactionCountsTotal(front);
      CountStepTotal(ReactionCounts(front), rows[|rows| - 1]);
    }
  }

  lemma CountStepTotal(c: ODict<string, int>, row: CountRow)
    requires c.Valid() && "total" in c.vals && row.reactionType != "total"
    ensures CountStep(c, row).vals["total"] == c.vals["total"] + row.count
  {
  }

  /** Every reaction type is reported, and so is every row's type; nothing else is. */
  lemma {:induction false} ReactionCountsKeys(rows: seq<CountRow>, t: string)
    requires t != "total"
    ensures t in ReactionCounts(rows).vals <==> t in ReactionTypes || CountOf(rows, t).Some?
  {
    if rows == [] {
      assert t in InitialCounts().vals <==> t in ReactionTypes + ["total"];
    } else {
      var front := rows[..|rows| - 1];
      ReactionCountsKeys(front, t);
      CountStepKeys(ReactionCounts(front), rows[|rows| - 1], t);
    }
  }

  lemma CountStepKeys(c: ODict<string, int>, row: CountRow, t: string)
    requires c.Valid() && "total" in c.vals && t != "total"
    ensures t in CountStep(c, row).vals <==> t in c.vals || row.reactionType == t
  {
  }

  /** A type is reported with the count of its row, and 0 when no row has it. */
  lemma {:induction false} ReactionCountsValues(rows: seq<CountRow>, t: string)
    requires t != "total"
    ensures t in ReactionCounts(rows).vals ==> ReactionCounts(rows).vals[t] == CountOf(rows, t).GetOr(0)
  {
    if rows != [] {
      var front := rows[..|rows| - 1];
      ReactionCountsValues(front, t);
      CountStepValue(ReactionCounts(front), rows[|rows| - 1], t);
    }
  }

  lemma CountStepValue(c: ODict<string, int>, row: CountRow, t: string)
    requires c.Valid() && "total" in c.vals && t != "total"
    ensures t in CountStep(c, row).vals ==>
      CountStep(c, row).vals[t] == if row.reactionType == t then row.count else c.vals[t]
  {
  }

  // ---------------------------------------------------------------------------
  // addReaction

  /** `${imageId}-${ipHash}-${reactionType}` */
  function ReactionId(imageId: string, ipHash: string, reactionType: string): string {
    imageId + "-" + ipHash + "-" + reactionType
  }

  /** `sessionId || null` */
  function SessionColumn(sessionId: Option<string>): (r: Option<string>)
    ensures r.Some? <==> sessionId.Some? && sessionId.value != ""
    ensures r.Some? ==> r.value == sessionId.value
  {
    if sessionId.Some? && sessionId.value != "" then sessionId else None
  }

  function RowsWithoutId(table: seq<Reaction>, id: string): seq<Reaction> {
    if table == [] then []
    else RowsWithoutId(table[..|table| - 1], id) + (if table[|table| - 1].id == id then [] else [table[|table| - 1]])
  }

  lemma {:induction false} RowsWithoutIdMembers(table: seq<Reaction>, id: string)
    ensures forall x :: x in RowsWithoutId(table, id) <==> x in table && x.id != id
  {
    if table != [] {
      RowsWithoutIdMembers(table[..|table| - 1], id);
      assert table == table[..|table| - 1] + [table[|table| - 1]];
    }
  }

  /** `INSERT OR REPLACE`: a row with the same primary key is deleted, and the new row goes last. */
  function InsertOrReplace(table: seq<Reaction>, r: Reaction): seq<Reaction> {
    RowsWithoutId(table, r.id) + [r]
  }

  lemma {:induction false} RowsWithoutAbsent(table: seq<Reaction>, id: string)
    requires forall i :: 0 <= i < |table| ==> table[i].id != id
    ensures RowsWithoutId(table, id) == table
  {
    if table != [] {
      RowsWithoutAbsent(table[..|table| - 1], id);
      assert table == table[..|table| - 1] + [table[|table| - 1]];
    }
  }

  /** After the insert the new row is the only one with its id; every other row stays. */
  lemma InsertOrReplaceSpec(table: seq<Reaction>, r: Reaction)
    ensures var t := InsertOrReplace(table, r);
      t[|t| - 1] == r &&
      (forall i :: 0 <= i < |t| - 1 ==> t[i].id != r.id) &&
      (forall x: Reaction :: x.id != r.id ==> (x in t <==> x in table))
  {
    var t := InsertOrReplace(table, r);
    var rest := RowsWithoutId(table, r.id);
    RowsWithoutIdMembers(table, r.id);
    assert forall i :: 0 <= i < |t| - 1 ==> t[i] == rest[i] && rest[i] in rest;
  }

  /** Reacting twice with the same image, viewer and type leaves the table as reacting once. */
  lemma AddReactionIdempotent(table: seq<Reaction>, r: Reaction)
    ensures InsertOrReplace(InsertOrReplace(table, r), r) == InsertOrReplace(table, r)
  {
    var rest := RowsWithoutId(table, r.id);
    RowsWithoutIdMembers(table, r.id);
    assert forall i :: 0 <= i < |rest| ==> rest[i] in rest;
    RowsWithoutAbsent(rest, r.id);
    assert RowsWithoutId(rest + [r], r.id) == RowsWithoutId(rest, r.id) by {
      assert (rest + [r])[..|rest + [r]| - 1] == rest;
    }
  }

  /** The last `-` of `a + "-" + b` when `b` has none. */
  lemma LastHyphen(a: string, b: string)
    requires '-' !in b
    ensures RFind(a + "-" + b, '-') == |a|
  {
    var s := a + "-" + b;
    assert s[|a|] == '-';
  }

  /** With hyphen-free viewer hashes and types, the reaction id determines all three parts. */
  lemma ReactionIdInjective(a: string, h: string, t: string, a2: string, h2: string, t2: string)
    requires '-' !in h && '-' !in t && '-' !in h2 && '-' !in t2
    requires ReactionId(a, h, t) == ReactionId(a2, h2, t2)
    ensures a == a2 && h == h2 && t == t2
  {
    var s := ReactionId(a, h, t);
    LastHyphen(a + "-" + h, t);
    LastHyphen(a2 + "-" + h2, t2);
    assert |a + "-" + h| == |a2 + "-" + h2|;
    assert s[..|a + "-" + h|] == a + "-" + h;
    assert ReactionId(a2, h2, t2)[..|a2 + "-" + h2|] == a2 + "-" + h2;
    assert t == s[|a + "-" + h| + 1..];
    assert t2 == ReactionId(a2, h2, t2)[|a2 + "-" + h2| + 1..];
    var p := a + "-" + h;
    LastHyphen(a, h);
    LastHyphen(a2, h2);
    assert p[..|a|] == a && (a2 + "-" + h2)[..|a2|] == a2;
    assert h == p[|a| + 1..] && h2 == (a2 + "-" + h2)[|a2| + 1..];
  }

  // ---------------------------------------------------------------------------
  // updateDirectoryMetadata

  /** `{ ...d, ...src }` restricted to the keys `ks` of `src`, taken in order. */
  function PutAll(d: JsonObject, src: JsonObject, ks: seq<string>): (r: JsonObject)
    requires d.Valid()
    requires forall k :: k in ks ==> k in src.vals
    ensures r.Valid()
  {
    if ks == [] then d
    else
      assert forall k :: k in ks[..|ks| - 1] ==> k in ks;
      Put(PutAll(d, src, ks[..|ks| - 1]), ks[|ks| - 1], src.vals[ks[|ks| - 1]])
  }

  /** `{ ...current, ...metadata }` */
  function Spread(current: JsonObject, metadata: JsonObject): JsonObject
    requires current.Valid() && metadata.Valid()
  {
    PutAll(current, metadata, metadata.keys)
  }

  lemma {:induction false} PutAllPrefix(d: JsonObject, src: JsonObject, ks: seq<string>)
    requires d.Valid()
    requires forall k :: k in ks ==> k in src.vals
    ensures d.keys <= PutAll(d, src, ks).keys
  {
    if ks != [] {
      SnocMembers(ks);
      PutAllPrefix(d, src, ks[..|ks| - 1]);
    }
  }

  lemma {:induction false} PutAllValues(d: JsonObject, src: JsonObject, ks: seq<string>)
    requires d.Valid()
    requires forall k :: k in ks ==> k in src.vals
    ensures forall x :: x in PutAll(d, src, ks).vals <==> x in d.vals || x in ks
    ensures forall x :: x in PutAll(d, src, ks).vals ==>
      PutAll(d, src, ks).vals[x] == if x in ks then src.vals[x] else d.vals[x]
  {
    if ks != [] {
      SnocMembers(ks);
      PutAllValues(d, src, ks[..|ks| - 1]);
    }
  }

  /** New keys override, other existing keys stay with their values, and existing keys keep their order. */
  lemma SpreadSpec(current: JsonObject, metadata: JsonObject)
    requires current.Valid() && metadata.Valid()
    ensures var r := Spread(current, metadata);
      current.keys <= r.keys && r.vals == current.vals + metadata.vals
  {
    PutAllPrefix(current, metadata, metadata.keys);
    PutAllValues(current, metadata, metadata.keys);
    SpreadValues(current, metadata);
  }

  lemma SpreadValues(current: JsonObject, metadata: JsonObject)
    requires current.Valid() && metadata.Valid()
    requires forall x :: x in Spread(current, metadata).vals <==> x in current.vals || x in metadata.keys
    requires forall x :: x in Spread(current, metadata).vals ==>
      Spread(current, metadata).vals[x] == if x in metadata.keys then metadata.vals[x] else current.vals[x]
    ensures Spread(current, metadata).vals == current.vals + metadata.vals
  {
    var r, t := Spread(current, metadata).vals, current.vals + metadata.vals;
    forall x
      ensures x in r <==> x in t
    {
      assert x in metadata.keys <==> x in metadata.vals;
    }
    forall x | x in r
      ensures r[x] == t[x]
    {
      assert x in metadata.keys <==> x in metadata.vals;
    }
  }

  /** `JSON.parse(dir.config || '{}')`; `None` when it throws. */
  function CurrentConfig(config: JsonColumn<JsonObject>): Option<JsonObject> {
    match config
    case Blank => Some(Empty())
    case Json(o) => Some(o)
    case Malformed => None
  }

  /** `UPDATE directories SET config = ? WHERE id = ?` */
  function SetConfig(rows: seq<DirRow>, id: string, config: JsonObject): (r: seq<DirRow>)
    ensures |r| == |rows|
    ensures forall i :: 0 <= i < |rows| ==>
      r[i] == if rows[i].id == id then rows[i].(config := Json(config)) else rows[i]
  {
    seq(|rows|, i requires 0 <= i < |rows| => if rows[i].id == id then rows[i].(config := Json(config)) else rows[i])
  }

  /** The first row with this id. */
  function DirectoryById(rows: seq<DirRow>, id: string): (r: Option<DirRow>)
    ensures r.None? <==> forall i :: 0 <= i < |rows| ==> rows[i].id != id
    ensures r.Some? ==> r.value in rows && r.value.id == id
  {
    if rows == [] then None
    else if rows[0].id == id then Some(rows[0])
    else
      var rest := DirectoryById(rows[1..], id);
      assert forall i :: 0 < i < |rows| ==> rows[i] == rows[1..][i - 1];
      rest
  }

  /** Every stored config object is well formed. */
  ghost predicate ConfigsValid(rows: seq<DirRow>) {
    forall d :: d in rows && d.config.Json? ==> d.config.value.Valid()
  }

  /** The table after `updateDirectoryMetadata(id, metadata)`, or `None` when parsing the stored config throws. */
  function MetadataUpdate(rows: seq<DirRow>, id: string, metadata: JsonObject): Option<seq<DirRow>>
    requires metadata.Valid() && ConfigsValid(rows)
  {
    match DirectoryById(rows, id)
    case None => Some(SetConfig(rows, id, Spread(Empty(), metadata)))
    case Some(dir) =>
      match CurrentConfig(dir.config)
      case None => None
      case Some(current) => Some(SetConfig(rows, id, Spread(current, metadata)))
  }

  /** A missing directory leaves the table as it was. */
  lemma MetadataUpdateMissing(rows: seq<DirRow>, id: string, metadata: JsonObject)
    requires metadata.Valid() && ConfigsValid(rows)
    requires forall i :: 0 <= i < |rows| ==> rows[i].id != id
    ensures MetadataUpdate(rows, id, metadata) == Some(rows)
  {
    assert SetConfig(rows, id, Spread(Empty(), metadata)) == rows;
  }

  /** The update fails exactly when the directory exists and its stored config does not parse. */
  lemma MetadataUpdateThrows(rows: seq<DirRow>, id: string, metadata: JsonObject)
    requires metadata.Valid() && ConfigsValid(rows)
    ensures MetadataUpdate(rows, id, metadata).None? <==>
      DirectoryById(rows, id).Some? && DirectoryById(rows, id).value.config.Malformed?
  {
  }

  /**
    * Only that directory's config changes: to the stored config (`{}` when
    * blank) with the metadata's keys overriding and every other key kept.
    */
  lemma MetadataUpdateMerges(rows: seq<DirRow>, id: string, metadata: JsonObject, i: nat)
    requires metadata.Valid() && ConfigsValid(rows)
    requires MetadataUpdate(rows, id, metadata).Some?
    requires i < |rows|
    ensures var u := MetadataUpdate(rows, id, metadata).value;
      |u| == |rows| &&
      (rows[i].id != id ==> u[i] == rows[i]) &&
      (rows[i].id == id ==> u[i] == rows[i].(config := u[i].config))
    ensures var u := MetadataUpdate(rows, id, metadata).value;
      rows[i].id == id ==>
        u[i].config.Json? &&
        u[i].config.value.vals == CurrentConfig(DirectoryById(rows, id).value.config).value.vals + metadata.vals
  {
    if DirectoryById(rows, id).Some? {
      var current := CurrentConfig(DirectoryById(rows, id).value.config).value;
      SpreadSpec(current, metadata);
    }
  }

  // ---------------------------------------------------------------------------
  // getImagesByDirectory

  /** `WHERE directory_id = ? AND status = 'published'` */
  function PublishedIn(rows: seq<ImageRow>, directoryId: string): (r: seq<ImageRow>)
    ensures forall x :: x in r <==> x in rows && x.directoryId == directoryId && x.status == "published"
  {
    if rows == [] then []
    else
      var x := rows[|rows| - 1];
      assert rows == rows[..|rows| - 1] + [x];
      PublishedIn(rows[..|rows| - 1], directoryId) + (if x.directoryId == directoryId && x.status == "published" then [x] else [])
  }

  ghost predicate ByPosition(s: seq<ImageRow>) {
    forall i, j :: 0 <= i < j < |s| ==> s[i].position <= s[j].position
  }

  function InsertByPosition(x: ImageRow, s: seq<ImageRow>): seq<ImageRow> {
    if s == [] then [x]
    else if x.position <= s[0].position then [x] + s
    else [s[0]] + InsertByPosition(x, s[1..])
  }

  /** `ORDER BY position ASC`, as an insertion sort. */
  function SortByPosition(s: seq<ImageRow>): seq<ImageRow> {
    if s == [] then [] else InsertByPosition(s[0], SortByPosition(s[1..]))
  }

  lemma {:induction false} InsertPermutes(x: ImageRow, s: seq<ImageRow>)
    ensures multiset(InsertByPosition(x, s)) == multiset(s) + multiset{x}
  {
    if s != [] {
      assert s == [s[0]] + s[1..];
      if x.position > s[0].position {
        InsertPermutes(x, s[1..]);
      }
    }
  }

  /** A bound below `x` and below all of `s` is below all of the result. */
  lemma {:induction false} InsertBounded(x: ImageRow, s: seq<ImageRow>, b: int)
    requires b <= x.position
    requires forall k :: 0 <= k < |s| ==> b <= s[k].position
    ensures forall k :: 0 <= k < |InsertByPosition(x, s)| ==> b <= InsertByPosition(x, s)[k].position
  {
    if s != [] && x.position > s[0].position {
      InsertBounded(x, s[1..], b);
    }
  }

  lemma {:induction false} InsertSorted(x: ImageRow, s: seq<ImageRow>)
    requires ByPosition(s)
    ensures ByPosition(InsertByPosition(x, s))
  {
    if s != [] && x.position > s[0].position {
      var rest := InsertByPosition(x, s[1..]);
      InsertSorted(x, s[1..]);
      InsertBounded(x, s[1..], s[0].position);
      var r := [s[0]] + rest;
      forall i, j | 0 <= i < j < |r| ensures r[i].position <= r[j].position {
        assert r[j] == rest[j - 1];
        if i > 0 {
          assert r[i] == rest[i - 1];
        }
      }
    }
  }

  lemma {:induction false} SortPermutes(s: seq<ImageRow>)
    ensures multiset(SortByPosition(s)) == multiset(s)
  {
    if s != [] {
      SortPermutes(s[1..]);
      InsertPermutes(s[0], SortByPosition(s[1..]));
      assert s == [s[0]] + s[1..];
    }
  }

  lemma {:induction false} SortSorted(s: seq<ImageRow>)
    ensures ByPosition(SortByPosition(s))
  {
    if s != [] {
      SortSorted(s[1..]);
      InsertSorted(s[0], SortByPosition(s[1..]));
    }
  }

  /** SQLite's `LIMIT l OFFSET o`: a negative limit has no bound, a negative offset counts as 0. */
  function SqlWindow<T>(all: seq<T>, limit: int, offset: int): (r: seq<T>)
    ensures limit >= 0 ==> |r| <= limit
    ensures var o := if offset < 0 then 0 else offset;
      forall i :: 0 <= i < |r| ==> o + i < |all| && r[i] == all[o + i]
  {
    var o := if offset < 0 then 0 else offset;
    if o >= |all| then [] else if limit < 0 || o + limit >= |all| then all[o..] else all[o..o + limit]
  }

  /** `getImagesByDirectory(directoryId, limit?, offset?)`; `offset || 0` turns a missing offset into 0. */
  function ImagesByDirectory(rows: seq<ImageRow>, directoryId: string, limit: Option<int>, offset: Option<int>): seq<ImageRow> {
    var all := SortByPosition(PublishedIn(rows, directoryId));
    if limit.None? then all else SqlWindow(all, limit.value, offset.GetOr(0))
  }

  /** Only published images of that directory. */
  lemma ImagesByDirectoryRows(rows: seq<ImageRow>, directoryId: string, limit: Option<int>, offset: Option<int>)
    ensures forall x :: x in ImagesByDirectory(rows, directoryId, limit, offset) ==>
      x in rows && x.directoryId == directoryId && x.status == "published"
  {
    var all := SortByPosition(PublishedIn(rows, directoryId));
    SortPermutes(PublishedIn(rows, directoryId));
    assert forall x :: x in all ==> x in multiset(PublishedIn(rows, directoryId));
    var r := ImagesByDirectory(rows, directoryId, limit, offset);
    assert forall x :: x in r ==> x in all;
  }

  /** Without a limit, every published image of the directory, each once. */
  lemma ImagesByDirectoryAll(rows: seq<ImageRow>, directoryId: string, offset: Option<int>)
    ensures multiset(ImagesByDirectory(rows, directoryId, None, offset)) == multiset(PublishedIn(rows, directoryId))
  {
    SortPermutes(PublishedIn(rows, directoryId));
  }

  lemma WindowByPosition(all: seq<ImageRow>, limit: int, offset: int)
    requires ByPosition(all)
    ensures ByPosition(SqlWindow(all, limit, offset))
  {
    var r := SqlWindow(all, limit, offset);
    var o := if offset < 0 then 0 else offset;
    forall i, j | 0 <= i < j < |r| ensures r[i].position <= r[j].position {
      assert r[i] == all[o + i] && r[j] == all[o + j];
    }
  }

  /** In position order, with or without a limit. */
  lemma ImagesByDirectorySorted(rows: seq<ImageRow>, directoryId: string, limit: Option<int>, offset: Option<int>)
    ensures ByPosition(ImagesByDirectory(rows, directoryId, limit, offset))
  {
    SortSorted(PublishedIn(rows, directoryId));
    if limit.Some? {
      WindowByPosition(SortByPosition(PublishedIn(rows, directoryId)), limit.value, offset.GetOr(0));
    }
  }

  // ---------------------------------------------------------------------------
  // updateImageThumbnails

  /** A property of the argument object: absent, `null`, or a value. */
  datatype Field<T> = Undefined | Null | Given(value: T)

  datatype ThumbnailData = ThumbnailData(
    thumbnailUrl: Field<string>,
    mediumUrl: Field<string>,
    largeUrl: Field<string>,
    exifData: Option<JsonObject>)

  /** `v !== undefined ? v : null` */
  function ColumnOf(f: Field<string>): Option<string> {
    if f.Given? then Some(f.value) else None
  }

  /** The row with the four columns the update writes. */
  function WithThumbnails(row: ImageRow, data: ThumbnailData): ImageRow {
    row.(urls := row.urls.(thumbnail := ColumnOf(data.thumbnailUrl), medium := ColumnOf(data.mediumUrl), large := ColumnOf(data.largeUrl)),
         exif := Json(data.exifData.GetOr(Empty())))
  }

  /** `UPDATE images SET thumbnail_url, medium_url, large_url, exif_data WHERE id = ?` */
  function ThumbnailsUpdated(rows: seq<ImageRow>, id: string, data: ThumbnailData): (r: seq<ImageRow>)
    ensures |r| == |rows|
    ensures forall i :: 0 <= i < |rows| ==> r[i] == if rows[i].id == id then WithThumbnails(rows[i], data) else rows[i]
  {
    seq(|rows|, i requires 0 <= i < |rows| => if rows[i].id == id then WithThumbnails(rows[i], data) else rows[i])
  }

  /** The columns `updateImageThumbnails` does not write. */
  function Untouched(row: ImageRow): ImageRow {
    row.(urls := row.urls.(thumbnail := None, medium := None, large := None), exif := Blank)
  }

  /**
    * Only the matching image changes, and only in its thumbnail, medium and
    * large URLs and its EXIF column; an absent URL becomes NULL, an absent EXIF
    * object becomes `{}`.
    */
  lemma ThumbnailsUpdatedSpec(rows: seq<ImageRow>, id: string, data: ThumbnailData)
    ensures var r := ThumbnailsUpdated(rows, id, data);
      forall i :: 0 <= i < |rows| ==>
        Untouched(r[i]) == Untouched(rows[i]) &&
        (rows[i].id != id ==> r[i] == rows[i]) &&
        (rows[i].id == id ==>
          (r[i].urls.thumbnail.Some? <==> data.thumbnailUrl.Given?) &&
          (r[i].urls.medium.Some? <==> data.mediumUrl.Given?) &&
          (r[i].urls.large.Some? <==> data.largeUrl.Given?) &&
          (data.thumbnailUrl.Given? ==> r[i].urls.thumbnail.value == data.thumbnailUrl.value) &&
          (data.exifData.None? ==> r[i].exif == Json(Empty())))
  {
  }

  // ---------------------------------------------------------------------------
  // The store

  class DatabaseManager {
    var directories: seq<DirRow>
    var images: seq<ImageRow>
    var reactions: seq<Reaction>

    constructor (directories: seq<DirRow>, images: seq<ImageRow>, reactions: seq<Reaction>)
      ensures this.directories == directories && this.images == images && this.reactions == reactions
    {
      this.directories := directories;
      this.images := images;
      this.reactions := reactions;
    }

    /** `getDirectories(filter)`: the statement it prepares, built by pushing conditions and arguments. */
    method GetDirectoriesQuery(filter: DirectoryFilter) returns (q: Query)
      ensures q == DirectoriesQuery(filter)
    {
      var sql := SelectDirectories;
      var conditions: seq<string> := [];
      var params: seq<SqlParam> := [];
      if filter.status.Some? && filter.status.value != "" {
        conditions := conditions + [StatusCondition];
        params := params + [Text(filter.status.value)];
      }
      if filter.featured.Some? {
        conditions := conditions + [FeaturedCondition];
        params := params + [Int(if filter.featured.value then 1 else 0)];
      }
      assert conditions == DirectoryConditions(filter) && params == DirectoryParams(filter);
      if |conditions| > 0 {
        sql := sql + " WHERE " + Join(" AND ", conditions);
      }
      assert sql == SelectDirectories + WhereClause(conditions);
      sql := sql + OrderByMenu;
      q := Query(sql, params);
    }

    /** `addReaction(imageId, reactionType, ipHash, sessionId?)` */
    method AddReaction(imageId: string, reactionType: string, ipHash: string, sessionId: Option<string>)
      modifies this
      ensures reactions == InsertOrReplace(old(reactions),
        Reaction(ReactionId(imageId, ipHash, reactionType), imageId, reactionType, ipHash, SessionColumn(sessionId)))
      ensures directories == old(directories) && images == old(images)
    {
      var id := imageId + "-" + ipHash + "-" + reactionType;
      reactions := InsertOrReplace(reactions, Reaction(id, imageId, reactionType, ipHash, SessionColumn(sessionId)));
    }

    /** `updateDirectoryMetadata(directoryId, metadata)`; `threw` when the stored config does not parse. */
    method UpdateDirectoryMetadata(directoryId: string, metadata: JsonObject) returns (threw: bool)
      requires metadata.Valid() && ConfigsValid(directories)
      modifies this
      ensures threw <==> MetadataUpdate(old(directories), directoryId, metadata).None?
      ensures !threw ==> directories == MetadataUpdate(old(directories), directoryId, metadata).value
      ensures threw ==> directories == old(directories)
      ensures images == old(images) && reactions == old(reactions)
    {
      var dir := DirectoryById(directories, directoryId);
      var current: JsonObject := Empty();
      if dir.Some? {
        match dir.value.config {
          case Blank =>
          case Json(o) =>
            current := o;
          case Malformed =>
            return true;
        }
      }
      directories := SetConfig(directories, directoryId, Spread(current, metadata));
      threw := false;
    }

    /** `updateImageThumbnails(id, data)` */
    method UpdateImageThumbnails(id: string, data: ThumbnailData)
      modifies this
      ensures images == ThumbnailsUpdated(old(images), id, data)
      ensures directories == old(directories) && reactions == old(reactions)
    {
      images := ThumbnailsUpdated(images, id, data);
    }
  }
}
