/**
  * analyze_validation.py: pairs the directory names the validator reported as
  * missing from the catalog with the slugs it reported as orphaned, on the
  * hypothesis that catalog slugs are `parent-child` while directories carry
  * only the child name.
  */
module SlugAnalysis {
  import opened Wrappers
  import opened Text

  /** The names reported as missing from the catalog. */
  const FsMissing: seq<string> := [
    "Coffee", "DarkBeauty", "Flowers", "Dancing Gynoids", "Pirate Couple best", "RedDancers",
    "Watercolor", "Best", "Bugs", "Horses", "Seahorse", "Snakes", "wolves n foxes"]

  /** The slugs reported as orphaned in the catalog. */
  const DbOrphaned: seq<string> := [
    "gynoids-bugs", "gynoids-bugs-best", "gynoids-horses", "gynoids-seahorse", "gynoids-seahorse-best",
    "gynoids-snakes", "gynoids-wolves-n-foxes", "couples-dancing-gynoids", "couples-pirate-couple-best",
    "couples-reddancers", "couples-watercolor", "cafe-coffee", "cafe-darkbeauty", "cafe-flowers"]

  // ---------------------------------------------------------------------------
  // Child parts

  /** `'-'.join(slug.split('-')[1:])` when the split has at least two parts. */
  function ChildPart(slug: string): Option<string> {
    var parts := Split(slug, '-');
    if |parts| >= 2 then Some(Join("-", parts[1..])) else None
  }

  /** The child part is everything after the first hyphen; a slug without one has none. */
  lemma ChildPartSpec(slug: string)
    ensures '-' !in slug ==> ChildPart(slug) == None
    ensures '-' in slug ==> ChildPart(slug) == Some(slug[IndexOf(slug, '-') + 1..])
  {
    SplitCount(slug, '-');
    if '-' in slug {
      var k := IndexOf(slug, '-');
      assert Split(slug, '-')[1..] == Split(slug[k + 1..], '-');
      SplitJoin(slug[k + 1..], '-');
    }
  }

  /** `db_child_parts`: the slugs that have a child part, in order, each with it. */
  function ChildParts(slugs: seq<string>): seq<(string, string)> {
    if slugs == [] then []
    else
      var s := slugs[|slugs| - 1];
      ChildParts(slugs[..|slugs| - 1]) + (match ChildPart(s) case Some(child) => [(s, child)] case None => [])
  }

  /** Every extracted pair is a hyphenated input slug with its child part, and every hyphenated slug is extracted. */
  lemma {:induction false} ChildPartsSpec(slugs: seq<string>)
    ensures forall p :: p in ChildParts(slugs) ==> p.0 in slugs && ChildPart(p.0) == Some(p.1)
    ensures forall s :: s in slugs && '-' in s ==> exists child :: (s, child) in ChildParts(slugs)
    ensures |ChildParts(slugs)| <= |slugs|
  {
    if slugs != [] {
      var front, s := slugs[..|slugs| - 1], slugs[|slugs| - 1];
      ChildPartsSpec(front);
      ChildPartSpec(s);
      forall t | t in slugs && '-' in t ensures exists child :: (t, child) in ChildParts(slugs) {
        ChildPartSpec(t);
        if t != s {
          assert t in front;
          var child :| (t, child) in ChildParts(front);
          assert (t, child) in ChildParts(slugs);
        } else {
          assert (s, ChildPart(s).value) in ChildParts(slugs);
        }
      }
    }
  }

  // ---------------------------------------------------------------------------
  // Matching

  /** `name.lower().replace('-', ' ')` */
  function Normalize(name: string): string {
    ReplaceChar(Lower(name), '-', ' ')
  }

  datatype MatchType = Exact | SpacingDiffers

  /** The comparison of one child part with one directory name. */
  function Compare(child: string, fsName: string): Option<MatchType> {
    var c, f := Normalize(child), Normalize(fsName);
    if c == f then Some(Exact)
    else if RemoveChar(c, ' ') == RemoveChar(f, ' ') then Some(SpacingDiffers)
    else None
  }

  /**
    * Case and the choice between hyphen and space never matter, the comparison
    * is symmetric, and a pair is classified as a spacing difference only when
    * it is not an exact match.
    */
  lemma CompareSpec(child: string, fsName: string)
    ensures Compare(child, fsName) == Compare(fsName, child)
    ensures Compare(child, fsName) == Compare(Lower(child), ReplaceChar(fsName, '-', ' '))
    ensures Compare(child, fsName) == Some(Exact) <==> Normalize(child) == Normalize(fsName)
    ensures Compare(child, fsName) == Some(SpacingDiffers) <==>
      Normalize(child) != Normalize(fsName) && RemoveChar(Normalize(child), ' ') == RemoveChar(Normalize(fsName), ' ')
  {
    LowerIdempotent(child);
    assert Normalize(ReplaceChar(fsName, '-', ' ')) == Normalize(fsName);
  }

  /** One row of `matches`. */
  datatype Match = Match(fsName: string, dbSlug: string, kind: MatchType)

  /** The matches of one child part against the names `names`, in order. */
  function MatchesOf(dbSlug: string, child: string, names: seq<string>): seq<Match> {
    if names == [] then []
    else
      var f := names[|names| - 1];
      MatchesOf(dbSlug, child, names[..|names| - 1]) +
      (match Compare(child, f) case Some(kind) => [Match(f, dbSlug, kind)] case None => [])
  }

  /** `matches`: every child part against every name, child parts in the outer loop. */
  function AllMatches(parts: seq<(string, string)>, names: seq<string>): seq<Match> {
    if parts == [] then []
    else
      var p := parts[|parts| - 1];
      AllMatches(parts[..|parts| - 1], names) + MatchesOf(p.0, p.1, names)
  }

  lemma {:induction false} MatchesOfSpec(dbSlug: string, child: string, names: seq<string>)
    ensures forall m :: m in MatchesOf(dbSlug, child, names) <==>
      m.dbSlug == dbSlug && m.fsName in names && Compare(child, m.fsName) == Some(m.kind)
  {
    if names != [] {
      MatchesOfSpec(dbSlug, child, names[..|names| - 1]);
      assert forall n :: n in names <==> n in names[..|names| - 1] || n == names[|names| - 1];
    }
  }

  lemma {:induction false} MatchesOfSize(dbSlug: string, child: string, names: seq<string>)
    ensures |MatchesOf(dbSlug, child, names)| <= |names|
  {
    if names != [] {
      MatchesOfSize(dbSlug, child, names[..|names| - 1]);
    }
  }

  /**
    * A row is in `matches` exactly when its slug's child part compares with its
    * name.
    */
  lemma {:induction false} AllMatchesSpec(parts: seq<(string, string)>, names: seq<string>)
    ensures forall m :: m in AllMatches(parts, names) <==>
      exists p :: p in parts && p.0 == m.dbSlug && m.fsName in names && Compare(p.1, m.fsName) == Some(m.kind)
  {
    if parts != [] {
      var front, p := parts[..|parts| - 1], parts[|parts| - 1];
      AllMatchesSpec(front, names);
      MatchesOfSpec(p.0, p.1, names);
      forall m ensures m in AllMatches(parts, names) <==>
        exists q :: q in parts && q.0 == m.dbSlug && m.fsName in names && Compare(q.1, m.fsName) == Some(m.kind)
      {
        if m in AllMatches(front, names) {
          var q :| q in front && q.0 == m.dbSlug && m.fsName in names && Compare(q.1, m.fsName) == Some(m.kind);
          assert q in parts;
        }
        if exists q :: q in parts && q.0 == m.dbSlug && m.fsName in names && Compare(q.1, m.fsName) == Some(m.kind) {
          var q :| q in parts && q.0 == m.dbSlug && m.fsName in names && Compare(q.1, m.fsName) == Some(m.kind);
          if q != p {
            assert q in front;
          }
        }
      }
    }
  }

  /** At most one row per (child part, name) pair. */
  lemma {:induction false} AllMatchesSize(parts: seq<(string, string)>, names: seq<string>)
    ensures |AllMatches(parts, names)| <= |parts| * |names|
  {
    if parts != [] {
      var front, p := parts[..|parts| - 1], parts[|parts| - 1];
      AllMatchesSize(front, names);
      MatchesOfSize(p.0, p.1, names);
      MulSucc(|front|, |names|);
    }
  }

  lemma MulSucc(a: nat, b: nat)
    ensures (a + 1) * b == a * b + b
  {
  }

  // ---------------------------------------------------------------------------
  // Unmatched entries

  /** `match[0] for match in matches` */
  function FsNames(matches: seq<Match>): (r: seq<string>)
    ensures forall n :: n in r <==> exists m :: m in matches && m.fsName == n
  {
    if matches == [] then []
    else
      var rest := FsNames(matches[..|matches| - 1]);
      assert forall m :: m in matches <==> m in matches[..|matches| - 1] || m == matches[|matches| - 1];
      rest + [matches[|matches| - 1].fsName]
  }

  /** `match[1] for match in matches` */
  function DbSlugs(matches: seq<Match>): (r: seq<string>)
    ensures forall s :: s in r <==> exists m :: m in matches && m.dbSlug == s
  {
    if matches == [] then []
    else
      var rest := DbSlugs(matches[..|matches| - 1]);
      assert forall m :: m in matches <==> m in matches[..|matches| - 1] || m == matches[|matches| - 1];
      rest + [matches[|matches| - 1].dbSlug]
  }

  /** `any(part in h for h in haystacks)` with `in` on strings. */
  predicate AnyContains(haystacks: seq<string>, part: string) {
    haystacks != [] && (AnyContains(haystacks[..|haystacks| - 1], part) || Contains(haystacks[|haystacks| - 1], part))
  }

  /** `[name for name in fs_missing if not any(name in match[0] for match in matches)]`: `in` on strings is a substring test. */
  function UnmatchedFsAsWritten(names: seq<string>, matches: seq<Match>): seq<string> {
    if names == [] then []
    else
      var n := names[|names| - 1];
      UnmatchedFsAsWritten(names[..|names| - 1], matches) +
      (if AnyContains(FsNames(matches), n) then [] else [n])
  }

  /** `[slug for slug in db_orphaned if not any(slug in match[1] for match in matches)]`, again a substring test. */
  function UnmatchedDbAsWritten(slugs: seq<string>, matches: seq<Match>): seq<string> {
    if slugs == [] then []
    else
      var s := slugs[|slugs| - 1];
      UnmatchedDbAsWritten(slugs[..|slugs| - 1], matches) + (if AnyContains(DbSlugs(matches), s) then [] else [s])
  }

  lemma {:induction false} AnyContainsSpec(haystacks: seq<string>, part: string)
    ensures AnyContains(haystacks, part) <==> exists h :: h in haystacks && Contains(h, part)
  {
    if haystacks != [] {
      var front, last := haystacks[..|haystacks| - 1], haystacks[|haystacks| - 1];
      AnyContainsSpec(front, part);
      assert forall h :: h in haystacks <==> h in front || h == last;
      if exists h :: h in haystacks && Contains(h, part) {
        var h :| h in haystacks && Contains(h, part);
        assert h in front || h == last;
      }
    }
  }

  /** As written, a name is reported unmatched exactly when it is a substring of no matched name. */
  lemma {:induction false} UnmatchedFsAsWrittenSpec(names: seq<string>, matches: seq<Match>)
    ensures forall n :: n in UnmatchedFsAsWritten(names, matches) <==>
      n in names && forall m :: m in matches ==> !Contains(m.fsName, n)
  {
    if names != [] {
      var front, last := names[..|names| - 1], names[|names| - 1];
      UnmatchedFsAsWrittenSpec(front, matches);
      AnyContainsSpec(FsNames(matches), last);
      assert forall n :: n in names <==> n in front || n == last;
    }
  }

  /** As written, a slug is reported unmatched exactly when it is a substring of no matched slug. */
  lemma {:induction false} UnmatchedDbAsWrittenSpec(slugs: seq<string>, matches: seq<Match>)
    ensures forall s :: s in UnmatchedDbAsWritten(slugs, matches) <==>
      s in slugs && forall m :: m in matches ==> !Contains(m.dbSlug, s)
  {
    if slugs != [] {
      var front, last := slugs[..|slugs| - 1], slugs[|slugs| - 1];
      UnmatchedDbAsWrittenSpec(front, matches);
      AnyContainsSpec(DbSlugs(matches), last);
      assert forall s :: s in slugs <==> s in front || s == last;
    }
  }

  /** The same filter with membership meant as equality. */
  function UnmatchedFs(names: seq<string>, matches: seq<Match>): seq<string> {
    if names == [] then []
    else
      var n := names[|names| - 1];
      UnmatchedFs(names[..|names| - 1], matches) + (if n in FsNames(matches) then [] else [n])
  }

  /** The slug filter, with membership meant as equality. */
  function UnmatchedDb(slugs: seq<string>, matches: seq<Match>): seq<string> {
    if slugs == [] then []
    else
      var s := slugs[|slugs| - 1];
      UnmatchedDb(slugs[..|slugs| - 1], matches) + (if s in DbSlugs(matches) then [] else [s])
  }

  /** A name is reported unmatched exactly when it is an input name that no match row carries. */
  lemma {:induction false} UnmatchedFsSpec(names: seq<string>, matches: seq<Match>)
    ensures forall n :: n in UnmatchedFs(names, matches) <==> n in names && forall m :: m in matches ==> m.fsName != n
  {
    if names != [] {
      UnmatchedFsSpec(names[..|names| - 1], matches);
      assert forall n :: n in names <==> n in names[..|names| - 1] || n == names[|names| - 1];
    }
  }

  /** A slug is reported unmatched exactly when it is an input slug that no match row carries. */
  lemma {:induction false} UnmatchedDbSpec(slugs: seq<string>, matches: seq<Match>)
    ensures forall s :: s in UnmatchedDb(slugs, matches) <==> s in slugs && forall m :: m in matches ==> m.dbSlug != s
  {
    if slugs != [] {
      UnmatchedDbSpec(slugs[..|slugs| - 1], matches);
      assert forall s :: s in slugs <==> s in slugs[..|slugs| - 1] || s == slugs[|slugs| - 1];
    }
  }

  /** A name of lowercase letters is its own normal form and has no space to remove. */
  lemma PlainName(s: string)
    requires forall i :: 0 <= i < |s| ==> 'a' <= s[i] <= 'z'
    ensures Normalize(s) == s && RemoveChar(s, ' ') == s
  {
    if s != [] {
      PlainName(s[1..]);
    }
  }

  lemma OneSlug(slug: string, k: nat)
    requires k < |slug| && slug[k] == '-' && '-' !in slug[..k] && '-' !in slug[k + 1..]
    ensures ChildParts([slug]) == [(slug, slug[k + 1..])]
  {
    assert forall i :: 0 <= i < k ==> slug[i] != '-' by {
      assert forall i :: 0 <= i < k ==> slug[i] == slug[..k][i];
    }
    assert IndexOf(slug, '-') == k;
    ChildPartSpec(slug);
    assert [slug][..0] == [];
  }

  lemma TwoNames(dbSlug: string, child: string, a: string, b: string)
    ensures MatchesOf(dbSlug, child, [a, b]) ==
      (match Compare(child, a) case Some(kind) => [Match(a, dbSlug, kind)] case None => []) +
      (match Compare(child, b) case Some(kind) => [Match(b, dbSlug, kind)] case None => [])
  {
    assert [a, b][..1] == [a] && [a, b][..1][..0] == [];
    assert MatchesOf(dbSlug, child, [a]) ==
      (match Compare(child, a) case Some(kind) => [Match(a, dbSlug, kind)] case None => []);
  }

  /**
    * The substring test hides a name that matched nothing: with names `a` and
    * `ab` and the one slug `x-ab`, only `ab` matches, yet the written filter
    * reports no unmatched name while the intended one reports `a`.
    */
  lemma SubstringHidesUnmatched()
    ensures
      var names := ["a", "ab"];
      var matches := AllMatches(ChildParts(["x-ab"]), names);
      UnmatchedFsAsWritten(names, matches) == [] && UnmatchedFs(names, matches) == ["a"]
  {
    SubstringExampleMatches();
    SubstringExampleFilters();
  }

  lemma SubstringExampleMatches()
    ensures AllMatches(ChildParts(["x-ab"]), ["a", "ab"]) == [Match("ab", "x-ab", Exact)]
  {
    OneSlug("x-ab", 1);
    assert "x-ab"[2..] == "ab";
    PlainName("a");
    PlainName("ab");
    TwoNames("x-ab", "ab", "a", "ab");
    var parts := [("x-ab", "ab")];
    assert parts[..0] == [];
  }

  lemma SubstringExampleFilters()
    ensures
      var matches := [Match("ab", "x-ab", Exact)];
      UnmatchedFsAsWritten(["a", "ab"], matches) == [] && UnmatchedFs(["a", "ab"], matches) == ["a"]
  {
    var names := ["a", "ab"];
    var matches := [Match("ab", "x-ab", Exact)];
    assert matches[..0] == [];
    assert FsNames(matches) == ["ab"];
    assert AnyContains(["ab"], "a") by {
      assert Contains("ab", "a");
    }
    assert AnyContains(["ab"], "ab") by {
      assert Contains("ab", "ab");
    }
    assert names[..1] == ["a"] && names[..1][..0] == [];
    assert "a" !in ["ab"];
  }

  // ---------------------------------------------------------------------------
  // Conclusion

  datatype Conclusion = AllSame | PartialMatch(count: nat) | NoMatches

  /** `if len(matches) == len(fs_missing) == len(db_orphaned)` and its two alternatives. */
  function ConclusionAsWritten(matches: seq<Match>, names: seq<string>, slugs: seq<string>): Conclusion {
    if |matches| == |names| == |slugs| then AllSame
    else if |matches| > 0 then PartialMatch(|matches|)
    else NoMatches
  }

  /**
    * Equal counts do not mean every entry is paired: two slugs whose child
    * parts both match `A` give two matches for two names and two slugs, while
    * `B` matches nothing.
    */
  lemma CountConclusionMisleads()
    ensures
      var names, slugs := ["a", "b"], ["x-a", "y-a"];
      var matches := AllMatches(ChildParts(slugs), names);
      ConclusionAsWritten(matches, names, slugs) == AllSame && UnmatchedFs(names, matches) == ["b"]
  {
    CountExampleParts();
    CountExampleMatches();
    CountExampleFilter();
  }

  lemma CountExampleParts()
    ensures ChildParts(["x-a", "y-a"]) == [("x-a", "a"), ("y-a", "a")]
  {
    var slugs := ["x-a", "y-a"];
    OneSlug("x-a", 1);
    ChildPartSpec("y-a");
    assert IndexOf("y-a", '-') == 1;
    assert "x-a"[2..] == "a" && "y-a"[2..] == "a";
    assert slugs[..1] == ["x-a"];
  }

  lemma CountExampleMatches()
    ensures AllMatches([("x-a", "a"), ("y-a", "a")], ["a", "b"]) == [Match("a", "x-a", Exact), Match("a", "y-a", Exact)]
  {
    PlainName("a");
    PlainName("b");
    TwoNames("x-a", "a", "a", "b");
    TwoNames("y-a", "a", "a", "b");
    var parts := [("x-a", "a"), ("y-a", "a")];
    assert parts[..1] == [("x-a", "a")] && parts[..1][..0] == [];
    assert AllMatches(parts[..1], ["a", "b"]) == [Match("a", "x-a", Exact)];
  }

  lemma CountExampleFilter()
    ensures UnmatchedFs(["a", "b"], [Match("a", "x-a", Exact), Match("a", "y-a", Exact)]) == ["b"]
  {
    var names := ["a", "b"];
    var matches := [Match("a", "x-a", Exact), Match("a", "y-a", Exact)];
    assert matches[..1] == [Match("a", "x-a", Exact)] && matches[..1][..0] == [];
    assert FsNames(matches) == ["a", "a"];
    assert names[..1] == ["a"] && names[..1][..0] == [];
    assert "b" !in ["a", "a"];
  }

  /** The verdict with "all the same" meaning that every name and every slug is paired. */
  function AnalysisConclusion(matches: seq<Match>, names: seq<string>, slugs: seq<string>): Conclusion {
    if matches != [] && UnmatchedFs(names, matches) == [] && UnmatchedDb(slugs, matches) == [] then AllSame
    else if |matches| > 0 then PartialMatch(|matches|)
    else NoMatches
  }

  /**
    * "All the same" holds exactly when there is a match and every reported
    * name and slug appears in one; "no matches" exactly when there is none.
    */
  lemma AnalysisConclusionSpec(matches: seq<Match>, names: seq<string>, slugs: seq<string>)
    ensures AnalysisConclusion(matches, names, slugs) == AllSame <==>
      matches != [] && (forall n :: n in names ==> exists m :: m in matches && m.fsName == n) &&
      (forall s :: s in slugs ==> exists m :: m in matches && m.dbSlug == s)
    ensures AnalysisConclusion(matches, names, slugs) == NoMatches <==> matches == []
  {
    UnmatchedFsSpec(names, matches);
    UnmatchedDbSpec(slugs, matches);
    var fsLeft, dbLeft := UnmatchedFs(names, matches), UnmatchedDb(slugs, matches);
    if fsLeft != [] {
      assert fsLeft[0] in fsLeft;
    }
    if dbLeft != [] {
      assert dbLeft[0] in dbLeft;
    }
  }

  /** The result of one run of the analysis. */
  datatype Analysis = Analysis(
    childParts: seq<(string, string)>,
    matches: seq<Match>,
    unmatchedFs: seq<string>,
    unmatchedDb: seq<string>,
    conclusion: Conclusion)

  /** The script's loops and filters, on its two lists; printing is left out. */
  method Analyze(fsMissing: seq<string>, dbOrphaned: seq<string>) returns (r: Analysis)
    ensures r.childParts == ChildParts(dbOrphaned)
    ensures r.matches == AllMatches(r.childParts, fsMissing)
    ensures r.unmatchedFs == UnmatchedFs(fsMissing, r.matches)
    ensures r.unmatchedDb == UnmatchedDb(dbOrphaned, r.matches)
    ensures r.conclusion == AnalysisConclusion(r.matches, fsMissing, dbOrphaned)
  {
    var dbChildParts := CollectChildParts(dbOrphaned);
    var matches := MatchAll(dbChildParts, fsMissing);
    var unmatchedFs := UnmatchedFs(fsMissing, matches);
    var unmatchedDb := UnmatchedDb(dbOrphaned, matches);
    r := Analysis(dbChildParts, matches, unmatchedFs, unmatchedDb, AnalysisConclusion(matches, fsMissing, dbOrphaned));
  }

  /** The first loop: the child part of every orphaned slug with at least one hyphen. */
  method CollectChildParts(dbOrphaned: seq<string>) returns (dbChildParts: seq<(string, string)>)
    ensures dbChildParts == ChildParts(dbOrphaned)
  {
    dbChildParts := [];
    var i := 0;
    while i < |dbOrphaned|
      invariant 0 <= i <= |dbOrphaned|
      invariant dbChildParts == ChildParts(dbOrphaned[..i])
    {
      var slug := dbOrphaned[i];
      assert dbOrphaned[..i + 1][..i] == dbOrphaned[..i];
      var parts := Split(slug, '-');
      if |parts| >= 2 {
        var child := Join("-", parts[1..]);
        dbChildParts := dbChildParts + [(slug, child)];
      }
      i := i + 1;
    }
    assert dbOrphaned[..i] == dbOrphaned;
  }

  /** The second loop: every child part against every missing directory name. */
  method MatchAll(dbChildParts: seq<(string, string)>, fsMissing: seq<string>) returns (matches: seq<Match>)
    ensures matches == AllMatches(dbChildParts, fsMissing)
  {
    matches := [];
    var j := 0;
    while j < |dbChildParts|
      invariant 0 <= j <= |dbChildParts|
      invariant matches == AllMatches(dbChildParts[..j], fsMissing)
    {
      var (dbSlug, child) := dbChildParts[j];
      assert dbChildParts[..j + 1][..j] == dbChildParts[..j];
      var found := MatchOne(dbSlug, child, fsMissing);
      matches := matches + found;
      j := j + 1;
    }
    assert dbChildParts[..j] == dbChildParts;
  }

  /** The inner loop over the names for one child part. */
  method MatchOne(dbSlug: string, child: string, fsMissing: seq<string>) returns (found: seq<Match>)
    ensures found == MatchesOf(dbSlug, child, fsMissing)
  {
    var childNormalized := ReplaceChar(Lower(child), '-', ' ');
    found := [];
    var k := 0;
    while k < |fsMissing|
      invariant 0 <= k <= |fsMissing|
      invariant found == MatchesOf(dbSlug, child, fsMissing[..k])
    {
      var fsName := fsMissing[k];
      assert fsMissing[..k + 1][..k] == fsMissing[..k];
      var fsNormalized := ReplaceChar(Lower(fsName), '-', ' ');
      if childNormalized == fsNormalized {
        found := found + [Match(fsName, dbSlug, Exact)];
      } else if RemoveChar(childNormalized, ' ') == RemoveChar(fsNormalized, ' ') {
        found := found + [Match(fsName, dbSlug, SpacingDiffers)];
      }
      k := k + 1;
    }
    assert fsMissing[..k] == fsMissing;
  }

  /** On the shipped lists (13 names, 14 slugs) the written count test can never conclude "all the same". */
  lemma ShippedListsNeverAllSame(matches: seq<Match>)
    ensures ConclusionAsWritten(matches, FsMissing, DbOrphaned) != AllSame
  {
    assert |FsMissing| == 13 && |DbOrphaned| == 14;
  }
}
