/** What evidence packs promise: exactly when an assembled pack verifies, that a verified pack with a recorded
    manifest hash holds the issued files and no others, and that a pack depends on its set of files alone. */
module TamperEvidence {
  import opened Money
  import opened Text
  import opened EvidencePack

  /* Archives */

  lemma {:induction false} TreeHolds(files: seq<PackFile>, p: string)
    ensures p in TreeOf(files) <==> exists i :: 0 <= i < |files| && files[i].path == p
    ensures p in TreeOf(files) ==> PackFile(p, TreeOf(files)[p]) in files
  {
    if files != [] {
      var n := |files| - 1;
      TreeHolds(files[..n], p);
      if i: nat :| i < n && files[i].path == p { assert files[..n][i].path == p; }
      if i: nat :| i < n && files[..n][i].path == p { assert files[i].path == p; }
    }
  }

  /** A file inserted into a sorted list stays behind the others of its path, so the archive keeps it. */
  lemma {:induction false} InsertedWins(c: Codec, x: PackFile, s: seq<PackFile>)
    requires c.before(x.path, x.path)
    ensures x.path in TreeOf(Insert(x, s, ByPath(c))) && TreeOf(Insert(x, s, ByPath(c)))[x.path] == x.data
  {
    if s != [] && !ByPath(c)(s[|s| - 1], x) {
      InsertedWins(c, x, s[..|s| - 1]);
    }
  }

  lemma ReadmeWins(c: Codec, h: Header, files: seq<PackFile>)
    requires CodecOk(c)
    ensures var t := TreeOf(Contents(c, h, files));
            ReadmePath in t && t[ReadmePath] == c.readme(h)
  {
    var body := Sort(files, ByPath(c));
    var x := PackFile(ReadmePath, c.readme(h));
    assert (body + [x])[..|body|] == body;
    assert c.before(x.path, x.path);
    InsertedWins(c, x, Sort(body, ByPath(c)));
  }

  lemma ContentsMembers(c: Codec, h: Header, files: seq<PackFile>, f: PackFile)
    ensures f in Contents(c, h, files) <==> f in files || f == PackFile(ReadmePath, c.readme(h))
  {
    hide Sort, Insert;
    var body := Sort(files, ByPath(c));
    SortMembers(files, ByPath(c));
    SameElements(files, body);
    SortMembers(body + [PackFile(ReadmePath, c.readme(h))], ByPath(c));
    SameElements(body + [PackFile(ReadmePath, c.readme(h))], Contents(c, h, files));
  }

  /** What the archive holds of each content file: its own data, except that the generated readme stands in
      for any other of its path. */
  lemma ContentInTree(c: Codec, h: Header, files: seq<PackFile>, f: PackFile)
    requires CodecOk(c) && Acceptable(files) && f in Contents(c, h, files)
    ensures var t := TreeOf(Contents(c, h, files));
            f.path in t && t[f.path] == if f.path == ReadmePath then c.readme(h) else f.data
  {
    hide Sort, Insert, TreeOf, SafePath;
    var w := Contents(c, h, files);
    TreeHolds(w, f.path);
    assert exists i :: 0 <= i < |w| && w[i].path == f.path by {
      var i :| 0 <= i < |w| && w[i] == f;
      assert w[i].path == f.path;
    }
    ReadmeWins(c, h, files);
    if f.path != ReadmePath {
      ContentsMembers(c, h, files, f);
      ContentsMembers(c, h, files, PackFile(f.path, TreeOf(w)[f.path]));
    }
  }

  /** A readme of the caller's own passes for the generated one. */
  predicate ReadmeAgrees(c: Codec, h: Header, files: seq<PackFile>)
  {
    forall i :: 0 <= i < |files| && files[i].path == ReadmePath ==>
      |files[i].data| == |c.readme(h)| && c.sha(files[i].data) == c.sha(c.readme(h))
  }

  predicate AllOneLine(files: seq<PackFile>) { forall i :: 0 <= i < |files| ==> OneLine(files[i].path) }

  /** The assembled archive matches its own manifest exactly if the readmes agree. */
  lemma ManifestMatches(c: Codec, h: Header, files: seq<PackFile>)
    requires CodecOk(c) && Acceptable(files)
    ensures var pack := PackOf(c, h, files);
            (forall i :: 0 <= i < |pack.manifest.files| ==> Matches(c, pack.archive, pack.manifest.files[i]))
            <==> ReadmeAgrees(c, h, files)
  {
    hide Sort, Insert, TreeOf, SafePath, SumsOf, Contents;
    var pack, w := PackOf(c, h, files), Contents(c, h, files);
    forall i | 0 <= i < |w|
      ensures Matches(c, pack.archive, pack.manifest.files[i]) <==>
              (w[i].path == ReadmePath ==> |w[i].data| == |c.readme(h)| && c.sha(w[i].data) == c.sha(c.readme(h)))
    {
      ContentInTree(c, h, files, w[i]);
      ContentsMembers(c, h, files, w[i]);
      PathsDiffer();
    }
    if ReadmeAgrees(c, h, files) {
      forall i | 0 <= i < |w| ensures Matches(c, pack.archive, pack.manifest.files[i]) {
        ContentsMembers(c, h, files, w[i]);
      }
    } else {
      var i :| 0 <= i < |files| && files[i].path == ReadmePath &&
               !(|files[i].data| == |c.readme(h)| && c.sha(files[i].data) == c.sha(c.readme(h)));
      ContentsMembers(c, h, files, files[i]);
      var j :| 0 <= j < |w| && w[j] == files[i];
      assert !Matches(c, pack.archive, pack.manifest.files[j]);
    }
  }

  lemma PathsDiffer()
    ensures ReadmePath != ManifestPath && ReadmePath != SumsPath && ManifestPath != SumsPath
  {
    assert ReadmePath[0] != ManifestPath[0] && ReadmePath[0] != SumsPath[0] && ManifestPath[0] != SumsPath[0];
  }

  /* SHA256SUMS */

  lemma LineParses(f: ManifestFile)
    requires Hex64(f.sha256) && f.path != ""
    ensures ParseLine(LineOf(f)) == if OneLine(f.path) then Some((f.path, f.sha256)) else None
    ensures OneLine(f.path) ==> '\n' !in LineOf(f) && LineOf(f) != ""
  {
    var line := LineOf(f);
    assert line[..64] == f.sha256 && line[64..66] == "  " && line[66..] == f.path;
    assert line == f.sha256 + "  " + f.path;
  }

  lemma {:induction false} LinesParse(files: seq<ManifestFile>)
    requires forall i :: 0 <= i < |files| ==> Hex64(files[i].sha256) && files[i].path != "" && OneLine(files[i].path)
    ensures ParseLines(LinesOf(files)) == Sums(false, Hashes(files))
  {
    hide OneLine, Hex64, ParseLine;
    if files != [] {
      var n := |files| - 1;
      LinesParse(files[..n]);
      LineParses(files[n]);
      assert LinesOf(files)[..n] == LinesOf(files[..n]);
    }
  }

  /** Printing and parsing the sums undo each other. */
  lemma SumsParse(files: seq<ManifestFile>)
    requires files != []
    requires forall i :: 0 <= i < |files| ==> Hex64(files[i].sha256) && files[i].path != "" && OneLine(files[i].path)
    ensures ParseSums(Join(LinesOf(files), '\n') + "\n") == Sums(false, Hashes(files))
  {
    hide OneLine, Hex64, ParseLine, LineOf;
    var lines := LinesOf(files);
    forall i | 0 <= i < |lines| ensures '\n' !in lines[i] { LineParses(files[i]); }
    SplitJoin(lines, '\n');
    SplitNext(Join(lines, '\n'), '\n', '\n');
    assert (lines + [""])[..|lines|] == lines;
    LinesParse(files);
  }

  /** Whatever the text, the paths it parses to are single lines. */
  lemma {:induction false} ParsedPathsAreLines(lines: seq<string>, p: string)
    requires p in ParseLines(lines).got
    ensures OneLine(p)
  {
    hide OneLine, Hex64;
    if lines[|lines| - 1] == "" || ParseLine(lines[|lines| - 1]).None? || ParseLine(lines[|lines| - 1]).value.0 != p {
      ParsedPathsAreLines(lines[..|lines| - 1], p);
    }
  }

  /** Entries of one path carry one hash. */
  predicate Functional(files: seq<ManifestFile>)
  {
    forall i, j :: 0 <= i < |files| && 0 <= j < |files| && files[i].path == files[j].path ==> files[i].sha256 == files[j].sha256
  }

  lemma {:induction false} HashesHold(files: seq<ManifestFile>, p: string)
    ensures p in Hashes(files) <==> exists i :: 0 <= i < |files| && files[i].path == p
    ensures p in Hashes(files) ==> exists i :: 0 <= i < |files| && files[i].path == p && files[i].sha256 == Hashes(files)[p]
  {
    if files != [] {
      var n := |files| - 1;
      HashesHold(files[..n], p);
      if i: nat :| i < n && files[i].path == p { assert files[..n][i].path == p; }
      if p in Hashes(files[..n]) && files[n].path != p {
        var i :| 0 <= i < n && files[..n][i].path == p && files[..n][i].sha256 == Hashes(files[..n])[p];
        assert files[i].path == p && files[i].sha256 == Hashes(files)[p];
      } else if files[n].path == p {
        assert files[n].sha256 == Hashes(files)[p];
      }
    }
  }

  /** Reordering entries does not change the map, when a path has one hash. */
  lemma HashesSame(files: seq<ManifestFile>, others: seq<ManifestFile>)
    requires Functional(files) && forall f :: f in files <==> f in others
    ensures Hashes(files) == Hashes(others)
  {
    hide Hashes;
    forall p ensures p in Hashes(files) <==> p in Hashes(others) {
      HashesHold(files, p);
      HashesHold(others, p);
      if i: nat :| i < |files| && files[i].path == p { assert files[i] in others; }
      if i: nat :| i < |others| && others[i].path == p { assert others[i] in files; }
    }
    forall p | p in Hashes(files) ensures Hashes(files)[p] == Hashes(others)[p] {
      HashesHold(files, p);
      HashesHold(others, p);
      var i :| 0 <= i < |files| && files[i].path == p && files[i].sha256 == Hashes(files)[p];
      var j :| 0 <= j < |others| && others[j].path == p && others[j].sha256 == Hashes(others)[p];
      assert others[j] in files;
    }
  }

  /** The sums of a manifest, as printed, parse to what verification expects of them. */
  lemma PrintedSumsExpected(c: Codec, files: seq<ManifestFile>, sha: string)
    requires Functional(files) && Hex64(sha)
    requires forall i :: 0 <= i < |files| ==>
               Hex64(files[i].sha256) && files[i].path != "" && OneLine(files[i].path) && files[i].path != ManifestPath
    ensures ParseSums(SumsOf(c, files, sha)) == Sums(false, Expected(files, sha))
  {
    hide Hex64, OneLine, Sort, Insert, Hashes, LinesOf, ParseSums;
    var all := files + [ManifestFile(ManifestPath, 0, sha)];
    var sorted := Sort(all, ByName(c));
    SortMembers(all, ByName(c));
    SameElements(all, sorted);
    ManifestPathOneLine();
    assert |sorted| > 0 by { assert all[|files|] in sorted; }
    forall i | 0 <= i < |sorted|
      ensures Hex64(sorted[i].sha256) && sorted[i].path != "" && OneLine(sorted[i].path)
    {
      assert sorted[i] in all;
    }
    SumsParse(sorted);
    HashesSame(all, sorted);
    HashesAppend(files, sha);
  }

  lemma HashesAppend(files: seq<ManifestFile>, sha: string)
    ensures Hashes(files + [ManifestFile(ManifestPath, 0, sha)]) == Expected(files, sha)
  {
    assert (files + [ManifestFile(ManifestPath, 0, sha)])[..|files|] == files;
  }

  lemma ManifestPathOneLine()
    ensures OneLine(ManifestPath) && OneLine(ReadmePath) && ManifestPath != "" && ReadmePath != ""
  {
  }

  /* Round trip */

  lemma SafeEntries()
    ensures SafePath(ManifestPath) && SafePath(SumsPath) && SafePath(ReadmePath)
  {
    PlainNameSafe(ManifestPath);
    PlainNameSafe(SumsPath);
    PlainNameSafe(ReadmePath);
  }

  lemma EntriesFunctional(c: Codec, h: Header, files: seq<PackFile>)
    requires CodecOk(c) && Acceptable(files) && ReadmeAgrees(c, h, files)
    ensures Functional(EntriesOf(c, Contents(c, h, files)))
  {
    hide SafePath, Sort, Insert, Contents;
    var w := Contents(c, h, files);
    forall i, j | 0 <= i < |w| && 0 <= j < |w| && w[i].path == w[j].path ensures c.sha(w[i].data) == c.sha(w[j].data) {
      ContentsMembers(c, h, files, w[i]);
      ContentsMembers(c, h, files, w[j]);
    }
  }

  /** The archive of a pack: its contents' paths, the manifest and the sums, all safe and all accounted for. */
  lemma ArchivePaths(c: Codec, h: Header, files: seq<PackFile>, p: string)
    requires CodecOk(c) && Acceptable(files)
    ensures var pack := PackOf(c, h, files);
            && (p in pack.archive <==> p == ManifestPath || p == SumsPath || Lists(pack.manifest.files, p))
            && (p in pack.archive ==> SafePath(p))
  {
    hide SafePath, Sort, Insert, Contents, SumsOf, TreeOf;
    var pack, w := PackOf(c, h, files), Contents(c, h, files);
    SafeEntries();
    TreeHolds(w, p);
    if i: nat :| i < |w| && w[i].path == p {
      ContentsMembers(c, h, files, w[i]);
      assert pack.manifest.files[i].path == p;
    }
    if Lists(pack.manifest.files, p) {
      var i :| 0 <= i < |w| && pack.manifest.files[i].path == p;
      assert w[i].path == p;
    }
  }

  lemma ContentsOneLine(c: Codec, h: Header, files: seq<PackFile>)
    requires Acceptable(files)
    ensures AllOneLine(Contents(c, h, files)) <==> AllOneLine(files)
    ensures forall i :: 0 <= i < |Contents(c, h, files)| ==> Contents(c, h, files)[i].path != ""
    ensures forall i :: 0 <= i < |Contents(c, h, files)| ==> Contents(c, h, files)[i].path != ManifestPath
  {
    hide Sort, Insert, Contents, OneLine;
    ManifestPathOneLine();
    PathsDiffer();
    var w := Contents(c, h, files);
    forall i | 0 <= i < |w| ensures w[i].path != "" && w[i].path != ManifestPath && (AllOneLine(files) ==> OneLine(w[i].path)) {
      ContentsMembers(c, h, files, w[i]);
    }
    if AllOneLine(w) {
      forall i | 0 <= i < |files| ensures OneLine(files[i].path) {
        ContentsMembers(c, h, files, files[i]);
        var j :| 0 <= j < |w| && w[j] == files[i];
      }
    }
  }

  /** A pack's sums parse to what verification expects, exactly if every path is a single line. */
  lemma SumsAgree(c: Codec, h: Header, files: seq<PackFile>)
    requires CodecOk(c) && Acceptable(files) && ReadmeAgrees(c, h, files)
    ensures var pack := PackOf(c, h, files);
            var sums := ParseSums(pack.archive[SumsPath]);
            !sums.malformed && sums.got == Expected(pack.manifest.files, pack.manifestSha256) <==> AllOneLine(files)
  {
    hide SafePath, Sort, Insert, Contents, TreeOf, OneLine, Hex64, Hashes, SumsOf;
    var pack, w := PackOf(c, h, files), Contents(c, h, files);
    ContentsOneLine(c, h, files);
    EntriesFunctional(c, h, files);
    if AllOneLine(files) {
      PrintedSumsExpected(c, pack.manifest.files, pack.manifestSha256);
    } else {
      var i :| 0 <= i < |w| && !OneLine(w[i].path);
      HashesHold(pack.manifest.files, w[i].path);
      assert pack.manifest.files[i].path == w[i].path;
      if w[i].path in ParseSums(pack.archive[SumsPath]).got {
        ParsedPathsAreLines(Split(pack.archive[SumsPath], '\n'), w[i].path);
      }
    }
  }

  /** Verification accepts an assembled pack exactly if no path contains a line terminator and no file takes
      the readme's place with other contents; assembling itself checks neither. */
  lemma VerifiesExactly(c: Codec, h: Header, files: seq<PackFile>)
    requires CodecOk(c) && Acceptable(files) && h.schema == Schema
    ensures Accepts(c, PackOf(c, h, files).archive) <==> AllOneLine(files) && ReadmeAgrees(c, h, files)
  {
    hide SafePath, Sort, Insert, Contents, TreeOf, SumsOf, ParseSums, Expected, AllOneLine, ReadmeAgrees, Acceptable, Matches;
    var pack := PackOf(c, h, files);
    PathsDiffer();
    forall p ensures p in pack.archive ==> SafePath(p) && (p == ManifestPath || p == SumsPath || Lists(pack.manifest.files, p)) {
      ArchivePaths(c, h, files, p);
    }
    assert c.decode(pack.archive[ManifestPath]) == Some(pack.manifest);
    ManifestMatches(c, h, files);
    if ReadmeAgrees(c, h, files) { SumsAgree(c, h, files); }
  }

  /* Tamper evidence */

  /** The hash tells the presented bytes from the issued ones, wherever they differ. */
  predicate ToldApart(c: Codec, issued: map<string, Bytes>, presented: map<string, Bytes>)
  {
    forall p :: p in issued && p in presented && c.sha(issued[p]) == c.sha(presented[p]) ==> issued[p] == presented[p]
  }

  /** If an archive verifies and its manifest hash is the one recorded for an issued pack, it holds exactly the
      issued files with the same bytes, nothing added and nothing removed, and its sums say what the issued
      manifest says. */
  lemma TamperingShows(c: Codec, h: Header, files: seq<PackFile>, archive: map<string, Bytes>)
    requires CodecOk(c) && Acceptable(files) && Accepts(c, archive)
    requires var issued := PackOf(c, h, files);
             && c.sha(archive[ManifestPath]) == issued.manifestSha256
             && ToldApart(c, issued.archive, archive)
    ensures var issued := PackOf(c, h, files);
            && archive.Keys == issued.archive.Keys
            && (forall p :: p in archive && p != SumsPath ==> archive[p] == issued.archive[p])
            && ParseSums(archive[SumsPath]) == Sums(false, Expected(issued.manifest.files, issued.manifestSha256))
  {
    hide SafePath, Sort, Insert, Contents, TreeOf, SumsOf, ParseSums, Expected, Acceptable;
    var issued := PackOf(c, h, files);
    PathsDiffer();
    assert issued.archive[ManifestPath] == archive[ManifestPath];
    assert c.decode(archive[ManifestPath]) == Some(issued.manifest);
    forall p ensures p in archive <==> p in issued.archive {
      ArchivePaths(c, h, files, p);
      if Lists(issued.manifest.files, p) {
        var i :| 0 <= i < |issued.manifest.files| && issued.manifest.files[i].path == p;
        assert Matches(c, archive, issued.manifest.files[i]);
      }
    }
    forall p | p in archive && p != SumsPath ensures archive[p] == issued.archive[p] {
      if p != ManifestPath { ListedSame(c, h, files, archive, p); }
    }
  }

  /** A listed file has the issued bytes. */
  lemma ListedSame(c: Codec, h: Header, files: seq<PackFile>, archive: map<string, Bytes>, p: string)
    requires CodecOk(c) && Acceptable(files)
    requires p in archive && p in PackOf(c, h, files).archive && p != ManifestPath && p != SumsPath
    requires var issued := PackOf(c, h, files);
             && ToldApart(c, issued.archive, archive)
             && forall i :: 0 <= i < |issued.manifest.files| ==> Matches(c, archive, issued.manifest.files[i])
    ensures archive[p] == PackOf(c, h, files).archive[p]
  {
    hide SafePath, Sort, Insert, Contents, SumsOf, Acceptable, TreeOf;
    var issued, w := PackOf(c, h, files), Contents(c, h, files);
    TreeHolds(w, p);
    var j :| 0 <= j < |w| && w[j] == PackFile(p, TreeOf(w)[p]);
    assert Matches(c, archive, issued.manifest.files[j]);
  }

  /* Order */

  predicate Sorted<T(!new)>(s: seq<T>, before: (T, T) -> bool) { forall i, j :: 0 <= i < j < |s| ==> before(s[i], s[j]) }

  ghost predicate TotalOrder<T(!new)>(before: (T, T) -> bool)
  {
    && (forall a, b :: before(a, b) || before(b, a))
    && (forall a, b, d :: before(a, b) && before(b, d) ==> before(a, d))
  }

  lemma {:induction false} InsertSorts<T(!new)>(x: T, s: seq<T>, before: (T, T) -> bool)
    requires TotalOrder(before) && Sorted(s, before)
    ensures Sorted(Insert(x, s, before), before)
    ensures forall y :: y in Insert(x, s, before) <==> y in s || y == x
  {
    if s != [] && !before(s[|s| - 1], x) {
      var init, last := s[..|s| - 1], s[|s| - 1];
      InsertSorts(x, init, before);
      var t := Insert(x, init, before);
      forall i | 0 <= i < |t| ensures before(t[i], last) {
        assert t[i] in t;
      }
    }
  }

  lemma {:induction false} SortSorts<T(!new)>(s: seq<T>, before: (T, T) -> bool)
    requires TotalOrder(before)
    ensures Sorted(Sort(s, before), before)
  {
    hide Insert;
    if s != [] {
      SortSorts(s[..|s| - 1], before);
      InsertSorts(s[|s| - 1], Sort(s[..|s| - 1], before), before);
    }
  }

  ghost predicate TiesEqual<T(!new)>(s: seq<T>, before: (T, T) -> bool)
  {
    forall x, y :: x in s && y in s && before(x, y) && before(y, x) ==> x == y
  }

  /** Two sorted lists of the same elements are the same list, when only equal elements tie. */
  lemma {:induction false} SortedUnique<T(!new)>(s: seq<T>, t: seq<T>, before: (T, T) -> bool)
    requires Sorted(s, before) && Sorted(t, before) && multiset(s) == multiset(t) && TiesEqual(s, before)
    ensures s == t
  {
    hide Sorted, TiesEqual;
    SameLength(s, t);
    if s != [] {
      LastSame(s, t, before);
      WithoutLast(s, before);
      WithoutLast(t, before);
      SortedUnique(s[..|s| - 1], t[..|t| - 1], before);
      assert s == s[..|s| - 1] + [s[|s| - 1]];
    }
  }

  lemma SameLength<T>(s: seq<T>, t: seq<T>)
    requires multiset(s) == multiset(t)
    ensures |s| == |t|
  {
    assert |multiset(s)| == |s| && |multiset(t)| == |t|;
  }

  lemma WithoutLast<T(!new)>(s: seq<T>, before: (T, T) -> bool)
    requires s != [] && Sorted(s, before)
    ensures Sorted(s[..|s| - 1], before) && (TiesEqual(s, before) ==> TiesEqual(s[..|s| - 1], before))
    ensures multiset(s[..|s| - 1]) == multiset(s) - multiset{s[|s| - 1]}
  {
    assert s == s[..|s| - 1] + [s[|s| - 1]];
  }

  lemma LastSame<T(!new)>(s: seq<T>, t: seq<T>, before: (T, T) -> bool)
    requires s != [] && t != [] && Sorted(s, before) && Sorted(t, before) && TiesEqual(s, before)
    requires multiset(s) == multiset(t)
    ensures s[|s| - 1] == t[|t| - 1]
  {
    SameElements(s, t);
    var a, b := s[|s| - 1], t[|t| - 1];
    assert a in t && b in s;
    var i :| 0 <= i < |s| && s[i] == b;
    var j :| 0 <= j < |t| && t[j] == a;
    assert i == |s| - 1 || before(b, a);
    assert j == |t| - 1 || before(a, b);
  }

  /** No two different paths of the files tie in the path order. */
  predicate Untied(c: Codec, files: seq<PackFile>)
  {
    forall f, g :: f in files && g in files && c.before(f.path, g.path) && c.before(g.path, f.path) ==> f.path == g.path
  }

  lemma PathOrder(c: Codec)
    requires CodecOk(c)
    ensures TotalOrder(ByPath(c))
  {
    var before := ByPath(c);
    forall f, g ensures before(f, g) || before(g, f) { assert c.before(f.path, g.path) || c.before(g.path, f.path); }
    forall f, g, k | before(f, g) && before(g, k) ensures before(f, k) {
      assert c.before(f.path, g.path) && c.before(g.path, k.path);
    }
  }

  /** A pack depends on the set of files alone, not on the order they were supplied in, as long as no two of
      their paths tie. */
  lemma OrderDoesNotMatter(c: Codec, h: Header, files: seq<PackFile>, others: seq<PackFile>)
    requires CodecOk(c) && Acceptable(files) && multiset(files) == multiset(others) && Untied(c, files)
    ensures PackOf(c, h, files) == PackOf(c, h, others)
  {
    hide Insert, SafePath, Sort;
    var before := ByPath(c);
    assert TotalOrder(before) by { PathOrder(c); }
    SortSorts(files, before);
    SortSorts(others, before);
    SortMembers(files, before);
    SortMembers(others, before);
    SameElements(files, Sort(files, before));
    SortedUnique(Sort(files, before), Sort(others, before), before);
  }

  /* Ties */

  /** The first mention of `p` comes before any of `q`. */
  predicate Leads(s: seq<PackFile>, p: string, q: string) {
    exists i :: 0 <= i < |s| && s[i].path == p && Without(s[..i], q)
  }

  predicate Without(s: seq<PackFile>, q: string) { forall k :: 0 <= k < |s| ==> s[k].path != q }

  lemma LeadsOn(s: seq<PackFile>, t: seq<PackFile>, p: string, q: string)
    requires Leads(s, p, q)
    ensures Leads(s + t, p, q)
  {
    var i :| 0 <= i < |s| && s[i].path == p && Without(s[..i], q);
    assert (s + t)[i].path == p && (s + t)[..i] == s[..i];
  }

  /** Where `p` leads, it does so before the last element, or that element is its first. */
  lemma LeadsEarly(s: seq<PackFile>, p: string, q: string)
    requires Leads(s, p, q)
    ensures s != [] && (Leads(s[..|s| - 1], p, q) || (s[|s| - 1].path == p && Without(s[..|s| - 1], q)))
  {
    var i :| 0 <= i < |s| && s[i].path == p && Without(s[..i], q);
    var init := s[..|s| - 1];
    if i < |s| - 1 { assert init[i].path == p && init[..i] == s[..i]; }
  }

  /** A rearrangement that names `p` and never `q`. */
  lemma LeadsAlone(s: seq<PackFile>, t: seq<PackFile>, p: string, q: string)
    requires multiset(s) == multiset(t) && Without(s, q) && exists f :: f in s && f.path == p
    ensures Leads(t, p, q)
  {
    SameElements(s, t);
    var f :| f in s && f.path == p;
    var i :| 0 <= i < |t| && t[i] == f;
    forall k | 0 <= k < i ensures t[..i][k].path != q { assert t[k] in s; }
  }

  lemma {:induction false} InsertLeads(c: Codec, x: PackFile, s: seq<PackFile>, p: string, q: string)
    requires Leads(s, p, q) && p != q && c.before(p, q)
    ensures Leads(Insert(x, s, ByPath(c)), p, q)
  {
    hide Leads;
    LeadsEarly(s, p, q);
    var init, last := s[..|s| - 1], s[|s| - 1];
    assert s == init + [last];
    if c.before(last.path, x.path) {
      LeadsOn(s, [x], p, q);
    } else if Leads(init, p, q) {
      InsertLeads(c, x, init, p, q);
      LeadsOn(Insert(x, init, ByPath(c)), [last], p, q);
    } else {
      var t := Insert(x, init, ByPath(c));
      InsertMembers(x, init, ByPath(c));
      assert Without(init + [x] + [last], q);
      assert last in init + [x] + [last];
      LeadsAlone(init + [x] + [last], t + [last], p, q);
    }
  }

  /** Sorting is stable: of two tied paths, the one named first is still named first. */
  lemma {:induction false} SortLeads(c: Codec, s: seq<PackFile>, p: string, q: string)
    requires Leads(s, p, q) && p != q && c.before(p, q)
    ensures Leads(Sort(s, ByPath(c)), p, q)
  {
    hide Leads, Insert;
    LeadsEarly(s, p, q);
    var init, last := s[..|s| - 1], s[|s| - 1];
    assert s == init + [last];
    if Leads(init, p, q) {
      SortLeads(c, init, p, q);
      InsertLeads(c, last, Sort(init, ByPath(c)), p, q);
    } else {
      SortMembers(s, ByPath(c));
      assert last in s;
      LeadsAlone(s, Sort(s, ByPath(c)), p, q);
    }
  }

  /** The files of a pack keep the order of tied paths. */
  lemma ContentsLead(c: Codec, h: Header, files: seq<PackFile>, p: string, q: string)
    requires Leads(files, p, q) && p != q && c.before(p, q)
    ensures Leads(Contents(c, h, files), p, q)
  {
    hide Leads, Insert, Sort;
    SortLeads(c, files, p, q);
    LeadsOn(Sort(files, ByPath(c)), [PackFile(ReadmePath, c.readme(h))], p, q);
    SortLeads(c, Sort(files, ByPath(c)) + [PackFile(ReadmePath, c.readme(h))], p, q);
  }

  /** Lists in which different paths lead give different manifests. */
  lemma LeaderShows(c: Codec, s: seq<PackFile>, t: seq<PackFile>, p: string, q: string)
    requires Leads(s, p, q) && Leads(t, q, p) && p != q
    ensures EntriesOf(c, s) != EntriesOf(c, t)
  {
    var i :| 0 <= i < |s| && s[i].path == p && Without(s[..i], q);
    var j :| 0 <= j < |t| && t[j].path == q && Without(t[..j], p);
    assert i < j ==> t[..j][i].path != p;
    assert j < i ==> s[..i][j].path != q;
    assert i < |t| ==> EntriesOf(c, t)[i].path == t[i].path;
    assert j < |s| ==> EntriesOf(c, s)[j].path == s[j].path;
    assert EntriesOf(c, s)[i].path == p && EntriesOf(c, t)[j].path == q;
  }

  /** Two files with tied paths change places. */
  lemma SwapChanges(c: Codec, h: Header, files: seq<PackFile>, i: nat, j: nat)
    requires Acceptable(files) && i < j < |files|
    requires c.before(files[i].path, files[j].path) && c.before(files[j].path, files[i].path)
    ensures var others := files[i := files[j]][j := files[i]];
            multiset(others) == multiset(files) && PackOf(c, h, others) != PackOf(c, h, files)
  {
    hide Contents, TreeOf, SumsOf, EntriesOf, SafePath;
    var p, q := files[i].path, files[j].path;
    var others := files[i := files[j]][j := files[i]];
    assert Without(files[..i], q) && Without(others[..i], p);
    ContentsLead(c, h, files, p, q);
    ContentsLead(c, h, others, q, p);
    LeaderShows(c, Contents(c, h, files), Contents(c, h, others), p, q);
  }

  /** A pack is the same for every order its files may be supplied in, exactly if no two of their paths tie. */
  lemma OrderMattersExactly(c: Codec, h: Header, files: seq<PackFile>)
    requires CodecOk(c) && Acceptable(files)
    ensures Untied(c, files) <==> forall others :: multiset(others) == multiset(files) ==> PackOf(c, h, others) == PackOf(c, h, files)
  {
    hide PackOf, CodecOk, SafePath;
    if Untied(c, files) {
      forall others | multiset(others) == multiset(files) ensures PackOf(c, h, others) == PackOf(c, h, files) {
        OrderDoesNotMatter(c, h, files, others);
      }
    } else {
      var f, g :| f in files && g in files && c.before(f.path, g.path) && c.before(g.path, f.path) && f.path != g.path;
      var i :| 0 <= i < |files| && files[i] == f;
      var j :| 0 <= j < |files| && files[j] == g;
      if i < j { SwapChanges(c, h, files, i, j); } else { SwapChanges(c, h, files, j, i); }
    }
  }
}
