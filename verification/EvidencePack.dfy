/** Evidence packs: files described by a manifest and a SHA256SUMS file. Assembling and verifying undo each
    other, and a verified pack with a recorded manifest hash holds exactly the issued files. The hash, the
    manifest's JSON form, the readme and the path order are parameters; text stands for its bytes. */
module EvidencePack {
  import opened Money
  import opened Text

  type Bytes = string

  datatype Header = Header(schema: string, about: string)
  datatype ManifestFile = ManifestFile(path: string, bytes: nat, sha256: string)
  datatype Manifest = Manifest(header: Header, files: seq<ManifestFile>)
  datatype PackFile = PackFile(path: string, data: Bytes)

  /** The functions of other libraries a pack is made with. `before(a, b)` says a sorts no later than b. */
  datatype Codec = Codec(
    sha: Bytes -> string, encode: Manifest -> Bytes, decode: Bytes -> Option<Manifest>,
    readme: Header -> Bytes, before: (string, string) -> bool)

  const Schema: string := "ismartpay-loadtest-evidence-pack/1"
  const ManifestPath: string := "manifest.json"
  const SumsPath: string := "SHA256SUMS"
  const ReadmePath: string := "README.txt"

  predicate IsHex(c: char) { '0' <= c <= '9' || 'a' <= c <= 'f' }

  predicate Hex64(s: string) { |s| == 64 && forall i :: 0 <= i < 64 ==> IsHex(s[i]) }

  /** The characters at which a line of SHA256SUMS would end or its pattern stop. */
  predicate EndsLine(c: char) { c == '\n' || c == '\r' || c == '\U{2028}' || c == '\U{2029}' }

  predicate OneLine(path: string) { forall i :: 0 <= i < |path| ==> !EndsLine(path[i]) }

  ghost predicate CodecOk(c: Codec)
  {
    && (forall x :: Hex64(c.sha(x)))
    && (forall m :: c.decode(c.encode(m)) == Some(m))
    && (forall a, b :: c.before(a, b) || c.before(b, a))
    && (forall a, b, d :: c.before(a, b) && c.before(b, d) ==> c.before(a, d))
  }

  /* Paths */

  predicate SafePath(path: string)
  {
    && path != "" && path[0] != '/' && '\\' !in path
    && forall i :: 0 <= i < |Split(path, '/')| ==> Split(path, '/')[i] !in {"..", "", "."}
  }

  /** Where a list of path parts leads below the extraction directory, or None when it leads outside. */
  function Resolve(parts: seq<string>): Option<seq<string>>
  {
    if parts == [] then Some([])
    else
      var before, last := Resolve(parts[..|parts| - 1]), parts[|parts| - 1];
      if before.None? then None
      else if last == "" || last == "." then before
      else if last == ".." then (if before.value == [] then None else Some(before.value[..|before.value| - 1]))
      else Some(before.value + [last])
  }

  lemma {:induction false} PlainPartsStay(parts: seq<string>)
    requires forall i :: 0 <= i < |parts| ==> parts[i] !in {"..", "", "."}
    ensures Resolve(parts) == Some(parts)
  {
    if parts != [] {
      PlainPartsStay(parts[..|parts| - 1]);
      assert parts[..|parts| - 1] + [parts[|parts| - 1]] == parts;
    }
  }

  /** A safe path stays inside the extraction directory, and two different ones never meet there. */
  lemma SafePathsNeverCollide(p: string, q: string)
    requires SafePath(p) && SafePath(q)
    ensures Resolve(Split(p, '/')).Some?
    ensures Resolve(Split(p, '/')) == Resolve(Split(q, '/')) <==> p == q
  {
    hide Split;
    PlainPartsStay(Split(p, '/'));
    PlainPartsStay(Split(q, '/'));
    JoinSplit(p, '/');
    JoinSplit(q, '/');
  }

  /** A name without a slash that is not a dot name is safe. */
  lemma PlainNameSafe(name: string)
    requires name != "" && '/' !in name && '\\' !in name && name != ".." && name != "."
    ensures SafePath(name)
  {
    SplitWhole(name, '/');
    hide Split;
  }

  /* Sorting */

  /** Stable insertion: x goes behind everything that may precede it. */
  function Insert<T>(x: T, s: seq<T>, before: (T, T) -> bool): seq<T>
  {
    if s == [] then [x]
    else if before(s[|s| - 1], x) then s + [x]
    else Insert(x, s[..|s| - 1], before) + [s[|s| - 1]]
  }

  function Sort<T>(s: seq<T>, before: (T, T) -> bool): seq<T>
  {
    if s == [] then [] else Insert(s[|s| - 1], Sort(s[..|s| - 1], before), before)
  }

  function ByPath(c: Codec): (PackFile, PackFile) -> bool { (f: PackFile, g: PackFile) => c.before(f.path, g.path) }
  function ByName(c: Codec): (ManifestFile, ManifestFile) -> bool
  {
    (f: ManifestFile, g: ManifestFile) => c.before(f.path, g.path)
  }

  lemma {:induction false} InsertMembers<T>(x: T, s: seq<T>, before: (T, T) -> bool)
    ensures multiset(Insert(x, s, before)) == multiset(s) + multiset{x}
  {
    if s != [] && !before(s[|s| - 1], x) {
      InsertMembers(x, s[..|s| - 1], before);
      assert s == s[..|s| - 1] + [s[|s| - 1]];
    }
  }

  lemma {:induction false} SortMembers<T>(s: seq<T>, before: (T, T) -> bool)
    ensures multiset(Sort(s, before)) == multiset(s)
  {
    hide Insert;
    if s != [] {
      SortMembers(s[..|s| - 1], before);
      InsertMembers(s[|s| - 1], Sort(s[..|s| - 1], before), before);
      assert s == s[..|s| - 1] + [s[|s| - 1]];
    }
  }

  lemma SameElements<T>(s: seq<T>, t: seq<T>)
    requires multiset(s) == multiset(t)
    ensures forall x :: x in s <==> x in t
  {
    forall x ensures x in s <==> x in t { assert x in multiset(s) <==> x in multiset(t); }
  }

  /* Assembling */

  function Reserved(path: string): bool { path == ManifestPath || path == SumsPath }

  predicate Acceptable(files: seq<PackFile>)
  {
    && (forall i :: 0 <= i < |files| ==> SafePath(files[i].path) && !Reserved(files[i].path))
    && (forall i, j :: 0 <= i < j < |files| ==> files[i].path != files[j].path)
  }

  function EntryOf(c: Codec, f: PackFile): ManifestFile { ManifestFile(f.path, |f.data|, c.sha(f.data)) }

  function EntriesOf(c: Codec, files: seq<PackFile>): (r: seq<ManifestFile>)
    ensures |r| == |files|
    ensures forall i :: 0 <= i < |r| ==> r[i] == EntryOf(c, files[i])
  {
    if files == [] then [] else EntriesOf(c, files[..|files| - 1]) + [EntryOf(c, files[|files| - 1])]
  }

  /** Assigning the files to an archive in turn: the last of a path stays. */
  function TreeOf(files: seq<PackFile>): map<string, Bytes>
  {
    if files == [] then map[] else TreeOf(files[..|files| - 1])[files[|files| - 1].path := files[|files| - 1].data]
  }

  function LineOf(f: ManifestFile): string { f.sha256 + "  " + f.path }

  function LinesOf(files: seq<ManifestFile>): (r: seq<string>)
    ensures |r| == |files|
    ensures forall i :: 0 <= i < |r| ==> r[i] == LineOf(files[i])
  {
    if files == [] then [] else LinesOf(files[..|files| - 1]) + [LineOf(files[|files| - 1])]
  }

  /** The files of a pack in order, the readme among them. */
  function Contents(c: Codec, h: Header, files: seq<PackFile>): seq<PackFile>
  {
    Sort(Sort(files, ByPath(c)) + [PackFile(ReadmePath, c.readme(h))], ByPath(c))
  }

  datatype Pack = Pack(archive: map<string, Bytes>, manifest: Manifest, manifestSha256: string, fileCount: nat)

  function SumsOf(c: Codec, files: seq<ManifestFile>, manifestSha: string): Bytes
  {
    Join(LinesOf(Sort(files + [ManifestFile(ManifestPath, 0, manifestSha)], ByName(c))), '\n') + "\n"
  }

  /** What assembling acceptable files comes to. */
  function PackOf(c: Codec, h: Header, files: seq<PackFile>): Pack
  {
    var contents := Contents(c, h, files);
    var manifest := Manifest(h, EntriesOf(c, contents));
    var bytes := c.encode(manifest);
    Pack(TreeOf(contents)[ManifestPath := bytes][SumsPath := SumsOf(c, manifest.files, c.sha(bytes))],
         manifest, c.sha(bytes), |contents| + 2)
  }

  datatype Assembly = Assembled(pack: Pack) | Unsafe(path: string) | ReservedPath(path: string) | Duplicate(path: string)

  method AssemblePack(c: Codec, h: Header, files: seq<PackFile>) returns (r: Assembly)
    ensures r.Assembled? <==> Acceptable(files)
    ensures r.Assembled? ==> r.pack == PackOf(c, h, files)
  {
    hide SafePath, Sort, Insert, EntriesOf, LinesOf, Join;
    var seen: set<string> := {};
    for i := 0 to |files|
      invariant Acceptable(files[..i])
      invariant forall p :: p in seen <==> exists j :: 0 <= j < i && files[j].path == p
    {
      var f := files[i];
      if !SafePath(f.path) { return Unsafe(f.path); }
      if f.path == ManifestPath || f.path == SumsPath { return ReservedPath(f.path); }
      if f.path in seen { return Duplicate(f.path); }
      seen := seen + {f.path};
    }
    assert files[..|files|] == files;
    var body := Sort(files, ByPath(c));
    var withReadme := Sort(body + [PackFile(ReadmePath, c.readme(h))], ByPath(c));
    var manifest := Manifest(h, EntriesOf(c, withReadme));
    var manifestBytes := c.encode(manifest);
    var manifestSha := c.sha(manifestBytes);
    var sums := Join(LinesOf(Sort(manifest.files + [ManifestFile(ManifestPath, 0, manifestSha)], ByName(c))), '\n');
    var tree: map<string, Bytes> := map[];
    for i := 0 to |withReadme|
      invariant tree == TreeOf(withReadme[..i])
    {
      assert withReadme[..i + 1][..i] == withReadme[..i];
      tree := tree[withReadme[i].path := withReadme[i].data];
    }
    assert withReadme[..|withReadme|] == withReadme;
    tree := tree[ManifestPath := manifestBytes];
    tree := tree[SumsPath := sums + "\n"];
    return Assembled(Pack(tree, manifest, manifestSha, |manifest.files| + 2));
  }

  /* Parsing SHA256SUMS */

  /** The path and hash of a well-formed line. */
  function ParseLine(line: string): Option<(string, string)>
  {
    if |line| > 66 && Hex64(line[..64]) && line[64..66] == "  " && OneLine(line[66..]) then Some((line[66..], line[..64]))
    else None
  }

  datatype Sums = Sums(malformed: bool, got: map<string, string>)

  function ParseLines(lines: seq<string>): Sums
  {
    if lines == [] then Sums(false, map[])
    else
      var before, line := ParseLines(lines[..|lines| - 1]), lines[|lines| - 1];
      if line == "" then before
      else
        match ParseLine(line)
        case None => Sums(true, before.got)
        case Some(pair) => Sums(before.malformed, before.got[pair.0 := pair.1])
  }

  function ParseSums(text: Bytes): Sums { ParseLines(Split(text, '\n')) }

  /** What the sums must say: the manifest's files, the last of a path, and the manifest itself. */
  function Hashes(files: seq<ManifestFile>): map<string, string>
  {
    if files == [] then map[] else Hashes(files[..|files| - 1])[files[|files| - 1].path := files[|files| - 1].sha256]
  }

  function Expected(files: seq<ManifestFile>, manifestSha: string): map<string, string>
  {
    Hashes(files)[ManifestPath := manifestSha]
  }

  /* Verifying */

  predicate Lists(files: seq<ManifestFile>, path: string) { exists i :: 0 <= i < |files| && files[i].path == path }

  predicate Matches(c: Codec, archive: map<string, Bytes>, f: ManifestFile)
  {
    f.path in archive && |archive[f.path]| == f.bytes && c.sha(archive[f.path]) == f.sha256
  }

  /** What verification demands of an archive. */
  predicate Accepts(c: Codec, archive: map<string, Bytes>)
  {
    && (forall p :: p in archive ==> SafePath(p))
    && ManifestPath in archive && SumsPath in archive
    && var m := c.decode(archive[ManifestPath]);
       && m.Some? && m.value.header.schema == Schema
       && (forall i :: 0 <= i < |m.value.files| ==> Matches(c, archive, m.value.files[i]))
       && (forall p :: p in archive ==> p == ManifestPath || p == SumsPath || Lists(m.value.files, p))
       && !ParseSums(archive[SumsPath]).malformed
       && ParseSums(archive[SumsPath]).got == Expected(m.value.files, c.sha(archive[ManifestPath]))
  }

  datatype Problem =
    | UnsafeEntry(path: string) | ManifestMissing | SumsMissing | NotJson | WrongSchema | FileMissing(path: string)
    | SizeChanged(path: string) | ContentChanged(path: string) | Unlisted(path: string) | MalformedLine
    | SumsDisagree(path: string) | SumsUnknown(path: string)

  datatype Verdict = Verdict(ok: bool, manifestSha256: Option<string>, problems: seq<Problem>, manifest: Option<Manifest>)

  /** The archive's paths in some order, as the entries of a record come. */
  ghost predicate Enumerates(paths: seq<string>, archive: map<string, Bytes>)
  {
    forall p :: p in archive <==> p in paths
  }

  method VerifyPack(c: Codec, archive: map<string, Bytes>, paths: seq<string>) returns (v: Verdict)
    requires Enumerates(paths, archive)
    ensures v.ok <==> Accepts(c, archive)
    ensures v.ok <==> v.problems == []
    ensures ManifestPath in archive <==> v.manifestSha256.Some?
    ensures v.manifestSha256.Some? ==> v.manifestSha256.value == c.sha(archive[ManifestPath])
    ensures v.ok ==> v.manifest == c.decode(archive[ManifestPath])
  {
    var problems: seq<Problem> := [];
    for i := 0 to |paths|
      invariant problems == [] <==> forall j :: 0 <= j < i ==> SafePath(paths[j])
    {
      if !SafePath(paths[i]) { problems := problems + [UnsafeEntry(paths[i])]; }
    }
    assert problems == [] <==> forall p :: p in archive ==> SafePath(p);
    if ManifestPath !in archive { problems := problems + [ManifestMissing]; }
    if SumsPath !in archive { problems := problems + [SumsMissing]; }
    if ManifestPath !in archive { return Verdict(false, None, problems, None); }
    var sha := c.sha(archive[ManifestPath]);
    var m := c.decode(archive[ManifestPath]);
    if m.None? { return Verdict(false, Some(sha), problems + [NotJson, WrongSchema], None); }
    var manifest := m.value;
    if manifest.header.schema != Schema { return Verdict(false, Some(sha), problems + [WrongSchema], None); }
    var more := CheckFiles(c, archive, paths, manifest.files);
    problems := problems + more;
    if SumsPath in archive {
      more := CheckSums(archive[SumsPath], manifest.files, sha);
      problems := problems + more;
    }
    return Verdict(problems == [], Some(sha), problems, Some(manifest));
  }

  ghost predicate AllListed(paths: seq<string>, listed: set<string>)
  {
    forall p :: p in paths ==> p == ManifestPath || p == SumsPath || p in listed
  }

  method CheckFiles(c: Codec, archive: map<string, Bytes>, paths: seq<string>, files: seq<ManifestFile>)
    returns (problems: seq<Problem>)
    requires Enumerates(paths, archive)
    ensures problems == [] <==>
            && (forall i :: 0 <= i < |files| ==> Matches(c, archive, files[i]))
            && (forall p :: p in archive ==> p == ManifestPath || p == SumsPath || Lists(files, p))
  {
    problems := [];
    var listed: set<string> := {};
    for i := 0 to |files|
      invariant problems == [] <==> forall j :: 0 <= j < i ==> Matches(c, archive, files[j])
      invariant forall p :: p in listed <==> exists j :: 0 <= j < i && files[j].path == p
    {
      var f := files[i];
      listed := listed + {f.path};
      if f.path !in archive {
        problems := problems + [FileMissing(f.path)];
      } else {
        if |archive[f.path]| != f.bytes { problems := problems + [SizeChanged(f.path)]; }
        if c.sha(archive[f.path]) != f.sha256 { problems := problems + [ContentChanged(f.path)]; }
      }
    }
    assert forall p :: p in listed <==> Lists(files, p);
    ghost var sofar := problems;
    for i := 0 to |paths|
      invariant problems == [] <==> (sofar == [] && AllListed(paths[..i], listed))
    {
      var p := paths[i];
      assert paths[..i + 1] == paths[..i] + [p];
      if p != ManifestPath && p != SumsPath && p !in listed { problems := problems + [Unlisted(p)]; }
    }
    assert paths[..|paths|] == paths;
  }

  method CheckSums(text: Bytes, files: seq<ManifestFile>, sha: string) returns (problems: seq<Problem>)
    ensures problems == [] <==> !ParseSums(text).malformed && ParseSums(text).got == Expected(files, sha)
  {
    problems := [];
    var expected: map<string, string> := map[];
    for i := 0 to |files|
      invariant expected == Hashes(files[..i])
    {
      assert files[..i + 1][..i] == files[..i];
      expected := expected[files[i].path := files[i].sha256];
    }
    assert files[..|files|] == files;
    expected := expected[ManifestPath := sha];
    var lines := Split(text, '\n');
    var got: map<string, string> := map[];
    for i := 0 to |lines|
      invariant got == ParseLines(lines[..i]).got
      invariant problems == [] <==> !ParseLines(lines[..i]).malformed
    {
      assert lines[..i + 1][..i] == lines[..i];
      if lines[i] != "" {
        var m := ParseLine(lines[i]);
        if m.None? { problems := problems + [MalformedLine]; } else { got := got[m.value.0 := m.value.1]; }
      }
    }
    assert lines[..|lines|] == lines;
    var more := Disagreements(expected, got);
    problems := problems + more;
  }

  method Disagreements(expected: map<string, string>, got: map<string, string>) returns (problems: seq<Problem>)
    ensures problems == [] <==> got == expected
  {
    problems := [];
    var left := expected.Keys;
    while left != {}
      invariant left <= expected.Keys
      invariant problems == [] <==> forall p :: p in expected && p !in left ==> p in got && got[p] == expected[p]
      decreases |left|
    {
      var p :| p in left;
      if p !in got || got[p] != expected[p] { problems := problems + [SumsDisagree(p)]; }
      left := left - {p};
    }
    ghost var sofar := problems;
    left := got.Keys;
    while left != {}
      invariant left <= got.Keys
      invariant problems == [] <==> (sofar == [] && (forall p :: p in got && p !in left ==> p in expected))
      decreases |left|
    {
      var p :| p in left;
      if p !in expected { problems := problems + [SumsUnknown(p)]; }
      left := left - {p};
    }
    assert problems == [] ==> got.Keys == expected.Keys;
  }
}
