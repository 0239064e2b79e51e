/** The table-of-contents builder: every notebook found under `notebooks/` is
    grouped by the first directory below it, each group becomes a chapter whose
    file is the folder's `index.ipynb`, else its `index.md`, else its first
    notebook, and the group's other notebooks become the chapter's sections.
    The filesystem is an input: the sorted scan result and the set of paths
    that exist. */
module TableOfContents {
  import opened Wrappers
  import opened Strings

  /** A path relative to the repository root, as its components. */
  type Path = seq<string>

  const NotebookDir := "notebooks"
  const BookRoot := "index"
  const BookFormat := "jb-book"
  const NotebookSuffix := ".ipynb"

  /** What the `*.ipynb` glob matches: a path whose name ends in `.ipynb`. */
  predicate IsNotebook(p: Path) {
    |p| > 0 && |p[|p| - 1]| >= |NotebookSuffix| && p[|p| - 1][|p[|p| - 1]| - |NotebookSuffix|..] == NotebookSuffix
  }

  predicate AllNotebooks(nbs: seq<Path>) {
    forall p :: p in nbs ==> IsNotebook(p)
  }

  predicate Distinct<T(==)>(s: seq<T>) {
    forall i, j :: 0 <= i < j < |s| ==> s[i] != s[j]
  }

  /** The position of the last '.' in a name (`name.rfind('.')`). */
  function LastDot(name: string): (r: Option<nat>)
    ensures r.None? <==> '.' !in name
    ensures r.Some? ==> r.value < |name| && name[r.value] == '.' && '.' !in name[r.value + 1..]
  {
    if |name| == 0 then None
    else if name[|name| - 1] == '.' then Some(|name| - 1)
    else
      var init := name[..|name| - 1];
      assert name == init + [name[|name| - 1]];
      var r := LastDot(init);
      if r.Some? then
        assert name[r.value + 1..] == init[r.value + 1..] + [name[|name| - 1]];
        r
      else None
  }

  /** `with_suffix("")` on a name: the last suffix goes, where a suffix is what
      follows the last '.' when that dot is neither the first nor the last
      character. */
  function WithoutSuffix(name: string): (r: string)
    ensures |r| <= |name| && r == name[..|r|]
    ensures r != name ==> 0 < |r| < |name| - 1 && name[|r|] == '.' && '.' !in name[|r| + 1..]
  {
    var i := LastDot(name);
    if i.Some? && 0 < i.value < |name| - 1 then name[..i.value] else name
  }

  /** A notebook name loses exactly its `.ipynb`. */
  lemma NotebookStem(s: string)
    requires s != []
    ensures WithoutSuffix(s + NotebookSuffix) == s
  {
    var name := s + NotebookSuffix;
    assert name[|s|] == '.';
    assert '.' !in name[|s| + 1..];
    var i := LastDot(name);
    assert i == Some(|s|);
    assert name[..|s|] == s;
  }

  /** `stem_path`: the repository-relative path without its last suffix, as
      text, every backslash turned into '/'; written component by component. */
  function StemPath(p: Path): (r: string)
    requires |p| > 0
    decreases |p|
  {
    if |p| == 1 then ReplaceChar(WithoutSuffix(p[0]), '\\', '/')
    else ReplaceChar(p[0], '\\', '/') + "/" + StemPath(p[1..])
  }

  /** The stem path is the path's components, the last without its suffix,
      joined by '/', with every backslash then turned into '/'. */
  lemma {:induction false} StemPathIsJoin(p: Path)
    requires |p| > 0
    ensures StemPath(p) == ReplaceChar(Join(p[..|p| - 1] + [WithoutSuffix(p[|p| - 1])], "/"), '\\', '/')
    decreases |p|
  {
    var parts := p[..|p| - 1] + [WithoutSuffix(p[|p| - 1])];
    if |p| > 1 {
      var rest := p[1..];
      StemPathIsJoin(rest);
      assert rest[..|rest| - 1] + [WithoutSuffix(rest[|rest| - 1])] == parts[1..];
      JoinCons(parts[0], parts[1..], "/");
      assert parts == [parts[0]] + parts[1..];
      ReplaceCharConcat(p[0] + "/", Join(parts[1..], "/"), '\\', '/');
      ReplaceCharConcat(p[0], "/", '\\', '/');
    }
  }

  /** A folder's `index.ipynb` is a notebook. */
  lemma IndexIsNotebook(dirs: seq<string>)
    ensures IsNotebook(dirs + ["index.ipynb"])
  {
    var name := "index.ipynb";
    assert name == "index" + NotebookSuffix;
    assert name[|name| - |NotebookSuffix|..] == NotebookSuffix;
  }

  /** A component free of separators and backslashes. */
  predicate Plain(c: string) {
    '/' !in c && '\\' !in c
  }

  lemma StemPathOfNotebook(dirs: seq<string>, stem: string)
    requires stem != []
    ensures StemPath(dirs + [stem + NotebookSuffix]) == ReplaceChar(Join(dirs + [stem], "/"), '\\', '/')
  {
    var p := dirs + [stem + NotebookSuffix];
    StemPathIsJoin(p);
    NotebookStem(stem);
    assert p[..|p| - 1] + [WithoutSuffix(p[|p| - 1])] == dirs + [stem];
  }

  lemma PlainJoin(parts: seq<string>)
    requires forall k :: 0 <= k < |parts| ==> Plain(parts[k])
    ensures ReplaceChar(Join(parts, "/"), '\\', '/') == Join(parts, "/")
  {
    JoinAvoids(parts, "/", '\\');
    ReplaceCharAbsent(Join(parts, "/"), '\\', '/');
  }

  /** For a notebook with plain components, the stem path splits back into the
      directories followed by the name without `.ipynb`. */
  lemma StemPathSplits(dirs: seq<string>, stem: string)
    requires stem != [] && Plain(stem) && forall k :: 0 <= k < |dirs| ==> Plain(dirs[k])
    ensures Split(StemPath(dirs + [stem + NotebookSuffix]), '/') == dirs + [stem]
  {
    PlainParts(dirs, stem);
    StemPathOfNotebook(dirs, stem);
    PlainJoin(dirs + [stem]);
    SplitJoin(dirs + [stem], '/');
  }

  lemma PlainParts(dirs: seq<string>, stem: string)
    requires Plain(stem) && forall k :: 0 <= k < |dirs| ==> Plain(dirs[k])
    ensures forall k :: 0 <= k < |dirs + [stem]| ==> Plain((dirs + [stem])[k])
  {
    var parts := dirs + [stem];
    forall k | 0 <= k < |parts|
      ensures Plain(parts[k])
    {
      if k < |dirs| {
        assert parts[k] == dirs[k];
      }
    }
  }

  /** Which skip test runs at the head of the grouping loop. */
  datatype SkipRule = AsWritten | Intended

  /** The book-root skip: a notebook named `index` whose parent is the
      repository root as written, or `notebooks/` as the comment beside it says. */
  predicate RootIndexSkipped(rule: SkipRule, nb: Path) {
    |nb| > 0 && WithoutSuffix(nb[|nb| - 1]) == "index" &&
    match rule
    case AsWritten => |nb| == 1
    case Intended => |nb| == 2 && nb[0] == NotebookDir
  }

  /** The group of a notebook: the first component below `notebooks/`; None
      when the skip applies or the path lies outside `notebooks/` (the
      `ValueError` branch). */
  function GroupKey(rule: SkipRule, nb: Path): (k: Option<string>)
    requires IsNotebook(nb)
    ensures k.Some? <==> !RootIndexSkipped(rule, nb) && |nb| >= 2 && nb[0] == NotebookDir
    ensures k.Some? ==> k.value == nb[1]
  {
    if RootIndexSkipped(rule, nb) then None
    else if nb[0] != NotebookDir then None
    else Some(nb[1])
  }

  /** The notebooks of one group, in scan order. */
  function InGroup(nbs: seq<Path>, rule: SkipRule, k: string): (g: seq<Path>)
    requires AllNotebooks(nbs)
    ensures |g| <= |nbs|
    ensures forall p :: p in g <==> p in nbs && GroupKey(rule, p) == Some(k)
  {
    if |nbs| == 0 then []
    else
      var init := nbs[..|nbs| - 1];
      var last := nbs[|nbs| - 1];
      assert forall p :: p in nbs <==> p in init || p == last;
      if GroupKey(rule, last) == Some(k) then InGroup(init, rule, k) + [last] else InGroup(init, rule, k)
  }

  /** Python's `<` on paths: component by component, a proper prefix first. */
  predicate PathLess(a: Path, b: Path)
    decreases |a|
  {
    if a == [] then b != []
    else b != [] && (Less(a[0], b[0]) || (a[0] == b[0] && PathLess(a[1..], b[1..])))
  }

  /** What `sorted(NB_ROOT.rglob("*.ipynb"))` returns: strictly increasing paths. */
  predicate SortedScan(nbs: seq<Path>) {
    forall i, j :: 0 <= i < j < |nbs| ==> PathLess(nbs[i], nbs[j])
  }

  lemma {:induction false} PathLessIrreflexive(a: Path)
    ensures !PathLess(a, a)
    decreases |a|
  {
    if a != [] {
      LessIrreflexive(a[0]);
      PathLessIrreflexive(a[1..]);
    }
  }

  /** A sorted scan lists no path twice. */
  lemma SortedScanDistinct(nbs: seq<Path>)
    requires SortedScan(nbs)
    ensures Distinct(nbs)
  {
    forall i, j | 0 <= i < j < |nbs|
      ensures nbs[i] != nbs[j]
    {
      PathLessIrreflexive(nbs[i]);
    }
  }

  /** A group of a sorted scan is sorted already, so `sorted(by_dir[dirname])`
      is the group in the order the loop collected it. */
  lemma {:induction false} InGroupSorted(nbs: seq<Path>, rule: SkipRule, k: string)
    requires AllNotebooks(nbs) && SortedScan(nbs)
    ensures SortedScan(InGroup(nbs, rule, k))
    decreases |nbs|
  {
    if |nbs| > 0 {
      var init := nbs[..|nbs| - 1];
      var last := nbs[|nbs| - 1];
      assert forall p :: p in init ==> p in nbs;
      InGroupSorted(init, rule, k);
      var g := InGroup(init, rule, k);
      if GroupKey(rule, last) == Some(k) {
        assert InGroup(nbs, rule, k) == g + [last];
        forall i, j | 0 <= i < j < |g| + 1
          ensures PathLess((g + [last])[i], (g + [last])[j])
        {
          if j == |g| {
            assert g[i] in init;
            var m :| 0 <= m < |init| && init[m] == g[i];
            assert PathLess(nbs[m], nbs[|nbs| - 1]);
          }
        }
      }
    }
  }

  /** The notebooks that land in some group, in scan order. */
  function Keyed(nbs: seq<Path>, rule: SkipRule): (kept: seq<Path>)
    requires AllNotebooks(nbs)
    ensures |kept| <= |nbs|
  {
    if |nbs| == 0 then []
    else
      assert forall p :: p in nbs[..|nbs| - 1] ==> p in nbs;
      var init := Keyed(nbs[..|nbs| - 1], rule);
      if GroupKey(rule, nbs[|nbs| - 1]).Some? then init + [nbs[|nbs| - 1]] else init
  }

  /** `by_dir` after the grouping loop over `nbs`. */
  function Grouped(nbs: seq<Path>, rule: SkipRule): (g: map<string, seq<Path>>)
    requires AllNotebooks(nbs)
  {
    if |nbs| == 0 then map[]
    else
      assert forall p :: p in nbs[..|nbs| - 1] ==> p in nbs;
      var g := Grouped(nbs[..|nbs| - 1], rule);
      var nb := nbs[|nbs| - 1];
      match GroupKey(rule, nb)
      case None => g
      case Some(k) => g[k := (if k in g then g[k] else []) + [nb]]
  }

  /** Each group holds exactly the notebooks with its key, in scan order, and
      there is a group for every key some notebook has. */
  lemma {:induction false} GroupedIsFilter(nbs: seq<Path>, rule: SkipRule)
    requires AllNotebooks(nbs)
    ensures forall k :: k in Grouped(nbs, rule) <==> InGroup(nbs, rule, k) != []
    ensures forall k :: k in Grouped(nbs, rule) ==> Grouped(nbs, rule)[k] == InGroup(nbs, rule, k)
  {
    if |nbs| > 0 {
      GroupedIsFilter(nbs[..|nbs| - 1], rule);
    }
  }

  /** One more notebook either leaves the groups alone or is appended to the
      group of its key. */
  lemma GroupedStep(nbs: seq<Path>, rule: SkipRule, i: nat)
    requires AllNotebooks(nbs) && i < |nbs|
    ensures AllNotebooks(nbs[..i]) && AllNotebooks(nbs[..i + 1]) && IsNotebook(nbs[i])
    ensures GroupKey(rule, nbs[i]).None? ==> Grouped(nbs[..i + 1], rule) == Grouped(nbs[..i], rule)
    ensures GroupKey(rule, nbs[i]).Some? ==>
      var g := Grouped(nbs[..i], rule);
      var k := nbs[i][1];
      Grouped(nbs[..i + 1], rule) == g[k := (if k in g then g[k] else []) + [nbs[i]]]
  {
    assert forall p :: p in nbs[..i + 1] ==> p in nbs;
    assert forall p :: p in nbs[..i] ==> p in nbs;
    assert nbs[..i + 1][..i] == nbs[..i];
  }

  /** The grouping loop: `by_dir.setdefault(key, []).append(nb)`. */
  method GroupNotebooks(nbs: seq<Path>, rule: SkipRule) returns (byDir: map<string, seq<Path>>)
    requires AllNotebooks(nbs)
    ensures byDir == Grouped(nbs, rule)
  {
    byDir := map[];
    for i := 0 to |nbs|
      invariant byDir == Grouped(nbs[..i], rule)
    {
      GroupedStep(nbs, rule, i);
      var nb := nbs[i];
      if RootIndexSkipped(rule, nb) {
        continue;
      }
      if nb[0] != NotebookDir {
        continue;
      }
      var key := nb[1];
      var files := if key in byDir then byDir[key] else [];
      byDir := byDir[key := files + [nb]];
    }
    assert nbs[..|nbs|] == nbs;
  }

  /** A non-empty finite set of names has a least one. */
  lemma {:induction false} LeastExists(names: set<string>)
    requires names != {}
    ensures exists m :: m in names && forall k :: k in names && k != m ==> Less(m, k)
    decreases |names|
  {
    var x :| x in names;
    var rest := names - {x};
    if rest != {} {
      LeastExists(rest);
      var m :| m in rest && forall k :: k in rest && k != m ==> Less(m, k);
      assert m != x;
      LessTotal(x, m);
      if Less(x, m) {
        forall k | k in names && k != x
          ensures Less(x, k)
        {
          if k != m {
            assert k in rest;
            LessTransitive(x, m, k);
          }
        }
        assert x in names;
      } else {
        assert Less(m, x);
        forall k | k in names && k != m
          ensures Less(m, k)
        {
          if k != x {
            assert k in rest;
          }
        }
        assert m in names;
      }
    } else {
      forall k | k in names
        ensures k == x
      {
        assert k !in rest;
      }
      assert x in names;
    }
  }

  /** `sorted(by_dir)`: the directory names in increasing order. */
  method SortedNames(names: set<string>) returns (ds: seq<string>)
    ensures forall i, j :: 0 <= i < j < |ds| ==> Less(ds[i], ds[j])
    ensures forall k :: k in ds <==> k in names
  {
    ds := [];
    var rest := names;
    while rest != {}
      invariant forall k :: k in names <==> k in ds || k in rest
      invariant forall i, j :: 0 <= i < j < |ds| ==> Less(ds[i], ds[j])
      invariant forall i, k :: 0 <= i < |ds| && k in rest ==> Less(ds[i], k)
      decreases |rest|
    {
      LeastExists(rest);
      var m :| m in rest && forall k :: k in rest && k != m ==> Less(m, k);
      ds := ds + [m];
      rest := rest - {m};
    }
  }

  /** Increasing names are all different. */
  lemma SortedDistinct(ds: seq<string>)
    requires forall i, j :: 0 <= i < j < |ds| ==> Less(ds[i], ds[j])
    ensures Distinct(ds)
  {
    forall i, j | 0 <= i < j < |ds|
      ensures ds[i] != ds[j]
    {
      LessIrreflexive(ds[i]);
    }
  }

  /** `{"file": ..., "sections": [...]}`; the sections key is absent when there are none. */
  datatype Chapter = Chapter(file: string, sections: Option<seq<string>>)

  datatype Toc = Toc(format: string, root: string, chapters: seq<Chapter>)

  function Folder(dirname: string): Path {
    [NotebookDir, dirname]
  }

  /** The chapter file of a group: the folder's `index.ipynb` if it exists, else
      its `index.md`, else the group's first notebook. */
  function ChapterFile(dirname: string, files: seq<Path>, existing: set<Path>): (c: Path)
    requires files != []
    ensures c in files || c == Folder(dirname) + ["index.ipynb"] || c == Folder(dirname) + ["index.md"]
    ensures Folder(dirname) + ["index.ipynb"] in existing ==> c == Folder(dirname) + ["index.ipynb"]
    ensures Folder(dirname) + ["index.ipynb"] !in existing && Folder(dirname) + ["index.md"] in existing ==>
      c == Folder(dirname) + ["index.md"]
    ensures Folder(dirname) + ["index.ipynb"] !in existing && Folder(dirname) + ["index.md"] !in existing ==>
      c == files[0]
  {
    if Folder(dirname) + ["index.ipynb"] in existing then Folder(dirname) + ["index.ipynb"]
    else if Folder(dirname) + ["index.md"] in existing then Folder(dirname) + ["index.md"]
    else files[0]
  }

  /** The notebooks of a group other than the chapter file, in order. */
  function Others(files: seq<Path>, c: Path): (os: seq<Path>)
    ensures forall p :: p in os <==> p in files && p != c
  {
    if |files| == 0 then []
    else
      var init := files[..|files| - 1];
      assert forall p :: p in files <==> p in init || p == files[|files| - 1];
      if files[|files| - 1] == c then Others(init, c) else Others(init, c) + [files[|files| - 1]]
  }

  /** Leaving out the chapter file shortens a list of distinct notebooks by one
      exactly when the chapter file is one of them. */
  lemma {:induction false} OthersLength(files: seq<Path>, c: Path)
    requires Distinct(files)
    ensures |Others(files, c)| == if c in files then |files| - 1 else |files|
  {
    if |files| > 0 {
      var init := files[..|files| - 1];
      assert Distinct(init);
      OthersLength(init, c);
      assert forall p :: p in files <==> p in init || p == files[|files| - 1];
      assert files[|files| - 1] !in init;
    }
  }

  function StemPaths(ps: seq<Path>): (r: seq<string>)
    requires forall p :: p in ps ==> |p| > 0
    ensures |r| == |ps| && forall i :: 0 <= i < |ps| ==> r[i] == StemPath(ps[i])
  {
    seq(|ps|, i requires 0 <= i < |ps| => StemPath(ps[i]))
  }

  /** The sections loop: every notebook but the chapter file, as a stem path. */
  method SectionsOf(files: seq<Path>, c: Path) returns (sections: seq<string>)
    requires forall p :: p in files ==> |p| > 0
    ensures sections == StemPaths(Others(files, c))
  {
    sections := [];
    for i := 0 to |files|
      invariant forall p :: p in Others(files[..i], c) ==> |p| > 0
      invariant |sections| == |Others(files[..i], c)|
      invariant forall j :: 0 <= j < |sections| ==> sections[j] == StemPath(Others(files[..i], c)[j])
    {
      assert files[..i + 1][..i] == files[..i];
      if files[i] == c {
        continue;
      }
      sections := sections + [StemPath(files[i])];
    }
    assert files[..|files|] == files;
  }

  /** The chapter built for one group. */
  function ChapterOf(dirname: string, files: seq<Path>, existing: set<Path>): (ch: Chapter)
    requires files != [] && AllNotebooks(files)
  {
    var c := ChapterFile(dirname, files, existing);
    var sections := StemPaths(Others(files, c));
    Chapter(StemPath(c), if sections != [] then Some(sections) else None)
  }

  /** A chapter has a sections key exactly when its group holds a notebook
      other than the chapter file, and then one section per such notebook. */
  lemma ChapterSections(dirname: string, files: seq<Path>, existing: set<Path>)
    requires files != [] && AllNotebooks(files) && Distinct(files)
    ensures var c := ChapterFile(dirname, files, existing);
      ChapterOf(dirname, files, existing).sections.None? <==> forall f :: f in files ==> f == c
    ensures var c := ChapterFile(dirname, files, existing);
      var ch := ChapterOf(dirname, files, existing);
      ch.sections.Some? ==> |ch.sections.value| == (if c in files then |files| - 1 else |files|)
  {
    var c := ChapterFile(dirname, files, existing);
    OthersLength(files, c);
    var os := Others(files, c);
    if os == [] {
      assert forall f :: f in files ==> f == c;
    } else {
      assert os[0] in os;
      assert |StemPaths(os)| > 0;
    }
  }

  /** Every group of a grouping is a non-empty list of notebooks. */
  predicate GroupsWellFormed(g: map<string, seq<Path>>) {
    forall k :: k in g ==> g[k] != [] && AllNotebooks(g[k])
  }

  lemma GroupedWellFormed(nbs: seq<Path>, rule: SkipRule)
    requires AllNotebooks(nbs)
    ensures GroupsWellFormed(Grouped(nbs, rule))
  {
    GroupedIsFilter(nbs, rule);
    forall k | k in Grouped(nbs, rule)
      ensures AllNotebooks(Grouped(nbs, rule)[k])
    {
      var g := Grouped(nbs, rule)[k];
      forall i | 0 <= i < |g|
        ensures IsNotebook(g[i])
      {
        assert g[i] in nbs;
      }
    }
  }

  /** The chapters for the given directory names, in that order. */
  function ChaptersOf(ds: seq<string>, g: map<string, seq<Path>>, existing: set<Path>): (cs: seq<Chapter>)
    requires GroupsWellFormed(g) && forall i :: 0 <= i < |ds| ==> ds[i] in g
    ensures |cs| == |ds|
  {
    if |ds| == 0 then []
    else ChaptersOf(ds[..|ds| - 1], g, existing) + [ChapterOf(ds[|ds| - 1], g[ds[|ds| - 1]], existing)]
  }

  /** Chapter `i` is built from the `i`-th directory name and its group. */
  lemma {:induction false} ChaptersOfAt(ds: seq<string>, g: map<string, seq<Path>>, existing: set<Path>, i: nat)
    requires GroupsWellFormed(g) && forall i :: 0 <= i < |ds| ==> ds[i] in g
    requires i < |ds|
    ensures ChaptersOf(ds, g, existing)[i] == ChapterOf(ds[i], g[ds[i]], existing)
  {
    if i < |ds| - 1 {
      ChaptersOfAt(ds[..|ds| - 1], g, existing, i);
    }
  }

  /** The body of the chapter loop for one directory. */
  method BuildChapter(dirname: string, files: seq<Path>, existing: set<Path>) returns (chapter: Chapter)
    requires files != [] && AllNotebooks(files)
    ensures chapter == ChapterOf(dirname, files, existing)
  {
    var c := ChapterFile(dirname, files, existing);
    var sections := SectionsOf(files, c);
    chapter := Chapter(StemPath(c), if |sections| > 0 then Some(sections) else None);
  }

  /** The chapter loop over the sorted directory names. */
  method BuildChapters(ds: seq<string>, byDir: map<string, seq<Path>>, existing: set<Path>) returns (chapters: seq<Chapter>)
    requires GroupsWellFormed(byDir) && forall i :: 0 <= i < |ds| ==> ds[i] in byDir
    ensures chapters == ChaptersOf(ds, byDir, existing)
  {
    chapters := [];
    for i := 0 to |ds|
      invariant chapters == ChaptersOf(ds[..i], byDir, existing)
    {
      var chapter := BuildChapter(ds[i], byDir[ds[i]], existing);
      assert ds[..i + 1][..i] == ds[..i];
      chapters := chapters + [chapter];
    }
    assert ds[..|ds|] == ds;
  }

  /** The script: group the sorted scan, visit the directory names in sorted
      order, build each chapter with its sections, and wrap them in a `jb-book`
      whose root is `index`. Each group comes out of a sorted scan already
      sorted, so `sorted(by_dir[dirname])` is the group as collected. */
  method BuildToc(nbs: seq<Path>, existing: set<Path>, rule: SkipRule) returns (toc: Toc, dirnames: seq<string>)
    requires AllNotebooks(nbs) && SortedScan(nbs)
    ensures toc.format == BookFormat && toc.root == BookRoot
    ensures forall i, j :: 0 <= i < j < |dirnames| ==> Less(dirnames[i], dirnames[j])
    ensures forall k :: k in dirnames <==> InGroup(nbs, rule, k) != []
    ensures GroupsWellFormed(Grouped(nbs, rule)) && forall i :: 0 <= i < |dirnames| ==> dirnames[i] in Grouped(nbs, rule)
    ensures toc.chapters == ChaptersOf(dirnames, Grouped(nbs, rule), existing)
    ensures forall k :: k in Grouped(nbs, rule) ==> SortedScan(Grouped(nbs, rule)[k])
  {
    var byDir := GroupNotebooks(nbs, rule);
    GroupedIsFilter(nbs, rule);
    forall k | k in Grouped(nbs, rule)
      ensures SortedScan(Grouped(nbs, rule)[k])
    {
      InGroupSorted(nbs, rule, k);
    }
    GroupedWellFormed(nbs, rule);
    dirnames := SortedNames(byDir.Keys);
    var chapters := BuildChapters(dirnames, byDir, existing);
    toc := Toc(BookFormat, BookRoot, chapters);
  }

  /** The number the script prints: one per chapter plus one per section. */
  function EntryCount(chapters: seq<Chapter>): (n: nat)
    ensures n >= |chapters|
  {
    if |chapters| == 0 then 0
    else
      var last := chapters[|chapters| - 1];
      EntryCount(chapters[..|chapters| - 1]) + 1 + (if last.sections.Some? then |last.sections.value| else 0)
  }

  /** The number of the given groups whose chapter file is not one of their notebooks. */
  function OutsideChapters(ds: seq<string>, g: map<string, seq<Path>>, existing: set<Path>): (n: nat)
    requires GroupsWellFormed(g) && forall i :: 0 <= i < |ds| ==> ds[i] in g
    ensures n <= |ds|
  {
    if |ds| == 0 then 0
    else
      var d := ds[|ds| - 1];
      OutsideChapters(ds[..|ds| - 1], g, existing) + (if ChapterFile(d, g[d], existing) in g[d] then 0 else 1)
  }

  /** The total size of the given groups. */
  function GroupSizes(nbs: seq<Path>, rule: SkipRule, ds: seq<string>): nat
    requires AllNotebooks(nbs)
  {
    if |ds| == 0 then 0 else GroupSizes(nbs, rule, ds[..|ds| - 1]) + |InGroup(nbs, rule, ds[|ds| - 1])|
  }

  /** Grouping a list of distinct notebooks gives groups of distinct notebooks. */
  lemma {:induction false} InGroupDistinct(nbs: seq<Path>, rule: SkipRule, k: string)
    requires AllNotebooks(nbs) && Distinct(nbs)
    ensures Distinct(InGroup(nbs, rule, k))
  {
    if |nbs| > 0 {
      var init := nbs[..|nbs| - 1];
      assert Distinct(init);
      InGroupDistinct(init, rule, k);
      assert nbs[|nbs| - 1] !in init;
    }
  }

  /** A chapter contributes its group's size, plus one when its file is not
      among the group's notebooks. */
  lemma {:induction false} EntryCountSplits(nbs: seq<Path>, rule: SkipRule, ds: seq<string>, existing: set<Path>)
    requires AllNotebooks(nbs) && Distinct(nbs)
    requires GroupsWellFormed(Grouped(nbs, rule)) && forall i :: 0 <= i < |ds| ==> ds[i] in Grouped(nbs, rule)
    ensures EntryCount(ChaptersOf(ds, Grouped(nbs, rule), existing)) ==
      GroupSizes(nbs, rule, ds) + OutsideChapters(ds, Grouped(nbs, rule), existing)
  {
    var g := Grouped(nbs, rule);
    if |ds| > 0 {
      var init := ds[..|ds| - 1];
      var d := ds[|ds| - 1];
      EntryCountSplits(nbs, rule, init, existing);
      assert ChaptersOf(ds, g, existing)[..|ds| - 1] == ChaptersOf(init, g, existing);
      GroupedIsFilter(nbs, rule);
      InGroupDistinct(nbs, rule, d);
      OthersLength(g[d], ChapterFile(d, g[d], existing));
    }
  }

  /** Adding a notebook to the scan adds one to the total size of the groups
      that contain its key. */
  lemma {:induction false} GroupSizesStep(nbs: seq<Path>, nb: Path, rule: SkipRule, ds: seq<string>)
    requires AllNotebooks(nbs) && IsNotebook(nb) && Distinct(ds)
    ensures AllNotebooks(nbs + [nb])
    ensures GroupSizes(nbs + [nb], rule, ds) ==
      GroupSizes(nbs, rule, ds) + if GroupKey(rule, nb).Some? && GroupKey(rule, nb).value in ds then 1 else 0
  {
    if |ds| > 0 {
      var init := ds[..|ds| - 1];
      assert Distinct(init);
      GroupSizesStep(nbs, nb, rule, init);
      assert (nbs + [nb])[..|nbs|] == nbs;
      assert ds[|ds| - 1] !in init;
      assert forall k :: k in ds <==> k == ds[|ds| - 1] || k in init;
    }
  }

  /** Distinct names covering every key count every grouped notebook once. */
  lemma {:induction false} GroupSizesCover(nbs: seq<Path>, rule: SkipRule, ds: seq<string>)
    requires AllNotebooks(nbs) && Distinct(ds)
    requires forall i :: 0 <= i < |nbs| && GroupKey(rule, nbs[i]).Some? ==> GroupKey(rule, nbs[i]).value in ds
    ensures GroupSizes(nbs, rule, ds) == |Keyed(nbs, rule)|
  {
    if |nbs| == 0 {
      assert forall i :: 0 <= i < |ds| ==> InGroup(nbs, rule, ds[i]) == [];
      GroupSizesEmpty(rule, ds);
    } else {
      var init := nbs[..|nbs| - 1];
      assert nbs == init + [nbs[|nbs| - 1]];
      assert forall p :: p in init ==> p in nbs;
      GroupSizesStep(init, nbs[|nbs| - 1], rule, ds);
      GroupSizesCover(init, rule, ds);
    }
  }

  lemma {:induction false} GroupSizesEmpty(rule: SkipRule, ds: seq<string>)
    ensures GroupSizes([], rule, ds) == 0
  {
    if |ds| > 0 {
      GroupSizesEmpty(rule, ds[..|ds| - 1]);
    }
  }

  /** The printed count: every grouped notebook once, plus one for each chapter
      whose file is not one of its group's notebooks. */
  lemma EntryCountOfToc(nbs: seq<Path>, existing: set<Path>, rule: SkipRule, ds: seq<string>)
    requires AllNotebooks(nbs) && Distinct(nbs)
    requires forall i, j :: 0 <= i < j < |ds| ==> Less(ds[i], ds[j])
    requires forall k :: k in ds <==> InGroup(nbs, rule, k) != []
    ensures GroupsWellFormed(Grouped(nbs, rule)) && forall i :: 0 <= i < |ds| ==> ds[i] in Grouped(nbs, rule)
    ensures EntryCount(ChaptersOf(ds, Grouped(nbs, rule), existing)) ==
      |Keyed(nbs, rule)| + OutsideChapters(ds, Grouped(nbs, rule), existing)
  {
    GroupedIsFilter(nbs, rule);
    GroupedWellFormed(nbs, rule);
    SortedDistinct(ds);
    EntryCountSplits(nbs, rule, ds, existing);
    forall i | 0 <= i < |nbs| && GroupKey(rule, nbs[i]).Some?
      ensures GroupKey(rule, nbs[i]).value in ds
    {
      assert nbs[i] in InGroup(nbs, rule, GroupKey(rule, nbs[i]).value);
    }
    GroupSizesCover(nbs, rule, ds);
  }

  /** The scan found every notebook that exists under `notebooks/`. */
  predicate ScanComplete(nbs: seq<Path>, existing: set<Path>) {
    forall p :: p in existing && IsNotebook(p) && |p| >= 2 && p[0] == NotebookDir ==> p in nbs
  }

  /** When the scan is complete, a chapter file outside its group can only be
      the folder's `index.md`. */
  lemma OutsideChapterIsIndexPage(nbs: seq<Path>, existing: set<Path>, rule: SkipRule, d: string)
    requires AllNotebooks(nbs) && ScanComplete(nbs, existing)
    requires InGroup(nbs, rule, d) != []
    ensures ChapterFile(d, InGroup(nbs, rule, d), existing) !in InGroup(nbs, rule, d) ==>
      ChapterFile(d, InGroup(nbs, rule, d), existing) == Folder(d) + ["index.md"]
  {
    var files := InGroup(nbs, rule, d);
    var ipynb := Folder(d) + ["index.ipynb"];
    if ipynb in existing {
      IndexIsNotebook(Folder(d));
      assert |ipynb| == 3 && ipynb[0] == NotebookDir && ipynb[1] == d;
      assert ipynb in nbs;
      assert !RootIndexSkipped(rule, ipynb);
      assert GroupKey(rule, ipynb) == Some(d);
    }
  }

  /** Every notebook the scan returns lies under `notebooks/`. */
  predicate UnderNotebookDir(nbs: seq<Path>) {
    forall i :: 0 <= i < |nbs| ==> |nbs[i]| >= 2 && nbs[i][0] == NotebookDir
  }

  /** As written, the book-root skip never applies to a scanned notebook: every
      notebook of the scan is grouped, `notebooks/index.ipynb` included. */
  lemma {:induction false} AsWrittenGroupsEverything(nbs: seq<Path>)
    requires AllNotebooks(nbs) && UnderNotebookDir(nbs)
    ensures Keyed(nbs, AsWritten) == nbs
  {
    if |nbs| > 0 {
      AsWrittenGroupsEverything(nbs[..|nbs| - 1]);
      assert nbs == nbs[..|nbs| - 1] + [nbs[|nbs| - 1]];
    }
  }

  /** The book root placed under `notebooks/` becomes a chapter of its own. */
  lemma NotebooksIndexBecomesChapter()
    ensures IsNotebook([NotebookDir, "index.ipynb"])
    ensures GroupKey(AsWritten, [NotebookDir, "index.ipynb"]) == Some("index.ipynb")
    ensures Grouped([[NotebookDir, "index.ipynb"]], AsWritten) == map["index.ipynb" := [[NotebookDir, "index.ipynb"]]]
  {
    var nb := [NotebookDir, "index.ipynb"];
    assert nb[|nb| - 1][|nb[|nb| - 1]| - |NotebookSuffix|..] == NotebookSuffix;
    var nbs := [nb];
    assert nbs[..0] == [];
    assert GroupKey(AsWritten, nb) == Some("index.ipynb");
    assert Grouped(nbs, AsWritten) == map[][("index.ipynb") := [] + [nb]];
    assert [] + [nb] == [nb];
  }

  /** With the intended skip, no group holds a notebook named `index` directly
      under `notebooks/`. */
  lemma IntendedSkipsBookRoot(nbs: seq<Path>, k: string)
    requires AllNotebooks(nbs)
    ensures forall p :: p in InGroup(nbs, Intended, k) ==> !(|p| == 2 && WithoutSuffix(p[1]) == "index")
  {
    forall p | p in InGroup(nbs, Intended, k)
      ensures !(|p| == 2 && WithoutSuffix(p[1]) == "index")
    {
      assert GroupKey(Intended, p) == Some(k);
      assert !RootIndexSkipped(Intended, p) && |p| >= 2 && p[0] == NotebookDir;
      if |p| == 2 {
        assert p[|p| - 1] == p[1];
      }
    }
  }

  /** With the intended skip every other notebook under `notebooks/` is still
      grouped by its first directory. */
  lemma IntendedKeepsChapters(nbs: seq<Path>, p: Path)
    requires AllNotebooks(nbs) && p in nbs
    requires |p| >= 2 && p[0] == NotebookDir && !(|p| == 2 && WithoutSuffix(p[1]) == "index")
    ensures p in InGroup(nbs, Intended, p[1])
  {
    assert !RootIndexSkipped(Intended, p);
  }
}
