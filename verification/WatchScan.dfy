/**
 Partitioning a directory tree into watch anchors (sandbox/lib/file-watch.ts, `scanCwd`).

 `walk` pushes to shared lists in traversal order and stops descending once a budget is spent. The
 reference is declarative: a directory is clean when everything at or below it was visited; the
 recursive roots are the topmost clean directories and the shallow directories are the visited
 ones that are not clean.
*/
module WatchScan {
  import Collections

  /** The names of a directory below the session's working directory; [] is that directory itself. */
  type Path = seq<string>

  datatype Dir = Unreadable | Readable(entries: seq<Entry>)
  datatype Entry = File(name: string) | SubDir(name: string, dir: Dir)

  const DENYLIST: set<string> := {
    "node_modules", ".git", "dist", "build", "out", ".next", ".nuxt", "target",
    "vendor", ".venv", "venv", "__pycache__", ".cache", ".turbo",
    ".parcel-cache", "coverage", ".pytest_cache"
  }

  /** The budget in use; what is proved holds for every budget. */
  const MAX_WATCHED_DIRS: nat := 2000

  // ---- Names and pruning ---------------------------------------------------------------------

  function Extend(acc: string, part: string): string {
    if acc != "" then acc + "/" + part else part
  }

  /** The "/"-joined relative path. */
  function Rel(p: Path): string {
    if p == [] then "" else Extend(Rel(p[..|p| - 1]), p[|p| - 1])
  }

  /** The test `walk` applies to the directory at `p` (not to what is above it). */
  predicate Excluded(p: Path, ignored: set<string>)
    requires p != []
  {
    p[|p| - 1] in DENYLIST || Rel(p) in ignored
  }

  /** No directory on the way from below `top` down to `p` is excluded. */
  ghost predicate Open(top: Path, p: Path, ignored: set<string>) {
    forall k :: |top| < k <= |p| ==> !Excluded(p[..k], ignored)
  }

  // ---- The walk ------------------------------------------------------------------------------

  /** What a piece of the walk reports and adds to the shared lists, in order. */
  datatype Gain = Gain(clean: bool, kids: seq<Path>, roots: seq<Path>, shallow: seq<Path>,
                       visited: seq<Path>, overCap: bool)

  function Then(g: Gain, h: Gain): Gain {
    Gain(g.clean && h.clean, g.kids + h.kids, g.roots + h.roots, g.shallow + h.shallow,
         g.visited + h.visited, h.overCap)
  }

  /** `count` directories were visited before. */
  function WalkDir(d: Dir, path: Path, count: nat, overCap: bool, ignored: set<string>, max: nat): Gain
    decreases d, 1
  {
    if d.Unreadable? then Gain(true, [], [], [], [], overCap)
    else
      var g := WalkEntries(d.entries, path, count, overCap, ignored, max);
      if g.clean then g.(kids := [])
      else g.(kids := [], roots := g.roots + g.kids, shallow := g.shallow + [path])
  }

  function WalkEntries(es: seq<Entry>, path: Path, count: nat, overCap: bool, ignored: set<string>,
                       max: nat): Gain
    decreases es, 0
  {
    if es == [] then Gain(true, [], [], [], [], overCap)
    else
      var g := WalkEntry(es[0], path, count, overCap, ignored, max);
      Then(g, WalkEntries(es[1..], path, count + |g.visited|, g.overCap, ignored, max))
  }

  function WalkEntry(e: Entry, path: Path, count: nat, overCap: bool, ignored: set<string>, max: nat): Gain
    decreases e, 0
  {
    if e.File? then Gain(true, [], [], [], [], overCap)
    else
      var child := path + [e.name];
      if Excluded(child, ignored) then Gain(false, [], [], [], [], overCap)
      else if overCap || count >= max then Gain(false, [], [], [], [], true)
      else
        var g := WalkDir(e.dir, child, count + 1, overCap, ignored, max);
        g.(kids := if g.clean then [child] else [], visited := [child] + g.visited)
  }

  function Scan(tree: Dir, ignored: set<string>, max: nat): Gain {
    var g := WalkDir(tree, [], 0, false, ignored, max);
    if g.clean then g.(roots := g.roots + [[]]) else g
  }

  // ---- The tree, declaratively ---------------------------------------------------------------

  /** Every directory at or below `d`, which sits at `path`, as far as it can be read. */
  function Dirs(d: Dir, path: Path): set<Path>
    decreases d, 1
  {
    {path} + if d.Unreadable? then {} else EntryDirs(d.entries, path)
  }

  function EntryDirs(es: seq<Entry>, path: Path): set<Path>
    decreases es, 0
  {
    if es == [] then {} else EntryDir(es[0], path) + EntryDirs(es[1..], path)
  }

  function EntryDir(e: Entry, path: Path): set<Path>
    decreases e, 0
  {
    if e.File? then {} else Dirs(e.dir, path + [e.name])
  }

  /** A file system gives the directories beside each other different names. */
  ghost predicate DistinctNames(d: Dir)
    decreases d, 1
  {
    d.Readable? ==> DistinctEntries(d.entries)
  }

  ghost predicate DistinctEntries(es: seq<Entry>)
    decreases es, 0
  {
    es != [] ==>
      && DistinctEntries(es[1..])
      && (es[0].SubDir? ==>
            && DistinctNames(es[0].dir)
            && forall e :: e in es[1..] && e.SubDir? ==> e.name != es[0].name)
  }

  function Parent(p: Path): Path
    requires p != []
  {
    p[..|p| - 1]
  }

  /** Everything at or below `p` was visited, so nothing there is excluded or skipped. */
  ghost predicate Clean(p: Path, dirs: set<Path>, seen: set<Path>) {
    forall q :: q in dirs && p <= q ==> q in seen
  }

  ghost predicate NoDuplicates(s: seq<Path>) {
    forall i, j :: 0 <= i < j < |s| ==> s[i] != s[j]
  }

  ghost function Set(s: seq<Path>): set<Path> { set p | p in s }

  lemma DirsBelow(d: Dir, path: Path)
    ensures forall q :: q in Dirs(d, path) ==> path <= q
    decreases d, 1
  {
    if d.Readable? { EntryDirsBelow(d.entries, path); }
  }

  lemma EntryDirsBelow(es: seq<Entry>, path: Path)
    ensures forall q :: q in EntryDirs(es, path) ==>
              && path <= q && |q| > |path|
              && exists e :: e in es && e.SubDir? && e.name == q[|path|]
    decreases es, 0
  {
    if es != [] {
      EntryDirsBelow(es[1..], path);
      if es[0].SubDir? {
        var child := path + [es[0].name];
        DirsBelow(es[0].dir, child);
        forall q | q in Dirs(es[0].dir, child)
          ensures path <= q && |q| > |path| && q[|path|] == es[0].name
        {
          assert q[..|child|] == child;
          assert q[..|path|] == path;
        }
      }
    }
  }

  // ---- What one piece of the walk adds -------------------------------------------------------

  ghost predicate NoRepeats(g: Gain) {
    && NoDuplicates(g.visited) && NoDuplicates(g.roots)
    && NoDuplicates(g.shallow) && NoDuplicates(g.kids)
  }

  ghost predicate SeenWithin(g: Gain, dirs: set<Path>, path: Path) {
    && Set(g.visited) <= dirs
    && (forall q :: q in dirs ==> path <= q && |path| < |q|)
    && (forall q {:trigger Parent(q)} :: q in g.visited && |q| > |path| + 1 ==> Parent(q) in g.visited)
    && (g.clean <==> dirs <= Set(g.visited))
  }

  ghost predicate KidsAre(g: Gain, dirs: set<Path>, path: Path) {
    forall p {:trigger p in g.kids} ::
      p in g.kids <==> p in g.visited && |p| == |path| + 1 && Clean(p, dirs, Set(g.visited))
  }

  ghost predicate ShallowAre(g: Gain, dirs: set<Path>) {
    forall p {:trigger p in g.shallow} :: p in g.shallow <==> p in g.visited && !Clean(p, dirs, Set(g.visited))
  }

  ghost predicate RootsAre(g: Gain, dirs: set<Path>, path: Path) {
    forall p {:trigger p in g.roots} :: p in g.roots <==>
      && p in g.visited && |p| > |path| + 1
      && Clean(p, dirs, Set(g.visited)) && !Clean(Parent(p), dirs, Set(g.visited))
  }

  /** What walking directories `dirs`, all of them strictly below `path`, adds. */
  ghost predicate AddsBelow(dirs: set<Path>, path: Path, g: Gain) {
    && SeenWithin(g, dirs, path) && KidsAre(g, dirs, path) && ShallowAre(g, dirs)
    && RootsAre(g, dirs, path) && NoRepeats(g)
  }

  ghost predicate SeenAt(g: Gain, dirs: set<Path>, path: Path) {
    && path in dirs && path !in g.visited && Set(g.visited) <= dirs
    && (forall q :: q in dirs ==> path <= q)
    && (forall q :: q in g.visited ==> |q| > |path|)
    && (forall q {:trigger Parent(q)} :: q in g.visited ==> Parent(q) == path || Parent(q) in g.visited)
    && (g.clean <==> dirs <= Set(g.visited) + {path})
  }

  ghost predicate ShallowAt(g: Gain, dirs: set<Path>, path: Path) {
    forall p {:trigger p in g.shallow} :: p in g.shallow <==>
      (p in g.visited || p == path) && !Clean(p, dirs, Set(g.visited) + {path})
  }

  ghost predicate RootsAt(g: Gain, dirs: set<Path>, path: Path)
    requires forall q :: q in g.visited ==> |q| > |path|
  {
    forall p {:trigger p in g.roots} :: p in g.roots <==>
      && p in g.visited && Clean(p, dirs, Set(g.visited) + {path})
      && !Clean(Parent(p), dirs, Set(g.visited) + {path})
  }

  /** The same for a directory at `path` together with everything below it. */
  ghost predicate AddsAt(dirs: set<Path>, path: Path, g: Gain) {
    g.kids == [] && SeenAt(g, dirs, path) && ShallowAt(g, dirs, path) && RootsAt(g, dirs, path) && NoRepeats(g)
  }

  ghost predicate Separated(xs: set<Path>, ys: set<Path>) {
    forall p, q :: p in xs && q in ys ==> !(p <= q) && !(q <= p)
  }

  lemma SetOfJoined(s: seq<Path>, t: seq<Path>)
    ensures Set(s + t) == Set(s) + Set(t)
  {
  }

  lemma NoDuplicatesJoined(s: seq<Path>, t: seq<Path>)
    requires NoDuplicates(s) && NoDuplicates(t) && forall p :: p in s ==> p !in t
    ensures NoDuplicates(s + t)
  {
    forall i, j | 0 <= i < j < |s + t| ensures (s + t)[i] != (s + t)[j] {
      if i < |s| <= j {
        assert (s + t)[i] in s && (s + t)[j] in t;
      }
    }
  }

  lemma CleanIsLocal(xs: set<Path>, ys: set<Path>, sx: set<Path>, sy: set<Path>)
    requires sx <= xs && sy <= ys && Separated(xs, ys)
    ensures forall p :: p in xs ==> (Clean(p, xs + ys, sx + sy) <==> Clean(p, xs, sx))
    ensures forall p :: p in ys ==> (Clean(p, xs + ys, sx + sy) <==> Clean(p, ys, sy))
  {
    forall p | p in xs ensures Clean(p, xs + ys, sx + sy) <==> Clean(p, xs, sx) {
      assert forall q :: q in ys ==> !(p <= q);
      assert forall q :: q in xs ==> q !in ys;
    }
    forall p | p in ys ensures Clean(p, xs + ys, sx + sy) <==> Clean(p, ys, sy) {
      assert forall q :: q in xs ==> !(p <= q);
      assert forall q :: q in ys ==> q !in xs;
    }
  }

  lemma SiblingRoots(xs: set<Path>, ys: set<Path>, path: Path, g: Gain, h: Gain)
    requires SeenWithin(g, xs, path) && SeenWithin(h, ys, path) && Separated(xs, ys)
    requires RootsAre(g, xs, path) && RootsAre(h, ys, path)
    ensures RootsAre(Then(g, h), xs + ys, path)
  {
    SetOfJoined(g.visited, h.visited);
    CleanIsLocal(xs, ys, Set(g.visited), Set(h.visited));
  }

  lemma SiblingKidsAndShallow(xs: set<Path>, ys: set<Path>, path: Path, g: Gain, h: Gain)
    requires SeenWithin(g, xs, path) && SeenWithin(h, ys, path) && Separated(xs, ys)
    requires KidsAre(g, xs, path) && KidsAre(h, ys, path) && ShallowAre(g, xs) && ShallowAre(h, ys)
    ensures KidsAre(Then(g, h), xs + ys, path) && ShallowAre(Then(g, h), xs + ys)
  {
    SetOfJoined(g.visited, h.visited);
    CleanIsLocal(xs, ys, Set(g.visited), Set(h.visited));
  }

  /** Siblings do not influence each other: walking both adds what walking each adds. */
  lemma Siblings(xs: set<Path>, ys: set<Path>, path: Path, g: Gain, h: Gain)
    requires AddsBelow(xs, path, g) && AddsBelow(ys, path, h) && Separated(xs, ys)
    ensures AddsBelow(xs + ys, path, Then(g, h))
  {
    SetOfJoined(g.visited, h.visited);
    forall p | p in g.visited ensures p !in h.visited {
      assert p in xs;
      assert p in h.visited ==> p in ys;
    }
    NoDuplicatesJoined(g.visited, h.visited);
    NoDuplicatesJoined(g.roots, h.roots);
    NoDuplicatesJoined(g.shallow, h.shallow);
    NoDuplicatesJoined(g.kids, h.kids);
    SiblingRoots(xs, ys, path, g, h);
    SiblingKidsAndShallow(xs, ys, path, g, h);
  }

  /** Entering a child: the caller's own bookkeeping around the child's walk. */
  lemma EnteredChild(dirs: set<Path>, path: Path, name: string, g: Gain)
    requires AddsAt(dirs, path + [name], g)
    ensures AddsBelow(dirs, path, g.(kids := if g.clean then [path + [name]] else [],
                                     visited := [path + [name]] + g.visited))
  {
    var child := path + [name];
    var h := g.(kids := if g.clean then [child] else [], visited := [child] + g.visited);
    assert Set(h.visited) == Set(g.visited) + {child} by { SetOfJoined([child], g.visited); }
    assert Parent(child) == path;
    assert Clean(child, dirs, Set(h.visited)) <==> g.clean;
    NoDuplicatesJoined([child], g.visited);
    forall q | q in dirs ensures path <= q && |path| < |q| {
      assert q[..|child|][..|path|] == path;
    }
  }

  lemma SiblingsSeparated(e: Entry, es: seq<Entry>, path: Path)
    requires e.SubDir? && forall e' :: e' in es && e'.SubDir? ==> e'.name != e.name
    ensures Separated(Dirs(e.dir, path + [e.name]), EntryDirs(es, path))
  {
    DirsBelow(e.dir, path + [e.name]);
    EntryDirsBelow(es, path);
    forall p, q | p in Dirs(e.dir, path + [e.name]) && q in EntryDirs(es, path)
      ensures !(p <= q) && !(q <= p)
    {
      assert p[..|path| + 1] == path + [e.name];
      assert p[|path|] == e.name && q[|path|] != e.name;
    }
  }

  lemma {:induction false} WalkDirAdds(d: Dir, path: Path, count: nat, overCap: bool, ignored: set<string>,
                                       max: nat) returns (r: Gain)
    requires DistinctNames(d)
    ensures r == WalkDir(d, path, count, overCap, ignored, max)
    ensures AddsAt(Dirs(d, path), path, r)
    decreases d, 1
  {
    r := WalkDir(d, path, count, overCap, ignored, max);
    if d.Readable? {
      var g := WalkEntriesAdds(d.entries, path, count, overCap, ignored, max);
      if g.clean { FinishCleanDir(EntryDirs(d.entries, path), path, g); }
      else { FinishDirtyDir(EntryDirs(d.entries, path), path, g); }
    }
  }

  lemma CleanAboveBelow(below: set<Path>, path: Path, seen: set<Path>)
    requires seen <= below && forall q :: q in below ==> path <= q && |path| < |q|
    ensures forall p :: p in below ==> (Clean(p, {path} + below, seen + {path}) <==> Clean(p, below, seen))
    ensures Clean(path, {path} + below, seen + {path}) <==> {path} + below <= seen + {path}
  {
    var dirs, s := {path} + below, seen + {path};
    forall p | p in below ensures Clean(p, dirs, s) <==> Clean(p, below, seen) {
      assert !(p <= path);
      assert path !in below;
    }
  }

  /** A clean directory keeps its clean children to itself. */
  lemma FinishCleanDir(below: set<Path>, path: Path, g: Gain)
    requires AddsBelow(below, path, g) && g.clean
    ensures AddsAt({path} + below, path, g.(kids := []))
  {
    CleanAboveBelow(below, path, Set(g.visited));
    forall q | q in g.visited ensures |q| > |path| && (Parent(q) == path || Parent(q) in g.visited) {
      if |q| == |path| + 1 { assert Parent(q) == path; }
    }
    assert forall p :: p in below ==> Clean(p, below, Set(g.visited));
  }

  function Promoted(g: Gain, path: Path): Gain {
    g.(kids := [], roots := g.roots + g.kids, shallow := g.shallow + [path])
  }

  /** A dirty directory anchors each of its clean children and is watched shallowly itself. */
  lemma FinishDirtyDir(below: set<Path>, path: Path, g: Gain)
    requires AddsBelow(below, path, g) && !g.clean
    ensures AddsAt({path} + below, path, Promoted(g, path))
  {
    DirtySeen(below, path, g);
    DirtyShallow(below, path, g);
    DirtyRoots(below, path, g);
    assert path !in g.shallow by { assert path !in below; }
    NoDuplicatesJoined(g.roots, g.kids);
    NoDuplicatesJoined(g.shallow, [path]);
  }

  lemma DirtySeen(below: set<Path>, path: Path, g: Gain)
    requires SeenWithin(g, below, path) && !g.clean
    ensures SeenAt(Promoted(g, path), {path} + below, path)
  {
    assert path !in below;
    forall q | q in g.visited ensures |q| > |path| && (Parent(q) == path || Parent(q) in g.visited) {
      if |q| == |path| + 1 { assert Parent(q) == path; }
    }
  }

  lemma DirtyShallow(below: set<Path>, path: Path, g: Gain)
    requires SeenWithin(g, below, path) && ShallowAre(g, below) && !g.clean
    ensures ShallowAt(Promoted(g, path), {path} + below, path)
  {
    CleanAboveBelow(below, path, Set(g.visited));
    assert path !in below;
  }

  lemma DirtyRoots(below: set<Path>, path: Path, g: Gain)
    requires SeenWithin(g, below, path) && KidsAre(g, below, path) && RootsAre(g, below, path) && !g.clean
    ensures RootsAt(Promoted(g, path), {path} + below, path)
  {
    var dirs, seen := {path} + below, Set(g.visited) + {path};
    CleanAboveBelow(below, path, Set(g.visited));
    assert path !in below;
    forall p ensures p in g.roots + g.kids <==>
                       p in g.visited && Clean(p, dirs, seen) && !Clean(Parent(p), dirs, seen)
    {
      if p in g.visited {
        if |p| == |path| + 1 { assert Parent(p) == path; }
        else { assert Parent(p) in below; }
      }
    }
  }

  lemma EntryDirBelow(e: Entry, path: Path)
    ensures forall q :: q in EntryDir(e, path) ==> path <= q && |path| < |q|
    ensures e.SubDir? ==> path + [e.name] in EntryDir(e, path)
  {
    if e.SubDir? {
      var child := path + [e.name];
      DirsBelow(e.dir, child);
      assert EntryDir(e, path) == Dirs(e.dir, child);
      forall q | q in EntryDir(e, path) ensures path <= q && |path| < |q| {
        assert q[..|child|][..|path|] == path;
      }
    }
  }

  lemma {:induction false} WalkEntryAdds(e: Entry, path: Path, count: nat, overCap: bool, ignored: set<string>,
                                         max: nat) returns (r: Gain)
    requires e.SubDir? ==> DistinctNames(e.dir)
    ensures r == WalkEntry(e, path, count, overCap, ignored, max)
    ensures AddsBelow(EntryDir(e, path), path, r)
    decreases e, 0
  {
    r := WalkEntry(e, path, count, overCap, ignored, max);
    EntryDirBelow(e, path);
    if e.SubDir? {
      var child := path + [e.name];
      if !Excluded(child, ignored) && !overCap && count < max {
        var g := WalkDirAdds(e.dir, child, count + 1, overCap, ignored, max);
        EnteredChild(Dirs(e.dir, child), path, e.name, g);
      }
    }
  }

  lemma NothingAdds(path: Path, overCap: bool)
    ensures AddsBelow({}, path, Gain(true, [], [], [], [], overCap))
  {
  }

  lemma JoinSiblings(es: seq<Entry>, path: Path, g: Gain, h: Gain)
    requires es != [] && DistinctEntries(es)
    requires AddsBelow(EntryDir(es[0], path), path, g) && AddsBelow(EntryDirs(es[1..], path), path, h)
    ensures AddsBelow(EntryDirs(es, path), path, Then(g, h))
  {
    if es[0].SubDir? { SiblingsSeparated(es[0], es[1..], path); }
    Siblings(EntryDir(es[0], path), EntryDirs(es[1..], path), path, g, h);
  }

  lemma UnfoldEntries(es: seq<Entry>, path: Path, count: nat, overCap: bool, ignored: set<string>, max: nat,
                      g: Gain, h: Gain)
    requires es != []
    requires g == WalkEntry(es[0], path, count, overCap, ignored, max)
    requires h == WalkEntries(es[1..], path, count + |g.visited|, g.overCap, ignored, max)
    ensures WalkEntries(es, path, count, overCap, ignored, max) == Then(g, h)
  {
  }

  lemma {:induction false} WalkEntriesAdds(es: seq<Entry>, path: Path, count: nat, overCap: bool,
                                           ignored: set<string>, max: nat) returns (r: Gain)
    requires DistinctEntries(es)
    ensures r == WalkEntries(es, path, count, overCap, ignored, max)
    ensures AddsBelow(EntryDirs(es, path), path, r)
    decreases es, 0
  {
    if es == [] {
      r := Gain(true, [], [], [], [], overCap);
      NothingAdds(path, overCap);
    } else {
      var g := WalkEntryAdds(es[0], path, count, overCap, ignored, max);
      var h := WalkEntriesAdds(es[1..], path, count + |g.visited|, g.overCap, ignored, max);
      r := Then(g, h);
      UnfoldEntries(es, path, count, overCap, ignored, max, g, h);
      JoinSiblings(es, path, g, h);
    }
  }

  // ---- The partition -------------------------------------------------------------------------

  ghost function Seen(g: Gain): set<Path> { Set(g.visited) + {[]} }

  /** `p` is clean and nothing above it is: the top of an exclusion-free subtree. */
  ghost predicate TopClean(p: Path, dirs: set<Path>, seen: set<Path>) {
    p in seen && Clean(p, dirs, seen) && (p == [] || !Clean(Parent(p), dirs, seen))
  }

  /**
   The scan computes exactly the declared partition, in lists without repetition: shallow
   directories are the visited ones that are not clean, recursive roots are the topmost clean ones.
   */
  lemma ScanIsPartition(tree: Dir, ignored: set<string>, max: nat)
    requires DistinctNames(tree)
    ensures var g, dirs := Scan(tree, ignored, max), Dirs(tree, []);
            && Seen(g) <= dirs && [] !in g.visited
            && (forall q {:trigger Parent(q)} :: q in g.visited ==> q != [] && Parent(q) in Seen(g))
            && (forall p {:trigger p in g.shallow} :: p in g.shallow <==> p in Seen(g) && !Clean(p, dirs, Seen(g)))
            && (forall p {:trigger p in g.roots} :: p in g.roots <==> TopClean(p, dirs, Seen(g)))
            && NoDuplicates(g.visited) && NoDuplicates(g.roots) && NoDuplicates(g.shallow)
  {
    var g := WalkDirAdds(tree, [], 0, false, ignored, max);
    AnchorTop(Dirs(tree, []), g);
  }

  lemma AnchorTop(dirs: set<Path>, g: Gain)
    requires AddsAt(dirs, [], g)
    ensures var h := if g.clean then g.(roots := g.roots + [[]]) else g;
            && (forall p :: p in h.roots <==> TopClean(p, dirs, Seen(g)))
            && NoDuplicates(h.roots)
  {
    assert Clean([], dirs, Seen(g)) <==> dirs <= Seen(g);
    if g.clean {
      assert forall p :: p in dirs ==> Clean(p, dirs, Seen(g));
      NoDuplicatesJoined(g.roots, [[]]);
    }
  }

  lemma CleanGoesDown(p: Path, q: Path, dirs: set<Path>, seen: set<Path>)
    requires p <= q && Clean(p, dirs, seen)
    ensures Clean(q, dirs, seen)
  {
    forall r | r in dirs && q <= r ensures r in seen {
      assert r[..|p|] == r[..|q|][..|p|];
    }
  }

  lemma {:induction false} RootAbove(p: Path, dirs: set<Path>, seen: set<Path>) returns (root: Path)
    requires p in seen && Clean(p, dirs, seen)
    requires forall q {:trigger Parent(q)} :: q in seen && q != [] ==> Parent(q) in seen
    ensures root <= p && TopClean(root, dirs, seen)
    decreases |p|
  {
    if p == [] || !Clean(Parent(p), dirs, seen) {
      root := p;
    } else {
      root := RootAbove(Parent(p), dirs, seen);
    }
  }

  lemma TopsDoNotNest(p: Path, q: Path, dirs: set<Path>, seen: set<Path>)
    requires TopClean(p, dirs, seen) && TopClean(q, dirs, seen) && p <= q
    ensures p == q
  {
    if p != q {
      assert p <= Parent(q);
      CleanGoesDown(p, Parent(q), dirs, seen);
    }
  }

  lemma Prefixes(p: Path, q: Path, r: Path)
    requires p <= r && q <= r && |p| <= |q|
    ensures p <= q
  {
    assert p == r[..|q|][..|p|];
  }

  ghost predicate AtMostOneAbove(p: Path, roots: seq<Path>) {
    forall r, r' :: r in roots && r' in roots && r <= p && r' <= p ==> r == r'
  }

  /**
   Every visited directory is watched exactly once: it is shallow, or at or below exactly one
   recursive root, never both. Recursive roots do not nest, and everything at or below one was
   visited, so no excluded or budget-skipped directory lies under a recursive watch.
   */
  lemma WatchedExactlyOnce(tree: Dir, ignored: set<string>, max: nat)
    requires DistinctNames(tree)
    ensures var g := Scan(tree, ignored, max);
            && (forall p :: p in Seen(g) ==> (p !in g.shallow <==> exists r :: r in g.roots && r <= p))
            && (forall p :: p in Seen(g) ==> AtMostOneAbove(p, g.roots))
            && (forall r, r' :: r in g.roots && r' in g.roots && r <= r' ==> r == r')
            && (forall r, q :: r in g.roots && q in Dirs(tree, []) && r <= q ==> q in Seen(g))
  {
    ScanIsPartition(tree, ignored, max);
    var g, dirs := Scan(tree, ignored, max), Dirs(tree, []);
    forall p | p in Seen(g) ensures p !in g.shallow <==> exists r :: r in g.roots && r <= p {
      if p !in g.shallow {
        var r := RootAbove(p, dirs, Seen(g));
        assert r in g.roots;
      } else if r :| r in g.roots && r <= p {
        CleanGoesDown(r, p, dirs, Seen(g));
      }
    }
    forall r, r' | r in g.roots && r' in g.roots && r <= r' ensures r == r' {
      TopsDoNotNest(r, r', dirs, Seen(g));
    }
    forall p | p in Seen(g) ensures AtMostOneAbove(p, g.roots) {
      forall r, r' | r in g.roots && r' in g.roots && r <= p && r' <= p ensures r == r' {
        if |r| <= |r'| { Prefixes(r, r', p); TopsDoNotNest(r, r', dirs, Seen(g)); }
        else { Prefixes(r', r, p); TopsDoNotNest(r', r, dirs, Seen(g)); }
      }
    }
  }

  /** The roots are the fewest: any set of clean directories that covers the clean ones contains them all. */
  lemma FewestRoots(tree: Dir, ignored: set<string>, max: nat, anchors: set<Path>)
    requires DistinctNames(tree)
    requires var g := Scan(tree, ignored, max);
             && (forall p :: p in anchors ==> p in Seen(g) && Clean(p, Dirs(tree, []), Seen(g)))
             && (forall p :: p in Seen(g) && Clean(p, Dirs(tree, []), Seen(g)) ==>
                   exists r :: r in anchors && r <= p)
    ensures Set(Scan(tree, ignored, max).roots) <= anchors
    ensures |Scan(tree, ignored, max).roots| <= |anchors|
  {
    ScanIsPartition(tree, ignored, max);
    var g, dirs := Scan(tree, ignored, max), Dirs(tree, []);
    forall root | root in g.roots ensures root in anchors {
      var r :| r in anchors && r <= root;
      if r != root {
        assert r <= Parent(root);
        CleanGoesDown(r, Parent(root), dirs, Seen(g));
      }
    }
    SizeOfDistinct(g.roots);
    Collections.SubsetSize(Set(g.roots), anchors);
  }

  lemma {:induction false} SizeOfDistinct(s: seq<Path>)
    requires NoDuplicates(s)
    ensures |Set(s)| == |s|
    decreases |s|
  {
    if s != [] {
      var last, init := s[|s| - 1], s[..|s| - 1];
      SizeOfDistinct(init);
      assert s == init + [last];
      assert Set(s) == Set(init) + {last};
      assert last !in init;
    }
  }

  // ---- The budget ----------------------------------------------------------------------------

  lemma OpenThroughChild(path: Path, name: string, q: Path, ignored: set<string>)
    requires path + [name] <= q
    ensures Open(path, q, ignored) <==> !Excluded(path + [name], ignored) && Open(path + [name], q, ignored)
  {
    assert q[..|path| + 1] == path + [name];
  }

  ghost predicate VisitsOpen(dirs: set<Path>, path: Path, count: nat, overCap: bool, ignored: set<string>,
                             max: nat, g: Gain) {
    && count + |g.visited| <= max
    && (overCap ==> g.overCap && g.visited == [])
    && (g.overCap && !overCap ==> count + |g.visited| == max)
    && (forall q :: q in g.visited ==> q in dirs && Open(path, q, ignored))
    && (!g.overCap ==> forall q :: q in dirs && Open(path, q, ignored) ==> q in g.visited)
    && (g.overCap && !overCap ==> exists q :: q in dirs && Open(path, q, ignored) && q !in g.visited)
  }

  lemma {:induction false} WalkDirVisits(d: Dir, path: Path, count: nat, overCap: bool, ignored: set<string>, max: nat)
    requires DistinctNames(d) && count <= max
    ensures VisitsOpen(Dirs(d, path) - {path}, path, count, overCap, ignored, max,
                       WalkDir(d, path, count, overCap, ignored, max))
    decreases d, 1
  {
    if d.Readable? {
      EntryDirsBelow(d.entries, path);
      assert Dirs(d, path) - {path} == EntryDirs(d.entries, path);
      WalkEntriesVisits(d.entries, path, count, overCap, ignored, max);
    }
  }

  lemma OpenBelow(e: Entry, path: Path, ignored: set<string>)
    requires e.SubDir?
    ensures var child := path + [e.name];
            forall q :: child <= q ==>
              (Open(path, q, ignored) <==> !Excluded(child, ignored) && Open(child, q, ignored))
  {
    hide Open, Excluded;
    forall q | path + [e.name] <= q
      ensures Open(path, q, ignored) <==> !Excluded(path + [e.name], ignored) && Open(path + [e.name], q, ignored)
    {
      OpenThroughChild(path, e.name, q, ignored);
    }
  }

  /** An entry the walk does not enter: a file, an excluded directory, or one met over budget. */
  lemma SkippedEntryVisits(e: Entry, path: Path, count: nat, overCap: bool, ignored: set<string>, max: nat)
    requires count <= max
    requires e.SubDir? ==> Excluded(path + [e.name], ignored) || overCap || count == max
    ensures VisitsOpen(EntryDir(e, path), path, count, overCap, ignored, max,
                       WalkEntry(e, path, count, overCap, ignored, max))
  {
    if e.SubDir? {
      var child := path + [e.name];
      EntryDirBelow(e, path);
      DirsBelow(e.dir, child);
      OpenBelow(e, path, ignored);
      if !Excluded(child, ignored) { assert Open(path, child, ignored); }
    }
  }

  lemma {:induction false} WalkEntryVisits(e: Entry, path: Path, count: nat, overCap: bool, ignored: set<string>,
                                           max: nat)
    requires (e.SubDir? ==> DistinctNames(e.dir)) && count <= max
    ensures VisitsOpen(EntryDir(e, path), path, count, overCap, ignored, max,
                       WalkEntry(e, path, count, overCap, ignored, max))
    decreases e, 0
  {
    hide WalkEntry, WalkDir, Open, Excluded, VisitsOpen, EntryDir;
    if e.SubDir? && !Excluded(path + [e.name], ignored) && !overCap && count < max {
      DirsBelow(e.dir, path + [e.name]);
      OpenBelow(e, path, ignored);
      WalkDirVisits(e.dir, path + [e.name], count + 1, overCap, ignored, max);
      EntryVisited(e, path, count, ignored, max);
    } else {
      SkippedEntryVisits(e, path, count, overCap, ignored, max);
    }
  }

  lemma EntryVisited(e: Entry, path: Path, count: nat, ignored: set<string>, max: nat)
    requires e.SubDir? && count < max
    requires var child := path + [e.name];
             && !Excluded(child, ignored)
             && (forall q {:trigger q in Dirs(e.dir, child)} :: q in Dirs(e.dir, child) ==> child <= q)
             && (forall q :: child <= q ==> (Open(path, q, ignored) <==> Open(child, q, ignored)))
             && VisitsOpen(Dirs(e.dir, child) - {child}, child, count + 1, false, ignored, max,
                           WalkDir(e.dir, child, count + 1, false, ignored, max))
             && child in Dirs(e.dir, child)
    ensures VisitsOpen(EntryDir(e, path), path, count, false, ignored, max,
                       WalkEntry(e, path, count, false, ignored, max))
  {
    var child := path + [e.name];
    var g := WalkDir(e.dir, child, count + 1, false, ignored, max);
    var r := WalkEntry(e, path, count, false, ignored, max);
    assert r.visited == [child] + g.visited && r.overCap == g.overCap;
    assert Open(path, child, ignored);
    assert EntryDir(e, path) == Dirs(e.dir, child);
    forall q | q in r.visited ensures q in Dirs(e.dir, child) && Open(path, q, ignored) {
    }
    if g.overCap {
      var q :| q in Dirs(e.dir, child) - {child} && Open(child, q, ignored) && q !in g.visited;
      assert q in EntryDir(e, path) && Open(path, q, ignored) && q !in r.visited;
    }
  }

  lemma {:induction false} WalkEntriesVisits(es: seq<Entry>, path: Path, count: nat, overCap: bool,
                                             ignored: set<string>, max: nat)
    requires DistinctEntries(es) && count <= max
    ensures VisitsOpen(EntryDirs(es, path), path, count, overCap, ignored, max,
                       WalkEntries(es, path, count, overCap, ignored, max))
    decreases es, 0
  {
    if es != [] {
      var g := WalkEntry(es[0], path, count, overCap, ignored, max);
      WalkEntryVisits(es[0], path, count, overCap, ignored, max);
      var h := WalkEntries(es[1..], path, count + |g.visited|, g.overCap, ignored, max);
      WalkEntriesVisits(es[1..], path, count + |g.visited|, g.overCap, ignored, max);
      HeadSeparated(es, path);
      JoinVisits(EntryDir(es[0], path), EntryDirs(es[1..], path), path, count, overCap, ignored, max, g, h);
      UnfoldEntries(es, path, count, overCap, ignored, max, g, h);
    }
  }

  lemma HeadSeparated(es: seq<Entry>, path: Path)
    requires es != [] && DistinctEntries(es)
    ensures Separated(EntryDir(es[0], path), EntryDirs(es[1..], path))
  {
    if es[0].SubDir? { SiblingsSeparated(es[0], es[1..], path); }
  }

  lemma JoinVisits(xs: set<Path>, ys: set<Path>, path: Path, count: nat, overCap: bool, ignored: set<string>,
                   max: nat, g: Gain, h: Gain)
    requires VisitsOpen(xs, path, count, overCap, ignored, max, g)
    requires VisitsOpen(ys, path, count + |g.visited|, g.overCap, ignored, max, h)
    requires Separated(xs, ys)
    ensures VisitsOpen(xs + ys, path, count, overCap, ignored, max, Then(g, h))
  {
    assert forall p :: p in xs ==> p !in ys;
    if h.overCap && !overCap {
      if g.overCap {
        var q :| q in xs && Open(path, q, ignored) && q !in g.visited;
        assert q in xs + ys && q !in Then(g, h).visited;
      } else {
        var q :| q in ys && Open(path, q, ignored) && q !in h.visited;
        assert q in xs + ys && q !in Then(g, h).visited;
      }
    }
  }

  /** The directories no exclusion hides, cwd itself not counted. */
  ghost function OpenDirs(tree: Dir, ignored: set<string>): set<Path> {
    set q | q in Dirs(tree, []) && q != [] && Open([], q, ignored)
  }

  /**
   The budget is exact. The walk runs over it exactly when more than `max` directories are open;
   otherwise it visits all of them, and either way it visits only open ones, `max` of them if over.
   */
  lemma BudgetIsExact(tree: Dir, ignored: set<string>, max: nat)
    requires DistinctNames(tree)
    ensures var g := Scan(tree, ignored, max);
            && Set(g.visited) <= OpenDirs(tree, ignored)
            && (g.overCap <==> |OpenDirs(tree, ignored)| > max)
            && (!g.overCap ==> Set(g.visited) == OpenDirs(tree, ignored))
            && (g.overCap ==> |g.visited| == max)
  {
    ScanIsPartition(tree, ignored, max);
    WalkDirVisits(tree, [], 0, false, ignored, max);
    CountOpen(OpenDirs(tree, ignored), Dirs(tree, []) - {[]}, ignored, max, WalkDir(tree, [], 0, false, ignored, max));
  }

  lemma CountOpen(open: set<Path>, dirs: set<Path>, ignored: set<string>, max: nat, g: Gain)
    requires VisitsOpen(dirs, [], 0, false, ignored, max, g)
    requires forall q :: q in open <==> q in dirs && Open([], q, ignored)
    requires NoDuplicates(g.visited) && Set(g.visited) <= dirs
    ensures Set(g.visited) <= open
    ensures g.overCap <==> |open| > max
    ensures !g.overCap ==> Set(g.visited) == open
    ensures g.overCap ==> |g.visited| == max
  {
    SizeOfDistinct(g.visited);
    forall q | q in Set(g.visited) ensures q in open { }
    if g.overCap {
      var q :| q in dirs && Open([], q, ignored) && q !in g.visited;
      Collections.SubsetSize(Set(g.visited) + {q}, open);
    } else {
      assert Set(g.visited) == open;
    }
  }

  // ---- The filter on later events ------------------------------------------------------------

  predicate IsSeparator(c: char) { c == '/' || c == '\\' }

  /** A relative path cut at its separators, empty pieces dropped; `cur` is the piece being read. */
  function Parts(cur: string, s: string): seq<string>
    decreases |s|
  {
    if s == "" then (if cur == "" then [] else [cur])
    else if IsSeparator(s[0]) then (if cur == "" then [] else [cur]) + Parts("", s[1..])
    else Parts(cur + [s[0]], s[1..])
  }

  ghost predicate HidesPart(parts: Path, ignored: set<string>, k: nat) {
    0 < k <= |parts| && Excluded(parts[..k], ignored)
  }

  ghost predicate PrunedParts(parts: Path, ignored: set<string>) {
    exists k: nat :: HidesPart(parts, ignored, k)
  }

  method IsPruned(relPath: string, ignored: set<string>) returns (pruned: bool)
    ensures pruned <==> PrunedParts(Parts("", relPath), ignored)
  {
    var parts := Parts("", relPath);
    var acc := "";
    for i := 0 to |parts|
      invariant acc == Rel(parts[..i])
      invariant forall k: nat :: k <= i ==> !HidesPart(parts, ignored, k)
    {
      assert parts[..i + 1][..i] == parts[..i];
      assert Rel(parts[..i + 1]) == Extend(acc, parts[i]);
      if parts[i] in DENYLIST {
        ghost var k: nat := i + 1;
        assert HidesPart(parts, ignored, k);
        return true;
      }
      acc := if acc != "" then acc + "/" + parts[i] else parts[i];
      if acc in ignored {
        ghost var k: nat := i + 1;
        assert HidesPart(parts, ignored, k);
        return true;
      }
    }
    pruned := false;
  }

  predicate Plain(name: string) { name != "" && forall i :: 0 <= i < |name| ==> !IsSeparator(name[i]) }

  lemma {:induction false} PartsOfPlain(cur: string, name: string)
    requires cur != "" || name != ""
    requires forall i :: 0 <= i < |name| ==> !IsSeparator(name[i])
    ensures Parts(cur, name) == [cur + name]
    decreases |name|
  {
    if name == "" {
      assert cur + name == cur;
    } else {
      PartsOfPlain(cur + [name[0]], name[1..]);
      assert cur + [name[0]] + name[1..] == cur + name;
    }
  }

  lemma {:induction false} PartsAppend(cur: string, s: string, name: string)
    requires Plain(name)
    ensures Parts(cur, s + "/" + name) == Parts(cur, s) + [name]
    decreases |s|
  {
    var t := s + "/" + name;
    if s == "" {
      assert t[1..] == name;
      PartsOfPlain("", name);
      assert "" + name == name;
    } else {
      assert t[0] == s[0] && t[1..] == s[1..] + "/" + name;
      if IsSeparator(s[0]) { PartsAppend("", s[1..], name); }
      else { PartsAppend(cur + [s[0]], s[1..], name); }
    }
  }

  lemma {:induction false} PartsOfRel(p: Path)
    requires forall i :: 0 <= i < |p| ==> Plain(p[i])
    ensures Parts("", Rel(p)) == p && (p != [] ==> Rel(p) != "")
    decreases |p|
  {
    if p != [] {
      var init, last := p[..|p| - 1], p[|p| - 1];
      PartsOfRel(init);
      if Rel(init) == "" {
        assert init == [];
        PartsOfPlain("", last);
        assert "" + last == last;
      } else {
        PartsAppend("", Rel(init), last);
      }
      assert p == init + [last];
    }
  }

  /**
   Scanning and filtering agree: within budget a directory is visited exactly when `isPruned`
   rejects its relative path, for names without slashes or backslashes.
   */
  lemma VisitedUnlessPruned(tree: Dir, ignored: set<string>, max: nat, p: Path)
    requires DistinctNames(tree) && !Scan(tree, ignored, max).overCap
    requires p in Dirs(tree, []) && p != [] && forall i :: 0 <= i < |p| ==> Plain(p[i])
    ensures p in Scan(tree, ignored, max).visited <==>
            !PrunedParts(Parts("", Rel(p)), ignored)
  {
    BudgetIsExact(tree, ignored, max);
    PartsOfRel(p);
    assert p in Scan(tree, ignored, max).visited <==> p in Set(Scan(tree, ignored, max).visited);
    assert Open([], p, ignored) <==> !PrunedParts(p, ignored) by {
      if Open([], p, ignored) {
      } else {
        var k :| 0 < k <= |p| && Excluded(p[..k], ignored);
        assert HidesPart(p, ignored, k);
      }
    }
  }

  // ---- The object ----------------------------------------------------------------------------

  lemma ThenAssociates(f: Gain, g: Gain, h: Gain)
    ensures Then(Then(f, g), h) == Then(f, Then(g, h))
  {
  }

  lemma {:induction false} OneMoreEntry(es: seq<Entry>, e: Entry, path: Path, count: nat, overCap: bool,
                                        ignored: set<string>, max: nat, done: Gain)
    requires done == WalkEntries(es, path, count, overCap, ignored, max)
    ensures WalkEntries(es + [e], path, count, overCap, ignored, max)
         == Then(done, WalkEntry(e, path, count + |done.visited|, done.overCap, ignored, max))
    decreases |es|
  {
    var all := es + [e];
    if es == [] {
      var g := WalkEntry(e, path, count, overCap, ignored, max);
      UnfoldEntries(all, path, count, overCap, ignored, max, g, Gain(true, [], [], [], [], g.overCap));
    } else {
      assert all[0] == es[0] && all[1..] == es[1..] + [e];
      var g := WalkEntry(es[0], path, count, overCap, ignored, max);
      var rest := WalkEntries(es[1..], path, count + |g.visited|, g.overCap, ignored, max);
      UnfoldEntries(es, path, count, overCap, ignored, max, g, rest);
      OneMoreEntry(es[1..], e, path, count + |g.visited|, g.overCap, ignored, max, rest);
      var last := WalkEntry(e, path, count + |done.visited|, done.overCap, ignored, max);
      UnfoldEntries(all, path, count, overCap, ignored, max, g, Then(rest, last));
      ThenAssociates(g, rest, last);
    }
  }

  /** The shared lists, the number of visited directories (`trail` names them) and the flag. */
  datatype Record = Record(roots: seq<Path>, shallow: seq<Path>, trail: seq<Path>, visited: nat, overCap: bool)

  function Plus(l: Record, g: Gain): Record {
    Record(l.roots + g.roots, l.shallow + g.shallow, l.trail + g.visited, l.visited + |g.visited|, g.overCap)
  }

  lemma PlusThen(l: Record, g: Gain, h: Gain)
    ensures Plus(Plus(l, g), h) == Plus(l, Then(g, h))
  {
  }

  class Scanner {
    const ignoredTop: set<string>
    const maxDirs: nat
    var recursiveRoots: seq<Path>
    var shallowDirs: seq<Path>
    var visited: nat
    var overCap: bool
    ghost var trail: seq<Path>

    constructor (ignoredTop: set<string>)
      ensures this.ignoredTop == ignoredTop && maxDirs == MAX_WATCHED_DIRS
      ensures recursiveRoots == [] && shallowDirs == [] && visited == 0 && !overCap && trail == []
    {
      this.ignoredTop, maxDirs := ignoredTop, MAX_WATCHED_DIRS;
      recursiveRoots, shallowDirs, visited, overCap, trail := [], [], 0, false, [];
    }

    ghost function Lists(): Record
      reads this
    {
      Record(recursiveRoots, shallowDirs, trail, visited, overCap)
    }

    method Walk(dir: Dir, path: Path) returns (clean: bool)
      modifies this
      ensures var g := WalkDir(dir, path, old(visited), old(overCap), ignoredTop, maxDirs);
              clean == g.clean && Lists() == Plus(old(Lists()), g)
      decreases dir, 1
    {
      if dir.Unreadable? { return true; }
      var cleanChildren;
      clean, cleanChildren := WalkAll(dir.entries, path);
      ghost var g := WalkEntries(dir.entries, path, old(visited), old(overCap), ignoredTop, maxDirs);
      assert (old(recursiveRoots) + g.roots) + g.kids == old(recursiveRoots) + (g.roots + g.kids);
      assert (old(shallowDirs) + g.shallow) + [path] == old(shallowDirs) + (g.shallow + [path]);
      if !clean {
        recursiveRoots := recursiveRoots + cleanChildren;
        shallowDirs := shallowDirs + [path];
      }
    }

    /** The loop over a directory's entries. */
    method WalkAll(es: seq<Entry>, path: Path) returns (clean: bool, cleanChildren: seq<Path>)
      modifies this
      ensures var g := WalkEntries(es, path, old(visited), old(overCap), ignoredTop, maxDirs);
              clean == g.clean && cleanChildren == g.kids && Lists() == Plus(old(Lists()), g)
      decreases es, 0
    {
      clean, cleanChildren := true, [];
      ghost var done := Gain(true, [], [], [], [], overCap);
      for i := 0 to |es|
        invariant done == WalkEntries(es[..i], path, old(visited), old(overCap), ignoredTop, maxDirs)
        invariant clean == done.clean && cleanChildren == done.kids && Lists() == Plus(old(Lists()), done)
      {
        OneMoreEntry(es[..i], es[i], path, old(visited), old(overCap), ignoredTop, maxDirs, done);
        assert es[..i + 1] == es[..i] + [es[i]];
        ghost var g := WalkEntry(es[i], path, visited, overCap, ignoredTop, maxDirs);
        PlusThen(old(Lists()), done, g);
        done := Then(done, g);
        var entryClean, kids := WalkOne(es[i], path);
        clean := clean && entryClean;
        cleanChildren := cleanChildren + kids;
      }
      assert es[..|es|] == es;
    }

    method WalkOne(e: Entry, path: Path) returns (clean: bool, kids: seq<Path>)
      modifies this
      ensures var g := WalkEntry(e, path, old(visited), old(overCap), ignoredTop, maxDirs);
              clean == g.clean && kids == g.kids && Lists() == Plus(old(Lists()), g)
      decreases e, 0
    {
      if e.File? { return true, []; }
      var child := path + [e.name];
      if Excluded(child, ignoredTop) { return false, []; }
      if overCap || visited >= maxDirs {
        overCap := true;
        return false, [];
      }
      visited := visited + 1;
      trail := trail + [child];
      clean := Walk(e.dir, child);
      kids := if clean then [child] else [];
    }

    method ScanCwd(tree: Dir)
      requires recursiveRoots == [] && shallowDirs == [] && visited == 0 && !overCap && trail == []
      modifies this
      ensures var g := Scan(tree, ignoredTop, maxDirs);
              recursiveRoots == g.roots && shallowDirs == g.shallow && trail == g.visited && overCap == g.overCap
    {
      var clean := Walk(tree, []);
      if clean { recursiveRoots := recursiveRoots + [[]]; }
    }
  }
}
