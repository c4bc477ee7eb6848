/**
  * When the scan may call itself truncated: only at one of its limits. So whatever is within
  * all of them is listed completely.
  */
module ScanLimits {
  import opened Basics
  import opened ScanModel
  import opened ScanComplete

  // ---- Reasons to be cut short ----

  ghost predicate HasFolder(fs: Files, dir: Path) {
    exists i :: 0 <= i < |fs(dir)| && fs(dir)[i].kind == Folder
  }

  function Depth(d: Directory): int {
    |d.path| - |d.root|
  }

  // Some listed directory eight levels below its root contains a folder.
  ghost predicate TooDeep(fs: Files, s: State) {
    exists i :: 0 <= i < |s.directories| && Depth(s.directories[i]) == 8 && HasFolder(fs, s.directories[i].path)
  }

  ghost predicate AtLimit(fs: Files, s: State) {
    || s.visited >= 4096 || |s.directories| >= 512 || |s.images| >= 512
    || TooDeep(fs, s)
  }

  // ---- The queue ----

  function Queued(d: Directory): Pending
    requires |d.root| <= |d.path|
  {
    Pending(d.path, d.root, |d.path| - |d.root|)
  }

  // How many directory entries the directories have, taken together.
  function Entries(fs: Files, paths: seq<Path>): nat {
    if paths == [] then 0 else Entries(fs, paths[..|paths| - 1]) + |fs(paths[|paths| - 1])|
  }

  function PathsOf(directories: seq<Directory>): seq<Path> {
    seq(|directories|, i requires 0 <= i < |directories| => directories[i].path)
  }

  // A root stands for itself; any other directory hangs below its parent.
  ghost predicate Sited(roots: set<Path>, d: Directory) {
    && d.root in roots && d.root <= d.path && Depth(d) <= 8
    && (d.parent.None? ==> d.path == d.root)
    && (d.parent.Some? ==> |d.root| < |d.path| && d.parent.value == d.path[..|d.path| - 1])
  }

  ghost predicate AllSited(roots: set<Path>, s: State) {
    && (forall i :: 0 <= i < |s.directories| ==> Sited(roots, s.directories[i]))
    && forall i :: 0 <= i < |s.images| ==>
         s.images[i].path != [] && s.images[i].directory == s.images[i].path[..|s.images[i].path| - 1]
  }

  // Nearer directories come first.
  ghost predicate Breadth(s: State) {
    forall i, j :: 0 <= i < j < |s.directories| ==> Depth(s.directories[i]) <= Depth(s.directories[j])
  }

  // The depth at which the first `k` directories end.
  function Front(s: State, k: nat): int
    requires k <= |s.directories|
  {
    if k == 0 then 0 else Depth(s.directories[k - 1])
  }

  // The directories after the first `k` wait in order; the first `k` are walked, the last of
  // them perhaps only in part.
  ghost predicate Waits(s: State, k: nat) {
    && k <= |s.directories| && |s.pending| == |s.directories| - k
    && (forall i :: 0 <= i < |s.directories| ==> |s.directories[i].root| <= |s.directories[i].path|)
    && (forall i :: 0 <= i < |s.pending| ==> s.pending[i] == Queued(s.directories[k + i]))
    && (s.position.Some? ==> k > 0 && s.current == Queued(s.directories[k - 1]))
    && (forall i :: 0 <= i < |s.directories| ==> Depth(s.directories[i]) <= Front(s, k) + 1)
  }

  ghost predicate Counted(fs: Files, s: State, k: nat) {
    && k <= |s.directories|
    && (s.position.None? ==> s.visited == Entries(fs, PathsOf(s.directories)[..k]))
    && (s.position.Some? ==>
          && k > 0 && s.position.value <= |fs(s.directories[k - 1].path)|
          && s.visited == Entries(fs, PathsOf(s.directories)[..k - 1]) + s.position.value)
  }

  ghost predicate Walk(fs: Files, roots: set<Path>, s: State, k: nat) {
    && AllSited(roots, s) && Breadth(s) && Waits(s, k) && Counted(fs, s, k)
    && (s.truncated ==> AtLimit(fs, s))
  }

  // ---- Starting ----

  lemma StartWalks(fs: Files, candidates: seq<Option<Path>>, last: Pending)
    ensures Walk(fs, RootsOf(candidates[..Min(|candidates|, 8)]), Start(candidates, last), 0)
  {
    var some := candidates[..Min(|candidates|, 8)];
    var s := FRESH.(current := last);
    assert Starting(s, {});
    AddRootsStarts(s, {}, some);
    assert {} + RootsOf(some) == RootsOf(some);
    StartingWalks(fs, RootsOf(some), AddRoots(s, some));
  }

  lemma StartingWalks(fs: Files, roots: set<Path>, s: State)
    requires Starting(s, roots)
    ensures Walk(fs, roots, s, 0)
  {
    hide HasDirectory;
    assert forall i :: 0 <= i < |s.directories| ==> Sited(roots, s.directories[i]);
  }

  // ---- One iteration ----

  lemma BeginWalks(fs: Files, roots: set<Path>, s: State, k: nat)
    requires Walk(fs, roots, s, k) && s.position.None? && s.pending != []
    ensures
      && BeginNext(s) == s.(current := s.pending[0], pending := s.pending[1..], position := Some(0))
      && Walk(fs, roots, BeginNext(s), k + 1)
  {
    assert s.pending[0] == Queued(s.directories[k]) && Sited(roots, s.directories[k]);
    assert s.pending[0].depth <= MAX_DEPTH;
    var t := s.(current := s.pending[0], pending := s.pending[1..], position := Some(0));
    BegunWaits(roots, s, t, k);
    hide Waits, AllSited, Entries;
  }

  lemma BegunWaits(roots: set<Path>, s: State, t: State, k: nat)
    requires Waits(s, k) && AllSited(roots, s) && Breadth(s) && s.position.None? && s.pending != []
    requires t == s.(current := s.pending[0], pending := s.pending[1..], position := Some(0))
    ensures Waits(t, k + 1)
  {
    assert Sited(roots, s.directories[k]);
    assert Front(s, k) <= Front(s, k + 1);
  }

  lemma ExhaustedWalks(fs: Files, roots: set<Path>, s: State, k: nat)
    requires Walk(fs, roots, s, k) && s.position.Some? && s.position.value >= |fs(s.current.path)|
    ensures Walk(fs, roots, s.(position := None), k)
  {
    var paths := PathsOf(s.directories);
    assert paths[..k][..k - 1] == paths[..k - 1];
    hide AllSited;
  }

  // One entry further: what changes besides is told by `t`.
  ghost predicate Moves(s: State, t: State) {
    && s.position.Some? && t.position == Some(s.position.value + 1) && t.visited == s.visited + 1
    && t.current == s.current
  }

  lemma MovedCounted(fs: Files, s: State, t: State, k: nat)
    requires Counted(fs, s, k) && Waits(s, k) && Moves(s, t) && s.position.value < |fs(s.current.path)|
    requires s.directories <= t.directories
    ensures Counted(fs, t, k)
  {
    assert PathsOf(t.directories)[..k - 1] == PathsOf(s.directories)[..k - 1];
  }

  lemma MovedWaits(s: State, t: State, k: nat)
    requires Waits(s, k) && Moves(s, t) && t.directories == s.directories && t.pending == s.pending
    ensures Waits(t, k)
  {
  }

  lemma SameSited(roots: set<Path>, s: State, t: State)
    requires AllSited(roots, s) && t.directories == s.directories && t.images == s.images
    ensures AllSited(roots, t)
  {
  }

  lemma StillAtLimit(fs: Files, s: State, t: State)
    requires AtLimit(fs, s) && s.visited <= t.visited && s.directories <= t.directories && |s.images| <= |t.images|
    ensures AtLimit(fs, t)
  {
    if TooDeep(fs, s) {
      var i :| 0 <= i < |s.directories| && Depth(s.directories[i]) == 8 && HasFolder(fs, s.directories[i].path);
      assert t.directories[i] == s.directories[i];
    }
  }

  // A folder is refused only when the table is full or its directory is at the limit of depth.
  lemma RefusedFolder(fs: Files, roots: set<Path>, s: State, t: State, k: nat)
    requires Waits(s, k) && AllSited(roots, s) && s.position.Some? && t.directories == s.directories
    requires s.position.value < |fs(s.current.path)| && fs(s.current.path)[s.position.value].kind == Folder
    requires |s.directories| >= MAX_DIRECTORIES || s.current.depth >= MAX_DEPTH
    ensures AtLimit(fs, t)
  {
    var d := s.directories[k - 1];
    assert Sited(roots, d) && t.directories[k - 1] == d;
    assert HasFolder(fs, s.current.path);
    if s.current.depth >= MAX_DEPTH {
      assert Depth(d) == 8;
    }
  }

  // A folder that is taken in.
  ghost predicate Adds(s: State, t: State, name: Name) {
    var path := s.current.path + [name];
    && t.directories == s.directories + [Directory(path, Some(s.current.path), s.current.root)]
    && t.pending == s.pending + [Pending(path, s.current.root, s.current.depth + 1)]
    && t.images == s.images && t.truncated == s.truncated
  }

  lemma AddedSited(roots: set<Path>, s: State, t: State, k: nat, name: Name)
    requires Waits(s, k) && AllSited(roots, s) && s.position.Some? && Adds(s, t, name) && s.current.depth < MAX_DEPTH
    ensures AllSited(roots, t)
  {
    var path := s.current.path + [name];
    assert Sited(roots, s.directories[k - 1]);
    assert path[..|path| - 1] == s.current.path;
    assert s.current.root <= path by {
      assert s.current.root == s.current.path[..|s.current.root|];
    }
    assert Sited(roots, Directory(path, Some(s.current.path), s.current.root));
  }

  lemma AddedWaits(s: State, t: State, k: nat, name: Name)
    requires Waits(s, k) && Breadth(s) && Moves(s, t) && Adds(s, t, name)
    ensures Waits(t, k) && Breadth(t)
  {
    var d := t.directories[|s.directories|];
    assert Depth(d) == Depth(s.directories[k - 1]) + 1;
    assert Front(t, k) == Front(s, k);
    assert Queued(d) == t.pending[|s.pending|];
    assert forall i :: 0 <= i < |s.directories| ==> t.directories[i] == s.directories[i];
  }

  lemma FolderWalks(fs: Files, roots: set<Path>, s: State, t: State, k: nat, name: Name)
    requires Walk(fs, roots, s, k) && s.position.Some? && s.position.value < |fs(s.current.path)|
    requires fs(s.current.path)[s.position.value] == Entry(name, Folder) && t == Visit(s, Entry(name, Folder))
    ensures Walk(fs, roots, t, k)
  {
    hide Counted, Waits, AllSited, Breadth, AtLimit;
    MovedCounted(fs, s, t, k);
    if |s.directories| >= MAX_DIRECTORIES || s.current.depth >= MAX_DEPTH {
      RefusedFolder(fs, roots, s, t, k);
      MovedWaits(s, t, k);
      SameSited(roots, s, t);
      SameBreadth(s, t);
    } else if exists d :: d in s.directories && d.path == s.current.path + [name] {
      KeptWalks(fs, roots, s, t, k);
    } else {
      AddedSited(roots, s, t, k, name);
      AddedWaits(s, t, k, name);
      if s.truncated {
        StillAtLimit(fs, s, t);
      }
    }
  }

  lemma SameBreadth(s: State, t: State)
    requires Breadth(s) && t.directories == s.directories
    ensures Breadth(t)
  {
  }

  lemma KeptWalks(fs: Files, roots: set<Path>, s: State, t: State, k: nat)
    requires Walk(fs, roots, s, k) && Moves(s, t) && s.position.value < |fs(s.current.path)|
    requires t.directories == s.directories && t.pending == s.pending && t.images == s.images
    requires t.truncated ==> s.truncated || |t.images| >= 512
    ensures Walk(fs, roots, t, k)
  {
    MovedCounted(fs, s, t, k);
    MovedWaits(s, t, k);
    SameSited(roots, s, t);
    if s.truncated {
      StillAtLimit(fs, s, t);
    }
    hide Counted, Waits, AllSited;
  }

  lemma PictureWalks(fs: Files, roots: set<Path>, s: State, t: State, k: nat, name: Name)
    requires Walk(fs, roots, s, k) && Moves(s, t) && s.position.value < |fs(s.current.path)|
    requires t.directories == s.directories && t.pending == s.pending && t.truncated == s.truncated
    requires t.images == s.images + [Image(s.current.path + [name], s.current.path)]
    ensures Walk(fs, roots, t, k)
  {
    MovedCounted(fs, s, t, k);
    MovedWaits(s, t, k);
    var path := s.current.path + [name];
    assert path[..|path| - 1] == s.current.path;
    if s.truncated {
      StillAtLimit(fs, s, t);
    }
    hide Counted, Waits, Sited, AtLimit;
  }

  lemma VisitWalks(fs: Files, roots: set<Path>, s: State, k: nat)
    requires Walk(fs, roots, s, k) && s.position.Some? && s.position.value < |fs(s.current.path)|
    ensures Walk(fs, roots, Visit(s, fs(s.current.path)[s.position.value]), k)
  {
    hide Walk;
    var entry := fs(s.current.path)[s.position.value];
    var t := Visit(s, entry);
    match entry.kind
    case Folder => FolderWalks(fs, roots, s, t, k, entry.name);
    case Skipped => KeptWalks(fs, roots, s, t, k);
    case Plain => KeptWalks(fs, roots, s, t, k);
    case Picture =>
      if |s.images| >= MAX_IMAGES {
        KeptWalks(fs, roots, s, t, k);
      } else {
        PictureWalks(fs, roots, s, t, k, entry.name);
      }
  }

  lemma IterateWalks(fs: Files, roots: set<Path>, s: State, k: nat) returns (next: nat)
    requires Walk(fs, roots, s, k) && s.running
    ensures var t := Iterate(fs, s, false); t.running ==> Walk(fs, roots, t, next)
  {
    next := k;
    hide Walk;
    if s.visited < MAX_ENTRIES {
      var begun := Begun(s);
      if s.position.None? && s.pending != [] {
        BeginWalks(fs, roots, s, k);
        next := k + 1;
      }
      if begun.position.Some? {
        if begun.position.value >= |fs(begun.current.path)| {
          ExhaustedWalks(fs, roots, begun, next);
        } else {
          VisitWalks(fs, roots, begun, next);
        }
      }
    }
  }

  // ---- What a finished scan is ----

  // Where everything lies, nearer directories first; cut short only at a limit, and always
  // at that of entries; no more entries visited than the directories have.
  ghost predicate Walked(fs: Files, roots: set<Path>, s: State) {
    && AllSited(roots, s) && Breadth(s)
    && (s.truncated ==> AtLimit(fs, s)) && (s.visited >= 4096 ==> s.truncated)
    && exists k :: 0 <= k <= |s.directories| && s.visited <= Entries(fs, PathsOf(s.directories)[..k])
  }

  lemma VisitedWithin(fs: Files, s: State, k: nat)
    requires Counted(fs, s, k)
    ensures s.visited <= Entries(fs, PathsOf(s.directories)[..k])
  {
    var paths := PathsOf(s.directories);
    if s.position.Some? {
      assert paths[..k][..k - 1] == paths[..k - 1];
    }
  }

  lemma EndsAsItIs(fs: Files, roots: set<Path>, s: State, k: nat)
    requires Walk(fs, roots, s, k) && s.running && !Iterate(fs, s, false).running
    ensures
      var t := Iterate(fs, s, false);
      t == Finish(s, t.truncated).(current := t.current) && (t.truncated ==> s.truncated || s.visited >= 4096)
      && (s.visited >= 4096 ==> t.truncated)
  {
    if s.visited < MAX_ENTRIES && s.position.None? && s.pending != [] {
      BeginWalks(fs, roots, s, k);
    }
    hide Walk;
  }

  lemma EndedWalked(fs: Files, roots: set<Path>, s: State, k: nat)
    requires Walk(fs, roots, s, k) && s.running && !Iterate(fs, s, false).running
    ensures Walked(fs, roots, Iterate(fs, s, false))
  {
    var t := Iterate(fs, s, false);
    EndsAsItIs(fs, roots, s, k);
    VisitedWithin(fs, s, k);
    hide AllSited, Breadth, Entries, Waits, Counted, Iterate, AtLimit;
    SameSited(roots, s, t);
    SameBreadth(s, t);
    if s.truncated {
      StillAtLimit(fs, s, t);
    }
    if s.visited >= 4096 {
      FullIsLimit(fs, t);
    }
  }

  lemma FullIsLimit(fs: Files, s: State)
    requires s.visited >= 4096
    ensures AtLimit(fs, s)
  {
  }

  lemma {:induction false} DrainWalked(fs: Files, roots: set<Path>, s: State, k: nat)
    requires Walk(fs, roots, s, k) && s.running
    ensures Walked(fs, roots, Drain(fs, s))
    decreases MAX_ENTRIES + 1 - Min(s.visited, MAX_ENTRIES + 1), Work(s)
  {
    hide Walk, Iterate, Walked;
    IterateShrinks(fs, s, false);
    var t := Iterate(fs, s, false);
    if t.running {
      var next := IterateWalks(fs, roots, s, k);
      DrainWalked(fs, roots, t, next);
    } else {
      EndedWalked(fs, roots, s, k);
    }
  }

  // The whole scan, over every file tree: it is cut short only at one of its limits.
  lemma TruncatedOnlyAtLimit(fs: Files, candidates: seq<Option<Path>>, last: Pending)
    ensures Walked(fs, RootsOf(candidates[..Min(|candidates|, 8)]), Drain(fs, Start(candidates, last)))
  {
    var roots := RootsOf(candidates[..Min(|candidates|, 8)]);
    StartWalks(fs, candidates, last);
    assert Start(candidates, last).running by { StartRuns(candidates, last); }
    hide Start, Walk, Walked, Drain;
    DrainWalked(fs, roots, Start(candidates, last), 0);
  }

  lemma StartRuns(candidates: seq<Option<Path>>, last: Pending)
    ensures Start(candidates, last).running
  {
    var s := FRESH.(current := last);
    assert Starting(s, {});
    AddRootsStarts(s, {}, candidates[..Min(|candidates|, 8)]);
  }

  // ---- Within the limits ----

  ghost predicate Distinct(paths: seq<Path>) {
    forall i, j :: 0 <= i < j < |paths| ==> paths[i] != paths[j]
  }

  lemma {:induction false} EntriesTogether(fs: Files, a: seq<Path>, b: seq<Path>)
    ensures Entries(fs, a + b) == Entries(fs, a) + Entries(fs, b)
    decreases |b|
  {
    if b == [] {
      assert a + b == a;
    } else {
      assert (a + b)[..|a + b| - 1] == a + b[..|b| - 1];
      EntriesTogether(fs, a, b[..|b| - 1]);
    }
  }

  // Different paths among `b` are no more, and have no more entries, than those.
  lemma {:induction false} AmongAreFewer(fs: Files, a: seq<Path>, b: seq<Path>)
    requires Distinct(a) && forall p :: p in a ==> p in b
    ensures |a| <= |b| && Entries(fs, a) <= Entries(fs, b)
    decreases |a|
  {
    if a != [] {
      var rest, p := a[..|a| - 1], a[|a| - 1];
      assert p in b;
      var i :| 0 <= i < |b| && b[i] == p;
      assert b == b[..i] + ([p] + b[i + 1..]);
      EntriesTogether(fs, b[..i], [p] + b[i + 1..]);
      EntriesTogether(fs, [p], b[i + 1..]);
      EntriesTogether(fs, b[..i], b[i + 1..]);
      assert [p][..0] == [];
      assert Entries(fs, [p]) == |fs(p)|;
      assert forall q :: q in rest ==> q in b[..i] + b[i + 1..] by {
        assert forall q :: q in rest ==> q in a && q != p;
      }
      AmongAreFewer(fs, rest, b[..i] + b[i + 1..]);
    }
  }

  // Fewer than the allowed directories, pictures and entries, and no folder in a directory
  // eight levels below a root.
  ghost predicate WithinLimits(fs: Files, roots: set<Path>, folders: seq<Path>, pictures: seq<Path>) {
    && (forall p :: Reachable(fs, roots, p) ==> p in folders)
    && (forall p :: ReachablePicture(fs, roots, p) ==> p in pictures)
    && |folders| < 512 && |pictures| < 512 && Entries(fs, folders) < 4096
    && forall r, p :: r in roots && Reachable(fs, roots, p) && r <= p && |p| - |r| == 8 ==> !HasFolder(fs, p)
  }

  lemma ListedFew(fs: Files, roots: set<Path>, s: State, folders: seq<Path>, pictures: seq<Path>, k: nat)
    requires Limited(s) && Exact(fs, roots, s) && WithinLimits(fs, roots, folders, pictures) && k <= |s.directories|
    ensures |s.directories| < 512 && |s.images| < 512 && Entries(fs, PathsOf(s.directories)[..k]) < 4096
  {
    hide Reachable, ReachablePicture, Entries;
    var paths := PathsOf(s.directories);
    var shown := seq(|s.images|, i requires 0 <= i < |s.images| => s.images[i].path);
    assert forall i :: 0 <= i < |paths| ==> HasDirectory(s, paths[i]);
    assert forall i :: 0 <= i < |shown| ==> HasImage(s, shown[i]);
    AmongAreFewer(fs, paths, folders);
    AmongAreFewer(fs, paths[..k], folders);
    AmongAreFewer(fs, shown, pictures);
  }

  lemma NotTooDeep(fs: Files, roots: set<Path>, s: State, folders: seq<Path>, pictures: seq<Path>)
    requires Exact(fs, roots, s) && AllSited(roots, s) && WithinLimits(fs, roots, folders, pictures)
    ensures !TooDeep(fs, s)
  {
    hide Reachable, ReachablePicture, Entries, HasFolder;
    forall i | 0 <= i < |s.directories| && Depth(s.directories[i]) == 8
      ensures !HasFolder(fs, s.directories[i].path)
    {
      assert HasDirectory(s, s.directories[i].path) && Sited(roots, s.directories[i]);
    }
  }

  // A tree within all limits is always listed completely.
  lemma WithinLimitsIsComplete(fs: Files, candidates: seq<Option<Path>>, last: Pending, folders: seq<Path>,
                               pictures: seq<Path>)
    requires Sound(fs)
    requires WithinLimits(fs, RootsOf(candidates[..Min(|candidates|, 8)]), folders, pictures)
    ensures
      var roots, t := RootsOf(candidates[..Min(|candidates|, 8)]), Drain(fs, Start(candidates, last));
      && !t.truncated
      && (forall p :: Reachable(fs, roots, p) <==> HasDirectory(t, p))
      && (forall p :: ReachablePicture(fs, roots, p) <==> HasImage(t, p))
  {
    var roots, t := RootsOf(candidates[..Min(|candidates|, 8)]), Drain(fs, Start(candidates, last));
    hide Drain, Start, Reachable, ReachablePicture, Limited, WithinLimits, AllSited, Breadth, TooDeep, Entries;
    ScanExact(fs, candidates, last);
    TruncatedOnlyAtLimit(fs, candidates, last);
    var k :| 0 <= k <= |t.directories| && t.visited <= Entries(fs, PathsOf(t.directories)[..k]);
    ListedFew(fs, roots, t, folders, pictures, k);
    NotTooDeep(fs, roots, t, folders, pictures);
  }
}
