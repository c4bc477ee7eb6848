/**
  * What the scan finds: exactly what can be reached, once each, unless it says it was cut
  * short; and the same whatever the slices.
  */
module ScanComplete {
  import opened Basics
  import opened ScanModel

  // No directory lists a name twice.
  ghost predicate Sound(fs: Files) {
    forall p, i, j :: 0 <= i < j < |fs(p)| ==> fs(p)[i].name != fs(p)[j].name
  }

  ghost predicate Lists(fs: Files, dir: Path, name: Name, kind: Kind) {
    exists i :: 0 <= i < |fs(dir)| && fs(dir)[i] == Entry(name, kind)
  }

  // An accepted root, or a folder listed by a reachable directory.
  ghost predicate Reachable(fs: Files, roots: set<Path>, path: Path)
    decreases |path|
  {
    || path in roots
    || (path != [] && Lists(fs, path[..|path| - 1], path[|path| - 1], Folder)
        && Reachable(fs, roots, path[..|path| - 1]))
  }

  ghost predicate ReachablePicture(fs: Files, roots: set<Path>, path: Path) {
    && path != [] && Lists(fs, path[..|path| - 1], path[|path| - 1], Picture)
    && Reachable(fs, roots, path[..|path| - 1])
  }

  // ---- The invariant ----

  ghost predicate HasDirectory(s: State, path: Path) {
    exists i :: 0 <= i < |s.directories| && s.directories[i].path == path
  }

  ghost predicate HasImage(s: State, path: Path) {
    exists i :: 0 <= i < |s.images| && s.images[i].path == path
  }

  ghost predicate IsPending(s: State, path: Path) {
    exists i :: 0 <= i < |s.pending| && s.pending[i].path == path
  }

  ghost predicate Covered(fs: Files, s: State, dir: Path, count: nat) {
    forall i :: 0 <= i < count && i < |fs(dir)| ==>
      && (fs(dir)[i].kind == Folder ==> HasDirectory(s, dir + [fs(dir)[i].name]))
      && (fs(dir)[i].kind == Picture ==> HasImage(s, dir + [fs(dir)[i].name]))
  }

  ghost predicate Bounds(s: State) {
    && |s.directories| <= MAX_DIRECTORIES && |s.images| <= MAX_IMAGES && s.visited <= MAX_ENTRIES
    && |s.watched| == |s.directories|
    && forall i :: 0 <= i < |s.watched| ==> s.watched[i] == s.directories[i].path
  }

  // Each directory once, below its root by at most the depth limit, after its parent.
  ghost predicate DirectoriesInv(fs: Files, roots: set<Path>, s: State) {
    && (forall i, j :: 0 <= i < j < |s.directories| ==> s.directories[i].path != s.directories[j].path)
    && (forall i :: 0 <= i < |s.directories| ==>
          && Reachable(fs, roots, s.directories[i].path)
          && s.directories[i].root <= s.directories[i].path
          && |s.directories[i].path| - |s.directories[i].root| <= MAX_DEPTH
          && (s.directories[i].parent.Some? ==>
                exists j :: 0 <= j < i && s.directories[j].path == s.directories[i].parent.value))
  }

  ghost predicate Placed(s: State, p: Pending) {
    && HasDirectory(s, p.path) && p.root <= p.path && p.depth == |p.path| - |p.root| && p.depth <= MAX_DEPTH
  }

  ghost predicate PendingInv(s: State) {
    && (forall i, j :: 0 <= i < j < |s.pending| ==> s.pending[i].path != s.pending[j].path)
    && (forall i :: 0 <= i < |s.pending| ==> Placed(s, s.pending[i]))
    && (s.position.Some? ==> Placed(s, s.current) && !IsPending(s, s.current.path))
  }

  // Each image once, listed by a directory that was walked as far as it.
  ghost predicate ImagesInv(fs: Files, s: State) {
    && (forall i, j :: 0 <= i < j < |s.images| ==> s.images[i].path != s.images[j].path)
    && (forall i :: 0 <= i < |s.images| ==> ImageInv(fs, s, s.images[i]))
  }

  ghost predicate ImageInv(fs: Files, s: State, image: Image) {
    && HasDirectory(s, image.directory) && !IsPending(s, image.directory)
    && exists k :: 0 <= k < |fs(image.directory)| && fs(image.directory)[k].kind == Picture
                   && image.path == image.directory + [fs(image.directory)[k].name]
                   && (s.position.Some? && s.current.path == image.directory ==> k < s.position.value)
  }

  // What was walked was taken in.
  ghost predicate CoverInv(fs: Files, s: State) {
    && (s.position.Some? ==> s.position.value <= |fs(s.current.path)|)
    && (!s.truncated ==>
          forall i :: 0 <= i < |s.directories| ==>
            var dir := s.directories[i].path;
            || IsPending(s, dir)
            || (if s.position.Some? && s.current.path == dir then Covered(fs, s, dir, s.position.value)
                else Covered(fs, s, dir, |fs(dir)|)))
  }

  ghost predicate Inv(fs: Files, roots: set<Path>, s: State) {
    && Bounds(s) && DirectoriesInv(fs, roots, s) && PendingInv(s) && ImagesInv(fs, s)
    && CoverInv(fs, s)
    && forall r :: r in roots ==> HasDirectory(s, r)
  }

  // ---- Starting ----

  ghost function RootsOf(candidates: seq<Option<Path>>): set<Path> {
    set c | c in candidates && c.Some? :: c.value
  }

  ghost predicate Starting(s: State, roots: set<Path>) {
    && s.pending == seq(|s.directories|, i requires 0 <= i < |s.directories| =>
                                          Pending(s.directories[i].path, s.directories[i].path, 0))
    && s.images == [] && s.visited == 0 && !s.truncated && s.running && s.position.None?
    && |s.watched| == |s.directories|
    && (forall i :: 0 <= i < |s.directories| ==>
          && s.directories[i] == Directory(s.directories[i].path, None, s.directories[i].path)
          && s.watched[i] == s.directories[i].path && s.directories[i].path in roots)
    && (forall i, j :: 0 <= i < j < |s.directories| ==> s.directories[i].path != s.directories[j].path)
    && (forall r :: r in roots ==> HasDirectory(s, r))
  }

  lemma AddRootStarts(s: State, roots: set<Path>, candidate: Option<Path>)
    requires Starting(s, roots)
    ensures Starting(AddRoot(s, candidate), roots + if candidate.Some? then {candidate.value} else {})
    ensures |AddRoot(s, candidate).directories| <= |s.directories| + 1
  {
    if candidate.Some? {
      HasDirectoryIs(s, candidate.value);
      if !HasDirectory(s, candidate.value) {
        hide AddRoot;
        AddRootIs(s, candidate.value);
        NewRootStarts(s, AddRoot(s, candidate), roots, candidate.value);
      } else {
        KnownRootStarts(s, roots, candidate.value);
      }
    } else {
      assert roots + {} == roots;
    }
  }

  lemma KnownRootStarts(s: State, roots: set<Path>, root: Path)
    requires Starting(s, roots) && HasDirectory(s, root)
    ensures Starting(s, roots + {root})
  {
  }

  lemma AddRootIs(s: State, root: Path)
    requires !HasDirectory(s, root)
    ensures AddRoot(s, Some(root))
            == s.(directories := s.directories + [Directory(root, None, root)], watched := s.watched + [root],
                  pending := s.pending + [Pending(root, root, 0)])
  {
    HasDirectoryIs(s, root);
  }

  lemma NewRootStarts(s: State, t: State, roots: set<Path>, root: Path)
    requires Starting(s, roots) && !HasDirectory(s, root)
    requires t == s.(directories := s.directories + [Directory(root, None, root)], watched := s.watched + [root],
                     pending := s.pending + [Pending(root, root, 0)])
    ensures Starting(t, roots + {root})
  {
    assert forall i :: 0 <= i < |s.directories| ==> s.directories[i].path != root;
    NewRootHas(s, t, roots, root);
    hide HasDirectory;
  }

  lemma NewRootHas(s: State, t: State, roots: set<Path>, root: Path)
    requires t.directories == s.directories + [Directory(root, None, root)]
    requires forall r :: r in roots ==> HasDirectory(s, r)
    ensures forall r :: r in roots + {root} ==> HasDirectory(t, r)
  {
    assert t.directories[|s.directories|].path == root;
    forall r | r in roots
      ensures HasDirectory(t, r)
    {
      var i :| 0 <= i < |s.directories| && s.directories[i].path == r;
      assert t.directories[i].path == r;
    }
  }

  lemma {:induction false} AddRootsStarts(s: State, roots: set<Path>, candidates: seq<Option<Path>>)
    requires Starting(s, roots) && |s.directories| + |candidates| <= MAX_ROOTS
    ensures Starting(AddRoots(s, candidates), roots + RootsOf(candidates))
    ensures |AddRoots(s, candidates).directories| <= MAX_ROOTS
    decreases |candidates|
  {
    if candidates == [] {
      assert roots + RootsOf(candidates) == roots;
    } else {
      hide Starting, AddRoot;
      var c := candidates[0];
      AddRootStarts(s, roots, c);
      var more := roots + if c.Some? then {c.value} else {};
      AddRootsStarts(AddRoot(s, c), more, candidates[1..]);
      assert candidates == [c] + candidates[1..];
      assert more + RootsOf(candidates[1..]) == roots + RootsOf(candidates);
    }
  }

  lemma StartInv(fs: Files, candidates: seq<Option<Path>>, last: Pending)
    ensures var roots := RootsOf(candidates[..Min(|candidates|, MAX_ROOTS)]);
            Inv(fs, roots, Start(candidates, last)) && Start(candidates, last).running
  {
    var accepted := candidates[..Min(|candidates|, MAX_ROOTS)];
    var roots := RootsOf(accepted);
    assert Starting(FRESH.(current := last), {});
    AddRootsStarts(FRESH.(current := last), {}, accepted);
    assert {} + roots == roots;
    StartingInv(fs, roots, Start(candidates, last));
  }

  lemma StartingInv(fs: Files, roots: set<Path>, s: State)
    requires Starting(s, roots) && |s.directories| <= MAX_ROOTS
    ensures Inv(fs, roots, s)
  {
    forall i | 0 <= i < |s.directories|
      ensures IsPending(s, s.directories[i].path) && Reachable(fs, roots, s.directories[i].path)
    {
      assert s.pending[i].path == s.directories[i].path;
    }
    forall i | 0 <= i < |s.pending|
      ensures Placed(s, s.pending[i])
    {
      assert s.directories[i].path == s.pending[i].path;
    }
  }

  // ---- Opening the next directory ----

  lemma BeginIs(s: State)
    requires s.pending != [] && s.pending[0].depth <= MAX_DEPTH
    ensures BeginNext(s) == s.(current := s.pending[0], pending := s.pending[1..], position := Some(0))
  {
  }

  lemma BeginPending(s: State, t: State)
    requires PendingInv(s) && s.pending != []
    requires t == s.(current := s.pending[0], pending := s.pending[1..], position := Some(0))
    ensures PendingInv(t)
  {
    PendingAfter(s, t);
    forall p | Placed(s, p)
      ensures Placed(t, p)
    {
      assert HasDirectory(t, p.path);
    }
  }

  lemma BeginImages(fs: Files, s: State, t: State)
    requires ImagesInv(fs, s) && PendingInv(s) && s.position.None? && s.pending != []
    requires t == s.(current := s.pending[0], pending := s.pending[1..], position := Some(0))
    ensures ImagesInv(fs, t)
  {
    PendingAfter(s, t);
    forall i | 0 <= i < |s.images|
      ensures ImageInv(fs, t, s.images[i])
    {
      assert ImageInv(fs, s, s.images[i]);
      assert IsPending(s, s.pending[0].path);
      assert HasDirectory(t, s.images[i].directory);
    }
  }

  lemma BeginCover(fs: Files, s: State, t: State)
    requires CoverInv(fs, s) && PendingInv(s) && s.position.None? && s.pending != []
    requires t == s.(current := s.pending[0], pending := s.pending[1..], position := Some(0))
    ensures CoverInv(fs, t)
  {
    PendingAfter(s, t);
    if !s.truncated {
      forall i | 0 <= i < |s.directories| && !IsPending(t, s.directories[i].path)
        ensures var dir := s.directories[i].path;
                Covered(fs, t, dir, if t.current.path == dir then 0 else |fs(dir)|)
      {
        var dir := s.directories[i].path;
        if dir != s.pending[0].path {
          CoveredGrows(fs, s, t, dir, |fs(dir)|);
        }
      }
    }
  }

  ghost predicate Grows(s: State, t: State) {
    && |s.directories| <= |t.directories| && s.directories == t.directories[..|s.directories|]
    && |s.images| <= |t.images| && s.images == t.images[..|s.images|]
  }

  lemma GrowsHas(s: State, t: State)
    requires Grows(s, t)
    ensures forall p :: HasDirectory(s, p) ==> HasDirectory(t, p)
    ensures forall p :: HasImage(s, p) ==> HasImage(t, p)
  {
    forall p | HasDirectory(s, p)
      ensures HasDirectory(t, p)
    {
      var i :| 0 <= i < |s.directories| && s.directories[i].path == p;
      assert t.directories[i].path == p;
    }
    forall p | HasImage(s, p)
      ensures HasImage(t, p)
    {
      var i :| 0 <= i < |s.images| && s.images[i].path == p;
      assert t.images[i].path == p;
    }
  }

  lemma CoveredGrows(fs: Files, s: State, t: State, dir: Path, count: nat)
    requires Grows(s, t) && Covered(fs, s, dir, count)
    ensures Covered(fs, t, dir, count)
  {
    GrowsHas(s, t);
  }

  lemma BeginKeeps(fs: Files, roots: set<Path>, s: State)
    requires Inv(fs, roots, s) && s.position.None? && s.pending != []
    ensures Inv(fs, roots, BeginNext(s)) && BeginNext(s).position == Some(0)
  {
    assert Placed(s, s.pending[0]);
    BeginIs(s);
    var t := BeginNext(s);
    BeginPending(s, t);
    BeginImages(fs, s, t);
    BeginCover(fs, s, t);
    GrowsHas(s, t);
    hide PendingInv, ImagesInv, CoverInv, Reachable, BeginNext;
  }

  lemma PendingAfter(s: State, t: State)
    requires s.pending != [] && t.pending == s.pending[1..]
    requires forall i, j :: 0 <= i < j < |s.pending| ==> s.pending[i].path != s.pending[j].path
    ensures forall p :: IsPending(t, p) <==> IsPending(s, p) && p != s.pending[0].path
  {
    forall p
      ensures IsPending(t, p) <==> IsPending(s, p) && p != s.pending[0].path
    {
      if IsPending(s, p) && p != s.pending[0].path {
        var i :| 0 <= i < |s.pending| && s.pending[i].path == p;
        assert t.pending[i - 1].path == p;
      }
      if IsPending(t, p) {
        var i :| 0 <= i < |t.pending| && t.pending[i].path == p;
        assert s.pending[i + 1].path == p;
      }
    }
  }

  // ---- Leaving an exhausted directory ----

  lemma ExhaustedKeeps(fs: Files, roots: set<Path>, s: State)
    requires Inv(fs, roots, s) && s.position.Some? && s.position.value >= |fs(s.current.path)|
    ensures Inv(fs, roots, s.(position := None))
  {
    hide Reachable;
    var t := s.(position := None);
    GrowsHas(s, t);
    assert forall p :: IsPending(t, p) <==> IsPending(s, p);
    forall i | 0 <= i < |s.images|
      ensures ImageInv(fs, t, s.images[i])
    {
      assert ImageInv(fs, s, s.images[i]);
    }
    forall i | 0 <= i < |s.pending|
      ensures Placed(t, s.pending[i])
    {
      assert Placed(s, s.pending[i]);
    }
    forall dir, count | Covered(fs, s, dir, count)
      ensures Covered(fs, t, dir, count)
    {
      CoveredGrows(fs, s, t, dir, count);
    }
  }

  // ---- Taking in one entry ----

  // s with the position moved past the entry, and perhaps more truncation.
  ghost predicate Moved(s: State, t: State) {
    && s.position.Some? && t.position == Some(s.position.value + 1) && t.current == s.current
    && t.pending == s.pending && t.directories == s.directories && t.images == s.images && t.watched == s.watched
    && (s.truncated ==> t.truncated)
  }

  // The entry at the position needs nothing more, unless the scan is truncated.
  ghost predicate Settled(fs: Files, s: State, t: State, entry: Entry) {
    !t.truncated ==>
      && (entry.kind == Folder ==> HasDirectory(t, s.current.path + [entry.name]))
      && (entry.kind == Picture ==> HasImage(t, s.current.path + [entry.name]))
  }

  lemma CoverStep(fs: Files, s: State, t: State, entry: Entry)
    requires CoverInv(fs, s) && Grows(s, t) && s.position.Some? && s.position.value < |fs(s.current.path)|
    requires entry == fs(s.current.path)[s.position.value] && Settled(fs, s, t, entry)
    requires t.position == Some(s.position.value + 1) && t.current == s.current && (s.truncated ==> t.truncated)
    requires forall p :: IsPending(s, p) ==> IsPending(t, p)
    requires forall i :: |s.directories| <= i < |t.directories| ==> IsPending(t, t.directories[i].path)
    ensures CoverInv(fs, t)
  {
    if !t.truncated {
      forall i | 0 <= i < |t.directories| && !IsPending(t, t.directories[i].path)
        ensures var dir := t.directories[i].path;
          Covered(fs, t, dir, if t.current.path == dir then t.position.value else |fs(dir)|)
      {
        var dir := t.directories[i].path;
        assert i < |s.directories| && s.directories[i] == t.directories[i];
        if dir == s.current.path {
          CoveredGrows(fs, s, t, dir, s.position.value);
        } else {
          CoveredGrows(fs, s, t, dir, |fs(dir)|);
        }
      }
    }
  }

  lemma ImagesStep(fs: Files, s: State, t: State)
    requires ImagesInv(fs, s) && s.position.Some? && t.position == Some(s.position.value + 1)
    requires t.current == s.current && Grows(s, t)
    requires forall p :: IsPending(t, p) && HasDirectory(s, p) ==> IsPending(s, p)
    ensures forall i :: 0 <= i < |s.images| ==> ImageInv(fs, t, s.images[i])
  {
    GrowsHas(s, t);
    forall i | 0 <= i < |s.images|
      ensures ImageInv(fs, t, s.images[i])
    {
      assert ImageInv(fs, s, s.images[i]);
    }
  }

  lemma MovedKeeps(fs: Files, roots: set<Path>, s: State, t: State, entry: Entry)
    requires Inv(fs, roots, s) && Moved(s, t) && s.position.value < |fs(s.current.path)|
    requires entry == fs(s.current.path)[s.position.value] && Settled(fs, s, t, entry)
    requires t.visited <= MAX_ENTRIES
    ensures Inv(fs, roots, t)
  {
    hide Reachable;
    GrowsHas(s, t);
    assert forall p :: IsPending(t, p) <==> IsPending(s, p);
    CoverStep(fs, s, t, entry);
    ImagesStep(fs, s, t);
    hide CoverInv, ImageInv, IsPending;
    SamePlaced(s, t);
  }

  lemma SamePlaced(s: State, t: State)
    requires Grows(s, t)
    ensures forall p :: Placed(s, p) ==> Placed(t, p)
  {
    GrowsHas(s, t);
  }

  // ---- A new folder ----

  ghost predicate FolderAdded(s: State, t: State, path: Path) {
    && s.position.Some? && t.position == Some(s.position.value + 1) && t.current == s.current
    && t.directories == s.directories + [Directory(path, Some(s.current.path), s.current.root)]
    && t.pending == s.pending + [Pending(path, s.current.root, s.current.depth + 1)]
    && t.images == s.images && t.watched == s.watched + [path] && t.truncated == s.truncated
  }

  lemma FolderPending(s: State, t: State, path: Path)
    requires FolderAdded(s, t, path)
    ensures forall p :: IsPending(t, p) <==> IsPending(s, p) || p == path
    ensures HasDirectory(t, path)
  {
    assert t.directories[|s.directories|].path == path;
    forall p
      ensures IsPending(t, p) <==> IsPending(s, p) || p == path
    {
      if IsPending(s, p) {
        var i :| 0 <= i < |s.pending| && s.pending[i].path == p;
        assert t.pending[i].path == p;
      }
      if p == path {
        assert t.pending[|s.pending|].path == p;
      }
    }
  }

  lemma FolderDirectories(fs: Files, roots: set<Path>, s: State, t: State, name: Name)
    requires DirectoriesInv(fs, roots, s) && PendingInv(s) && FolderAdded(s, t, s.current.path + [name])
    requires !HasDirectory(s, s.current.path + [name]) && s.current.depth < MAX_DEPTH
    requires Lists(fs, s.current.path, name, Folder)
    ensures DirectoriesInv(fs, roots, t)
  {
    var path := s.current.path + [name];
    assert path[..|path| - 1] == s.current.path;
    var j :| 0 <= j < |s.directories| && s.directories[j].path == s.current.path;
    assert Reachable(fs, roots, s.directories[j].path);
    hide Reachable;
    assert Reachable(fs, roots, path) by { ReachableChild(fs, roots, s.current.path, name); }
    forall i | 0 <= i < |t.directories| && t.directories[i].parent.Some?
      ensures exists k :: 0 <= k < i && t.directories[k].path == t.directories[i].parent.value
    {
      if i == |s.directories| {
        assert t.directories[j].path == s.current.path;
      } else {
        var k :| 0 <= k < i && s.directories[k].path == s.directories[i].parent.value;
        assert t.directories[k].path == t.directories[i].parent.value;
      }
    }
  }

  lemma ReachableChild(fs: Files, roots: set<Path>, dir: Path, name: Name)
    requires Reachable(fs, roots, dir) && Lists(fs, dir, name, Folder)
    ensures Reachable(fs, roots, dir + [name])
  {
    var path := dir + [name];
    assert path[..|path| - 1] == dir;
  }

  lemma FolderPendingInv(s: State, t: State, name: Name)
    requires PendingInv(s) && FolderAdded(s, t, s.current.path + [name])
    requires !HasDirectory(s, s.current.path + [name]) && s.current.depth < MAX_DEPTH
    ensures PendingInv(t)
  {
    var path := s.current.path + [name];
    FolderPending(s, t, path);
    assert Grows(s, t);
    SamePlaced(s, t);
    hide HasDirectory, IsPending;
    assert Placed(t, t.pending[|s.pending|]);
  }

  lemma FolderKeeps(fs: Files, roots: set<Path>, s: State, t: State, name: Name)
    requires Inv(fs, roots, s) && FolderAdded(s, t, s.current.path + [name])
    requires s.position.value < |fs(s.current.path)| && fs(s.current.path)[s.position.value] == Entry(name, Folder)
    requires !HasDirectory(s, s.current.path + [name]) && s.current.depth < MAX_DEPTH
    requires |s.directories| < MAX_DIRECTORIES && t.visited <= MAX_ENTRIES
    ensures Inv(fs, roots, t)
  {
    var path := s.current.path + [name];
    assert Lists(fs, s.current.path, name, Folder);
    assert Bounds(t) && forall r :: r in roots ==> HasDirectory(t, r) by {
      hide Reachable, PendingInv, DirectoriesInv, CoverInv, ImagesInv;
      assert Grows(s, t);
      GrowsHas(s, t);
    }
    hide Bounds, Reachable, PendingInv, DirectoriesInv, CoverInv, ImagesInv, Lists;
    FolderDirectories(fs, roots, s, t, name);
    FolderPendingInv(s, t, name);
    FolderWalk(fs, s, t, name);
  }

  lemma FolderWalk(fs: Files, s: State, t: State, name: Name)
    requires ImagesInv(fs, s) && CoverInv(fs, s) && FolderAdded(s, t, s.current.path + [name])
    requires s.position.value < |fs(s.current.path)| && fs(s.current.path)[s.position.value] == Entry(name, Folder)
    requires !HasDirectory(s, s.current.path + [name])
    ensures ImagesInv(fs, t) && CoverInv(fs, t)
  {
    hide ImageInv, HasDirectory, IsPending, CoverInv;
    FolderPending(s, t, s.current.path + [name]);
    assert Grows(s, t);
    ImagesStep(fs, s, t);
    NewArePending(s, t, s.current.path + [name]);
    CoverStep(fs, s, t, Entry(name, Folder));
  }

  lemma NewArePending(s: State, t: State, path: Path)
    requires FolderAdded(s, t, path)
    ensures forall i :: |s.directories| <= i < |t.directories| ==> IsPending(t, t.directories[i].path)
  {
    FolderPending(s, t, path);
  }

  // ---- A new image ----

  ghost predicate ImageAdded(s: State, t: State, path: Path) {
    && s.position.Some? && t.position == Some(s.position.value + 1) && t.current == s.current
    && t.directories == s.directories && t.pending == s.pending && t.watched == s.watched
    && t.images == s.images + [Image(path, s.current.path)] && t.truncated == s.truncated
  }

  // Walking on, the directory cannot yield the same path again.
  lemma NewImage(fs: Files, s: State, name: Name)
    requires Sound(fs) && ImagesInv(fs, s) && s.position.Some? && s.position.value < |fs(s.current.path)|
    requires fs(s.current.path)[s.position.value] == Entry(name, Picture)
    ensures forall i :: 0 <= i < |s.images| ==> s.images[i].path != s.current.path + [name]
  {
    var path := s.current.path + [name];
    forall i | 0 <= i < |s.images|
      ensures s.images[i].path != path
    {
      var image := s.images[i];
      assert ImageInv(fs, s, image);
      var k :| 0 <= k < |fs(image.directory)| && fs(image.directory)[k].kind == Picture
               && image.path == image.directory + [fs(image.directory)[k].name]
               && (s.position.Some? && s.current.path == image.directory ==> k < s.position.value);
      SameChild(image.directory, fs(image.directory)[k].name, s.current.path, name);
    }
  }

  lemma SameChild(a: Path, x: Name, b: Path, y: Name)
    ensures a + [x] == b + [y] ==> a == b && x == y
  {
    if a + [x] == b + [y] {
      assert a == (a + [x])[..|a|] && b == (b + [y])[..|b|];
      assert x == (a + [x])[|a|] && y == (b + [y])[|b|];
    }
  }

  lemma AddedImage(fs: Files, s: State, t: State, name: Name)
    requires ImageAdded(s, t, s.current.path + [name]) && PendingInv(s) && s.position.value < |fs(s.current.path)|
    requires fs(s.current.path)[s.position.value] == Entry(name, Picture)
    ensures ImageInv(fs, t, Image(s.current.path + [name], s.current.path))
  {
    assert HasDirectory(t, s.current.path) && !IsPending(t, s.current.path);
  }

  lemma ImageKeeps(fs: Files, roots: set<Path>, s: State, t: State, name: Name)
    requires Sound(fs) && Inv(fs, roots, s) && ImageAdded(s, t, s.current.path + [name])
    requires s.position.value < |fs(s.current.path)| && fs(s.current.path)[s.position.value] == Entry(name, Picture)
    requires |s.images| < MAX_IMAGES && t.visited <= MAX_ENTRIES
    ensures Inv(fs, roots, t)
  {
    var path := s.current.path + [name];
    assert Grows(s, t);
    GrowsHas(s, t);
    assert forall p :: IsPending(t, p) <==> IsPending(s, p);
    assert t.images[|s.images|].path == path;
    assert HasImage(t, path);
    NewImage(fs, s, name);
    AddedImage(fs, s, t, name);
    ImagesStep(fs, s, t);
    CoverStep(fs, s, t, Entry(name, Picture));
    SamePlaced(s, t);
    hide Reachable, CoverInv, ImageInv, IsPending, HasDirectory;
  }

  // ---- Every iteration ----

  lemma VisitKeeps(fs: Files, roots: set<Path>, s: State)
    requires Sound(fs) && Inv(fs, roots, s) && s.position.Some? && s.position.value < |fs(s.current.path)|
    requires s.visited < MAX_ENTRIES
    ensures Inv(fs, roots, Visit(s, fs(s.current.path)[s.position.value]))
  {
    var entry := fs(s.current.path)[s.position.value];
    var path := s.current.path + [entry.name];
    var t := Visit(s, entry);
    assert |s.watched| == |s.directories|;
    if entry.kind == Folder {
      FolderCase(fs, roots, s, t, entry);
    } else if entry.kind == Picture && |s.images| < MAX_IMAGES {
      ImageKeeps(fs, roots, s, t, entry.name);
    } else {
      MovedKeeps(fs, roots, s, t, entry);
    }
  }

  lemma FolderCase(fs: Files, roots: set<Path>, s: State, t: State, entry: Entry)
    requires Inv(fs, roots, s) && s.position.Some? && s.position.value < |fs(s.current.path)|
    requires s.visited < MAX_ENTRIES && entry == fs(s.current.path)[s.position.value] && entry.kind == Folder
    requires t == Visit(s, entry)
    ensures Inv(fs, roots, t)
  {
    var path := s.current.path + [entry.name];
    HasDirectoryIs(s, path);
    hide Reachable, PendingInv, DirectoriesInv, CoverInv, ImagesInv, HasDirectory, IsPending;
    if |s.directories| >= MAX_DIRECTORIES || s.current.depth >= MAX_DEPTH {
      MovedKeeps(fs, roots, s, t, entry);
    } else if HasDirectory(s, path) {
      assert HasDirectory(t, path) by { SameDirectories(s, t); }
      MovedKeeps(fs, roots, s, t, entry);
    } else {
      FolderKeeps(fs, roots, s, t, entry.name);
    }
  }

  lemma SameDirectories(s: State, t: State)
    requires t.directories == s.directories
    ensures forall p :: HasDirectory(t, p) <==> HasDirectory(s, p)
  {
  }

  lemma HasDirectoryIs(s: State, path: Path)
    ensures HasDirectory(s, path) <==> exists d :: d in s.directories && d.path == path
  {
    if HasDirectory(s, path) {
      var i :| 0 <= i < |s.directories| && s.directories[i].path == path;
      assert s.directories[i] in s.directories;
    }
  }

  lemma IterateKeeps(fs: Files, roots: set<Path>, s: State, late: bool)
    requires Sound(fs) && Inv(fs, roots, s) && s.running
    ensures var t := Iterate(fs, s, late); t.running ==> Inv(fs, roots, t)
  {
    hide Inv;
    if !late && s.visited < MAX_ENTRIES {
      var begun := Begun(s);
      if s.position.None? && s.pending != [] {
        BeginKeeps(fs, roots, s);
        BeginNextWork(s);
      }
      if begun.position.Some? {
        if begun.position.value >= |fs(begun.current.path)| {
          ExhaustedKeeps(fs, roots, begun);
        } else {
          VisitKeeps(fs, roots, begun);
        }
      }
    }
  }

  // Nothing is left to walk when a scan ends neither late nor at its limit of entries.
  lemma IterateEnds(fs: Files, roots: set<Path>, s: State, late: bool)
    requires Sound(fs) && Inv(fs, roots, s) && s.running
    ensures var t := Iterate(fs, s, late);
      !t.running ==> t.directories == s.directories && t.images == s.images && t.visited == s.visited
                     && t.watched == s.watched
                     && (!t.truncated ==> !s.truncated && s.pending == [] && s.position.None?)
  {
    if !late && s.visited < MAX_ENTRIES && s.position.None? && s.pending != [] {
      BeginKeeps(fs, roots, s);
    }
  }

  // ---- What a finished scan is ----

  ghost predicate Limited(s: State) {
    && |s.directories| <= MAX_DIRECTORIES && |s.images| <= MAX_IMAGES && s.visited <= MAX_ENTRIES
    && (forall i :: 0 <= i < |s.directories| ==>
          && s.directories[i].root <= s.directories[i].path
          && |s.directories[i].path| - |s.directories[i].root| <= MAX_DEPTH
          && (s.directories[i].parent.Some? ==>
                exists j :: 0 <= j < i && s.directories[j].path == s.directories[i].parent.value))
    && (forall i, j :: 0 <= i < j < |s.directories| ==> s.directories[i].path != s.directories[j].path)
    && (forall i, j :: 0 <= i < j < |s.images| ==> s.images[i].path != s.images[j].path)
    && s.watched == seq(|s.directories|, i requires 0 <= i < |s.directories| => s.directories[i].path)
  }

  // Everything found can be reached, and unless truncated everything reachable was found.
  ghost predicate Exact(fs: Files, roots: set<Path>, s: State) {
    && (forall p :: HasDirectory(s, p) ==> Reachable(fs, roots, p))
    && (forall p :: HasImage(s, p) ==> ReachablePicture(fs, roots, p))
    && (!s.truncated ==>
          && (forall p :: Reachable(fs, roots, p) ==> HasDirectory(s, p))
          && (forall p :: ReachablePicture(fs, roots, p) ==> HasImage(s, p)))
  }

  lemma FoundReachable(fs: Files, roots: set<Path>, s: State)
    requires Inv(fs, roots, s)
    ensures forall p :: HasDirectory(s, p) ==> Reachable(fs, roots, p)
    ensures forall p :: HasImage(s, p) ==> ReachablePicture(fs, roots, p)
  {
    hide Reachable;
    forall p | HasImage(s, p)
      ensures ReachablePicture(fs, roots, p)
    {
      var i :| 0 <= i < |s.images| && s.images[i].path == p;
      assert ImageInv(fs, s, s.images[i]);
      ImageReachable(fs, roots, s, s.images[i]);
    }
  }

  lemma ImageReachable(fs: Files, roots: set<Path>, s: State, image: Image)
    requires Inv(fs, roots, s) && ImageInv(fs, s, image)
    ensures ReachablePicture(fs, roots, image.path)
  {
    hide Reachable;
    var k :| 0 <= k < |fs(image.directory)| && fs(image.directory)[k].kind == Picture
             && image.path == image.directory + [fs(image.directory)[k].name]
             && (s.position.Some? && s.current.path == image.directory ==> k < s.position.value);
    assert image.path[..|image.path| - 1] == image.directory;
    assert fs(image.directory)[k] == Entry(image.path[|image.path| - 1], Picture);
    var i :| 0 <= i < |s.directories| && s.directories[i].path == image.directory;
    assert Reachable(fs, roots, s.directories[i].path);
  }

  ghost predicate Exhausted(fs: Files, s: State) {
    forall p :: HasDirectory(s, p) ==> Covered(fs, s, p, |fs(p)|)
  }

  lemma {:induction false} ReachableFound(fs: Files, roots: set<Path>, s: State, path: Path)
    requires Exhausted(fs, s) && (forall r :: r in roots ==> HasDirectory(s, r)) && Reachable(fs, roots, path)
    ensures HasDirectory(s, path)
    decreases |path|
  {
    if path !in roots {
      var dir, name := path[..|path| - 1], path[|path| - 1];
      ReachableFound(fs, roots, s, dir);
      var i :| 0 <= i < |fs(dir)| && fs(dir)[i] == Entry(name, Folder);
      assert Covered(fs, s, dir, |fs(dir)|);
      assert path == dir + [name];
    }
  }

  lemma PictureFound(fs: Files, roots: set<Path>, s: State, path: Path)
    requires Exhausted(fs, s) && (forall r :: r in roots ==> HasDirectory(s, r))
    requires ReachablePicture(fs, roots, path)
    ensures HasImage(s, path)
  {
    var dir, name := path[..|path| - 1], path[|path| - 1];
    ReachableFound(fs, roots, s, dir);
    var i :| 0 <= i < |fs(dir)| && fs(dir)[i] == Entry(name, Picture);
    assert Covered(fs, s, dir, |fs(dir)|);
    assert path == dir + [name];
  }

  lemma NothingLeft(fs: Files, roots: set<Path>, s: State)
    requires Inv(fs, roots, s) && !s.truncated && s.pending == [] && s.position.None?
    ensures Exhausted(fs, s)
  {
    forall p | HasDirectory(s, p)
      ensures Covered(fs, s, p, |fs(p)|)
    {
      var i :| 0 <= i < |s.directories| && s.directories[i].path == p;
      assert !IsPending(s, p);
    }
  }

  lemma EndedExact(fs: Files, roots: set<Path>, s: State, t: State)
    requires Inv(fs, roots, s) && t.directories == s.directories && t.images == s.images && t.visited == s.visited
    requires t.watched == s.watched && (!t.truncated ==> !s.truncated && s.pending == [] && s.position.None?)
    ensures Limited(t) && Exact(fs, roots, t)
  {
    FoundReachable(fs, roots, s);
    assert forall p :: HasDirectory(t, p) <==> HasDirectory(s, p);
    assert forall p :: HasImage(t, p) <==> HasImage(s, p);
    assert Limited(t) by { hide Reachable, ImagesInv, CoverInv, PendingInv; LimitedOf(fs, roots, s, t); }
    if !t.truncated {
      NothingLeft(fs, roots, s);
      hide Reachable;
      forall p | Reachable(fs, roots, p)
        ensures HasDirectory(s, p)
      {
        ReachableFound(fs, roots, s, p);
      }
      forall p | ReachablePicture(fs, roots, p)
        ensures HasImage(s, p)
      {
        PictureFound(fs, roots, s, p);
      }
    }
  }

  lemma LimitedOf(fs: Files, roots: set<Path>, s: State, t: State)
    requires Inv(fs, roots, s) && t.directories == s.directories && t.images == s.images && t.visited == s.visited
    requires t.watched == s.watched
    ensures Limited(t)
  {
    hide Reachable, CoverInv, PendingInv, ImageInv;
  }

  lemma {:induction false} DrainExact(fs: Files, roots: set<Path>, s: State)
    requires Sound(fs) && Inv(fs, roots, s) && s.running
    ensures var t := Drain(fs, s); !t.running && Limited(t) && Exact(fs, roots, t)
    decreases MAX_ENTRIES + 1 - Min(s.visited, MAX_ENTRIES + 1), Work(s)
  {
    hide Inv, Iterate, Limited, Exact;
    IterateShrinks(fs, s, false);
    IterateKeeps(fs, roots, s, false);
    IterateEnds(fs, roots, s, false);
    var t := Iterate(fs, s, false);
    if t.running {
      DrainExact(fs, roots, t);
    } else {
      EndedExact(fs, roots, s, t);
    }
  }

  // A whole scan ends; it lists only what can be reached from the accepted roots, each once,
  // parents before children, within every limit; and all of it unless it says otherwise.
  lemma ScanExact(fs: Files, candidates: seq<Option<Path>>, last: Pending)
    requires Sound(fs)
    ensures var t := Drain(fs, Start(candidates, last));
      !t.running && Limited(t)
      && Exact(fs, RootsOf(candidates[..Min(|candidates|, MAX_ROOTS)]), t)
  {
    StartInv(fs, candidates, last);
    DrainExact(fs, RootsOf(candidates[..Min(|candidates|, MAX_ROOTS)]), Start(candidates, last));
  }

  // ---- Slices ----

  // Slicing a scan does not change it.
  lemma {:induction false} SliceThenDrain(fs: Files, s: State, budget: nat)
    ensures Drain(fs, Slice(fs, s, budget, None)) == Drain(fs, s)
    decreases budget, Work(s)
  {
    if s.running && budget > 0 {
      hide Iterate;
      IterateShrinks(fs, s, false);
      var t := Iterate(fs, s, false);
      if t.running {
        SliceThenDrain(fs, t, if t.visited > s.visited then budget - 1 else budget);
      }
    }
  }

  lemma {:induction false} SliceAdvances(fs: Files, s: State, budget: nat)
    ensures var t := Slice(fs, s, budget, None); t.running ==> t.visited == s.visited + budget
    decreases budget, Work(s)
  {
    if s.running && budget > 0 {
      hide Iterate;
      IterateShrinks(fs, s, false);
      var t := Iterate(fs, s, false);
      if t.running {
        SliceAdvances(fs, t, if t.visited > s.visited then budget - 1 else budget);
      }
    }
  }

  lemma {:induction false} SliceBounded(fs: Files, s: State, budget: nat)
    requires s.running ==> s.visited <= MAX_ENTRIES
    ensures var t := Slice(fs, s, budget, None); t.running ==> t.visited <= MAX_ENTRIES
    decreases budget, Work(s)
  {
    if s.running && budget > 0 {
      hide Iterate;
      IterateShrinks(fs, s, false);
      var t := Iterate(fs, s, false);
      if t.running {
        SliceBounded(fs, t, if t.visited > s.visited then budget - 1 else budget);
      }
    }
  }

  // Any slices with enough budget in all end the scan, always with the same result.
  lemma {:induction false} SlicesDrain(fs: Files, s: State, budgets: seq<nat>)
    requires forall b :: b in budgets ==> b > 0
    requires s.running ==> s.visited <= MAX_ENTRIES && |budgets| > MAX_ENTRIES - s.visited
    ensures Slices(fs, s, budgets) == Drain(fs, s)
    decreases |budgets|
  {
    if budgets != [] {
      hide Slice, Drain;
      assert budgets[0] in budgets;
      SliceThenDrain(fs, s, budgets[0]);
      SliceAdvances(fs, s, budgets[0]);
      SliceBounded(fs, s, budgets[0]);
      StoppedSlice(fs, s, budgets[0]);
      assert forall b :: b in budgets[1..] ==> b in budgets;
      SlicesDrain(fs, Slice(fs, s, budgets[0], None), budgets[1..]);
    } else {
      assert !s.running;
    }
  }

  lemma StoppedSlice(fs: Files, s: State, budget: nat)
    ensures !s.running ==> Slice(fs, s, budget, None) == s
  {
  }

  // A slice whose clock runs out still ends within the limits, listing only what is there.
  lemma {:induction false} SliceKeeps(fs: Files, roots: set<Path>, s: State, budget: nat, patience: Option<nat>)
    requires Sound(fs) && Inv(fs, roots, s) && s.running
    ensures var t := Slice(fs, s, budget, patience);
      if t.running then Inv(fs, roots, t) else Limited(t) && Exact(fs, roots, t)
    decreases budget, Work(s)
  {
    if budget > 0 {
      hide Inv, Iterate, Limited, Exact;
      var late := patience == Some(0);
      IterateShrinks(fs, s, late);
      IterateKeeps(fs, roots, s, late);
      IterateEnds(fs, roots, s, late);
      var t := Iterate(fs, s, late);
      if t.running {
        SliceKeeps(fs, roots, t, if t.visited > s.visited then budget - 1 else budget, Spend(patience));
      } else {
        EndedExact(fs, roots, s, t);
      }
    }
  }
}
