/** The scanner itself: a slice of the walk at a time, abandoned when a new scan starts. */
module ScanLibrary {
  import opened Basics
  import opened ScanModel

  class LibraryScanner {
    var pending: seq<Pending>
    var current: Pending
    var position: Option<nat>
    var directories: seq<Directory>
    var images: seq<Image>
    var watched: seq<Path>
    var visited: nat
    var truncated: bool
    var running: bool
    var cancelled: bool
    var generation: nat

    constructor ()
      ensures !running && generation == 0
    {
      pending, current, position := [], NOWHERE, None;
      directories, images, watched, visited := [], [], [], 0;
      truncated, running, cancelled, generation := false, false, false, 0;
    }

    function Now(): State
      reads this
    {
      State(pending, current, position, directories, images, watched, visited, truncated, running)
    }

    // Whatever was scheduled before is stale from here on.
    method Cancel()
      modifies this
      ensures generation == old(generation) + 1 && !running
      ensures Now() == old(Now()).(position := None, pending := [], running := false)
      ensures cancelled == (old(cancelled) || old(running))
    {
      generation := generation + 1;
      position, pending := None, [];
      if running {
        running, cancelled := false, true;
      }
    }

    method HasPath(path: Path) returns (found: bool)
      ensures found <==> exists d :: d in directories && d.path == path
    {
      var k := 0;
      while k < |directories|
        invariant 0 <= k <= |directories|
        invariant forall i :: 0 <= i < k ==> directories[i].path != path
      {
        if directories[k].path == path {
          assert directories[k] in directories;
          return true;
        }
        k := k + 1;
      }
      return false;
    }

    method TakeRoot(candidate: Option<Path>)
      modifies this`directories, this`watched, this`pending
      ensures Now() == AddRoot(old(Now()), candidate)
    {
      if candidate.None? { return; }
      var root := candidate.value;
      var seen := HasPath(root);
      if seen { return; }
      directories := directories + [Directory(root, None, root)];
      watched := watched + [root];
      pending := pending + [Pending(root, root, 0)];
    }

    method Clear()
      modifies this
      ensures Now() == FRESH.(current := old(current)) && generation == old(generation) && !cancelled
    {
      directories, images, watched, visited, truncated, cancelled := [], [], [], 0, false, false;
      position, pending, running := None, [], true;
    }

    method StartScan(candidates: seq<Option<Path>>)
      modifies this
      ensures Now() == Start(candidates, old(current))
      ensures generation > old(generation) && !cancelled
    {
      hide AddRoot;
      Cancel();
      Clear();
      generation := generation + 1;
      ghost var fresher := Now();
      var accepted := candidates[..Min(|candidates|, MAX_ROOTS)];
      var k := 0;
      while k < |accepted|
        invariant 0 <= k <= |accepted|
        invariant AddRoots(Now(), accepted[k..]) == AddRoots(fresher, accepted)
        invariant generation > old(generation) && !cancelled
      {
        assert accepted[k..][0] == accepted[k] && accepted[k..][1..] == accepted[k + 1..];
        TakeRoot(accepted[k]);
        k := k + 1;
      }
      assert accepted[k..] == [];
    }

    method FinishScan(cut: bool)
      modifies this`position, this`pending, this`running, this`truncated
      ensures Now() == Finish(old(Now()), cut)
    {
      position, pending, running, truncated := None, [], false, truncated || cut;
    }

    method BeginNextDirectory() returns (begun: bool)
      requires position.None?
      modifies this`pending, this`current, this`position, this`truncated
      ensures Now() == BeginNext(old(Now())) && (begun <==> position.Some?)
    {
      while pending != []
        invariant position.None? && BeginNext(Now()) == BeginNext(old(Now()))
        decreases |pending|
      {
        current, pending := pending[0], pending[1..];
        if current.depth > MAX_DEPTH {
          truncated := true;
        } else {
          position := Some(0);
          return true;
        }
      }
      return false;
    }

    method TakeFolder(path: Path)
      modifies this`directories, this`watched, this`pending, this`truncated
      ensures Now() == AcceptFolder(old(Now()), path)
      ensures |old(directories)| >= 512 || current.depth >= 8 ==> truncated && directories == old(directories)
      ensures |old(directories)| < 512 && current.depth < 8 ==>
                truncated == old(truncated) && exists d :: d in directories && d.path == path
    {
      if |directories| >= MAX_DIRECTORIES || current.depth >= MAX_DEPTH {
        truncated := true;
        return;
      }
      var duplicate := HasPath(path);
      if duplicate { return; }
      directories := directories + [Directory(path, Some(current.path), current.root)];
      if |watched| < MAX_WATCHED {
        watched := watched + [path];
      }
      pending := pending + [Pending(path, current.root, current.depth + 1)];
      assert directories[|directories| - 1].path == path;
    }

    method AcceptEntry(entry: Entry)
      modifies this`directories, this`watched, this`pending, this`truncated, this`images
      ensures Now() == Accept(old(Now()), entry)
    {
      hide AcceptFolder;
      if entry.kind == Skipped { return; }
      var path := current.path + [entry.name];
      if entry.kind == Folder {
        TakeFolder(path);
      } else if |images| >= MAX_IMAGES {
        truncated := true;
      } else if entry.kind == Picture {
        images := images + [Image(path, current.path)];
      }
    }

    method OneIteration(fs: Files, late: bool)
      modifies this`pending, this`current, this`position, this`directories, this`images, this`watched, this`visited,
        this`truncated, this`running
      ensures Now() == Iterate(fs, old(Now()), late)
    {
      hide BeginNext, Accept;
      if late || visited >= MAX_ENTRIES {
        FinishScan(true);
        return;
      }
      if position.None? {
        var begun := BeginNextDirectory();
        if !begun {
          FinishScan(truncated);
          return;
        }
      }
      if position.value >= |fs(current.path)| {
        position := None;
        return;
      }
      var entry := fs(current.path)[position.value];
      position := Some(position.value + 1);
      AcceptEntry(entry);
      visited := visited + 1;
    }

    // At most `budget` entries; the clock is found to have run out after `patience` passes.
    method ProcessSlice(fs: Files, budget: nat, patience: Option<nat>)
      modifies this`pending, this`current, this`position, this`directories, this`images, this`watched, this`visited,
        this`truncated, this`running
      ensures Now() == Slice(fs, old(Now()), budget, patience)
    {
      hide Iterate;
      var left, calm := budget, patience;
      while running && left > 0
        invariant Slice(fs, Now(), left, calm) == Slice(fs, old(Now()), budget, patience)
        decreases left, Work(Now())
      {
        ghost var before := Now();
        IterateShrinks(fs, before, calm == Some(0));
        var entries := visited;
        OneIteration(fs, calm == Some(0));
        calm := Spend(calm);
        if !running { return; }
        if visited > entries {
          left := left - 1;
        }
      }
    }

    // A callback scheduled under an earlier generation does nothing.
    method OnTimer(fs: Files, token: nat, budget: nat, patience: Option<nat>)
      modifies this
      ensures Now() == if token != old(generation) then old(Now()) else Slice(fs, old(Now()), budget, patience)
      ensures generation == old(generation) && cancelled == old(cancelled)
    {
      hide Slice;
      if token == generation {
        ProcessSlice(fs, budget, patience);
      }
    }
  }
}
