/**
  * The wallpaper scan: a breadth-first walk in slices of bounded work over a file tree that
  * does not change meanwhile. Opaque ids are taken as injective, so a path is its own id.
  */
module ScanModel {
  import opened Basics

  type Name = string
  type Path = seq<Name>

  // What the checks on one entry come to: a folder; an image that is accepted; any other
  // file; or an entry that is skipped unseen, such as a link or an overlong path.
  datatype Kind = Folder | Picture | Plain | Skipped

  datatype Entry = Entry(name: Name, kind: Kind)

  type Files = Path -> seq<Entry>

  datatype Directory = Directory(path: Path, parent: Option<Path>, root: Path)

  datatype Image = Image(path: Path, directory: Path)

  datatype Pending = Pending(path: Path, root: Path, depth: nat)

  // The position is the place in the current directory's entries.
  datatype State = State(pending: seq<Pending>, current: Pending, position: Option<nat>, directories: seq<Directory>,
                         images: seq<Image>, watched: seq<Path>, visited: nat, truncated: bool, running: bool)

  const MAX_ROOTS: nat := 8
  const MAX_DEPTH: nat := 8
  const MAX_ENTRIES: nat := 4096
  const MAX_IMAGES: nat := 512
  const MAX_DIRECTORIES: nat := 512
  const MAX_WATCHED: nat := 512

  const NOWHERE := Pending([], [], 0)
  const FRESH := State([], NOWHERE, None, [], [], [], 0, false, true)

  // ---- Starting ----

  function AddRoot(s: State, candidate: Option<Path>): State {
    if candidate.None? || (exists d :: d in s.directories && d.path == candidate.value) then s else
    var root := candidate.value;
    s.(directories := s.directories + [Directory(root, None, root)], watched := s.watched + [root],
       pending := s.pending + [Pending(root, root, 0)])
  }

  function AddRoots(s: State, candidates: seq<Option<Path>>): State
    decreases |candidates|
  {
    if candidates == [] then s else AddRoots(AddRoot(s, candidates[0]), candidates[1..])
  }

  // A candidate that is no acceptable directory is None; what the scan before it walked last
  // does not matter.
  function Start(candidates: seq<Option<Path>>, last: Pending): State {
    AddRoots(FRESH.(current := last), candidates[..Min(|candidates|, MAX_ROOTS)])
  }

  // ---- One iteration ----

  function Finish(s: State, truncated: bool): State {
    s.(position := None, pending := [], running := false, truncated := s.truncated || truncated)
  }

  function BeginNext(s: State): State
    decreases |s.pending|
  {
    if s.pending == [] then s else
    var next := s.(current := s.pending[0], pending := s.pending[1..]);
    if next.current.depth > MAX_DEPTH then BeginNext(next.(truncated := true)) else next.(position := Some(0))
  }

  function AcceptFolder(s: State, path: Path): State {
    if |s.directories| >= MAX_DIRECTORIES || s.current.depth >= MAX_DEPTH then s.(truncated := true)
    else if exists d :: d in s.directories && d.path == path then s
    else s.(directories := s.directories + [Directory(path, Some(s.current.path), s.current.root)],
            watched := if |s.watched| < MAX_WATCHED then s.watched + [path] else s.watched,
            pending := s.pending + [Pending(path, s.current.root, s.current.depth + 1)])
  }

  function AcceptFile(s: State, path: Path, eligible: bool): State {
    if |s.images| >= MAX_IMAGES then s.(truncated := true)
    else if eligible then s.(images := s.images + [Image(path, s.current.path)])
    else s
  }

  function Accept(s: State, entry: Entry): State {
    var path := s.current.path + [entry.name];
    match entry.kind
    case Skipped => s
    case Folder => AcceptFolder(s, path)
    case Picture => AcceptFile(s, path, true)
    case Plain => AcceptFile(s, path, false)
  }

  function Visit(s: State, entry: Entry): State
    requires s.position.Some?
  {
    Accept(s.(position := Some(s.position.value + 1)), entry).(visited := s.visited + 1)
  }

  function Begun(s: State): State {
    if s.position.Some? then s else BeginNext(s)
  }

  // One pass of the loop; `late` when the clock has run out.
  function Iterate(fs: Files, s: State, late: bool): State {
    if late || s.visited >= MAX_ENTRIES then Finish(s, true) else
    var begun := Begun(s);
    if begun.position.None? then Finish(begun, begun.truncated)
    else if begun.position.value >= |fs(begun.current.path)| then begun.(position := None)
    else Visit(begun, fs(begun.current.path)[begun.position.value])
  }

  // ---- Slices ----

  function Work(s: State): nat {
    |s.pending| + if s.position.Some? then 1 else 0
  }

  lemma BeginNextWork(s: State)
    requires s.position.None?
    ensures BeginNext(s).position.Some? ==> Work(BeginNext(s)) <= Work(s)
    ensures BeginNext(s).visited == s.visited && BeginNext(s).running == s.running
    decreases |s.pending|
  {
    if s.pending != [] && s.pending[0].depth > MAX_DEPTH {
      BeginNextWork(s.(current := s.pending[0], pending := s.pending[1..], truncated := true));
    }
  }

  // Exhausting a directory consumes no budget, but leaves less work behind.
  lemma IterateShrinks(fs: Files, s: State, late: bool)
    requires s.running
    ensures var t := Iterate(fs, s, late);
      t.running ==> t.visited == s.visited + 1 || (t.visited == s.visited && Work(t) < Work(s))
    ensures Iterate(fs, s, late).visited <= s.visited + 1
    ensures s.visited >= MAX_ENTRIES ==> !Iterate(fs, s, late).running
  {
    if s.position.None? {
      BeginNextWork(s);
    }
  }

  function Spend(patience: Option<nat>): Option<nat> {
    if patience.Some? && patience.value > 0 then Some(patience.value - 1) else patience
  }

  // At most `budget` entries; the clock runs out after `patience` iterations, if ever.
  function Slice(fs: Files, s: State, budget: nat, patience: Option<nat>): State
    decreases budget, Work(s)
  {
    if !s.running || budget == 0 then s else
    IterateShrinks(fs, s, patience == Some(0));
    var t := Iterate(fs, s, patience == Some(0));
    if !t.running then t
    else Slice(fs, t, if t.visited > s.visited then budget - 1 else budget, Spend(patience))
  }

  function Slices(fs: Files, s: State, budgets: seq<nat>): State
    decreases |budgets|
  {
    if budgets == [] then s else Slices(fs, Slice(fs, s, budgets[0], None), budgets[1..])
  }

  // The whole scan at once.
  function Drain(fs: Files, s: State): State
    decreases MAX_ENTRIES + 1 - Min(s.visited, MAX_ENTRIES + 1), Work(s)
  {
    if !s.running then s else
    IterateShrinks(fs, s, false);
    var t := Iterate(fs, s, false);
    if !t.running then t else Drain(fs, t)
  }
}
