/**
  * Any number of processes, one after another on the same directory, each under its own
  * faults and each killed after any of its system calls.
  */
module SettingsProcesses {
  import opened Basics
  import opened SettingsModel
  import opened SettingsSteps
  import opened SettingsSafety
  import opened SettingsOperations
  import opened SettingsFaults

  // The process is killed after `crash` system calls, if it makes that many.
  datatype Process = Process(operation: Operation, content: Bytes, environment: Environment, crash: nat)

  function Start(files: Files): World {
    World(files, 0, 0, [files], CLEAN)
  }

  function Leaves(files: Files, p: Process): Files {
    var w := Perform(p.environment, Start(files), p.operation, p.content).0;
    if p.crash < |w.trace| then w.trace[p.crash] else w.files
  }

  function LeavesAll(files: Files, processes: seq<Process>): Files
    decreases |processes|
  {
    if processes == [] then files else LeavesAll(Leaves(files, processes[0]), processes[1..])
  }

  lemma LeavesEvolves(files: Files, p: Process)
    ensures Evolves(p.operation, p.content, Named(files), Named(Leaves(files, p)))
  {
    hide Perform, Evolves, Named;
    EveryCrashState(p.environment, Start(files), p.operation, p.content);
    var w := Perform(p.environment, Start(files), p.operation, p.content).0;
    if p.crash == 0 {
      assert w.trace[0] == Start(files).trace[0];
      Unchanged(p.operation, p.content, Named(files));
    }
  }

  // An existing one-shot backup never changes again.
  lemma {:induction false} BackupsAreForever(files: Files, processes: seq<Process>, name: Name)
    requires name == MigrationBackup || name == Version2Backup
    requires name in files
    ensures At(LeavesAll(files, processes), name) == Some(files[name])
    decreases |processes|
  {
    if processes != [] {
      hide Leaves;
      var next := Leaves(files, processes[0]);
      LeavesEvolves(files, processes[0]);
      NamedHas(files, name);
      NamedHas(next, name);
      BackupsAreForever(next, processes[1..], name);
    }
  }

  // The bytes of a legacy file are in that file or in its backup, for ever.
  lemma {:induction false} LegacyNeverLost(files: Files, processes: seq<Process>, content: Bytes)
    requires Holds(files, Legacy, content) || Holds(files, MigrationBackup, content)
    ensures Holds(LeavesAll(files, processes), Legacy, content)
            || Holds(LeavesAll(files, processes), MigrationBackup, content)
    decreases |processes|
  {
    if processes != [] {
      if Holds(files, MigrationBackup, content) {
        BackupsAreForever(files, processes, MigrationBackup);
      } else {
        hide Leaves;
        var next := Leaves(files, processes[0]);
        LeavesEvolves(files, processes[0]);
        NamedHas(files, Legacy);
        NamedHas(next, Legacy);
        NamedHas(next, MigrationBackup);
        LegacyNeverLost(next, processes[1..], content);
      }
    }
  }

  // Settings before an upgrade or a recovery are in the settings or in that backup.
  lemma UpgradeKeepsSettings(files: Files, p: Process, content: Bytes)
    requires p.operation == Upgrade || p.operation == Recover
    requires Holds(files, Settings, content)
    ensures Holds(Leaves(files, p), Settings, content)
            || Holds(Leaves(files, p), if p.operation == Upgrade then Version2Backup else InvalidBackup, content)
  {
    hide Leaves;
    var backup := if p.operation == Upgrade then Version2Backup else InvalidBackup;
    LeavesEvolves(files, p);
    NamedHas(files, Settings);
    NamedHas(Leaves(files, p), Settings);
    NamedHas(Leaves(files, p), backup);
  }

  predicate Replaces(p: Process) {
    p.operation == Write || p.operation == Upgrade || p.operation == Recover
  }

  // Creation and migration never touch settings that exist.
  lemma {:induction false} NeverReplaced(files: Files, processes: seq<Process>)
    requires Settings in files
    requires forall p :: p in processes ==> !Replaces(p)
    ensures At(LeavesAll(files, processes), Settings) == Some(files[Settings])
    decreases |processes|
  {
    if processes != [] {
      hide Leaves;
      assert processes[0] in processes;
      var next := Leaves(files, processes[0]);
      LeavesEvolves(files, processes[0]);
      NamedHas(files, Settings);
      NamedHas(next, Settings);
      NeverReplaced(next, processes[1..]);
    }
  }

  ghost predicate Known(files: Files, processes: seq<Process>, content: Bytes) {
    || (exists n: Name :: !n.Stage? && Holds(files, n, content))
    || (exists p :: p in processes && p.content == content)
  }

  lemma KnownEvolves(files: Files, p: Process, name: Name, content: Bytes)
    requires !name.Stage? && Holds(Leaves(files, p), name, content)
    ensures Known(files, [p], content)
  {
    hide Leaves;
    var d, x := Named(files), Named(Leaves(files, p));
    LeavesEvolves(files, p);
    NamedHas(Leaves(files, p), name);
    forall n | n in {name, Settings, Legacy}
      ensures At(d, n) == At(files, n)
    {
      NamedHas(files, n);
    }
    assert p in [p];
    if content != p.content {
      OriginOf(p.operation, p.content, d, x, name);
    }
  }

  lemma OriginOf(operation: Operation, content: Bytes, d: Files, x: Files, name: Name)
    requires Evolves(operation, content, d, x) && !name.Stage? && IsRegular(x, name)
    ensures x[name] == Regular(content) || At(d, name) == Some(x[name]) || At(d, Settings) == Some(x[name])
            || At(d, Legacy) == Some(x[name])
  {
  }

  // Every named file always holds the whole of something that was there before or the
  // whole of something a process was given: never a part, never a mixture.
  lemma {:induction false} NeverAMixture(files: Files, processes: seq<Process>, name: Name, content: Bytes)
    requires !name.Stage? && Holds(LeavesAll(files, processes), name, content)
    ensures Known(files, processes, content)
    decreases |processes|
  {
    if processes == [] {
      assert Holds(files, name, content);
    } else {
      hide Leaves;
      var next := Leaves(files, processes[0]);
      NeverAMixture(next, processes[1..], name, content);
      if exists n: Name :: !n.Stage? && Holds(next, n, content) {
        var n: Name :| !n.Stage? && Holds(next, n, content);
        KnownEvolves(files, processes[0], n, content);
        assert processes[0] in processes;
      }
    }
  }

  // Settings that could be read are never missing while a bundle is written.
  lemma SettingsNeverMissing(e: Environment, w: World, content: Bytes, noReplace: bool)
    requires OldSettings(e, w).Some?
    ensures var after := WriteBundle(e, w, content, noReplace).0;
      && |w.trace| <= |after.trace|
      && forall i :: |w.trace| <= i < |after.trace| ==>
           Holds(after.trace[i], Settings, OldSettings(e, w).value) || Holds(after.trace[i], Settings, content)
  {
    hide WriteBundle, OldSettings, OldLastGood;
    var after := WriteBundle(e, w, content, noReplace).0;
    WriteBundleExact(e, w, content, noReplace);
    SettingsRead(e, w);
    forall i | |w.trace| <= i < |after.trace|
      ensures Holds(after.trace[i], Settings, OldSettings(e, w).value) || Holds(after.trace[i], Settings, content)
    {
      var x := Named(after.trace[i]);
      var d := Named(w.files);
      NamedHas(after.trace[i], Settings);
      var a, b :| a in Choices(d, Settings, content, OldSettings(e, w))
                  && b in Choices(d, LastGood, content, OldLastGood(e, w))
                  && x == Put(Put(d, Settings, a), LastGood, b);
      assert At(x, Settings) == a;
    }
  }

  lemma SettingsRead(e: Environment, w: World)
    ensures Read(Named(w.files), Settings, OldSettings(e, w))
  {
    hide ReadFile;
    BundleReads(e, w);
  }

  // ---- A file too large to read is lost by a rollback ----

  function OneFault(at: nat): Environment {
    Environment(k => Answer(k == at, false, 1), 0)
  }

  lemma RollbackLosesOversized(large: Bytes)
    requires |large| == MAX_SETTINGS_BYTES + 1
    ensures var w := Start(map[Settings := Regular(large)]);
      var (after, ok) := Perform(OneFault(10), w, Write, []);
      !ok && after.files == map[]
  {
    hide WriteStage;
    var e := OneFault(10);
    var w := Start(map[Settings := Regular(large)]);
    var first := ReadFile(e, w, Settings, MAX_SETTINGS_BYTES);
    assert first.1 == None && first.0.calls == 3;
    var second := ReadFile(e, first.0, LastGood, MAX_SETTINGS_BYTES);
    assert second.1 == None && second.0.calls == 4;
    var third := WriteAtomic(e, second.0, Settings, [], false);
    EmptyStage(e, PathKind(e, second.0, Settings).0);
  }

  lemma EmptyStage(e: Environment, w: World)
    requires e == OneFault(10) && w.calls == 5 && w.counter == 0 && Stage(0, 1) !in w.files
    requires Settings in w.files && w.files[Settings].Regular?
    ensures var (after, ok) := WriteStage(e, w, Settings, [], false);
      ok && after.calls == 10 && after.files == w.files[Settings := Regular([])]
  {
    var numbered := w.(counter := 1);
    var ready := Prepare(e, numbered, Stage(0, 1), []);
    assert ready.1 && ready.0.calls == 8;
  }

  // ---- A settings write that fails after it took effect ----

  // The flush of the directory fails: nothing is rolled back and the new settings stay.
  lemma FailedFlushLeavesSettings()
    ensures var w := Start(map[Settings := Regular([1])]);
      var (after, ok) := Perform(OneFault(10), w, Write, []);
      !ok && Recoverable(Named(w.files)) && after.files == map[Settings := Regular([])]
  {
    hide WriteStage;
    var e := OneFault(10);
    var w := Start(map[Settings := Regular([1])]);
    var first := ReadFile(e, w, Settings, MAX_SETTINGS_BYTES).0;
    assert first.calls == 4 && first.files == w.files && first.counter == 0 by { OneByteRead(e, w); }
    var second := ReadFile(e, first, LastGood, MAX_SETTINGS_BYTES).0;
    assert second.calls == 5;
    LateFault(e, PathKind(e, second, Settings).0);
  }

  lemma OneByteRead(e: Environment, w: World)
    requires e == OneFault(10) && w == Start(map[Settings := Regular([1])])
    ensures var (first, content) := ReadFile(e, w, Settings, MAX_SETTINGS_BYTES);
      content == Some([1]) && first.calls == 4 && first.files == w.files && first.counter == 0
  {
    var measured := Call(Call(PathKind(e, w, Settings).0, w.files), w.files);
    var source: Bytes := [1];
    var none: Bytes := [];
    assert measured.calls == 3 && Moved(e, measured, 1) == 1;
    assert none + source[0..1] == source;
    assert ReadRest(e, Call(measured, w.files), source, source) == (Call(measured, w.files), Some(source));
    assert ReadRest(e, measured, source, none) == (Call(measured, w.files), Some(source));
    assert w.files[Settings].content == source;
  }

  lemma LateFault(e: Environment, w: World)
    requires e == OneFault(10) && w.calls == 6 && w.counter == 0 && Stage(0, 1) !in w.files
    requires Settings in w.files && w.files[Settings].Regular?
    ensures var (after, ok) := WriteStage(e, w, Settings, [], false);
      !ok && after.files == w.files[Settings := Regular([])]
  {
    var ready := Prepare(e, w.(counter := 1), Stage(0, 1), []);
    assert ready.1 && ready.0.calls == 9;
  }

  // Linking instead of renaming, the link is made but the stage name cannot be removed at once.
  lemma FailedUnlinkLeavesSettings()
    ensures var e := Environment(k => Answer(k == 8, k == 6, 1), 0);
      var (after, ok) := Perform(e, Start(map[]), Create, []);
      !ok && after.files == map[Settings := Regular([])]
  {
    hide WriteStage;
    var e := Environment(k => Answer(k == 8, k == 6, 1), 0);
    var w := Start(map[]);
    var first := ReadFile(e, w, Settings, MAX_SETTINGS_BYTES).0;
    assert first.calls == 1;
    var second := ReadFile(e, first, LastGood, MAX_SETTINGS_BYTES).0;
    assert second.calls == 2;
    LinkedOnly(e, PathKind(e, second, Settings).0);
  }

  lemma LinkedOnly(e: Environment, w: World)
    requires e == Environment(k => Answer(k == 8, k == 6, 1), 0)
    requires w.calls == 3 && w.counter == 0 && w.files == map[]
    ensures var (after, ok) := WriteStage(e, w, Settings, [], true);
      !ok && after.files == map[Settings := Regular([])]
  {
    var ready := Prepare(e, w.(counter := 1), Stage(0, 1), []);
    assert ready.1 && ready.0.calls == 6;
  }
}
