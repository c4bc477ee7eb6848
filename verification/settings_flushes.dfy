/**
  * What a loss of power can find: no file is ever given a name that is read before its whole
  * content is flushed and its mode set, and success is reported only when the names are
  * flushed too.
  */
module SettingsFlushes {
  import opened Basics
  import opened SettingsModel

  // Only stage files are unflushed or without their mode.
  ghost predicate Guarded(disk: Disk) {
    forall n: Name :: n in disk.unflushed || n in disk.unset ==> n.Stage?
  }

  ghost predicate Ready(disk: Disk, name: Name) {
    name !in disk.unflushed && name !in disk.unset
  }

  // Nothing unready was installed on the way.
  ghost predicate Careful(a: World, b: World) {
    b.disk.exposed == a.disk.exposed && (Guarded(a.disk) ==> Guarded(b.disk))
  }

  // ---- Calls and reads ----

  lemma {:induction false} ReadRestDisk(e: Environment, w: World, source: Bytes, buffer: Bytes)
    ensures ReadRest(e, w, source, buffer).0.disk == w.disk
    decreases |source| - |buffer|
  {
    if |buffer| < |source| && Moved(e, w, |source| - |buffer|) > 0 {
      var count := Moved(e, w, |source| - |buffer|);
      ReadRestDisk(e, Call(w, w.files), source, buffer + source[|buffer|..|buffer| + count]);
    }
  }

  lemma ReadFileDisk(e: Environment, w: World, name: Name, maximum: nat)
    ensures ReadFile(e, w, name, maximum).0.disk == w.disk
  {
    var held := Call(PathKind(e, w, name).0, w.files);
    var measured := Call(held, held.files);
    if PathKind(e, w, name).1 == RegularKind {
      ReadRestDisk(e, measured, w.files[name].content, []);
    }
  }

  lemma UnlinkCareful(e: Environment, w: World, name: Name)
    ensures Careful(w, Unlink(e, w, name).0)
  {
  }

  // ---- The stage file ----

  lemma {:induction false} WriteRestCareful(e: Environment, w: World, name: Name, content: Bytes, offset: nat)
    requires name.Stage?
    ensures Careful(w, WriteRest(e, w, name, content, offset).0)
    decreases |content| - offset
  {
    if offset < |content| && Moved(e, w, |content| - offset) > 0 {
      var count := Moved(e, w, |content| - offset);
      var next := Append(w, name, content[offset..offset + count]);
      assert Careful(w, next);
      WriteRestCareful(e, next, name, content, offset + count);
    }
  }

  // A stage file that was prepared is flushed, after its last byte, and has its mode.
  lemma PrepareReady(e: Environment, w: World, stage: Name, content: Bytes)
    requires stage.Stage?
    ensures Careful(w, Prepare(e, w, stage, content).0)
    ensures Prepare(e, w, stage, content).1 ==> Ready(Prepare(e, w, stage, content).0.disk, stage)
  {
    hide WriteRest;
    var created := CreateStage(e, w, stage).0;
    assert Careful(w, created);
    WriteRestCareful(e, created, stage, content, 0);
  }

  // ---- Installing it ----

  lemma TakeoverCareful(w: World, stage: Name, target: Name, moved: bool)
    requires stage in w.files && Ready(w.disk, stage) && stage.Stage? && !target.Stage?
    ensures Careful(w, Takeover(w, stage, target, moved))
  {
    hide Call;
    assert Call(w, w.files[target := w.files[stage]]).disk.exposed == w.disk.exposed by { CallDisk(w, w.files); }
    CallDisk(w, w.files[target := w.files[stage]]);
    CallDisk(w, w.files[target := w.files[stage]] - {stage});
  }

  lemma CallDisk(w: World, files: Files)
    ensures Call(w, files).disk == w.disk.(settled := Call(w, files).disk.settled)
    ensures forall other :: Call(w, other).disk.exposed == w.disk.exposed
  {
  }

  lemma InstallCareful(e: Environment, w: World, stage: Name, target: Name, noReplace: bool)
    requires Ready(w.disk, stage) && stage.Stage? && !target.Stage?
    ensures Careful(w, Install(e, w, stage, target, noReplace).0)
  {
    hide Takeover;
    if stage in w.files {
      TakeoverCareful(w, stage, target, true);
      TakeoverCareful(Call(w, w.files), stage, target, false);
    }
    if noReplace && e.answer(w.calls).unsupported {
      UnlinkCareful(e, Link(e, Call(w, w.files), stage, target).0, stage);
    }
  }

  lemma WriteAtomicCareful(e: Environment, w: World, name: Name, content: Bytes, noReplace: bool)
    requires !name.Stage?
    ensures var (after, ok) := WriteAtomic(e, w, name, content, noReplace);
      Careful(w, after) && (ok ==> after.disk.settled)
  {
    hide Prepare, Install, Unlink;
    var seen := PathKind(e, w, name).0;
    var stage := Stage(e.process, seen.counter + 1);
    var numbered := seen.(counter := seen.counter + 1);
    var (ready, prepared) := Prepare(e, numbered, stage, content);
    PrepareReady(e, numbered, stage, content);
    UnlinkCareful(e, ready, stage);
    if prepared {
      InstallCareful(e, ready, stage, name, noReplace);
      UnlinkCareful(e, Install(e, ready, stage, name, noReplace).0, stage);
    }
  }

  // ---- Operations ----

  lemma RestoreCareful(e: Environment, w: World, name: Name, content: Option<Bytes>)
    requires !name.Stage?
    ensures Careful(w, RestoreFile(e, w, name, content))
  {
    hide WriteAtomic, Unlink;
    UnlinkCareful(e, w, name);
    if content.Some? {
      WriteAtomicCareful(e, w, name, content.value, false);
    }
  }

  lemma BundleCareful(e: Environment, w: World, content: Bytes, noReplace: bool)
    ensures var (after, ok) := WriteBundle(e, w, content, noReplace);
      Careful(w, after) && (ok ==> after.disk.settled)
  {
    hide ReadFile, WriteAtomic, RestoreFile, Guarded;
    var (first, oldSettings) := ReadFile(e, w, Settings, MAX_SETTINGS_BYTES);
    var (second, oldLastGood) := ReadFile(e, first, LastGood, MAX_SETTINGS_BYTES);
    var third := WriteAtomic(e, second, Settings, content, noReplace).0;
    var fourth := WriteAtomic(e, third, LastGood, content, false).0;
    ReadFileDisk(e, w, Settings, MAX_SETTINGS_BYTES);
    ReadFileDisk(e, first, LastGood, MAX_SETTINGS_BYTES);
    WriteAtomicCareful(e, second, Settings, content, noReplace);
    WriteAtomicCareful(e, third, LastGood, content, false);
    RestoreCareful(e, fourth, Settings, oldSettings);
    RestoreCareful(e, RestoreFile(e, fourth, Settings, oldSettings), LastGood, oldLastGood);
  }

  lemma BackupCareful(e: Environment, w: World, source: Name, target: Name, maximum: nat, replace: bool)
    requires !target.Stage?
    ensures Careful(w, BackupExact(e, w, source, target, maximum, replace).0)
  {
    hide ReadFile, WriteAtomic, Guarded;
    var (first, content) := ReadFile(e, w, source, maximum);
    ReadFileDisk(e, w, source, maximum);
    if content.Some? {
      var second := PathKind(e, first, target).0;
      WriteAtomicCareful(e, first, target, content.value, false);
      WriteAtomicCareful(e, second, target, content.value, true);
      ReadFileDisk(e, second, target, maximum);
    }
  }

  // Whatever fails, no operation ever gives a name that is read to a file that is not flushed
  // or lacks its mode; and one that reports success has flushed the names.
  lemma NeverExposed(e: Environment, w: World, operation: Operation, content: Bytes)
    requires Guarded(w.disk)
    ensures var (after, ok) := Perform(e, w, operation, content);
      && after.disk.exposed == w.disk.exposed && Guarded(after.disk) && (ok ==> after.disk.settled)
  {
    hide WriteBundle, WriteAtomic, BackupExact, Unlink, Guarded;
    match operation {
      case Write => BundleCareful(e, w, content, false);
      case Create => BundleCareful(e, w, content, true);
      case KeepLastGood => WriteAtomicCareful(e, w, LastGood, content, false);
      case Migrate =>
        BackupCareful(e, w, Legacy, MigrationBackup, MAX_LEGACY_BYTES, false);
        var backed := BackupExact(e, w, Legacy, MigrationBackup, MAX_LEGACY_BYTES, false).0;
        BundleCareful(e, backed, content, true);
        UnlinkCareful(e, WriteBundle(e, backed, content, true).0, Legacy);
        FlushedKeeps(e, Unlink(e, WriteBundle(e, backed, content, true).0, Legacy).0);
      case Upgrade =>
        BackupCareful(e, w, Settings, Version2Backup, MAX_SETTINGS_BYTES, false);
        BundleCareful(e, BackupExact(e, w, Settings, Version2Backup, MAX_SETTINGS_BYTES, false).0, content, false);
      case Recover =>
        BackupCareful(e, w, Settings, InvalidBackup, MAX_SETTINGS_BYTES, true);
        BundleCareful(e, BackupExact(e, w, Settings, InvalidBackup, MAX_SETTINGS_BYTES, true).0, content, false);
    }
  }

  lemma FlushedKeeps(e: Environment, w: World)
    ensures Careful(w, FlushDirectory(e, w).0)
  {
  }
}
