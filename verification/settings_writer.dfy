/** The writer itself: each routine advances the directory in place, exactly as specified. */
module SettingsWriters {
  import opened Basics
  import opened SettingsModel
  import opened SettingsSteps
  import opened SettingsSafety
  import opened SettingsOperations

  class SettingsWriter {
    const environment: Environment
    var files: Files
    var calls: nat
    var counter: nat
    var trace: seq<Files>
    var disk: Disk

    constructor (environment: Environment, files: Files)
      ensures this.environment == environment
      ensures Now() == World(files, 0, 0, [files], CLEAN)
    {
      this.environment := environment;
      this.files := files;
      calls, counter, trace, disk := 0, 0, [files], CLEAN;
    }

    function Now(): World
      reads this
    {
      World(files, calls, counter, trace, disk)
    }

    // ---- System calls ----

    method Done(after: Files)
      modifies this
      ensures Now() == Call(old(Now()), after)
    {
      disk := disk.(settled := disk.settled && after.Keys == files.Keys);
      files, calls, trace := after, calls + 1, trace + [after];
    }

    method Unlink(name: Name) returns (removal: Removal)
      modifies this
      ensures (Now(), removal) == SettingsModel.Unlink(environment, old(Now()), name)
    {
      var fails := environment.answer(calls).fails;
      if name !in files {
        removal := if fails then Refused else Absent;
        Done(files);
      } else if fails || files[name] == Unsafe(true) {
        removal := Refused;
        Done(files);
      } else {
        removal := Removed;
        Done(files - {name});
        disk := Gone(disk, name);
      }
    }

    method CreateStage(name: Name) returns (ok: bool)
      modifies this
      ensures (Now(), ok) == SettingsModel.CreateStage(environment, old(Now()), name)
    {
      ok := !environment.answer(calls).fails && name !in files;
      Done(if ok then files[name := Regular([])] else files);
      if ok {
        disk := Began(disk, name);
      }
    }

    method Look() returns (ok: bool)
      modifies this
      ensures (Now(), ok) == SettingsModel.Look(environment, old(Now()))
    {
      ok := !environment.answer(calls).fails;
      Done(files);
    }

    method SetMode(name: Name) returns (ok: bool)
      modifies this
      ensures (Now(), ok) == SettingsModel.SetMode(environment, old(Now()), name)
    {
      ok := Look();
      if ok {
        disk := disk.(unset := disk.unset - {name});
      }
    }

    method FlushFile(name: Name) returns (ok: bool)
      modifies this
      ensures (Now(), ok) == SettingsModel.FlushFile(environment, old(Now()), name)
    {
      ok := Look();
      if ok {
        disk := disk.(unflushed := disk.unflushed - {name});
      }
    }

    method FlushDirectory() returns (ok: bool)
      modifies this
      ensures (Now(), ok) == SettingsModel.FlushDirectory(environment, old(Now()))
    {
      ok := Look();
      if ok {
        disk := disk.(settled := true);
      }
    }

    method Takeover(temporary: Name, target: Name, moved: bool)
      requires temporary in files
      modifies this
      ensures Now() == SettingsModel.Takeover(old(Now()), temporary, target, moved)
    {
      var linked := files[target := files[temporary]];
      Done(if moved then linked - {temporary} else linked);
      disk := Passed(disk, temporary, target);
      if moved {
        disk := Gone(disk, temporary);
      }
    }

    method TakeoverIf(ok: bool, temporary: Name, target: Name, moved: bool)
      requires ok ==> temporary in files
      modifies this
      ensures Now() == if ok then SettingsModel.Takeover(old(Now()), temporary, target, moved)
                       else Call(old(Now()), old(files))
    {
      if ok {
        Takeover(temporary, target, moved);
      } else {
        Done(files);
      }
    }

    method Rename(temporary: Name, target: Name) returns (ok: bool)
      modifies this
      ensures (Now(), ok) == SettingsModel.Rename(environment, old(Now()), temporary, target)
    {
      ok := !environment.answer(calls).fails && temporary in files
            && !(target in files && files[target] == Unsafe(true));
      TakeoverIf(ok, temporary, target, true);
    }

    method RenameNoReplace(temporary: Name, target: Name) returns (ok: bool)
      modifies this
      ensures (Now(), ok) == SettingsModel.RenameNoReplace(environment, old(Now()), temporary, target)
    {
      ok := !environment.answer(calls).fails && temporary in files && target !in files;
      TakeoverIf(ok, temporary, target, true);
    }

    method Link(temporary: Name, target: Name) returns (ok: bool)
      modifies this
      ensures (Now(), ok) == SettingsModel.Link(environment, old(Now()), temporary, target)
    {
      ok := !environment.answer(calls).fails && temporary in files && target !in files;
      TakeoverIf(ok, temporary, target, false);
    }

    // ---- The writer's routines ----

    method PathKind(name: Name) returns (kind: Kind)
      modifies this
      ensures (Now(), kind) == SettingsModel.PathKind(environment, old(Now()), name)
    {
      if environment.answer(calls).fails {
        kind := UnsafeKind;
      } else if name !in files {
        kind := MissingKind;
      } else {
        kind := if files[name].Regular? then RegularKind else UnsafeKind;
      }
      Done(files);
    }

    method ReadFile(name: Name, maximum: nat) returns (content: Option<Bytes>)
      modifies this
      ensures (Now(), content) == SettingsModel.ReadFile(environment, old(Now()), name, maximum)
      ensures files == old(files)
      ensures content.Some? ==> Holds(files, name, content.value) && |content.value| <= maximum
    {
      ReadFileExact(environment, Now(), name, maximum);
      var kind := PathKind(name);
      if kind != RegularKind { return None; }
      var held := Look();
      if !held { return None; }
      var measured := Look();
      var source := files[name].content;
      if !measured || |source| > maximum { return None; }
      content := ReadAll(source);
    }

    method ReadAll(source: Bytes) returns (content: Option<Bytes>)
      modifies this
      ensures (Now(), content) == ReadRest(environment, old(Now()), source, [])
    {
      var buffer: Bytes := [];
      while |buffer| < |source|
        invariant ReadRest(environment, Now(), source, buffer) == ReadRest(environment, old(Now()), source, [])
        decreases |source| - |buffer|
      {
        var count := Moved(environment, Now(), |source| - |buffer|);
        Done(files);
        if count == 0 { return None; }
        buffer := buffer + source[|buffer|..|buffer| + count];
      }
      return Some(buffer);
    }

    method WriteAll(name: Name, content: Bytes) returns (ok: bool)
      modifies this
      ensures (Now(), ok) == WriteRest(environment, old(Now()), name, content, 0)
    {
      var offset := 0;
      while offset < |content|
        invariant WriteRest(environment, Now(), name, content, offset)
                  == WriteRest(environment, old(Now()), name, content, 0)
        decreases |content| - offset
      {
        var count := Moved(environment, Now(), |content| - offset);
        if count == 0 {
          Done(files);
          return false;
        }
        Done(Appended(files, name, content[offset..offset + count]));
        disk := Grew(disk, name);
        offset := offset + count;
      }
      return true;
    }

    method InstallNoReplace(temporary: Name, target: Name) returns (ok: bool)
      modifies this
      ensures (Now(), ok) == SettingsModel.InstallNoReplace(environment, old(Now()), temporary, target)
    {
      if !environment.answer(calls).unsupported {
        ok := RenameNoReplace(temporary, target);
        return;
      }
      Done(files);
      ok := Link(temporary, target);
      if ok {
        var removal := Unlink(temporary);
        ok := removal == Removed;
      }
    }

    method Prepare(stage: Name, content: Bytes) returns (ok: bool)
      modifies this
      ensures (Now(), ok) == SettingsModel.Prepare(environment, old(Now()), stage, content)
    {
      ok := CreateStage(stage);
      if !ok { return; }
      ok := WriteAll(stage, content);
      if !ok { return; }
      ok := SetMode(stage);
      if ok {
        ok := FlushFile(stage);
      }
    }

    method Install(temporary: Name, target: Name, noReplace: bool) returns (ok: bool)
      modifies this
      ensures (Now(), ok) == SettingsModel.Install(environment, old(Now()), temporary, target, noReplace)
    {
      if noReplace {
        ok := InstallNoReplace(temporary, target);
      } else {
        ok := Rename(temporary, target);
      }
    }

    method WriteAtomic(name: Name, content: Bytes, noReplace: bool) returns (ok: bool)
      modifies this
      ensures (Now(), ok) == SettingsModel.WriteAtomic(environment, old(Now()), name, content, noReplace)
      ensures !name.Stage? ==>
                Through(old(Now()), Now(), {Named(old(files)), Installed(old(files), name, content)})
      ensures !name.Stage? && ok ==> Named(files) == Installed(old(files), name, content)
    {
      if !name.Stage? {
        WriteAtomicExact(environment, Now(), name, content, noReplace);
      }
      hide SettingsModel.WriteStage, Through, Named, Installed;
      var kind := PathKind(name);
      if kind == UnsafeKind || (noReplace && kind != MissingKind) { return false; }
      ok := WriteStage(name, content, noReplace);
    }

    method WriteStage(name: Name, content: Bytes, noReplace: bool) returns (ok: bool)
      modifies this
      ensures (Now(), ok) == SettingsModel.WriteStage(environment, old(Now()), name, content, noReplace)
    {
      hide SettingsModel.Prepare, SettingsModel.Install, SettingsModel.Unlink;
      counter := counter + 1;
      var stage := Stage(environment.process, counter);
      ok := Prepare(stage, content);
      if ok {
        ok := Install(stage, name, noReplace);
      }
      if ok {
        ok := FlushDirectory();
      } else {
        var _ := Unlink(stage);
      }
    }

    method RestoreFile(name: Name, content: Option<Bytes>)
      modifies this
      ensures Now() == SettingsModel.RestoreFile(environment, old(Now()), name, content)
    {
      hide SettingsModel.WriteAtomic, SettingsModel.Unlink;
      if content.Some? {
        var _ := WriteAtomic(name, content.value, false);
      } else {
        var _ := Unlink(name);
      }
    }

    method WriteBundle(content: Bytes, noReplace: bool) returns (ok: bool)
      modifies this
      ensures (Now(), ok) == SettingsModel.WriteBundle(environment, old(Now()), content, noReplace)
      ensures Through(old(Now()), Now(), BundleStates(environment, old(Now()), content))
      ensures ok ==> Named(files) == Bundled(Named(old(files)), content)
    {
      WriteBundleExact(environment, Now(), content, noReplace);
      hide SettingsModel.WriteAtomic, SettingsModel.ReadFile, SettingsModel.RestoreFile, Through, Named, Bundled,
        BundleStates;
      var oldSettings := ReadFile(Settings, MAX_SETTINGS_BYTES);
      var oldLastGood := ReadFile(LastGood, MAX_SETTINGS_BYTES);
      ok := WriteAtomic(Settings, content, noReplace);
      if !ok { return; }
      ok := WriteAtomic(LastGood, content, false);
      if ok { return; }
      RestoreFile(Settings, oldSettings);
      RestoreFile(LastGood, oldLastGood);
    }

    method BackupExact(source: Name, target: Name, maximum: nat, replace: bool) returns (ok: bool)
      modifies this
      ensures (Now(), ok) == SettingsModel.BackupExact(environment, old(Now()), source, target, maximum, replace)
    {
      hide SettingsModel.WriteAtomic, SettingsModel.ReadFile;
      var content := ReadFile(source, maximum);
      if content.None? { return false; }
      if !replace {
        var kind := PathKind(target);
        if kind == RegularKind {
          var existing := ReadFile(target, maximum);
          return existing == content;
        }
      }
      ok := WriteAtomic(target, content.value, !replace);
    }

    method PerformOperation(operation: Operation, content: Bytes) returns (ok: bool)
      modifies this
      ensures (Now(), ok) == Perform(environment, old(Now()), operation, content)
      ensures AllEvolve(operation, content, old(Now()), Now())
    {
      EveryCrashState(environment, Now(), operation, content);
      hide SettingsModel.WriteAtomic, SettingsModel.WriteBundle, SettingsModel.BackupExact, AllEvolve;
      match operation {
        case Write =>
          ok := WriteBundle(content, false);
        case Create =>
          ok := WriteBundle(content, true);
        case KeepLastGood =>
          ok := WriteAtomic(LastGood, content, false);
        case Migrate =>
          ok := BackupExact(Legacy, MigrationBackup, MAX_LEGACY_BYTES, false);
          if !ok { return; }
          ok := WriteBundle(content, true);
          if !ok { return; }
          var removal := Unlink(Legacy);
          ok := removal == Removed;
          if ok {
            ok := FlushDirectory();
          }
        case Upgrade =>
          ok := BackupExact(Settings, Version2Backup, MAX_SETTINGS_BYTES, false);
          if ok {
            ok := WriteBundle(content, false);
          }
        case Recover =>
          ok := BackupExact(Settings, InvalidBackup, MAX_SETTINGS_BYTES, true);
          if ok {
            ok := WriteBundle(content, false);
          }
      }
    }
  }
}
