/**
  * When nothing fails: exactly which directories each operation succeeds on, and exactly
  * when a rolled back bundle leaves both files as they were.
  */
module SettingsFaults {
  import opened Basics
  import opened SettingsModel
  import opened SettingsSteps
  import opened SettingsSafety
  import opened SettingsOperations

  ghost predicate Calm(e: Environment, first: nat, last: nat) {
    forall k :: first <= k < last ==> !e.answer(k).fails && e.answer(k).count > 0
  }

  // The next `count` stage names are not taken by leftovers of an earlier process with the same id.
  ghost predicate Free(e: Environment, w: World, count: nat) {
    forall k :: w.counter < k <= w.counter + count ==> Stage(e.process, k) !in w.files
  }

  // ---- Frames ----

  // No names but these came or went.
  ghost predicate Frame(a: World, b: World, names: set<Name>) {
    && a.calls <= b.calls && a.counter == b.counter
    && forall n: Name :: n !in names ==> (n in a.files <==> n in b.files)
  }

  lemma {:induction false} WriteRestFrame(e: Environment, w: World, name: Name, content: Bytes, offset: nat)
    ensures Frame(w, WriteRest(e, w, name, content, offset).0, {})
    decreases |content| - offset
  {
    if offset < |content| {
      var count := Moved(e, w, |content| - offset);
      if count > 0 {
        WriteRestFrame(e, Append(w, name, content[offset..offset + count]), name, content, offset + count);
      }
    }
  }

  lemma PrepareFrame(e: Environment, w: World, stage: Name, content: Bytes)
    ensures Frame(w, Prepare(e, w, stage, content).0, {stage})
    ensures Prepare(e, w, stage, content).1 ==> stage !in w.files
  {
    hide WriteRest;
    WriteRestFrame(e, CreateStage(e, w, stage).0, stage, content, 0);
  }

  lemma UnlinkFrame(e: Environment, w: World, name: Name)
    ensures Frame(w, Unlink(e, w, name).0, {name}) && Unlink(e, w, name).0.calls == w.calls + 1
  {
  }

  lemma RenameFrame(e: Environment, w: World, temporary: Name, target: Name)
    ensures Frame(w, Rename(e, w, temporary, target).0, {temporary, target})
    ensures Frame(w, RenameNoReplace(e, w, temporary, target).0, {temporary, target})
    ensures Frame(w, Link(e, w, temporary, target).0, {temporary, target})
  {
    hide Passed, Gone;
  }

  lemma InstallFrame(e: Environment, w: World, temporary: Name, target: Name, noReplace: bool)
    ensures Frame(w, Install(e, w, temporary, target, noReplace).0, {temporary, target})
  {
    hide Unlink, Rename, RenameNoReplace, Link;
    RenameFrame(e, w, temporary, target);
    if noReplace && e.answer(w.calls).unsupported {
      var tried := Call(w, w.files);
      RenameFrame(e, tried, temporary, target);
      UnlinkFrame(e, Link(e, tried, temporary, target).0, temporary);
    }
  }

  // A write takes at most one stage name, and touches no later one.
  ghost predicate TookOne(e: Environment, w: World, after: World, ok: bool) {
    && w.calls < after.calls
    && if after.counter == w.counter then !ok && after.files == w.files
       else after.counter == w.counter + 1
            && forall k :: k > w.counter + 1 ==>
                 (Stage(e.process, k) in after.files <==> Stage(e.process, k) in w.files)
  }

  lemma WriteAtomicFrame(e: Environment, w: World, name: Name, content: Bytes, noReplace: bool)
    requires !name.Stage?
    ensures var (after, ok) := WriteAtomic(e, w, name, content, noReplace); TookOne(e, w, after, ok)
  {
    hide Prepare, Install, Unlink;
    var seen := PathKind(e, w, name).0;
    var stage := Stage(e.process, seen.counter + 1);
    var numbered := seen.(counter := seen.counter + 1);
    var ready := Prepare(e, numbered, stage, content).0;
    PrepareFrame(e, numbered, stage, content);
    UnlinkFrame(e, ready, stage);
    InstallFrame(e, ready, stage, name, noReplace);
    UnlinkFrame(e, Install(e, ready, stage, name, noReplace).0, stage);
  }

  // What is free before a write is free after it, but for the name it takes.
  lemma FreeAfter(e: Environment, w: World, after: World, ok: bool, count: nat)
    requires TookOne(e, w, after, ok)
    ensures Free(e, w, count + 1) ==> Free(e, after, count)
    ensures ok ==> (Free(e, w, count + 1) <==> Free(e, w, 1) && Free(e, after, count))
  {
  }

  // ---- Calls that do not fail ----

  lemma {:induction false} ReadRestCalm(e: Environment, w: World, source: Bytes, buffer: Bytes)
    requires buffer <= source
    requires Calm(e, w.calls, ReadRest(e, w, source, buffer).0.calls)
    ensures ReadRest(e, w, source, buffer).1 == Some(source)
    decreases |source| - |buffer|
  {
    if |buffer| < |source| {
      var count := Moved(e, w, |source| - |buffer|);
      if count > 0 {
        var longer := buffer + source[|buffer|..|buffer| + count];
        ReadRestExact(e, Call(w, w.files), source, longer);
        ReadRestCalm(e, Call(w, w.files), source, longer);
      }
    } else {
      assert buffer == source;
    }
  }

  function Readable(files: Files, name: Name, maximum: nat): Option<Bytes> {
    if name in files && files[name].Regular? && |files[name].content| <= maximum then Some(files[name].content)
    else None
  }

  lemma ReadFileCalm(e: Environment, w: World, name: Name, maximum: nat)
    requires Calm(e, w.calls, ReadFile(e, w, name, maximum).0.calls)
    ensures ReadFile(e, w, name, maximum).1 == Readable(w.files, name, maximum)
  {
    hide ReadRest;
    ReadFileExact(e, w, name, maximum);
    var seen := PathKind(e, w, name).0;
    var held := Call(seen, seen.files);
    var measured := Call(held, held.files);
    if Readable(w.files, name, maximum).Some? {
      assert !Fails(e, w);
      if !Fails(e, seen) && !Fails(e, held) {
        ReadRestExact(e, measured, w.files[name].content, []);
        ReadRestCalm(e, measured, w.files[name].content, []);
      }
    }
  }

  lemma {:induction false} WriteRestCalm(e: Environment, w: World, name: Name, content: Bytes, offset: nat)
    requires Calm(e, w.calls, WriteRest(e, w, name, content, offset).0.calls)
    ensures WriteRest(e, w, name, content, offset).1
    decreases |content| - offset
  {
    if offset < |content| {
      var count := Moved(e, w, |content| - offset);
      if count > 0 {
        var next := Append(w, name, content[offset..offset + count]);
        WriteRestFrame(e, next, name, content, offset + count);
        WriteRestCalm(e, next, name, content, offset + count);
      }
    }
  }

  lemma PrepareCalm(e: Environment, w: World, stage: Name, content: Bytes)
    requires Calm(e, w.calls, Prepare(e, w, stage, content).0.calls)
    requires stage !in w.files
    ensures Prepare(e, w, stage, content).1
  {
    hide WriteRest;
    var created := CreateStage(e, w, stage).0;
    WriteRestFrame(e, created, stage, content, 0);
    if CreateStage(e, w, stage).1 {
      var written := WriteRest(e, created, stage, content, 0).0;
      if WriteRest(e, created, stage, content, 0).1 {
        assert Calm(e, written.calls, written.calls + 1);
      } else {
        WriteRestCalm(e, created, stage, content, 0);
      }
    }
  }

  lemma InstallCalm(e: Environment, w: World, stage: Name, name: Name, content: Bytes, noReplace: bool)
    requires Calm(e, w.calls, Install(e, w, stage, name, noReplace).0.calls)
    requires Holds(w.files, stage, content) && stage != name
    requires name in w.files ==> w.files[name].Regular? && !noReplace
    ensures Install(e, w, stage, name, noReplace).1
  {
  }

  lemma Within(e: Environment, first: nat, last: nat, a: nat, b: nat)
    requires Calm(e, first, last) && first <= a && b <= last
    ensures Calm(e, a, b)
  {
  }

  ghost predicate Writable(files: Files, name: Name, noReplace: bool) {
    name in files ==> files[name].Regular? && !noReplace
  }

  // Without faults a write succeeds exactly when its path is acceptable and its stage name free.
  lemma WriteAtomicCalm(e: Environment, w: World, name: Name, content: Bytes, noReplace: bool)
    requires Calm(e, w.calls, WriteAtomic(e, w, name, content, noReplace).0.calls)
    requires !name.Stage?
    ensures WriteAtomic(e, w, name, content, noReplace).1
            <==> Writable(w.files, name, noReplace) && Free(e, w, 1)
  {
    hide Prepare, Install, Unlink;
    var last := WriteAtomic(e, w, name, content, noReplace).0.calls;
    var seen := PathKind(e, w, name).0;
    var stage := Stage(e.process, seen.counter + 1);
    var numbered := seen.(counter := seen.counter + 1);
    var (ready, prepared) := Prepare(e, numbered, stage, content);
    PrepareFrame(e, numbered, stage, content);
    PrepareExact(e, numbered, stage, content);
    InstallFrame(e, ready, stage, name, noReplace);
    UnlinkFrame(e, ready, stage);
    UnlinkFrame(e, Install(e, ready, stage, name, noReplace).0, stage);
    WriteAtomicFrame(e, w, name, content, noReplace);
    assert !Fails(e, w);
    assert Free(e, w, 1) <==> stage !in w.files;
    if Writable(w.files, name, noReplace) && stage !in w.files {
      Within(e, w.calls, last, numbered.calls, ready.calls);
      PrepareCalm(e, numbered, stage, content);
      NamedKeeps(w, ready, name);
      var placed := Install(e, ready, stage, name, noReplace).0;
      Within(e, w.calls, last, ready.calls, placed.calls);
      InstallCalm(e, ready, stage, name, content, noReplace);
      Within(e, w.calls, last, placed.calls, placed.calls + 1);
    }
  }

  // ---- When a write takes effect ----

  // The stage file got its final name, whatever failed afterwards.
  ghost predicate Placed(e: Environment, w: World, stage: Name, name: Name, noReplace: bool) {
    if noReplace && e.answer(w.calls).unsupported then Link(e, Call(w, w.files), stage, name).1
    else Install(e, w, stage, name, noReplace).1
  }

  // The path was acceptable, the stage file complete and flushed, and then placed.
  ghost predicate TookEffect(e: Environment, w: World, name: Name, content: Bytes, noReplace: bool) {
    var (seen, kind) := PathKind(e, w, name);
    var stage := Stage(e.process, seen.counter + 1);
    var (ready, prepared) := Prepare(e, seen.(counter := seen.counter + 1), stage, content);
    && kind != UnsafeKind && (noReplace ==> kind == MissingKind)
    && prepared && Placed(e, ready, stage, name, noReplace)
  }

  lemma PlacedExactly(e: Environment, w: World, stage: Name, name: Name, content: Bytes, noReplace: bool)
    requires stage.Stage? && !name.Stage? && Holds(w.files, stage, content)
    ensures var (after, ok) := Install(e, w, stage, name, noReplace);
      && Named(after.files)
           == (if Placed(e, w, stage, name, noReplace) then Installed(w.files, name, content) else Named(w.files))
      && (ok ==> Placed(e, w, stage, name, noReplace))
  {
    MovedIn(w.files, stage, name, content);
    if noReplace && e.answer(w.calls).unsupported {
      UnlinkStageQuiet(e, Link(e, Call(w, w.files), stage, name).0, stage);
    }
  }

  // A write, successful or not, is all or nothing, and this says which.
  lemma TakesEffectExactly(e: Environment, w: World, name: Name, content: Bytes, noReplace: bool)
    requires !name.Stage?
    ensures var (after, ok) := WriteAtomic(e, w, name, content, noReplace);
      && Named(after.files)
           == (if TookEffect(e, w, name, content, noReplace) then Installed(w.files, name, content)
               else Named(w.files))
      && (ok ==> TookEffect(e, w, name, content, noReplace))
  {
    hide Prepare, Install, Placed, Unlink, Named;
    var seen := PathKind(e, w, name).0;
    var stage := Stage(e.process, seen.counter + 1);
    var numbered := seen.(counter := seen.counter + 1);
    var (ready, prepared) := Prepare(e, numbered, stage, content);
    PrepareExact(e, numbered, stage, content);
    UnlinkStageQuiet(e, ready, stage);
    if prepared {
      PlacedExactly(e, ready, stage, name, content, noReplace);
      UnlinkStageQuiet(e, Install(e, ready, stage, name, noReplace).0, stage);
    }
  }

  // ---- The rollback ----

  // Both files were missing or readable; a last-good directory cannot be removed either.
  ghost predicate Recoverable(files: Files) {
    Remembered(files, Readable(files, Settings, MAX_SETTINGS_BYTES), Readable(files, LastGood, MAX_SETTINGS_BYTES))
  }

  // What was read before the first write is enough to put both files back.
  ghost predicate Remembered(d: Files, oldSettings: Option<Bytes>, oldLastGood: Option<Bytes>) {
    && (Settings in d ==> oldSettings.Some?)
    && (LastGood in d ==> oldLastGood.Some? || d[LastGood] == Unsafe(true))
  }

  lemma RestoreCalm(e: Environment, w: World, name: Name, content: Option<Bytes>)
    requires Calm(e, w.calls, RestoreFile(e, w, name, content).calls)
    requires Free(e, w, 1) && !name.Stage?
    requires name in w.files && content.Some? ==> w.files[name].Regular?
    ensures Free(e, w, 2) ==> Free(e, RestoreFile(e, w, name, content), 1)
    ensures w.calls < RestoreFile(e, w, name, content).calls
    ensures Named(RestoreFile(e, w, name, content).files)
            == if content.None? && name in w.files && w.files[name] == Unsafe(true) then Named(w.files)
               else Restored(name, Named(w.files), content)
  {
    hide WriteAtomic;
    if content.Some? {
      WriteAtomicCalm(e, w, name, content.value, false);
      WriteAtomicExact(e, w, name, content.value, false);
      WriteAtomicFrame(e, w, name, content.value, false);
      FreeAfter(e, w, RestoreFile(e, w, name, content), WriteAtomic(e, w, name, content.value, false).1, 1);
    } else {
      NamedDrop(w.files, name);
    }
  }

  // The directory after the two writes: settings replaced, and last-good too if that was possible.
  ghost predicate Rewritten(d: Files, x: Files, content: Bytes) {
    || x == d[Settings := Regular(content)]
    || (x == d[Settings := Regular(content)][LastGood := Regular(content)]
        && (LastGood in d ==> d[LastGood].Regular?))
  }

  lemma UndoCalm(e: Environment, w: World, d: Files, content: Bytes, oldSettings: Option<Bytes>,
                 oldLastGood: Option<Bytes>)
    requires Rewritten(d, Named(w.files), content)
    requires Read(d, Settings, oldSettings) && Read(d, LastGood, oldLastGood)
    requires Calm(e, w.calls, Undo(e, w, oldSettings, oldLastGood).calls) && Free(e, w, 2)
    ensures Named(Undo(e, w, oldSettings, oldLastGood).files) == d <==> Remembered(d, oldSettings, oldLastGood)
  {
    hide RestoreFile;
    var first := RestoreFile(e, w, Settings, oldSettings);
    var last := Undo(e, w, oldSettings, oldLastGood);
    RestoreTicks(e, w, Settings, oldSettings);
    RestoreTicks(e, first, LastGood, oldLastGood);
    NamedHas(w.files, Settings);
    Within(e, w.calls, last.calls, w.calls, first.calls);
    RestoreCalm(e, w, Settings, oldSettings);
    NamedHas(first.files, LastGood);
    Within(e, w.calls, last.calls, first.calls, last.calls);
    RestoreCalm(e, first, LastGood, oldLastGood);
    UndoneIs(d, Named(w.files), content, oldSettings, oldLastGood);
  }

  lemma RestoreTicks(e: Environment, w: World, name: Name, content: Option<Bytes>)
    requires !name.Stage?
    ensures w.calls < RestoreFile(e, w, name, content).calls
  {
    hide WriteAtomic;
    if content.Some? {
      WriteAtomicFrame(e, w, name, content.value, false);
    }
  }

  lemma UndoneIs(d: Files, x: Files, content: Bytes, oldSettings: Option<Bytes>, oldLastGood: Option<Bytes>)
    requires Rewritten(d, x, content)
    requires Read(d, Settings, oldSettings) && Read(d, LastGood, oldLastGood)
    ensures var first := Restored(Settings, x, oldSettings);
      var after := if oldLastGood.None? && LastGood in first && first[LastGood] == Unsafe(true) then first
                   else Restored(LastGood, first, oldLastGood);
      after == d <==> Remembered(d, oldSettings, oldLastGood)
  {
    var first := Restored(Settings, x, oldSettings);
    var after := if oldLastGood.None? && LastGood in first && first[LastGood] == Unsafe(true) then first
                 else Restored(LastGood, first, oldLastGood);
    if Remembered(d, oldSettings, oldLastGood) {
      assert after == d;
    } else if Settings in d && oldSettings.None? {
      assert Settings !in after;
    } else {
      assert LastGood in d && LastGood !in after;
    }
  }

  // Whatever failed, as long as the restores do not fault and find their stage names free: if the settings
  // write failed, both files are as they were unless it took effect all the same; if it succeeded, they are
  // put back exactly when what was read before is enough for that.
  lemma FailedBundleExactly(e: Environment, w: World, content: Bytes, noReplace: bool)
    requires !WriteBundle(e, w, content, noReplace).1
    requires
      var first := ReadFile(e, w, Settings, MAX_SETTINGS_BYTES).0;
      var second := ReadFile(e, first, LastGood, MAX_SETTINGS_BYTES).0;
      var (third, written) := WriteAtomic(e, second, Settings, content, noReplace);
      var fourth := WriteAtomic(e, third, LastGood, content, false).0;
      written ==> Calm(e, fourth.calls, WriteBundle(e, w, content, noReplace).0.calls) && Free(e, fourth, 2)
    ensures
      var first := ReadFile(e, w, Settings, MAX_SETTINGS_BYTES).0;
      var second := ReadFile(e, first, LastGood, MAX_SETTINGS_BYTES).0;
      var written := WriteAtomic(e, second, Settings, content, noReplace).1;
      Named(WriteBundle(e, w, content, noReplace).0.files) == Named(w.files)
      <==> if written then Remembered(Named(w.files), OldSettings(e, w), OldLastGood(e, w))
           else TookEffect(e, second, Settings, content, noReplace) ==> Holds(w.files, Settings, content)
  {
    hide ReadFile, WriteAtomic, RestoreFile, Remembered, Named, TookEffect;
    var first := ReadFile(e, w, Settings, MAX_SETTINGS_BYTES).0;
    var second := ReadFile(e, first, LastGood, MAX_SETTINGS_BYTES).0;
    var (third, written) := WriteAtomic(e, second, Settings, content, noReplace);
    BundleReads(e, w);
    ReadFileExact(e, w, Settings, MAX_SETTINGS_BYTES);
    ReadFileExact(e, first, LastGood, MAX_SETTINGS_BYTES);
    NamedHas(w.files, Settings);
    NamedHas(w.files, LastGood);
    TakesEffectExactly(e, second, Settings, content, noReplace);
    if written {
      var fourth := WriteAtomic(e, third, LastGood, content, false).0;
      WriteAtomicFrame(e, second, Settings, content, noReplace);
      WriteAtomicFrame(e, third, LastGood, content, false);
      SecondWrite(e, third, Named(w.files), content);
      UndoCalm(e, fourth, Named(w.files), content, OldSettings(e, w), OldLastGood(e, w));
    } else {
      PutBack(Named(w.files), content);
    }
  }

  lemma PutBack(d: Files, content: Bytes)
    ensures d[Settings := Regular(content)] == d <==> Holds(d, Settings, content)
  {
  }

  lemma SecondWrite(e: Environment, w: World, d: Files, content: Bytes)
    requires Named(w.files) == d[Settings := Regular(content)]
    ensures Rewritten(d, Named(WriteAtomic(e, w, LastGood, content, false).0.files), content)
  {
    hide WriteAtomic, Prepare, Placed;
    TakesEffectExactly(e, w, LastGood, content, false);
    NamedHas(w.files, LastGood);
  }

  // If the reads do not fault either, a bundle that fails after its settings write leaves both files as they
  // were exactly when each was missing or readable, or last-good was a directory.
  lemma RollbackExactly(e: Environment, w: World, content: Bytes, noReplace: bool)
    requires !WriteBundle(e, w, content, noReplace).1
    requires
      var first := ReadFile(e, w, Settings, MAX_SETTINGS_BYTES).0;
      var second := ReadFile(e, first, LastGood, MAX_SETTINGS_BYTES).0;
      var (third, written) := WriteAtomic(e, second, Settings, content, noReplace);
      var fourth := WriteAtomic(e, third, LastGood, content, false).0;
      && written && Calm(e, w.calls, second.calls)
      && Calm(e, fourth.calls, WriteBundle(e, w, content, noReplace).0.calls) && Free(e, fourth, 2)
    ensures Named(WriteBundle(e, w, content, noReplace).0.files) == Named(w.files) <==> Recoverable(Named(w.files))
  {
    hide ReadFile, WriteAtomic, RestoreFile, Remembered, Named, TookEffect;
    var first := ReadFile(e, w, Settings, MAX_SETTINGS_BYTES).0;
    var second := ReadFile(e, first, LastGood, MAX_SETTINGS_BYTES).0;
    ReadFileExact(e, w, Settings, MAX_SETTINGS_BYTES);
    ReadFileExact(e, first, LastGood, MAX_SETTINGS_BYTES);
    Within(e, w.calls, second.calls, w.calls, first.calls);
    Within(e, w.calls, second.calls, first.calls, second.calls);
    ReadFileCalm(e, w, Settings, MAX_SETTINGS_BYTES);
    ReadFileCalm(e, first, LastGood, MAX_SETTINGS_BYTES);
    ReadableNamed(w.files, Settings, MAX_SETTINGS_BYTES);
    ReadableNamed(w.files, LastGood, MAX_SETTINGS_BYTES);
    FailedBundleExactly(e, w, content, noReplace);
  }

  lemma ReadableNamed(files: Files, name: Name, maximum: nat)
    requires !name.Stage?
    ensures Readable(files, name, maximum) == Readable(Named(files), name, maximum)
  {
  }

  // ---- Success ----

  ghost predicate BundleReady(d: Files, noReplace: bool) {
    Writable(d, Settings, noReplace) && Writable(d, LastGood, false)
  }

  lemma WritableNamed(files: Files, name: Name, noReplace: bool)
    requires !name.Stage?
    ensures Writable(files, name, noReplace) <==> Writable(Named(files), name, noReplace)
  {
  }

  lemma BundleCalm(e: Environment, w: World, content: Bytes, noReplace: bool)
    requires forall last :: Calm(e, w.calls, last)
    ensures WriteBundle(e, w, content, noReplace).1 <==> BundleReady(Named(w.files), noReplace) && Free(e, w, 2)
  {
    hide ReadFile, WriteAtomic, RestoreFile, Named, Writable, Free, TookOne, Calm;
    var first := ReadFile(e, w, Settings, MAX_SETTINGS_BYTES).0;
    var second := ReadFile(e, first, LastGood, MAX_SETTINGS_BYTES).0;
    BundleReads(e, w);
    FreeSame(e, w, second, 1);
    FreeSame(e, w, second, 2);
    var (third, written) := WriteAtomic(e, second, Settings, content, noReplace);
    CalmOn(e, w.calls, second.calls, third.calls);
    WriteAtomicCalm(e, second, Settings, content, noReplace);
    WriteAtomicFrame(e, second, Settings, content, noReplace);
    FreeAfter(e, second, third, written, 1);
    FreeFewer(e, second);
    WritableNamed(w.files, Settings, noReplace);
    if written {
      var fourth := WriteAtomic(e, third, LastGood, content, false).0;
      WriteAtomicExact(e, second, Settings, content, noReplace);
      assert w.calls < third.calls by { TookCalls(e, second, third, written); }
      CalmOn(e, w.calls, third.calls, fourth.calls);
      WriteAtomicCalm(e, third, LastGood, content, false);
      WritableNamed(third.files, LastGood, false);
      WritableElsewhere(Named(w.files), content);
    }
  }

  lemma TookCalls(e: Environment, w: World, after: World, ok: bool)
    requires TookOne(e, w, after, ok)
    ensures w.calls < after.calls
  {
  }

  lemma FreeFewer(e: Environment, w: World)
    ensures Free(e, w, 2) ==> Free(e, w, 1)
  {
  }

  lemma WritableElsewhere(d: Files, content: Bytes)
    ensures Writable(d[Settings := Regular(content)], LastGood, false) <==> Writable(d, LastGood, false)
  {
  }

  lemma FreeSame(e: Environment, w: World, v: World, count: nat)
    requires v.files == w.files && v.counter == w.counter
    ensures Free(e, w, count) <==> Free(e, v, count)
  {
  }

  lemma CalmOn(e: Environment, first: nat, a: nat, last: nat)
    requires forall b :: Calm(e, first, b)
    requires first <= a
    ensures Calm(e, a, last)
    ensures forall b :: Calm(e, a, b)
  {
    forall b
      ensures Calm(e, a, b)
    {
      assert Calm(e, first, b);
    }
  }

  // The backup's target is free, already the exact source, or may be replaced.
  ghost predicate BackupReady(operation: Operation, d: Files) {
    var source, target := BackupSource(operation), BackupTarget(operation);
    && Readable(d, source, BackupLimit(operation)).Some?
    && (target in d ==> if operation == Recover then d[target].Regular? else d[target] == d[source])
  }

  // How many stage names a backup takes: none when it is only compared with an existing one.
  function BackupWrites(operation: Operation, d: Files): nat {
    if operation == Recover || BackupTarget(operation) !in d then 1 else 0
  }

  // Of the stage names free before, so many were taken; the next two are as before.
  ghost predicate Leaves(e: Environment, w: World, after: World, taken: nat) {
    w.calls < after.calls && (Free(e, w, taken + 2) <==> Free(e, w, taken) && Free(e, after, 2))
  }

  lemma WriteLeaves(e: Environment, w: World, name: Name, content: Bytes, noReplace: bool)
    requires !name.Stage? && WriteAtomic(e, w, name, content, noReplace).1
    ensures Leaves(e, w, WriteAtomic(e, w, name, content, noReplace).0, 1)
  {
    hide WriteAtomic;
    WriteAtomicFrame(e, w, name, content, noReplace);
    FreeAfter(e, w, WriteAtomic(e, w, name, content, noReplace).0, true, 2);
  }

  lemma LeavesSame(e: Environment, w: World, v: World, after: World, taken: nat)
    requires v.files == w.files && v.counter == w.counter && w.calls <= v.calls && Leaves(e, v, after, taken)
    ensures Leaves(e, w, after, taken)
  {
    FreeSame(e, w, v, taken);
    FreeSame(e, w, v, taken + 2);
  }

  lemma BackupCalm(e: Environment, w: World, operation: Operation)
    requires Backs(operation)
    requires forall last :: Calm(e, w.calls, last)
    ensures var taken := BackupWrites(operation, Named(w.files));
      var (after, ok) := Backup(e, w, operation);
      && (ok <==> BackupReady(operation, Named(w.files)) && Free(e, w, taken))
      && (ok ==> Leaves(e, w, after, taken))
  {
    hide ReadFile, WriteAtomic, Named, Free, Calm, Leaves;
    var source, target := BackupSource(operation), BackupTarget(operation);
    var limit := BackupLimit(operation);
    var (first, content) := ReadFile(e, w, source, limit);
    ReadFileExact(e, w, source, limit);
    ReadFileCalm(e, w, source, limit);
    ReadableNamed(w.files, source, limit);
    FreeSame(e, w, first, BackupWrites(operation, Named(w.files)));
    CalmOn(e, w.calls, first.calls, first.calls);
    NamedHas(w.files, target);
    NamedHas(w.files, source);
    if content.Some? {
      var after := Backup(e, w, operation).0;
      if operation == Recover {
        assert Calm(e, first.calls, after.calls);
        WriteAtomicCalm(e, first, target, content.value, false);
        if Backup(e, w, operation).1 {
          WriteLeaves(e, first, target, content.value, false);
          LeavesSame(e, w, first, after, 1);
        }
      } else {
        BackupOnceCalm(e, first, target, content.value, limit);
        if Backup(e, w, operation).1 {
          LeavesSame(e, w, first, after, BackupWrites(operation, Named(w.files)));
        }
      }
    }
  }

  lemma BackupOnceCalm(e: Environment, first: World, target: Name, content: Bytes, maximum: nat)
    requires !target.Stage? && |content| <= maximum
    requires forall last :: Calm(e, first.calls, last)
    ensures var (second, kind) := PathKind(e, first, target);
      var (after, ok) := if kind != RegularKind then WriteAtomic(e, second, target, content, true)
                         else var (third, existing) := ReadFile(e, second, target, maximum);
                              (third, existing == Some(content));
      var taken := if target in first.files then 0 else 1;
      && (ok <==> (target in first.files ==> first.files[target] == Regular(content)) && Free(e, first, taken))
      && (ok ==> Leaves(e, first, after, taken))
  {
    hide ReadFile, WriteAtomic, Free, Calm, Leaves;
    var (second, kind) := PathKind(e, first, target);
    FreeSame(e, first, second, 1);
    FreeNone(e, first);
    CalmOn(e, first.calls, second.calls, second.calls);
    CalmNow(e, first);
    if kind != RegularKind {
      WriteAtomicCalm(e, second, target, content, true);
      if WriteAtomic(e, second, target, content, true).1 {
        WriteLeaves(e, second, target, content, true);
        LeavesSame(e, first, second, WriteAtomic(e, second, target, content, true).0, 1);
      }
    } else {
      var third := ReadFile(e, second, target, maximum).0;
      ReadFileExact(e, second, target, maximum);
      ReadFileCalm(e, second, target, maximum);
      LeavesNone(e, first, third);
    }
  }

  lemma FreeNone(e: Environment, w: World)
    ensures Free(e, w, 0)
  {
  }

  lemma LeavesNone(e: Environment, w: World, after: World)
    requires after.files == w.files && after.counter == w.counter && w.calls < after.calls
    ensures Leaves(e, w, after, 0)
  {
    FreeSame(e, w, after, 2);
  }

  lemma CalmNow(e: Environment, w: World)
    requires forall last :: Calm(e, w.calls, last)
    ensures !Fails(e, w)
  {
    assert Calm(e, w.calls, w.calls + 1);
  }

  // The directories an operation is meant for.
  ghost predicate Ready(operation: Operation, d: Files) {
    match operation
    case Write => BundleReady(d, false)
    case Create => BundleReady(d, true)
    case KeepLastGood => Writable(d, LastGood, false)
    case Migrate => BackupReady(Migrate, d) && BundleReady(d, true)
    case _ => BackupReady(operation, d) && BundleReady(d, false)
  }

  // How many stage names an operation takes in all.
  function Stages(operation: Operation, d: Files): nat {
    match operation
    case KeepLastGood => 1
    case Write => 2
    case Create => 2
    case _ => BackupWrites(operation, d) + 2
  }

  lemma ReadyAfterBackup(operation: Operation, d: Files, noReplace: bool)
    requires Backs(operation) && BackupReady(operation, d)
    ensures BundleReady(Put(d, BackupTarget(operation), At(d, BackupSource(operation))), noReplace)
            <==> BundleReady(d, noReplace)
  {
  }

  // Without faults an operation succeeds exactly on the directories it is meant for, as long as no
  // leftover has one of the stage names it takes.
  lemma SucceedsExactly(e: Environment, w: World, operation: Operation, content: Bytes)
    requires forall last :: Calm(e, w.calls, last)
    ensures Perform(e, w, operation, content).1
            <==> Ready(operation, Named(w.files)) && Free(e, w, Stages(operation, Named(w.files)))
  {
    hide WriteBundle, WriteAtomic, BackupExact, Named, Free, Calm, BackupReady, BundleReady, Writable, Leaves;
    match operation {
      case Write => BundleCalm(e, w, content, false);
      case Create => BundleCalm(e, w, content, true);
      case KeepLastGood =>
        assert Calm(e, w.calls, WriteAtomic(e, w, LastGood, content, false).0.calls);
        WriteAtomicCalm(e, w, LastGood, content, false);
        WritableNamed(w.files, LastGood, false);
      case _ =>
        BackupCalm(e, w, operation);
        BackupEvolves(e, w, operation, content);
        var (backed, saved) := Backup(e, w, operation);
        var taken := BackupWrites(operation, Named(w.files));
        FreeMore(e, w, taken);
        if saved {
          LeavesIs(e, w, backed, taken);
          CalmOn(e, w.calls, backed.calls, backed.calls);
          BundleCalm(e, backed, content, operation == Migrate);
          ReadyAfterBackup(operation, Named(w.files), operation == Migrate);
          if operation == Migrate {
            MigrateCalm(e, w, backed, content);
          }
        }
    }
  }

  lemma LeavesIs(e: Environment, w: World, after: World, taken: nat)
    requires Leaves(e, w, after, taken)
    ensures w.calls < after.calls && (Free(e, w, taken + 2) <==> Free(e, w, taken) && Free(e, after, 2))
  {
  }

  lemma FreeMore(e: Environment, w: World, count: nat)
    ensures Free(e, w, count + 2) ==> Free(e, w, count)
  {
  }

  lemma {:induction false} BundleTicks(e: Environment, w: World, content: Bytes, noReplace: bool)
    ensures w.calls < WriteBundle(e, w, content, noReplace).0.calls
  {
    hide ReadFile, WriteAtomic, RestoreFile;
    BundleReads(e, w);
    var second := ReadFile(e, ReadFile(e, w, Settings, MAX_SETTINGS_BYTES).0, LastGood, MAX_SETTINGS_BYTES).0;
    var third := WriteAtomic(e, second, Settings, content, noReplace).0;
    var fourth := WriteAtomic(e, third, LastGood, content, false).0;
    WriteAtomicFrame(e, second, Settings, content, noReplace);
    WriteAtomicFrame(e, third, LastGood, content, false);
    RestoreTicks(e, fourth, Settings, OldSettings(e, w));
    RestoreTicks(e, RestoreFile(e, fourth, Settings, OldSettings(e, w)), LastGood, OldLastGood(e, w));
  }

  lemma MigrateCalm(e: Environment, w: World, backed: World, content: Bytes)
    requires forall last :: Calm(e, w.calls, last)
    requires w.calls < backed.calls
    requires Readable(Named(w.files), Legacy, MAX_LEGACY_BYTES).Some?
    requires Named(backed.files) == Put(Named(w.files), MigrationBackup, At(Named(w.files), Legacy))
    ensures WriteBundle(e, backed, content, true).1 ==> FinishMigration(e, WriteBundle(e, backed, content, true).0).1
  {
    hide WriteBundle, Calm;
    var (bundled, written) := WriteBundle(e, backed, content, true);
    if written {
      WriteBundleExact(e, backed, content, true);
      BundleTicks(e, backed, content, true);
      CalmOn(e, w.calls, bundled.calls, bundled.calls);
      CalmNow(e, bundled);
      NamedHas(bundled.files, Legacy);
      var removed := Unlink(e, bundled, Legacy).0;
      CalmOn(e, bundled.calls, removed.calls, removed.calls);
      CalmNow(e, removed);
    }
  }

  // ---- Stage files ----

  ghost predicate NoDirectory(files: Files, name: Name) {
    name in files ==> files[name] != Unsafe(true)
  }

  lemma {:induction false} WriteRestNoDirectory(e: Environment, w: World, name: Name, content: Bytes, offset: nat)
    requires NoDirectory(w.files, name)
    ensures NoDirectory(WriteRest(e, w, name, content, offset).0.files, name)
    decreases |content| - offset
  {
    if offset < |content| && Moved(e, w, |content| - offset) > 0 {
      var count := Moved(e, w, |content| - offset);
      WriteRestNoDirectory(e, Append(w, name, content[offset..offset + count]), name, content, offset + count);
    }
  }

  lemma PrepareNoDirectory(e: Environment, w: World, stage: Name, content: Bytes)
    requires NoDirectory(w.files, stage)
    ensures NoDirectory(Prepare(e, w, stage, content).0.files, stage)
  {
    hide WriteRest;
    WriteRestNoDirectory(e, CreateStage(e, w, stage).0, stage, content, 0);
  }

  lemma UnlinkRemoves(e: Environment, w: World, name: Name)
    requires NoDirectory(w.files, name) && !Fails(e, w)
    ensures name !in Unlink(e, w, name).0.files
  {
  }

  lemma RenameRemoves(e: Environment, w: World, stage: Name, name: Name)
    requires stage != name && NoDirectory(w.files, stage)
    ensures var (placed, ok) := Rename(e, w, stage, name);
      NoDirectory(placed.files, stage) && (ok ==> stage !in placed.files)
    ensures var (placed, ok) := RenameNoReplace(e, w, stage, name);
      NoDirectory(placed.files, stage) && (ok ==> stage !in placed.files)
    ensures NoDirectory(Link(e, w, stage, name).0.files, stage)
  {
    hide Passed, Gone;
  }

  lemma UnlinkedRemoves(e: Environment, w: World, stage: Name)
    requires NoDirectory(w.files, stage)
    ensures var (after, removal) := Unlink(e, w, stage);
      NoDirectory(after.files, stage) && (removal == Removed ==> stage !in after.files)
  {
  }

  lemma InstallRemoves(e: Environment, w: World, stage: Name, name: Name, noReplace: bool)
    requires stage != name && NoDirectory(w.files, stage)
    ensures var (placed, installed) := Install(e, w, stage, name, noReplace);
      NoDirectory(placed.files, stage) && (installed ==> stage !in placed.files)
  {
    hide Rename, RenameNoReplace, Link, Unlink, NoDirectory;
    RenameRemoves(e, w, stage, name);
    if noReplace && e.answer(w.calls).unsupported {
      var tried := Call(w, w.files);
      assert tried.files == w.files;
      RenameRemoves(e, tried, stage, name);
      UnlinkedRemoves(e, Link(e, tried, stage, name).0, stage);
    }
  }

  // Whether a write succeeds or fails, at whatever step, its stage file is gone afterwards, unless the
  // call that would have removed it failed too, or a directory has its name.
  lemma StageIsRemoved(e: Environment, w: World, name: Name, content: Bytes, noReplace: bool, last: nat)
    requires !name.Stage? && NoDirectory(w.files, Stage(e.process, w.counter + 1))
    requires WriteAtomic(e, w, name, content, noReplace).0.calls == last + 1 && !e.answer(last).fails
    ensures var after := WriteAtomic(e, w, name, content, noReplace).0;
      after.counter > w.counter ==> Stage(e.process, w.counter + 1) !in after.files
  {
    hide Prepare, Install, Unlink, NoDirectory;
    var seen := PathKind(e, w, name).0;
    assert seen.files == w.files;
    var stage := Stage(e.process, seen.counter + 1);
    var numbered := seen.(counter := seen.counter + 1);
    var ready := Prepare(e, numbered, stage, content).0;
    var placed := Install(e, ready, stage, name, noReplace).0;
    PrepareNoDirectory(e, numbered, stage, content);
    InstallRemoves(e, ready, stage, name, noReplace);
    UnlinkFrame(e, ready, stage);
    UnlinkFrame(e, placed, stage);
    if !Fails(e, ready) {
      UnlinkRemoves(e, ready, stage);
    }
    if !Fails(e, placed) {
      UnlinkRemoves(e, placed, stage);
    }
  }
}
