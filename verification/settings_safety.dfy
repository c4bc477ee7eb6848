/**
  * The settings directory over whole operations and over any sequence of them, each cut
  * short anywhere: what a user can lose, and what can never be lost.
  */
module SettingsSafety {
  import opened Basics
  import opened SettingsModel
  import opened SettingsSteps

  function At(files: Files, name: Name): (entry: Option<Entry>) {
    if name in files then Some(files[name]) else None
  }

  function Put(files: Files, name: Name, entry: Option<Entry>): Files {
    if entry.Some? then files[name := entry.value] else files - {name}
  }

  // The directories with one of the given entries under each of the two bundle names.
  function Versions(d: Files, settings: set<Option<Entry>>, lastGood: set<Option<Entry>>): set<Files> {
    set s, l | s in settings && l in lastGood :: Put(Put(d, Settings, s), LastGood, l)
  }

  // The old entry, the complete new content, and nothing at all when the old was not read.
  function Choices(d: Files, name: Name, content: Bytes, read: Option<Bytes>): set<Option<Entry>> {
    {At(d, name), Some(Regular(content))} + if read.None? then {None} else {}
  }

  lemma VersionsHas(d: Files, settings: set<Option<Entry>>, lastGood: set<Option<Entry>>, x: Files,
                    s: Option<Entry>, l: Option<Entry>)
    requires s in settings && l in lastGood && x == Put(Put(d, Settings, s), LastGood, l)
    ensures x in Versions(d, settings, lastGood)
  {
  }

  // ---- Restoring ----

  function Restored(name: Name, d: Files, content: Option<Bytes>): Files {
    Put(d, name, if content.Some? then Some(Regular(content.value)) else None)
  }

  lemma RestoreFileExact(e: Environment, w: World, name: Name, content: Option<Bytes>)
    requires !name.Stage?
    ensures Through(w, RestoreFile(e, w, name, content),
                    {Named(w.files), Restored(name, Named(w.files), content)})
  {
    hide WriteAtomic;
    if content.Some? {
      WriteAtomicExact(e, w, name, content.value, false);
    } else {
      NamedDrop(w.files, name);
      CallThrough(w, Unlink(e, w, name).0.files);
      Widen(w, Unlink(e, w, name).0, {Named(Unlink(e, w, name).0.files)},
            {Named(w.files), Restored(name, Named(w.files), content)});
    }
  }

  // After both writes of a bundle, the second of which failed.
  function Undo(e: Environment, w: World, oldSettings: Option<Bytes>, oldLastGood: Option<Bytes>): World {
    RestoreFile(e, RestoreFile(e, w, Settings, oldSettings), LastGood, oldLastGood)
  }

  ghost predicate Read(d: Files, name: Name, read: Option<Bytes>) {
    read.Some? ==> At(d, name) == Some(Regular(read.value))
  }

  lemma UndoThrough(e: Environment, w: World, d: Files, content: Bytes, oldSettings: Option<Bytes>,
                    oldLastGood: Option<Bytes>)
    requires Read(d, Settings, oldSettings) && Read(d, LastGood, oldLastGood)
    requires var s, l := Choices(d, Settings, content, oldSettings), Choices(d, LastGood, content, oldLastGood);
             Named(w.files) in Versions(d, s, l)
    ensures var s, l := Choices(d, Settings, content, oldSettings), Choices(d, LastGood, content, oldLastGood);
            Through(w, Undo(e, w, oldSettings, oldLastGood), Versions(d, s, l))
  {
    hide RestoreFile;
    var s, l := Choices(d, Settings, content, oldSettings), Choices(d, LastGood, content, oldLastGood);
    var all := Versions(d, s, l);
    var first := RestoreFile(e, w, Settings, oldSettings);
    RestoreFileExact(e, w, Settings, oldSettings);
    RestoredVersion(d, Named(w.files), Settings, content, oldSettings, oldLastGood);
    Widen(w, first, {Named(w.files), Restored(Settings, Named(w.files), oldSettings)}, all);
    RestoreFileExact(e, first, LastGood, oldLastGood);
    RestoredVersion(d, Named(first.files), LastGood, content, oldSettings, oldLastGood);
    Widen(first, Undo(e, w, oldSettings, oldLastGood),
          {Named(first.files), Restored(LastGood, Named(first.files), oldLastGood)}, all);
    Compose(w, first, Undo(e, w, oldSettings, oldLastGood), all, all);
  }

  lemma RestoredVersion(d: Files, x: Files, name: Name, content: Bytes, oldSettings: Option<Bytes>,
                        oldLastGood: Option<Bytes>)
    requires name == Settings || name == LastGood
    requires Read(d, Settings, oldSettings) && Read(d, LastGood, oldLastGood)
    requires x in Versions(d, Choices(d, Settings, content, oldSettings), Choices(d, LastGood, content, oldLastGood))
    ensures Restored(name, x, if name == Settings then oldSettings else oldLastGood)
            in Versions(d, Choices(d, Settings, content, oldSettings), Choices(d, LastGood, content, oldLastGood))
  {
    var s, l := Choices(d, Settings, content, oldSettings), Choices(d, LastGood, content, oldLastGood);
    var a, b :| a in s && b in l && x == Put(Put(d, Settings, a), LastGood, b);
    if name == Settings {
      var back := if oldSettings.Some? then Some(Regular(oldSettings.value)) else None;
      assert Restored(name, x, oldSettings) == Put(Put(d, Settings, back), LastGood, b);
      VersionsHas(d, s, l, Restored(name, x, oldSettings), back, b);
    } else {
      var back := if oldLastGood.Some? then Some(Regular(oldLastGood.value)) else None;
      assert Restored(name, x, oldLastGood) == Put(Put(d, Settings, a), LastGood, back);
      VersionsHas(d, s, l, Restored(name, x, oldLastGood), a, back);
    }
  }

  // ---- The bundle ----

  function OldSettings(e: Environment, w: World): Option<Bytes> {
    ReadFile(e, w, Settings, MAX_SETTINGS_BYTES).1
  }

  function OldLastGood(e: Environment, w: World): Option<Bytes> {
    ReadFile(e, ReadFile(e, w, Settings, MAX_SETTINGS_BYTES).0, LastGood, MAX_SETTINGS_BYTES).1
  }

  function BundleStates(e: Environment, w: World, content: Bytes): set<Files> {
    var d := Named(w.files);
    Versions(d, Choices(d, Settings, content, OldSettings(e, w)), Choices(d, LastGood, content, OldLastGood(e, w)))
  }

  function Bundled(d: Files, content: Bytes): Files {
    d[Settings := Regular(content)][LastGood := Regular(content)]
  }

  lemma BundleStatesHave(e: Environment, w: World, content: Bytes)
    ensures var d := Named(w.files);
      {d, d[Settings := Regular(content)], Bundled(d, content)} <= BundleStates(e, w, content)
  {
    var d := Named(w.files);
    var s, l := Choices(d, Settings, content, OldSettings(e, w)), Choices(d, LastGood, content, OldLastGood(e, w));
    assert d == Put(Put(d, Settings, At(d, Settings)), LastGood, At(d, LastGood));
    VersionsHas(d, s, l, d, At(d, Settings), At(d, LastGood));
    var latest := Some(Regular(content));
    assert d[Settings := Regular(content)] == Put(Put(d, Settings, latest), LastGood, At(d, LastGood));
    VersionsHas(d, s, l, d[Settings := Regular(content)], latest, At(d, LastGood));
    VersionsHas(d, s, l, Bundled(d, content), latest, latest);
  }

  lemma BundleReads(e: Environment, w: World)
    ensures var first := ReadFile(e, w, Settings, MAX_SETTINGS_BYTES).0;
      var second := ReadFile(e, first, LastGood, MAX_SETTINGS_BYTES).0;
      && Quiet(w, second) && second.files == w.files && second.counter == w.counter
      && second.calls > w.calls
    ensures Read(Named(w.files), Settings, OldSettings(e, w))
    ensures Read(Named(w.files), LastGood, OldLastGood(e, w))
  {
    hide ReadFile;
    var first := ReadFile(e, w, Settings, MAX_SETTINGS_BYTES).0;
    ReadFileExact(e, w, Settings, MAX_SETTINGS_BYTES);
    ReadFileExact(e, first, LastGood, MAX_SETTINGS_BYTES);
    HushQuiet(w, first, ReadFile(e, first, LastGood, MAX_SETTINGS_BYTES).0);
  }

  // Every state while a bundle is written, rolled back or cut short.
  lemma WriteBundleExact(e: Environment, w: World, content: Bytes, noReplace: bool)
    ensures var (after, ok) := WriteBundle(e, w, content, noReplace);
      && Through(w, after, BundleStates(e, w, content))
      && (ok ==> Named(after.files) == Bundled(Named(w.files), content))
      && (noReplace && Settings in w.files ==> Quiet(w, after) && !ok)
  {
    hide ReadFile, WriteAtomic, RestoreFile, BundleStates, Installed;
    BundleReads(e, w);
    var first := ReadFile(e, w, Settings, MAX_SETTINGS_BYTES).0;
    var second := ReadFile(e, first, LastGood, MAX_SETTINGS_BYTES).0;
    var (third, written) := WriteAtomic(e, second, Settings, content, noReplace);
    WriteAtomicExact(e, second, Settings, content, noReplace);
    InstalledIs(second.files, Settings, content);
    Hush(w, second, third, {Named(w.files), Installed(w.files, Settings, content)});
    BundleStatesHave(e, w, content);
    Widen(w, third, {Named(w.files), Installed(w.files, Settings, content)} + {Named(w.files)},
          BundleStates(e, w, content));
    if noReplace && Settings in w.files {
      HushQuiet(w, second, third);
    }
    if written {
      SecondHalf(e, w, third, content);
      Compose(w, third, WriteBundle(e, w, content, noReplace).0, BundleStates(e, w, content),
              BundleStates(e, w, content));
    }
  }

  lemma InstalledIs(files: Files, name: Name, content: Bytes)
    ensures Installed(files, name, content) == Named(files)[name := Regular(content)]
  {
  }

  lemma SecondHalf(e: Environment, w: World, third: World, content: Bytes)
    requires Named(third.files) == Named(w.files)[Settings := Regular(content)]
    ensures var (fourth, kept) := WriteAtomic(e, third, LastGood, content, false);
      var after := if kept then fourth else Undo(e, fourth, OldSettings(e, w), OldLastGood(e, w));
      && Through(third, after, BundleStates(e, w, content))
      && (kept ==> Named(after.files) == Bundled(Named(w.files), content))
  {
    hide WriteAtomic, RestoreFile, OldSettings, OldLastGood, ReadFile, Undo, Choices;
    var (fourth, kept) := WriteAtomic(e, third, LastGood, content, false);
    WriteAtomicExact(e, third, LastGood, content, false);
    BundleStatesHave(e, w, content);
    Widen(third, fourth, {Named(third.files), Installed(third.files, LastGood, content)},
          BundleStates(e, w, content));
    if !kept {
      BundleReads(e, w);
      UndoThrough(e, fourth, Named(w.files), content, OldSettings(e, w), OldLastGood(e, w));
      Compose(third, fourth, Undo(e, fourth, OldSettings(e, w), OldLastGood(e, w)),
              BundleStates(e, w, content), BundleStates(e, w, content));
    }
  }

  // ---- Backups ----

  // A backup changes one name at most, to the exact entry of the source; without
  // replacement an existing entry stays, and success means the two are equal.
  lemma BackupExactly(e: Environment, w: World, source: Name, target: Name, maximum: nat, replace: bool)
    requires !source.Stage? && !target.Stage? && source != target
    ensures var (after, ok) := BackupExact(e, w, source, target, maximum, replace);
      var d := Named(w.files);
      && Through(w, after, {d, Put(d, target, At(d, source))})
      && (Named(after.files) != d ==> source in d && d[source].Regular?)
      && (ok ==> source in d && d[source].Regular? && |d[source].content| <= maximum
                 && Named(after.files) == Put(d, target, At(d, source)))
      && (!replace && target in w.files ==> Quiet(w, after))
  {
    hide ReadFile, WriteAtomic;
    var d := Named(w.files);
    var both := {d, Put(d, target, At(d, source))};
    var (first, content) := ReadFile(e, w, source, maximum);
    ReadFileExact(e, w, source, maximum);
    Widen(w, first, {d}, both);
    if content.Some? {
      assert Installed(first.files, target, content.value) == Put(d, target, At(d, source));
      if replace {
        var after := WriteAtomic(e, first, target, content.value, false).0;
        WriteAtomicExact(e, first, target, content.value, false);
        Hush(w, first, after, both);
        assert both + {d} == both;
      } else {
        BackupOnce(e, w, first, source, target, content.value, maximum);
      }
    }
  }

  lemma BackupOnce(e: Environment, w: World, first: World, source: Name, target: Name, content: Bytes, maximum: nat)
    requires !source.Stage? && !target.Stage? && source != target
    requires Quiet(w, first) && first.files == w.files && Holds(w.files, source, content)
    ensures var (second, kind) := PathKind(e, first, target);
      var (after, ok) := if kind != RegularKind then WriteAtomic(e, second, target, content, true)
                         else var (third, existing) := ReadFile(e, second, target, maximum);
                              (third, existing == Some(content));
      var d := Named(w.files);
      && Through(w, after, {d, Put(d, target, At(d, source))})
      && (ok ==> Named(after.files) == Put(d, target, At(d, source)))
      && (target in w.files ==> Quiet(w, after))
  {
    hide ReadFile, WriteAtomic;
    var d := Named(w.files);
    var both := {d, Put(d, target, At(d, source))};
    var (second, kind) := PathKind(e, first, target);
    PathKindQuiet(e, first, target);
    HushQuiet(w, first, second);
    assert Installed(second.files, target, content) == Put(d, target, At(d, source));
    if kind != RegularKind {
      var after := WriteAtomic(e, second, target, content, true).0;
      WriteAtomicExact(e, second, target, content, true);
      Hush(w, second, after, both);
      assert both + {d} == both;
      if target in w.files {
        HushQuiet(w, second, after);
      }
    } else {
      var (third, existing) := ReadFile(e, second, target, maximum);
      ReadFileExact(e, second, target, maximum);
      HushQuiet(w, second, third);
      Widen(w, third, {d}, both);
      if existing == Some(content) {
        assert d[target] == Regular(content);
        assert d[target := Regular(content)] == d;
      }
    }
  }
}
