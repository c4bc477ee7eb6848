/**
  * Whole operations, every crash point of every one of them, and any sequence of processes.
  */
module SettingsOperations {
  import opened Basics
  import opened SettingsModel
  import opened SettingsSteps
  import opened SettingsSafety

  ghost predicate IsRegular(d: Files, name: Name) {
    name in d && d[name].Regular?
  }

  ghost predicate OneOf(d: Files, x: Files, name: Name, content: Bytes) {
    At(x, name) in {None, At(d, name), Some(Regular(content))}
  }

  // The target is as it was, or it was empty and is now the exact source.
  ghost predicate BackedOnce(d: Files, x: Files, source: Name, target: Name, here: bool) {
    || At(x, target) == At(d, target)
    || (here && target !in d && IsRegular(d, source) && At(x, target) == At(d, source))
  }

  ghost predicate Kept(d: Files, x: Files, name: Name, backup: Name) {
    IsRegular(d, name) ==> At(x, name) == At(d, name) || At(x, backup) == At(d, name)
  }

  // What one operation, stopped anywhere, may have made of the named files d.
  ghost predicate Evolves(operation: Operation, content: Bytes, d: Files, x: Files) {
    && OneOf(d, x, Settings, content)
    && OneOf(d, x, LastGood, content)
    && BackedOnce(d, x, Legacy, MigrationBackup, operation == Migrate)
    && BackedOnce(d, x, Settings, Version2Backup, operation == Upgrade)
    && (At(x, InvalidBackup) == At(d, InvalidBackup)
        || (operation == Recover && IsRegular(d, Settings) && At(x, InvalidBackup) == At(d, Settings)))
    && (At(x, Legacy) == At(d, Legacy) || (operation == Migrate && Legacy !in x))
    && Kept(d, x, Legacy, MigrationBackup)
    && (operation == Create || operation == Migrate ==> Settings in d ==> At(x, Settings) == At(d, Settings))
    && (operation == KeepLastGood ==> At(x, Settings) == At(d, Settings))
    && (operation == Upgrade ==> Kept(d, x, Settings, Version2Backup))
    && (operation == Recover ==> Kept(d, x, Settings, InvalidBackup))
  }

  ghost predicate AllEvolve(operation: Operation, content: Bytes, a: World, b: World) {
    && |a.trace| <= |b.trace|
    && a.trace == b.trace[..|a.trace|]
    && (forall i :: |a.trace| <= i < |b.trace| ==>
          Evolves(operation, content, Named(a.files), Named(b.trace[i])))
    && Evolves(operation, content, Named(a.files), Named(b.files))
  }

  lemma Conclude(operation: Operation, content: Bytes, a: World, b: World, allowed: set<Files>)
    requires Through(a, b, allowed)
    requires forall x :: x in allowed ==> Evolves(operation, content, Named(a.files), x)
    ensures AllEvolve(operation, content, a, b)
  {
    hide Evolves, Named;
  }

  // ---- What a bundle makes of the files ----

  ghost predicate OnlyBundle(d: Files, x: Files, content: Bytes) {
    && OneOf(d, x, Settings, content)
    && OneOf(d, x, LastGood, content)
    && (forall n | n in d.Keys + x.Keys && n != Settings && n != LastGood :: At(x, n) == At(d, n))
  }

  lemma VersionOnlyBundle(d: Files, content: Bytes, a: Option<Entry>, b: Option<Entry>)
    requires a in {None, At(d, Settings), Some(Regular(content))}
    requires b in {None, At(d, LastGood), Some(Regular(content))}
    ensures OnlyBundle(d, Put(Put(d, Settings, a), LastGood, b), content)
  {
  }

  lemma BundleStatesOnly(e: Environment, w: World, content: Bytes)
    ensures forall x :: x in BundleStates(e, w, content) ==> OnlyBundle(Named(w.files), x, content)
  {
    hide OldSettings, OldLastGood, OnlyBundle, Put;
    var d := Named(w.files);
    forall x | x in BundleStates(e, w, content)
      ensures OnlyBundle(d, x, content)
    {
      var a, b :| a in Choices(d, Settings, content, OldSettings(e, w))
                  && b in Choices(d, LastGood, content, OldLastGood(e, w))
                  && x == Put(Put(d, Settings, a), LastGood, b);
      VersionOnlyBundle(d, content, a, b);
    }
  }

  lemma OnlyBundleEvolves(operation: Operation, content: Bytes, d: Files, backed: Files, x: Files)
    requires OnlyBundle(backed, x, content)
    requires operation != KeepLastGood
    requires operation == Write || operation == Create ==> backed == d
    requires operation == Migrate ==> IsRegular(d, Legacy) && backed == Put(d, MigrationBackup, At(d, Legacy))
    requires operation == Migrate ==> MigrationBackup in d ==> backed == d
    requires operation == Upgrade ==> IsRegular(d, Settings) && backed == Put(d, Version2Backup, At(d, Settings))
    requires operation == Upgrade ==> Version2Backup in d ==> backed == d
    requires operation == Recover ==> IsRegular(d, Settings) && backed == Put(d, InvalidBackup, At(d, Settings))
    requires operation == Create || operation == Migrate ==> Settings in d ==> x == backed
    ensures Evolves(operation, content, d, x)
  {
    assert forall n :: n !in {Settings, LastGood} ==> At(x, n) == At(backed, n);
  }

  lemma Unchanged(operation: Operation, content: Bytes, d: Files)
    ensures Evolves(operation, content, d, d)
  {
  }

  // ---- Each operation ----

  lemma BundleEvolves(e: Environment, w: World, content: Bytes, noReplace: bool)
    ensures AllEvolve(if noReplace then Create else Write, content, w, WriteBundle(e, w, content, noReplace).0)
  {
    hide WriteBundle, BundleStates, Named, Evolves, OnlyBundle;
    var after := WriteBundle(e, w, content, noReplace).0;
    var operation := if noReplace then Create else Write;
    var d := Named(w.files);
    WriteBundleExact(e, w, content, noReplace);
    NamedHas(w.files, Settings);
    if noReplace && Settings in w.files {
      Unchanged(operation, content, d);
      Conclude(operation, content, w, after, {d});
    } else {
      BundleStatesOnly(e, w, content);
      forall x | x in BundleStates(e, w, content)
        ensures Evolves(operation, content, d, x)
      {
        OnlyBundleEvolves(operation, content, d, d, x);
      }
      Conclude(operation, content, w, after, BundleStates(e, w, content));
    }
  }

  lemma NamedHas(files: Files, name: Name)
    requires !name.Stage?
    ensures name in files <==> name in Named(files)
    ensures At(files, name) == At(Named(files), name)
  {
  }

  lemma KeepLastGoodEvolves(e: Environment, w: World, content: Bytes)
    ensures AllEvolve(KeepLastGood, content, w, WriteAtomic(e, w, LastGood, content, false).0)
  {
    hide WriteAtomic;
    WriteAtomicExact(e, w, LastGood, content, false);
    Conclude(KeepLastGood, content, w, WriteAtomic(e, w, LastGood, content, false).0,
             {Named(w.files), Installed(w.files, LastGood, content)});
  }

  function BackupSource(operation: Operation): Name {
    if operation == Migrate then Legacy else Settings
  }

  function BackupTarget(operation: Operation): Name {
    match operation
    case Migrate => MigrationBackup
    case Upgrade => Version2Backup
    case _ => InvalidBackup
  }

  function BackupLimit(operation: Operation): nat {
    if operation == Migrate then MAX_LEGACY_BYTES else MAX_SETTINGS_BYTES
  }

  predicate Backs(operation: Operation) {
    operation == Migrate || operation == Upgrade || operation == Recover
  }

  function Backup(e: Environment, w: World, operation: Operation): (World, bool) {
    BackupExact(e, w, BackupSource(operation), BackupTarget(operation), BackupLimit(operation), operation == Recover)
  }

  lemma BackupEvolves(e: Environment, w: World, operation: Operation, content: Bytes)
    requires Backs(operation)
    ensures var (backed, saved) := Backup(e, w, operation);
      && AllEvolve(operation, content, w, backed)
      && (saved ==> IsRegular(Named(w.files), BackupSource(operation))
                    && |Named(w.files)[BackupSource(operation)].content| <= BackupLimit(operation)
                    && Named(backed.files)
                       == Put(Named(w.files), BackupTarget(operation), At(Named(w.files), BackupSource(operation))))
      && (operation != Recover && BackupTarget(operation) in w.files ==> Named(backed.files) == Named(w.files))
  {
    hide BackupExact;
    var d := Named(w.files);
    var source, target := BackupSource(operation), BackupTarget(operation);
    BackupExactly(e, w, source, target, BackupLimit(operation), operation == Recover);
    var backed := Backup(e, w, operation).0;
    Unchanged(operation, content, d);
    if operation != Recover && target in w.files {
      Conclude(operation, content, w, backed, {d});
    } else if IsRegular(d, source) {
      BackupOnly(operation, content, d);
      Conclude(operation, content, w, backed, {d, Put(d, target, At(d, source))});
    } else {
      BackupIdle(e, w, operation);
      Conclude(operation, content, w, backed, {d});
    }
  }

  lemma BackupOnly(operation: Operation, content: Bytes, d: Files)
    requires Backs(operation) && IsRegular(d, BackupSource(operation))
    requires operation == Recover || BackupTarget(operation) !in d
    ensures Evolves(operation, content, d, Put(d, BackupTarget(operation), At(d, BackupSource(operation))))
  {
  }

  // Without a regular source nothing is written.
  lemma BackupIdle(e: Environment, w: World, operation: Operation)
    requires !IsRegular(Named(w.files), BackupSource(operation))
    ensures Quiet(w, Backup(e, w, operation).0)
  {
    hide ReadFile, WriteAtomic;
    ReadFileExact(e, w, BackupSource(operation), BackupLimit(operation));
  }

  lemma EvolveOn(operation: Operation, content: Bytes, a: World, b: World, c: World, later: set<Files>)
    requires AllEvolve(operation, content, a, b) && Through(b, c, later)
    requires forall x :: x in later ==> Evolves(operation, content, Named(a.files), x)
    ensures AllEvolve(operation, content, a, c)
  {
    hide Evolves, Named;
    forall i | |a.trace| <= i < |c.trace|
      ensures Evolves(operation, content, Named(a.files), Named(c.trace[i]))
    {
      if i < |b.trace| {
        assert b.trace[i] == c.trace[i];
      } else {
        assert Named(c.trace[i]) in later;
      }
    }
  }

  lemma BackedBundleEvolves(e: Environment, w: World, operation: Operation, content: Bytes)
    requires Backs(operation) && Backup(e, w, operation).1
    ensures AllEvolve(operation, content, w,
                      WriteBundle(e, Backup(e, w, operation).0, content, operation == Migrate).0)
    ensures WriteBundle(e, Backup(e, w, operation).0, content, operation == Migrate).1 ==>
              Named(WriteBundle(e, Backup(e, w, operation).0, content, operation == Migrate).0.files)
              == Bundled(Put(Named(w.files), BackupTarget(operation), At(Named(w.files), BackupSource(operation))),
                         content)
  {
    hide WriteBundle, BundleStates, Named, Evolves, OnlyBundle, Backup;
    var d := Named(w.files);
    var backed := Backup(e, w, operation).0;
    BackupEvolves(e, w, operation, content);
    var noReplace := operation == Migrate;
    var after := WriteBundle(e, backed, content, noReplace).0;
    var b := Named(backed.files);
    WriteBundleExact(e, backed, content, noReplace);
    NamedHas(backed.files, Settings);
    NamedHas(w.files, BackupTarget(operation));
    if noReplace && Settings in backed.files {
      EvolveOn(operation, content, w, backed, after, {b});
    } else {
      BundleStatesOnly(e, backed, content);
      forall x | x in BundleStates(e, backed, content)
        ensures Evolves(operation, content, d, x)
      {
        OnlyBundleEvolves(operation, content, d, b, x);
      }
      EvolveOn(operation, content, w, backed, after, BundleStates(e, backed, content));
    }
  }

  lemma FinishExact(e: Environment, w: World)
    ensures var (after, ok) := FinishMigration(e, w);
      && Through(w, after, {Named(w.files), Named(w.files) - {Legacy}})
      && (ok ==> Named(after.files) == Named(w.files) - {Legacy} && Legacy in w.files)
  {
    var removed := Unlink(e, w, Legacy).0;
    NamedDrop(w.files, Legacy);
    CallThrough(w, removed.files);
    CallThrough(removed, removed.files);
    Compose(w, removed, Call(removed, removed.files), {Named(removed.files)}, {Named(removed.files)});
    Widen(w, FinishMigration(e, w).0, {Named(removed.files)}, {Named(w.files), Named(w.files) - {Legacy}});
  }

  lemma MigratedEvolves(content: Bytes, d: Files)
    requires IsRegular(d, Legacy) && (MigrationBackup in d ==> d[MigrationBackup] == d[Legacy])
    requires Settings !in d
    ensures var x := Bundled(Put(d, MigrationBackup, At(d, Legacy)), content);
            Evolves(Migrate, content, d, x) && Evolves(Migrate, content, d, x - {Legacy})
  {
  }

  lemma MigrateEvolves(e: Environment, w: World, content: Bytes)
    ensures AllEvolve(Migrate, content, w, Perform(e, w, Migrate, content).0)
    ensures Perform(e, w, Migrate, content).1 ==>
              && IsRegular(Named(w.files), Legacy) && Settings !in w.files
              && |Named(w.files)[Legacy].content| <= MAX_LEGACY_BYTES
              && Named(Perform(e, w, Migrate, content).0.files)
                 == Bundled(Named(w.files)[MigrationBackup := Named(w.files)[Legacy]], content) - {Legacy}
  {
    hide WriteBundle, BackupExact, Named, Evolves, FinishMigration;
    var d := Named(w.files);
    BackupEvolves(e, w, Migrate, content);
    var (backed, saved) := Backup(e, w, Migrate);
    if saved {
      BackedBundleEvolves(e, w, Migrate, content);
      var (bundled, written) := WriteBundle(e, backed, content, true);
      if written {
        WriteBundleExact(e, backed, content, true);
        NamedHas(backed.files, Settings);
        NamedHas(w.files, Settings);
        NamedHas(w.files, MigrationBackup);
        FinishExact(e, bundled);
        MigratedEvolves(content, d);
        EvolveOn(Migrate, content, w, bundled, FinishMigration(e, bundled).0,
                 {Named(bundled.files), Named(bundled.files) - {Legacy}});
      }
    }
  }

  // Every state of every operation under every fault, each a possible crash point.
  lemma EveryCrashState(e: Environment, w: World, operation: Operation, content: Bytes)
    ensures AllEvolve(operation, content, w, Perform(e, w, operation, content).0)
  {
    hide WriteBundle, WriteAtomic, BackupExact, AllEvolve;
    match operation {
      case Write => BundleEvolves(e, w, content, false);
      case Create => BundleEvolves(e, w, content, true);
      case KeepLastGood => KeepLastGoodEvolves(e, w, content);
      case Migrate => MigrateEvolves(e, w, content);
      case _ =>
        BackupEvolves(e, w, operation, content);
        if Backup(e, w, operation).1 {
          BackedBundleEvolves(e, w, operation, content);
        }
    }
  }

  // What a reported success guarantees.
  lemma SuccessMeans(e: Environment, w: World, operation: Operation, content: Bytes)
    requires Perform(e, w, operation, content).1
    ensures var d, x := Named(w.files), Named(Perform(e, w, operation, content).0.files);
      && At(x, LastGood) == Some(Regular(content))
      && (operation != KeepLastGood ==> At(x, Settings) == Some(Regular(content)))
      && (operation == Create || operation == Migrate ==> Settings !in d)
      && (operation == Migrate ==> IsRegular(d, Legacy) && Legacy !in x && At(x, MigrationBackup) == At(d, Legacy))
      && (operation == Upgrade ==> IsRegular(d, Settings) && At(x, Version2Backup) == At(d, Settings))
      && (operation == Recover ==> IsRegular(d, Settings) && At(x, InvalidBackup) == At(d, Settings))
  {
    hide WriteBundle, WriteAtomic, BackupExact, Named;
    match operation {
      case Write => WriteBundleExact(e, w, content, false);
      case Create =>
        WriteBundleExact(e, w, content, true);
        NamedHas(w.files, Settings);
      case KeepLastGood => WriteAtomicExact(e, w, LastGood, content, false);
      case Migrate =>
        MigrateEvolves(e, w, content);
        NamedHas(w.files, Settings);
      case _ =>
        BackupEvolves(e, w, operation, content);
        BackedBundleEvolves(e, w, operation, content);
    }
  }
}
