/**
  * The settings writer seen as a run of system calls against one directory.
  * Every call consumes one answer of the environment, which may fail it, cut a read or
  * write short, or not support it; the directory after every call is kept in a trace, so
  * that the trace holds every state a crash can leave behind.
  */
module SettingsModel {
  import opened Basics

  type Bytes = seq<bv8>

  datatype Name =
    | Settings
    | LastGood
    | Legacy
    | MigrationBackup
    | Version2Backup
    | InvalidBackup
    | Stage(process: nat, number: nat)

  // Anything that is not a regular file owned by the user is Unsafe.
  datatype Entry = Regular(content: Bytes) | Unsafe(directory: bool)

  type Files = map<Name, Entry>

  datatype Kind = MissingKind | RegularKind | UnsafeKind

  datatype Answer = Answer(fails: bool, unsupported: bool, count: int)

  datatype Environment = Environment(answer: nat -> Answer, process: nat)

  // Beside the directory as programs see it: the files whose content is not flushed yet, or
  // whose mode is not set yet; the names under which such a file was ever installed; and
  // whether every name that came or went is flushed.
  datatype Disk = Disk(unflushed: set<Name>, unset: set<Name>, exposed: set<Name>, settled: bool)

  const CLEAN := Disk({}, {}, {}, true)

  datatype World = World(files: Files, calls: nat, counter: nat, trace: seq<Files>, disk: Disk)

  datatype Removal = Removed | Absent | Refused

  datatype Operation = Write | Create | KeepLastGood | Migrate | Upgrade | Recover

  const MAX_SETTINGS_BYTES: nat := 32 * 1024
  const MAX_LEGACY_BYTES: nat := 4 * 1024

  // ---- System calls ----

  function Call(w: World, files: Files): World {
    w.(files := files, calls := w.calls + 1, trace := w.trace + [files],
       disk := w.disk.(settled := w.disk.settled && files.Keys == w.files.Keys))
  }

  // A file begins, or goes on, unflushed.
  function Began(disk: Disk, name: Name): Disk {
    disk.(unflushed := disk.unflushed + {name}, unset := disk.unset + {name})
  }

  function Grew(disk: Disk, name: Name): Disk {
    disk.(unflushed := disk.unflushed + {name})
  }

  function Gone(disk: Disk, name: Name): Disk {
    disk.(unflushed := disk.unflushed - {name}, unset := disk.unset - {name})
  }

  // The target is now the file the temporary name stands for.
  function Passed(disk: Disk, temporary: Name, target: Name): Disk {
    var rest := Gone(disk, target);
    var unready := temporary in disk.unflushed || temporary in disk.unset;
    rest.(unflushed := rest.unflushed + if temporary in disk.unflushed then {target} else {},
           unset := rest.unset + if temporary in disk.unset then {target} else {},
           exposed := rest.exposed + if unready then {target} else {})
  }

  function Fails(e: Environment, w: World): bool {
    e.answer(w.calls).fails
  }

  function Unlink(e: Environment, w: World, name: Name): (World, Removal) {
    if name !in w.files then (Call(w, w.files), if Fails(e, w) then Refused else Absent)
    else if Fails(e, w) || w.files[name] == Unsafe(true) then (Call(w, w.files), Refused)
    else (Call(w, w.files - {name}).(disk := Gone(Call(w, w.files - {name}).disk, name)), Removed)
  }

  function CreateStage(e: Environment, w: World, name: Name): (World, bool) {
    if Fails(e, w) || name in w.files then (Call(w, w.files), false)
    else
      var made := Call(w, w.files[name := Regular([])]);
      (made.(disk := Began(made.disk, name)), true)
  }

  // A call that changes nothing: the directory is opened, a file measured.
  function Look(e: Environment, w: World): (World, bool) {
    (Call(w, w.files), !Fails(e, w))
  }

  function SetMode(e: Environment, w: World, name: Name): (World, bool) {
    var after := Call(w, w.files);
    if Fails(e, w) then (after, false) else (after.(disk := after.disk.(unset := after.disk.unset - {name})), true)
  }

  function FlushFile(e: Environment, w: World, name: Name): (World, bool) {
    var after := Call(w, w.files);
    if Fails(e, w) then (after, false)
    else (after.(disk := after.disk.(unflushed := after.disk.unflushed - {name})), true)
  }

  function FlushDirectory(e: Environment, w: World): (World, bool) {
    var after := Call(w, w.files);
    if Fails(e, w) then (after, false) else (after.(disk := after.disk.(settled := true)), true)
  }

  // The target becomes the file under the temporary name, which a rename takes away.
  function Takeover(w: World, temporary: Name, target: Name, moved: bool): World
    requires temporary in w.files
  {
    var linked := w.files[target := w.files[temporary]];
    var after := Call(w, if moved then linked - {temporary} else linked);
    var passed := Passed(after.disk, temporary, target);
    after.(disk := if moved then Gone(passed, temporary) else passed)
  }

  function Rename(e: Environment, w: World, temporary: Name, target: Name): (World, bool) {
    if Fails(e, w) || temporary !in w.files || (target in w.files && w.files[target] == Unsafe(true))
    then (Call(w, w.files), false)
    else (Takeover(w, temporary, target, true), true)
  }

  function RenameNoReplace(e: Environment, w: World, temporary: Name, target: Name): (World, bool) {
    if Fails(e, w) || temporary !in w.files || target in w.files then (Call(w, w.files), false)
    else (Takeover(w, temporary, target, true), true)
  }

  function Link(e: Environment, w: World, temporary: Name, target: Name): (World, bool) {
    if Fails(e, w) || temporary !in w.files || target in w.files then (Call(w, w.files), false)
    else (Takeover(w, temporary, target, false), true)
  }

  // ---- The writer ----

  function PathKind(e: Environment, w: World, name: Name): (World, Kind) {
    (Call(w, w.files),
     if Fails(e, w) then UnsafeKind
     else if name !in w.files then MissingKind
     else if w.files[name].Regular? then RegularKind
     else UnsafeKind)
  }

  function Moved(e: Environment, w: World, remaining: nat): nat {
    if Fails(e, w) || e.answer(w.calls).count <= 0 then 0 else Min(e.answer(w.calls).count, remaining)
  }

  function ReadRest(e: Environment, w: World, source: Bytes, buffer: Bytes): (World, Option<Bytes>)
    decreases |source| - |buffer|
  {
    if |buffer| >= |source| then (w, Some(buffer)) else
    var count := Moved(e, w, |source| - |buffer|);
    if count == 0 then (Call(w, w.files), None)
    else ReadRest(e, Call(w, w.files), source, buffer + source[|buffer|..|buffer| + count])
  }

  function ReadFile(e: Environment, w: World, name: Name, maximum: nat): (World, Option<Bytes>) {
    var (seen, kind) := PathKind(e, w, name);
    if kind != RegularKind then (seen, None) else
    var held := Call(seen, seen.files);
    if Fails(e, seen) then (held, None) else
    var measured := Call(held, held.files);
    if Fails(e, held) || |w.files[name].content| > maximum then (measured, None)
    else ReadRest(e, measured, w.files[name].content, [])
  }

  function Appended(files: Files, name: Name, chunk: Bytes): Files {
    if name in files && files[name].Regular? then files[name := Regular(files[name].content + chunk)] else files
  }

  function Append(w: World, name: Name, chunk: Bytes): World {
    var after := Call(w, Appended(w.files, name, chunk));
    after.(disk := Grew(after.disk, name))
  }

  function WriteRest(e: Environment, w: World, name: Name, content: Bytes, offset: nat): (World, bool)
    decreases |content| - offset
  {
    if offset >= |content| then (w, true) else
    var count := Moved(e, w, |content| - offset);
    if count == 0 then (Call(w, w.files), false)
    else WriteRest(e, Append(w, name, content[offset..offset + count]), name, content, offset + count)
  }

  function InstallNoReplace(e: Environment, w: World, temporary: Name, target: Name): (World, bool) {
    if !e.answer(w.calls).unsupported then RenameNoReplace(e, w, temporary, target) else
    var (linked, ok) := Link(e, Call(w, w.files), temporary, target);
    if !ok then (linked, false) else
    var (unlinked, removal) := Unlink(e, linked, temporary);
    (unlinked, removal == Removed)
  }

  function Install(e: Environment, w: World, temporary: Name, target: Name, noReplace: bool): (World, bool) {
    if noReplace then InstallNoReplace(e, w, temporary, target) else Rename(e, w, temporary, target)
  }

  // Creation, complete content, mode and flush of the stage file, each only after the last.
  function Prepare(e: Environment, w: World, stage: Name, content: Bytes): (World, bool) {
    var (created, ok) := CreateStage(e, w, stage);
    if !ok then (created, false) else
    var (written, all) := WriteRest(e, created, stage, content, 0);
    if !all then (written, false) else
    var (private, secured) := SetMode(e, written, stage);
    if !secured then (private, false) else FlushFile(e, private, stage)
  }

  function WriteStage(e: Environment, w: World, name: Name, content: Bytes, noReplace: bool): (World, bool) {
    var stage := Stage(e.process, w.counter + 1);
    var (ready, prepared) := Prepare(e, w.(counter := w.counter + 1), stage, content);
    if !prepared then (Unlink(e, ready, stage).0, false) else
    var (placed, installed) := Install(e, ready, stage, name, noReplace);
    if !installed then (Unlink(e, placed, stage).0, false) else FlushDirectory(e, placed)
  }

  function WriteAtomic(e: Environment, w: World, name: Name, content: Bytes, noReplace: bool): (World, bool) {
    var (seen, kind) := PathKind(e, w, name);
    if kind == UnsafeKind || (noReplace && kind != MissingKind) then (seen, false)
    else WriteStage(e, seen, name, content, noReplace)
  }

  function RestoreFile(e: Environment, w: World, name: Name, content: Option<Bytes>): World {
    if content.Some? then WriteAtomic(e, w, name, content.value, false).0 else Unlink(e, w, name).0
  }

  function WriteBundle(e: Environment, w: World, content: Bytes, noReplace: bool): (World, bool) {
    var (first, oldSettings) := ReadFile(e, w, Settings, MAX_SETTINGS_BYTES);
    var (second, oldLastGood) := ReadFile(e, first, LastGood, MAX_SETTINGS_BYTES);
    var (third, written) := WriteAtomic(e, second, Settings, content, noReplace);
    if !written then (third, false) else
    var (fourth, kept) := WriteAtomic(e, third, LastGood, content, false);
    if kept then (fourth, true) else
    (RestoreFile(e, RestoreFile(e, fourth, Settings, oldSettings), LastGood, oldLastGood), false)
  }

  function BackupExact(e: Environment, w: World, source: Name, target: Name, maximum: nat, replace: bool)
    : (World, bool)
  {
    var (first, content) := ReadFile(e, w, source, maximum);
    if content.None? then (first, false)
    else if replace then WriteAtomic(e, first, target, content.value, false) else
    var (second, kind) := PathKind(e, first, target);
    if kind != RegularKind then WriteAtomic(e, second, target, content.value, true) else
    var (third, existing) := ReadFile(e, second, target, maximum);
    (third, existing == content)
  }

  function FinishMigration(e: Environment, w: World): (World, bool) {
    var (removed, removal) := Unlink(e, w, Legacy);
    if removal == Removed then FlushDirectory(e, removed) else (removed, false)
  }

  function Perform(e: Environment, w: World, operation: Operation, content: Bytes): (World, bool) {
    match operation
    case Write => WriteBundle(e, w, content, false)
    case Create => WriteBundle(e, w, content, true)
    case KeepLastGood => WriteAtomic(e, w, LastGood, content, false)
    case Migrate =>
      var (backed, saved) := BackupExact(e, w, Legacy, MigrationBackup, MAX_LEGACY_BYTES, false);
      if !saved then (backed, false) else
      var (bundled, written) := WriteBundle(e, backed, content, true);
      if written then FinishMigration(e, bundled) else (bundled, false)
    case Upgrade =>
      var (backed, saved) := BackupExact(e, w, Settings, Version2Backup, MAX_SETTINGS_BYTES, false);
      if saved then WriteBundle(e, backed, content, false) else (backed, false)
    case Recover =>
      var (backed, saved) := BackupExact(e, w, Settings, InvalidBackup, MAX_SETTINGS_BYTES, true);
      if saved then WriteBundle(e, backed, content, false) else (backed, false)
  }
}
