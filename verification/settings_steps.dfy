/**
  * What one write can leave behind: at every system call the named files are as before, or
  * the target has become the complete content, and nothing else.
  */
module SettingsSteps {
  import opened Basics
  import opened SettingsModel

  // The directory without stage files, whose names no reader uses.
  function Named(files: Files): Files {
    map n | n in files && !n.Stage? :: files[n]
  }

  // Every directory state from a to b, b included, is one of the allowed ones.
  ghost predicate Through(a: World, b: World, allowed: set<Files>) {
    && |a.trace| <= |b.trace|
    && a.trace == b.trace[..|a.trace|]
    && (forall i :: |a.trace| <= i < |b.trace| ==> Named(b.trace[i]) in allowed)
    && Named(b.files) in allowed
  }

  ghost predicate Quiet(a: World, b: World) {
    Through(a, b, {Named(a.files)})
  }

  lemma Compose(a: World, b: World, c: World, first: set<Files>, second: set<Files>)
    requires Through(a, b, first) && Through(b, c, second)
    ensures Through(a, c, first + second)
  {
    forall i | |a.trace| <= i < |c.trace|
      ensures Named(c.trace[i]) in first + second
    {
      if i < |b.trace| {
        assert b.trace[i] == c.trace[i];
      }
    }
  }

  lemma Widen(a: World, b: World, small: set<Files>, large: set<Files>)
    requires Through(a, b, small) && small <= large
    ensures Through(a, b, large)
  {
  }

  lemma Hush(a: World, b: World, c: World, allowed: set<Files>)
    requires Quiet(a, b) && Through(b, c, allowed)
    ensures Through(a, c, allowed + {Named(a.files)})
  {
    Compose(a, b, c, {Named(a.files)}, allowed);
    Widen(a, c, {Named(a.files)} + allowed, allowed + {Named(a.files)});
  }

  lemma HushQuiet(a: World, b: World, c: World)
    requires Quiet(a, b) && Quiet(b, c)
    ensures Quiet(a, c)
  {
    Hush(a, b, c, {Named(b.files)});
    assert {Named(b.files)} + {Named(a.files)} == {Named(a.files)};
  }

  lemma CallThrough(w: World, files: Files)
    ensures Through(w, Call(w, files), {Named(files)})
  {
  }

  lemma NamedPut(files: Files, name: Name, entry: Entry)
    ensures Named(files[name := entry]) == if name.Stage? then Named(files) else Named(files)[name := entry]
  {
  }

  lemma NamedDrop(files: Files, name: Name)
    ensures Named(files - {name}) == Named(files) - {name}
  {
  }

  // ---- Reading ----

  lemma PathKindQuiet(e: Environment, w: World, name: Name)
    ensures Quiet(w, PathKind(e, w, name).0)
  {
    CallThrough(w, w.files);
  }

  lemma {:induction false} ReadRestExact(e: Environment, w: World, source: Bytes, buffer: Bytes)
    requires buffer <= source
    ensures Quiet(w, ReadRest(e, w, source, buffer).0)
    ensures ReadRest(e, w, source, buffer).0.files == w.files
    ensures ReadRest(e, w, source, buffer).0.counter == w.counter
    ensures ReadRest(e, w, source, buffer).0.calls >= w.calls
    ensures ReadRest(e, w, source, buffer).1 in {None, Some(source)}
    decreases |source| - |buffer|
  {
    if |buffer| < |source| {
      CallThrough(w, w.files);
      var count := Moved(e, w, |source| - |buffer|);
      if count > 0 {
        ReadRestExact(e, Call(w, w.files), source, buffer + source[|buffer|..|buffer| + count]);
        HushQuiet(w, Call(w, w.files),
          ReadRest(e, Call(w, w.files), source, buffer + source[|buffer|..|buffer| + count]).0);
      }
    } else {
      assert buffer == source;
    }
  }

  ghost predicate Holds(files: Files, name: Name, content: Bytes) {
    name in files && files[name] == Regular(content)
  }

  // A read changes nothing, and what it returns is the whole file within the bound.
  lemma ReadFileExact(e: Environment, w: World, name: Name, maximum: nat)
    ensures Quiet(w, ReadFile(e, w, name, maximum).0)
    ensures ReadFile(e, w, name, maximum).0.files == w.files
    ensures ReadFile(e, w, name, maximum).0.counter == w.counter
    ensures ReadFile(e, w, name, maximum).0.calls > w.calls
    ensures ReadFile(e, w, name, maximum).1.Some? ==>
              Holds(w.files, name, ReadFile(e, w, name, maximum).1.value)
              && |ReadFile(e, w, name, maximum).1.value| <= maximum
  {
    var seen := PathKind(e, w, name).0;
    CallThrough(w, w.files);
    if PathKind(e, w, name).1 == RegularKind {
      var held := Call(seen, seen.files);
      CallThrough(seen, seen.files);
      HushQuiet(w, seen, held);
      if !Fails(e, seen) {
        var measured := Call(held, held.files);
        CallThrough(held, held.files);
        HushQuiet(w, held, measured);
        if !Fails(e, held) && |w.files[name].content| <= maximum {
          ReadRestExact(e, measured, w.files[name].content, []);
          HushQuiet(w, measured, ReadRest(e, measured, w.files[name].content, []).0);
        }
      }
    }
  }

  // ---- Writing a stage file ----

  lemma UnlinkStageQuiet(e: Environment, w: World, name: Name)
    requires name.Stage?
    ensures Quiet(w, Unlink(e, w, name).0)
  {
    NamedDrop(w.files, name);
    assert Named(w.files) - {name} == Named(w.files);
    CallThrough(w, Unlink(e, w, name).0.files);
  }

  lemma CreateStageQuiet(e: Environment, w: World, name: Name)
    requires name.Stage?
    ensures Quiet(w, CreateStage(e, w, name).0)
    ensures CreateStage(e, w, name).1 ==> Holds(CreateStage(e, w, name).0.files, name, [])
  {
    NamedPut(w.files, name, Regular([]));
    CallThrough(w, CreateStage(e, w, name).0.files);
  }

  lemma AppendedHolds(files: Files, name: Name, written: Bytes, chunk: Bytes)
    requires name.Stage? && Holds(files, name, written)
    ensures Holds(Appended(files, name, chunk), name, written + chunk)
    ensures Named(Appended(files, name, chunk)) == Named(files)
  {
    NamedPut(files, name, Regular(written + chunk));
  }

  lemma {:induction false} WriteRestExact(e: Environment, w: World, name: Name, content: Bytes, offset: nat)
    requires name.Stage? && offset <= |content| && Holds(w.files, name, content[..offset])
    ensures Quiet(w, WriteRest(e, w, name, content, offset).0)
    ensures WriteRest(e, w, name, content, offset).1 ==>
              Holds(WriteRest(e, w, name, content, offset).0.files, name, content)
    decreases |content| - offset
  {
    if offset < |content| {
      var count := Moved(e, w, |content| - offset);
      CallThrough(w, w.files);
      if count > 0 {
        var chunk := content[offset..offset + count];
        var next := Append(w, name, chunk);
        AppendedHolds(w.files, name, content[..offset], chunk);
        assert content[..offset] + chunk == content[..offset + count];
        CallThrough(w, next.files);
        WriteRestExact(e, next, name, content, offset + count);
        HushQuiet(w, next, WriteRest(e, next, name, content, offset + count).0);
      }
    } else {
      assert content[..offset] == content;
    }
  }

  lemma PrepareExact(e: Environment, w: World, stage: Name, content: Bytes)
    requires stage.Stage?
    ensures Quiet(w, Prepare(e, w, stage, content).0)
    ensures Prepare(e, w, stage, content).1 ==> Holds(Prepare(e, w, stage, content).0.files, stage, content)
  {
    var (created, ok) := CreateStage(e, w, stage);
    CreateStageQuiet(e, w, stage);
    if ok {
      var (written, all) := WriteRest(e, created, stage, content, 0);
      WriteRestExact(e, created, stage, content, 0);
      HushQuiet(w, created, written);
      if all {
        var (private, secured) := SetMode(e, written, stage);
        CallThrough(written, written.files);
        HushQuiet(w, written, private);
        CallThrough(private, private.files);
        HushQuiet(w, private, FlushFile(e, private, stage).0);
      }
    }
  }

  // ---- Installing it ----

  function Installed(files: Files, name: Name, content: Bytes): Files {
    Named(files)[name := Regular(content)]
  }

  lemma MovedIn(files: Files, stage: Name, name: Name, content: Bytes)
    requires stage.Stage? && !name.Stage? && Holds(files, stage, content)
    ensures Named(files[name := files[stage]] - {stage}) == Installed(files, name, content)
    ensures Named(files[name := files[stage]]) == Installed(files, name, content)
  {
    NamedPut(files, name, files[stage]);
    NamedDrop(files[name := files[stage]], stage);
  }

  lemma InstallExact(e: Environment, w: World, stage: Name, name: Name, content: Bytes, noReplace: bool)
    requires stage.Stage? && !name.Stage? && Holds(w.files, stage, content)
    ensures var (after, ok) := Install(e, w, stage, name, noReplace);
      && Through(w, after, {Named(w.files), Installed(w.files, name, content)})
      && (ok ==> Named(after.files) == Installed(w.files, name, content))
      && (noReplace && name in w.files ==> Quiet(w, after) && !ok)
  {
    MovedIn(w.files, stage, name, content);
    var both := {Named(w.files), Installed(w.files, name, content)};
    if noReplace && e.answer(w.calls).unsupported {
      var tried := Call(w, w.files);
      CallThrough(w, w.files);
      var (linked, ok) := Link(e, tried, stage, name);
      CallThrough(tried, linked.files);
      Hush(w, tried, linked, {Named(linked.files)});
      if ok {
        UnlinkStageQuiet(e, linked, stage);
        Compose(w, linked, Unlink(e, linked, stage).0, both, {Named(linked.files)});
        assert both + {Named(linked.files)} == both;
      }
    } else {
      CallThrough(w, Install(e, w, stage, name, noReplace).0.files);
    }
  }

  lemma WriteStageExact(e: Environment, w: World, name: Name, content: Bytes, noReplace: bool)
    requires !name.Stage?
    ensures var (after, ok) := WriteStage(e, w, name, content, noReplace);
      && Through(w, after, {Named(w.files), Installed(w.files, name, content)})
      && (ok ==> Named(after.files) == Installed(w.files, name, content))
      && (noReplace && name in w.files ==> Quiet(w, after) && !ok)
  {
    hide Prepare, Install;
    var stage := Stage(e.process, w.counter + 1);
    var numbered := w.(counter := w.counter + 1);
    var (ready, prepared) := Prepare(e, numbered, stage, content);
    PrepareExact(e, numbered, stage, content);
    assert Quiet(w, ready);
    if !prepared {
      UnlinkStageQuiet(e, ready, stage);
      HushQuiet(w, ready, Unlink(e, ready, stage).0);
    } else {
      WriteStagePlaced(e, w, ready, stage, name, content, noReplace);
    }
  }

  lemma NamedKeeps(a: World, b: World, name: Name)
    requires Quiet(a, b) && !name.Stage?
    ensures name in a.files <==> name in b.files
    ensures name in a.files ==> a.files[name] == b.files[name]
  {
    assert name in a.files <==> name in Named(a.files);
    assert name in b.files <==> name in Named(b.files);
    assert Named(a.files) == Named(b.files);
    assert name in a.files ==> Named(a.files)[name] == a.files[name];
    assert name in b.files ==> Named(b.files)[name] == b.files[name];
  }

  lemma WriteStagePlaced(e: Environment, w: World, ready: World, stage: Name, name: Name, content: Bytes,
                         noReplace: bool)
    requires Quiet(w, ready) && stage.Stage? && !name.Stage? && Holds(ready.files, stage, content)
    ensures var (placed, installed) := Install(e, ready, stage, name, noReplace);
      var (after, ok) := if !installed then (Unlink(e, placed, stage).0, false) else FlushDirectory(e, placed);
      && Through(w, after, {Named(w.files), Installed(w.files, name, content)})
      && (ok ==> Named(after.files) == Installed(w.files, name, content))
      && (noReplace && name in w.files ==> Quiet(w, after) && !ok)
  {
    hide Install;
    var (placed, installed) := Install(e, ready, stage, name, noReplace);
    var after := if !installed then Unlink(e, placed, stage).0 else FlushDirectory(e, placed).0;
    var both := {Named(w.files), Installed(w.files, name, content)};
    InstallExact(e, ready, stage, name, content, noReplace);
    UnlinkStageQuiet(e, placed, stage);
    CallThrough(placed, placed.files);
    Hush(w, ready, placed, both);
    assert both + {Named(w.files)} == both;
    Compose(w, placed, after, both, {Named(placed.files)});
    assert both + {Named(placed.files)} == both;
    NamedKeeps(w, ready, name);
    if noReplace && name in w.files {
      HushQuiet(w, ready, placed);
      HushQuiet(w, placed, after);
    }
  }

  // Every state during a write: nothing changed, or exactly the target became the content.
  lemma WriteAtomicExact(e: Environment, w: World, name: Name, content: Bytes, noReplace: bool)
    requires !name.Stage?
    ensures var (after, ok) := WriteAtomic(e, w, name, content, noReplace);
      && Through(w, after, {Named(w.files), Installed(w.files, name, content)})
      && (ok ==> Named(after.files) == Installed(w.files, name, content))
      && (noReplace && name in w.files ==> Quiet(w, after) && !ok)
  {
    hide WriteStage;
    var (seen, kind) := PathKind(e, w, name);
    PathKindQuiet(e, w, name);
    var both := {Named(w.files), Installed(w.files, name, content)};
    Widen(w, seen, {Named(w.files)}, both);
    if !(kind == UnsafeKind || (noReplace && kind != MissingKind)) {
      var after := WriteStage(e, seen, name, content, noReplace).0;
      WriteStageExact(e, seen, name, content, noReplace);
      Hush(w, seen, after, both);
      assert both + {Named(w.files)} == both;
      if noReplace && name in w.files {
        HushQuiet(w, seen, after);
      }
    }
  }
}
