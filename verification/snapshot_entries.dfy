/**
  * A canonical snapshot told from the entries it was given: which desktop and which output
  * comes of which entry, when all of them are accepted, and what is wrong with one that is not.
  */
module SnapshotEntries {
  import opened Basics
  import opened Snapshots

  // ---- One entry ----

  // The entry holds exactly these fields, within their bounds.
  ghost predicate IsDesktop(raw: RawDesktop, d: Desktop, count: nat) {
    && raw == RawDesktop(Some(d.id), Some(d.name), Some(d.position as real))
    && 1 <= |d.id| <= 1024 && |d.name| <= 256 && d.position < count
  }

  ghost predicate IsOutput(raw: RawOutput, o: Output) {
    && raw == RawOutput(Some(o.name), Some(o.currentId), Some(o.showTransient))
    && 1 <= |o.name| <= 256 && 1 <= |o.currentId| <= 1024
  }

  ghost predicate HoldsDesktop(raw: RawDesktop, count: nat) {
    exists d :: IsDesktop(raw, d, count)
  }

  ghost predicate HoldsOutput(raw: RawOutput) {
    exists o :: IsOutput(raw, o)
  }

  lemma DesktopIsItsEntry(raw: RawDesktop, d: Desktop, count: nat)
    ensures DecodeDesktop(raw, count) == Ok(d) <==> IsDesktop(raw, d, count)
  {
  }

  lemma OutputIsItsEntry(raw: RawOutput, o: Output)
    ensures DecodeOutput(raw) == Ok(o) <==> IsOutput(raw, o)
  {
  }

  // Of several faults of an entry the first is named: its schema, its id, its name, its position.
  lemma DesktopFault(raw: RawDesktop, count: nat, e: Error)
    requires DecodeDesktop(raw, count) == Err(e)
    ensures e == DesktopSchema <==> raw.BrokenDesktop?
    ensures e == DesktopId <==> raw.RawDesktop? && (raw.id.None? || raw.id.value == "" || |raw.id.value| > 1024)
    ensures e == DesktopName ==> raw.RawDesktop? && (raw.name.None? || |raw.name.value| > 256)
    ensures e in {DesktopSchema, DesktopId, DesktopName, DesktopPosition}
    ensures e == DesktopPosition ==>
              raw.RawDesktop? && (raw.position.None? || raw.position.value < 0.0 || raw.position.value >= count as real
                                  || raw.position.value.Floor as real != raw.position.value)
  {
  }

  // ---- What is accepted ----

  ghost predicate AllDesktops(raws: seq<RawDesktop>, count: nat) {
    forall k :: 0 <= k < |raws| ==> HoldsDesktop(raws[k], count)
  }

  ghost predicate GoodDesktops(raws: seq<RawDesktop>) {
    && 0 < |raws| <= 256
    && AllDesktops(raws, |raws|)
    && forall j, k, d, e :: 0 <= j < k < |raws| && IsDesktop(raws[j], d, |raws|) && IsDesktop(raws[k], e, |raws|) ==>
         d.id != e.id && d.position != e.position
  }

  ghost predicate AllOutputs(raws: seq<RawOutput>) {
    forall k :: 0 <= k < |raws| ==> HoldsOutput(raws[k])
  }

  // Every output names a desktop that is listed; none is named twice, and one at most asks for feedback.
  ghost predicate FitOutputs(raws: seq<RawOutput>, ids: set<string>) {
    && 0 < |raws| <= 64
    && AllOutputs(raws)
    && (forall k, o :: 0 <= k < |raws| && IsOutput(raws[k], o) ==> o.currentId in ids)
    && forall j, k, o, p :: 0 <= j < k < |raws| && IsOutput(raws[j], o) && IsOutput(raws[k], p) ==>
         o.name != p.name && !(o.showTransient && p.showTransient)
  }

  ghost predicate HasEntry(raws: seq<RawDesktop>, d: Desktop) {
    exists k :: 0 <= k < |raws| && IsDesktop(raws[k], d, |raws|)
  }

  // At each position stands the desktop of an entry, and every entry's desktop stands at its position.
  ghost predicate ListsDesktops(desktops: seq<Desktop>, raws: seq<RawDesktop>) {
    && |desktops| == |raws|
    && (forall i :: 0 <= i < |desktops| ==>
          desktops[i].position == i && HasEntry(raws, desktops[i]))
    && forall k, d :: 0 <= k < |raws| && IsDesktop(raws[k], d, |raws|) ==> d in desktops
  }

  ghost predicate ListsOutputs(outputs: seq<Output>, raws: seq<RawOutput>) {
    |outputs| == |raws| && forall i :: 0 <= i < |outputs| ==> IsOutput(raws[i], outputs[i])
  }

  lemma DecodableIs(raws: seq<RawDesktop>, count: nat)
    ensures Decodable(raws, count) <==> AllDesktops(raws, count)
  {
    hide DecodeDesktop, IsDesktop;
    if Decodable(raws, count) {
      forall k | 0 <= k < |raws|
        ensures HoldsDesktop(raws[k], count)
      {
        var r := DecodeDesktop(raws[k], count);
        DesktopIsItsEntry(raws[k], r.value, count);
        assert IsDesktop(raws[k], r.value, count);
      }
    }
    if AllDesktops(raws, count) {
      forall k | 0 <= k < |raws|
        ensures DecodeDesktop(raws[k], count).Ok?
      {
        assert HoldsDesktop(raws[k], count);
        var d :| IsDesktop(raws[k], d, count);
        DesktopIsItsEntry(raws[k], d, count);
      }
    }
  }

  lemma DecodedIs(raws: seq<RawDesktop>, count: nat, k: nat, d: Desktop)
    requires Decodable(raws, count) && k < |raws|
    ensures IsDesktop(raws[k], d, count) <==> d == Decoded(raws, count)[k]
  {
    DesktopIsItsEntry(raws[k], d, count);
    hide DecodeDesktop, IsDesktop;
  }

  lemma GoodIs(raws: seq<RawDesktop>)
    ensures GoodDesktops(raws)
      <==> 0 < |raws| <= MAX_DESKTOPS && Decodable(raws, |raws|) && Distinct(Decoded(raws, |raws|))
  {
    hide DecodeDesktop, IsDesktop;
    DecodableIs(raws, |raws|);
    if Decodable(raws, |raws|) {
      forall k, d | 0 <= k < |raws|
        ensures IsDesktop(raws[k], d, |raws|) <==> d == Decoded(raws, |raws|)[k]
      {
        DecodedIs(raws, |raws|, k, d);
      }
      hide Decoded;
      var all := Decoded(raws, |raws|);
      if GoodDesktops(raws) {
        forall j, k | 0 <= j < k < |all|
          ensures all[j].id != all[k].id && all[j].position != all[k].position
        {
          assert IsDesktop(raws[j], all[j], |raws|) && IsDesktop(raws[k], all[k], |raws|);
        }
      }
    }
  }

  // Desktops are accepted exactly when every entry is one and no two share an id or a position; each then
  // stands at its position, with the id and the name of its entry.
  lemma DesktopsFromEntries(raws: seq<RawDesktop>)
    ensures DecodeDesktops(raws).Ok? <==> GoodDesktops(raws)
    ensures DecodeDesktops(raws).Ok? ==> ListsDesktops(DecodeDesktops(raws).value, raws)
  {
    DesktopsExactly(raws);
    GoodIs(raws);
    if DecodeDesktops(raws).Ok? {
      hide DecodeDesktop, IsDesktop, Distinct, GoodDesktops, DecodeDesktops, ListsDesktops;
      ListedAre(raws, DecodeDesktops(raws).value);
    }
  }

  lemma ListedAre(raws: seq<RawDesktop>, r: seq<Desktop>)
    requires Decodable(raws, |raws|) && |r| == |raws|
    requires forall i :: 0 <= i < |r| ==> r[i].position == i && r[i] in Decoded(raws, |raws|)
    requires forall d :: d in Decoded(raws, |raws|) ==> d in r
    ensures ListsDesktops(r, raws)
  {
    var all := Decoded(raws, |raws|);
    forall k, d | 0 <= k < |raws|
      ensures IsDesktop(raws[k], d, |raws|) <==> d == all[k]
    {
      DecodedIs(raws, |raws|, k, d);
    }
    hide DecodeDesktop, IsDesktop;
    forall i | 0 <= i < |r|
      ensures HasEntry(raws, r[i])
    {
      var k :| 0 <= k < |all| && all[k] == r[i];
      assert IsDesktop(raws[k], r[i], |raws|);
    }
    forall k, d | 0 <= k < |raws| && IsDesktop(raws[k], d, |raws|)
      ensures d in r
    {
      assert d == all[k] && all[k] in all;
    }
  }
  lemma ReadableIs(raws: seq<RawOutput>)
    ensures ReadableOutputs(raws) <==> AllOutputs(raws)
  {
    hide DecodeOutput, IsOutput;
    if ReadableOutputs(raws) {
      forall k | 0 <= k < |raws|
        ensures HoldsOutput(raws[k])
      {
        var r := DecodeOutput(raws[k]);
        OutputIsItsEntry(raws[k], r.value);
        assert IsOutput(raws[k], r.value);
      }
    }
    if AllOutputs(raws) {
      forall k | 0 <= k < |raws|
        ensures DecodeOutput(raws[k]).Ok?
      {
        assert HoldsOutput(raws[k]);
        var o :| IsOutput(raws[k], o);
        OutputIsItsEntry(raws[k], o);
      }
    }
  }

  lemma OutputsOfAre(raws: seq<RawOutput>)
    requires ReadableOutputs(raws)
    ensures forall k, o :: 0 <= k < |raws| ==> (IsOutput(raws[k], o) <==> o == OutputsOf(raws)[k])
  {
    hide IsOutput;
    forall k, o | 0 <= k < |raws|
      ensures IsOutput(raws[k], o) <==> o == OutputsOf(raws)[k]
    {
      OutputIsItsEntry(raws[k], o);
    }
  }

  // Outputs are accepted exactly when every entry is one, of a desktop that is listed, with a name of its
  // own, and one at most asks for feedback; they keep their order and their fields.
  lemma OutputsFromEntries(raws: seq<RawOutput>, ids: set<string>)
    ensures DecodeOutputs(raws, ids).Ok? <==> FitOutputs(raws, ids)
    ensures DecodeOutputs(raws, ids).Ok? ==> ListsOutputs(DecodeOutputs(raws, ids).value, raws)
  {
    OutputsExactly(raws, ids);
    ReadableIs(raws);
    hide DecodeOutput, IsOutput, DecodeOutputs;
    if ReadableOutputs(raws) {
      OutputsOfAre(raws);
      FitIs(raws, ids);
    }
  }

  lemma FitIs(raws: seq<RawOutput>, ids: set<string>)
    requires ReadableOutputs(raws)
    ensures FitOutputs(raws, ids) <==> 0 < |raws| <= MAX_OUTPUTS && GoodOutputs(OutputsOf(raws), ids)
  {
    ReadableIs(raws);
    OutputsOfAre(raws);
    hide DecodeOutput, IsOutput, OutputsOf;
    var all := OutputsOf(raws);
    if FitOutputs(raws, ids) {
      assert forall k :: 0 <= k < |raws| ==> IsOutput(raws[k], all[k]);
    }
  }

  // ---- The whole snapshot ----

  ghost predicate IsEpoch(epoch: string) {
    |epoch| == 32 && forall c :: c in epoch ==> c in "0123456789abcdef"
  }

  lemma EpochIs(epoch: string)
    ensures ValidEpoch(epoch) <==> IsEpoch(epoch)
  {
    forall c: char
      ensures c in "0123456789abcdef" <==> '0' <= c <= '9' || 'a' <= c <= 'f'
    {
      HexDigit(c);
    }
    assert forall i :: 0 <= i < |epoch| ==> epoch[i] in epoch;
  }

  lemma HexDigit(c: char)
    ensures c in "0123456789abcdef" <==> '0' <= c <= '9' || 'a' <= c <= 'f'
  {
    var digits := "0123456789abcdef";
    assert digits[0] == '0' && digits[9] == '9' && digits[10] == 'a' && digits[15] == 'f';
    if '0' <= c <= '9' {
      assert digits[c as int - '0' as int] == c;
    } else if 'a' <= c <= 'f' {
      assert digits[10 + c as int - 'a' as int] == c;
    }
  }

  ghost predicate IsSnapshotOf(s: Snapshot, epoch: string, desktops: seq<RawDesktop>, outputs: seq<RawOutput>) {
    s.epoch == epoch && ListsDesktops(s.desktops, desktops) && ListsOutputs(s.outputs, outputs)
  }

  // Two lists of the same entries are the same list.
  lemma OneSnapshot(a: Snapshot, b: Snapshot, epoch: string, desktops: seq<RawDesktop>, outputs: seq<RawOutput>)
    requires IsSnapshotOf(a, epoch, desktops, outputs) && IsSnapshotOf(b, epoch, desktops, outputs)
    ensures a == b
  {
    forall i | 0 <= i < |a.desktops|
      ensures a.desktops[i] == b.desktops[i]
    {
      assert HasEntry(desktops, a.desktops[i]);
      var k :| 0 <= k < |desktops| && IsDesktop(desktops[k], a.desktops[i], |desktops|);
      assert a.desktops[i] in b.desktops;
    }
    assert a.desktops == b.desktops;
    assert a.outputs == b.outputs;
  }

  // A snapshot is accepted, and becomes this one, exactly when its epoch is one, its desktops and outputs are
  // good and its text not too long, or when there are neither desktops nor outputs; it holds what the
  // entries hold.
  lemma CanonicalExactly(epoch: string, desktops: seq<RawDesktop>, outputs: seq<RawOutput>, fits: Snapshot -> bool,
                         s: Snapshot)
    ensures Canonicalise(epoch, desktops, outputs, fits) == Ok(s)
      <==> IsEpoch(epoch) && IsSnapshotOf(s, epoch, desktops, outputs)
           && ((desktops == [] && outputs == [])
               || (GoodDesktops(desktops) && FitOutputs(outputs, IdsOf(s.desktops)) && fits(s)))
  {
    EpochIs(epoch);
    DesktopsFromEntries(desktops);
    hide DecodeDesktops, DecodeOutputs, ValidEpoch, IsEpoch, GoodDesktops, FitOutputs, IdsOf;
    if desktops == [] && outputs == [] {
      NothingListed(epoch, s);
    } else if desktops != [] && outputs != [] && DecodeDesktops(desktops).Ok? {
      var ds := DecodeDesktops(desktops).value;
      OutputsFromEntries(outputs, IdsOf(ds));
      if IsSnapshotOf(s, epoch, desktops, outputs) {
        SameDesktops(s.desktops, ds, desktops);
      }
      var shown := DecodeOutputs(outputs, IdsOf(ds));
      if shown.Ok? && IsSnapshotOf(s, epoch, desktops, outputs) {
        OneSnapshot(s, Snapshot(epoch, ds, shown.value), epoch, desktops, outputs);
      }
    } else {
      EmptyIsNotGood(desktops, outputs, s);
    }
  }

  lemma NothingListed(epoch: string, s: Snapshot)
    ensures IsSnapshotOf(s, epoch, [], []) <==> s == Snapshot(epoch, [], [])
  {
  }

  lemma SameDesktops(a: seq<Desktop>, b: seq<Desktop>, raws: seq<RawDesktop>)
    requires ListsDesktops(a, raws) && ListsDesktops(b, raws)
    ensures a == b
  {
    OneSnapshot(Snapshot("", a, []), Snapshot("", b, []), "", raws, []);
  }

  lemma EmptyIsNotGood(desktops: seq<RawDesktop>, outputs: seq<RawOutput>, s: Snapshot)
    ensures desktops == [] ==> !GoodDesktops(desktops)
    ensures outputs == [] ==> !FitOutputs(outputs, IdsOf(s.desktops))
  {
  }

  // ---- What is wrong otherwise ----

  // The first `k` entries are good, and entry `k` is at fault like this.
  ghost predicate FaultAt(raws: seq<RawDesktop>, k: nat, count: nat, e: Error) {
    && k < |raws| && Decodable(raws[..k], count) && Distinct(Decoded(raws[..k], count))
    && var d := DecodeDesktop(raws[k], count);
       if d.Err? then e == d.error
       else e == DesktopDuplicate
            && exists i :: 0 <= i < k && (Decoded(raws[..k], count)[i].id == d.value.id
                                          || Decoded(raws[..k], count)[i].position == d.value.position)
  }

  lemma {:induction false} FirstFault(raws: seq<RawDesktop>, k: nat, count: nat, e: Error)
    requires k <= |raws| && Decodable(raws[..k], count) && Distinct(Decoded(raws[..k], count))
    requires DecodeAll(raws[k..], count, Decoded(raws[..k], count)) == Err(e)
    ensures exists i :: FaultAt(raws, i, count, e)
    decreases |raws| - k
  {
    hide DecodeDesktop;
    var seen := Decoded(raws[..k], count);
    var d := DecodeDesktop(raws[k], count);
    assert raws[k..][0] == raws[k] && raws[k..][1..] == raws[k + 1..];
    if d.Ok? && !Clashes(seen, d.value) {
      assert raws[..k + 1] == raws[..k] + [raws[k]];
      assert Decoded(raws[..k + 1], count) == seen + [d.value];
      ClashesIs(seen, d.value);
      FirstFault(raws, k + 1, count, e);
    } else {
      if d.Ok? {
        var x :| x in seen && (x.id == d.value.id || x.position == d.value.position);
        var i :| 0 <= i < |seen| && seen[i] == x;
      }
      assert FaultAt(raws, k, count, e);
    }
  }

  // Desktops are refused for their number, or for the first entry at fault.
  lemma DesktopsFault(raws: seq<RawDesktop>, e: Error)
    requires DecodeDesktops(raws) == Err(e)
    ensures if 0 < |raws| <= 256 then exists k :: FaultAt(raws, k, |raws|, e) else e == DesktopCount
  {
    if 0 < |raws| <= 256 {
      assert raws[0..] == raws && Decoded(raws[..0], |raws|) == [];
      FirstFault(raws, 0, |raws|, e);
    }
  }

  // The first `k` outputs are good, and output `k` is none, is named twice, shows no desktop or asks for
  // feedback as another does, the first of these that is so.
  ghost predicate OutputFaultAt(raws: seq<RawOutput>, k: nat, ids: set<string>, e: Error) {
    && k < |raws| && ReadableOutputs(raws[..k]) && GoodOutputs(OutputsOf(raws[..k]), ids)
    && if !HoldsOutput(raws[k]) then e == OutputSchema
       else
         exists o :: IsOutput(raws[k], o)
           && if (exists i :: 0 <= i < k && OutputsOf(raws[..k])[i].name == o.name) then e == OutputDuplicate
              else if o.currentId !in ids then e == OutputUnresolved
              else e == OutputFeedback && o.showTransient
                   && exists i :: 0 <= i < k && OutputsOf(raws[..k])[i].showTransient
  }

  lemma OutputFaultIs(raws: seq<RawOutput>, k: nat, ids: set<string>)
    requires k < |raws| && ReadableOutputs(raws[..k]) && GoodOutputs(OutputsOf(raws[..k]), ids)
    ensures
      var o := DecodeOutput(raws[k]);
      && (o.Err? ==> OutputFaultAt(raws, k, ids, o.error))
      && (o.Ok? && OutputFault(OutputsOf(raws[..k]), o.value, ids).Some? ==>
            OutputFaultAt(raws, k, ids, OutputFault(OutputsOf(raws[..k]), o.value, ids).value))
  {
    var o, seen := DecodeOutput(raws[k]), OutputsOf(raws[..k]);
    assert forall p :: DecodeOutput(raws[k]) == Ok(p) <==> IsOutput(raws[k], p);
    assert o.Err? ==> o.error == OutputSchema;
    hide DecodeOutput, IsOutput, OutputsOf, GoodOutputs, ReadableOutputs;
    if o.Ok? {
      assert o == Ok(o.value) && HoldsOutput(raws[k]);
      NamedTwice(seen, o.value);
    }
  }

  lemma NamedTwice(seen: seq<Output>, o: Output)
    ensures (exists e :: e in seen && e.name == o.name) <==> exists i :: 0 <= i < |seen| && seen[i].name == o.name
    ensures (exists e :: e in seen && e.showTransient) <==> exists i :: 0 <= i < |seen| && seen[i].showTransient
  {
    assert forall i :: 0 <= i < |seen| ==> seen[i] in seen;
  }

  lemma {:induction false} FirstOutputFault(raws: seq<RawOutput>, k: nat, ids: set<string>, e: Error)
    requires k <= |raws| && ReadableOutputs(raws[..k]) && GoodOutputs(OutputsOf(raws[..k]), ids)
    requires DecodeOutputsFrom(raws[k..], ids, OutputsOf(raws[..k])) == Err(e)
    ensures exists i :: OutputFaultAt(raws, i, ids, e)
    decreases |raws| - k
  {
    hide DecodeOutput, OutputFault, GoodOutputs, OutputFaultAt;
    var seen := OutputsOf(raws[..k]);
    var o := DecodeOutput(raws[k]);
    assert raws[k..][0] == raws[k] && raws[k..][1..] == raws[k + 1..];
    OutputFaultIs(raws, k, ids);
    if o.Ok? && OutputFault(seen, o.value, ids).None? {
      assert raws[..k + 1] == raws[..k] + [raws[k]];
      assert OutputsOf(raws[..k + 1]) == seen + [o.value];
      FaultIs(seen, o.value, ids);
      FirstOutputFault(raws, k + 1, ids, e);
    }
  }

  // Outputs are refused for their number, or for the first at fault.
  lemma OutputsFault(raws: seq<RawOutput>, ids: set<string>, e: Error)
    requires DecodeOutputs(raws, ids) == Err(e)
    ensures if 0 < |raws| <= 64 then exists k :: OutputFaultAt(raws, k, ids, e) else e == OutputCount
  {
    if 0 < |raws| <= 64 {
      assert raws[0..] == raws && OutputsOf(raws[..0]) == [];
      FirstOutputFault(raws, 0, ids, e);
    }
  }

  // What a snapshot is refused for: its epoch, having only one of desktops and outputs, its desktops, its
  // outputs, or its length, in this order.
  lemma CanonicalFault(epoch: string, desktops: seq<RawDesktop>, outputs: seq<RawOutput>, fits: Snapshot -> bool,
                       e: Error)
    requires Canonicalise(epoch, desktops, outputs, fits) == Err(e)
    ensures !IsEpoch(epoch) ==> e == InvalidEpoch
    ensures IsEpoch(epoch) && (desktops == [] || outputs == []) ==> e == NotCanonical
    ensures IsEpoch(epoch) && desktops != [] && outputs != [] ==>
              if DecodeDesktops(desktops).Err? then e == DecodeDesktops(desktops).error
              else
                var shown := DecodeOutputs(outputs, IdsOf(DecodeDesktops(desktops).value));
                e == if shown.Err? then shown.error else TooLong
  {
    EpochIs(epoch);
  }
}
