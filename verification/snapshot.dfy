/**
  * Canonical workspace snapshots: what a script reports is checked, its desktops are put in
  * order of position and its outputs kept in theirs. JSON text is taken as already parsed.
  */
module Snapshots {
  import opened Basics

  datatype Result<T> = Ok(value: T) | Err(error: Error)

  datatype Error =
    | InvalidEpoch | NotCanonical
    | DesktopCount | DesktopSchema | DesktopId | DesktopName | DesktopPosition | DesktopDuplicate
    | OutputCount | OutputSchema | OutputDuplicate | OutputUnresolved | OutputFeedback
    | TooLong

  datatype Desktop = Desktop(id: string, name: string, position: nat)

  datatype Output = Output(name: string, currentId: string, showTransient: bool)

  datatype Snapshot = Snapshot(epoch: string, desktops: seq<Desktop>, outputs: seq<Output>)

  // A field of the wrong type is None; an entry that is no object, or has other keys, Broken.
  datatype RawDesktop = BrokenDesktop | RawDesktop(id: Option<string>, name: Option<string>, position: Option<real>)

  datatype RawOutput =
    BrokenOutput | RawOutput(name: Option<string>, currentId: Option<string>, showTransient: Option<bool>)

  const MAX_DESKTOPS: nat := 256
  const MAX_ID_LENGTH: nat := 1024
  const MAX_NAME_LENGTH: nat := 256
  const MAX_OUTPUTS: nat := 64
  const EPOCH_LENGTH: nat := 32

  predicate ValidEpoch(epoch: string) {
    && |epoch| == EPOCH_LENGTH
    && forall i :: 0 <= i < |epoch| ==> '0' <= epoch[i] <= '9' || 'a' <= epoch[i] <= 'f'
  }

  predicate ValidText(value: Option<string>, maximum: nat, allowEmpty: bool) {
    value.Some? && (allowEmpty || value.value != "") && |value.value| <= maximum
  }

  // ---- Desktops ----

  function DecodeDesktop(raw: RawDesktop, count: nat): Result<Desktop> {
    if raw.BrokenDesktop? then Err(DesktopSchema)
    else if !ValidText(raw.id, MAX_ID_LENGTH, false) then Err(DesktopId)
    else if !ValidText(raw.name, MAX_NAME_LENGTH, true) then Err(DesktopName)
    else if raw.position.None? || raw.position.value.Floor as real != raw.position.value
            || raw.position.value < 0.0 || raw.position.value >= count as real then Err(DesktopPosition)
    else Ok(Desktop(raw.id.value, raw.name.value, raw.position.value.Floor))
  }

  predicate Clashes(seen: seq<Desktop>, d: Desktop) {
    exists e :: e in seen && (e.id == d.id || e.position == d.position)
  }

  function DecodeAll(raws: seq<RawDesktop>, count: nat, seen: seq<Desktop>): Result<seq<Desktop>>
    decreases |raws|
  {
    if raws == [] then Ok(seen) else
    var d := DecodeDesktop(raws[0], count);
    if d.Err? then Err(d.error)
    else if Clashes(seen, d.value) then Err(DesktopDuplicate)
    else DecodeAll(raws[1..], count, seen + [d.value])
  }

  // The desktop at a position.
  function AtPosition(desktops: seq<Desktop>, position: nat): Desktop {
    if desktops == [] then Desktop("", "", 0)
    else if desktops[0].position == position then desktops[0]
    else AtPosition(desktops[1..], position)
  }

  function InOrder(desktops: seq<Desktop>): (r: seq<Desktop>)
    ensures |r| == |desktops|
  {
    seq(|desktops|, i requires 0 <= i < |desktops| => AtPosition(desktops, i))
  }

  function DecodeDesktops(raws: seq<RawDesktop>): Result<seq<Desktop>> {
    if raws == [] || |raws| > MAX_DESKTOPS then Err(DesktopCount) else
    var all := DecodeAll(raws, |raws|, []);
    if all.Err? then all else Ok(InOrder(all.value))
  }

  // ---- Outputs ----

  function DecodeOutput(raw: RawOutput): Result<Output> {
    if raw.BrokenOutput? || !ValidText(raw.name, MAX_NAME_LENGTH, false)
       || !ValidText(raw.currentId, MAX_ID_LENGTH, false) || raw.showTransient.None? then Err(OutputSchema)
    else Ok(Output(raw.name.value, raw.currentId.value, raw.showTransient.value))
  }

  function OutputFault(seen: seq<Output>, o: Output, ids: set<string>): Option<Error> {
    if exists e :: e in seen && e.name == o.name then Some(OutputDuplicate)
    else if o.currentId !in ids then Some(OutputUnresolved)
    else if o.showTransient && exists e :: e in seen && e.showTransient then Some(OutputFeedback)
    else None
  }

  function DecodeOutputsFrom(raws: seq<RawOutput>, ids: set<string>, seen: seq<Output>): Result<seq<Output>>
    decreases |raws|
  {
    if raws == [] then Ok(seen) else
    var o := DecodeOutput(raws[0]);
    if o.Err? then Err(o.error) else
    var fault := OutputFault(seen, o.value, ids);
    if fault.Some? then Err(fault.value) else DecodeOutputsFrom(raws[1..], ids, seen + [o.value])
  }

  function DecodeOutputs(raws: seq<RawOutput>, ids: set<string>): Result<seq<Output>> {
    if raws == [] || |raws| > MAX_OUTPUTS then Err(OutputCount) else DecodeOutputsFrom(raws, ids, [])
  }

  // ---- Snapshots ----

  function IdsOf(desktops: seq<Desktop>): set<string> {
    set d | d in desktops :: d.id
  }

  // `fits` is the bound on the length of the text a snapshot is written as.
  function Canonicalise(epoch: string, desktops: seq<RawDesktop>, outputs: seq<RawOutput>, fits: Snapshot -> bool)
    : Result<Snapshot>
  {
    if !ValidEpoch(epoch) then Err(InvalidEpoch)
    else if desktops == [] || outputs == [] then
      (if desktops != [] || outputs != [] then Err(NotCanonical) else Ok(Snapshot(epoch, [], [])))
    else
      var decoded := DecodeDesktops(desktops);
      if decoded.Err? then Err(decoded.error) else
      var shown := DecodeOutputs(outputs, IdsOf(decoded.value));
      if shown.Err? then Err(shown.error) else
      var snapshot := Snapshot(epoch, decoded.value, shown.value);
      if fits(snapshot) then Ok(snapshot) else Err(TooLong)
  }

  // ---- What is accepted ----

  ghost predicate Decodable(raws: seq<RawDesktop>, count: nat) {
    forall i :: 0 <= i < |raws| ==> DecodeDesktop(raws[i], count).Ok?
  }

  ghost predicate Distinct(desktops: seq<Desktop>) {
    forall i, j :: 0 <= i < j < |desktops| ==>
      desktops[i].id != desktops[j].id && desktops[i].position != desktops[j].position
  }

  function Decoded(raws: seq<RawDesktop>, count: nat): (r: seq<Desktop>)
    requires Decodable(raws, count)
    ensures |r| == |raws|
  {
    seq(|raws|, i requires 0 <= i < |raws| => DecodeDesktop(raws[i], count).value)
  }

  lemma ClashesIs(seen: seq<Desktop>, d: Desktop)
    requires Distinct(seen)
    ensures Distinct(seen + [d]) <==> !Clashes(seen, d)
  {
    if Clashes(seen, d) {
      var e :| e in seen && (e.id == d.id || e.position == d.position);
      var i :| 0 <= i < |seen| && seen[i] == e;
      assert (seen + [d])[i] == e && (seen + [d])[|seen|] == d;
    }
  }

  lemma PrefixDistinct(a: seq<Desktop>, b: seq<Desktop>)
    requires Distinct(a + b)
    ensures Distinct(a)
  {
    forall i, j | 0 <= i < j < |a|
      ensures a[i].id != a[j].id && a[i].position != a[j].position
    {
      assert (a + b)[i] == a[i] && (a + b)[j] == a[j];
    }
  }

  // Accepted exactly when every entry is well formed and none repeats an id or a position.
  lemma {:induction false} DecodeAllExactly(raws: seq<RawDesktop>, count: nat, seen: seq<Desktop>)
    requires Distinct(seen)
    ensures DecodeAll(raws, count, seen).Ok? <==> Decodable(raws, count) && Distinct(seen + Decoded(raws, count))
    ensures DecodeAll(raws, count, seen).Ok? ==> DecodeAll(raws, count, seen).value == seen + Decoded(raws, count)
    decreases |raws|
  {
    hide DecodeDesktop;
    if raws == [] {
      assert seen + Decoded(raws, count) == seen;
    } else {
      var d := DecodeDesktop(raws[0], count);
      if d.Ok? {
        ClashesIs(seen, d.value);
        var rest := raws[1..];
        assert Decodable(raws, count) <==> Decodable(rest, count) by { DecodableTail(raws, count); }
        if Decodable(raws, count) {
          assert seen + Decoded(raws, count) == (seen + [d.value]) + Decoded(rest, count);
          if Distinct(seen + Decoded(raws, count)) {
            PrefixDistinct(seen + [d.value], Decoded(rest, count));
          }
        }
        if !Clashes(seen, d.value) {
          DecodeAllExactly(rest, count, seen + [d.value]);
        }
      }
    }
  }

  lemma DecodableTail(raws: seq<RawDesktop>, count: nat)
    requires raws != []
    ensures Decodable(raws, count) <==> DecodeDesktop(raws[0], count).Ok? && Decodable(raws[1..], count)
  {
    hide DecodeDesktop;
    if DecodeDesktop(raws[0], count).Ok? && Decodable(raws[1..], count) {
      forall i | 0 <= i < |raws|
        ensures DecodeDesktop(raws[i], count).Ok?
      {
        if i > 0 {
          assert raws[i] == raws[1..][i - 1];
        }
      }
    }
  }

  // ---- Order by position ----

  ghost predicate InRange(desktops: seq<Desktop>) {
    forall i :: 0 <= i < |desktops| ==> desktops[i].position < |desktops|
  }

  function Positions(desktops: seq<Desktop>): set<nat> {
    set i | 0 <= i < |desktops| :: desktops[i].position
  }

  lemma {:induction false} PositionsSize(desktops: seq<Desktop>)
    requires Distinct(desktops)
    ensures |Positions(desktops)| == |desktops|
    decreases |desktops|
  {
    if desktops != [] {
      var n := |desktops| - 1;
      var rest := desktops[..n];
      PositionsSize(rest);
      assert Positions(desktops) == Positions(rest) + {desktops[n].position};
      assert desktops[n].position !in Positions(rest);
    }
  }

  function Below(n: nat): (r: set<nat>)
    ensures |r| == n && forall i: nat :: i in r <==> i < n
  {
    if n == 0 then {} else Below(n - 1) + {n - 1}
  }

  lemma SubsetOfSameSize(a: set<nat>, b: set<nat>)
    requires a <= b && |a| == |b|
    ensures a == b
  {
    assert b == a + (b - a);
    assert |b| == |a| + |b - a|;
  }

  // As many distinct positions as there are places fill every place.
  lemma Pigeonhole(desktops: seq<Desktop>, position: nat)
    requires Distinct(desktops) && InRange(desktops) && position < |desktops|
    ensures exists i :: 0 <= i < |desktops| && desktops[i].position == position
  {
    PositionsSize(desktops);
    SubsetOfSameSize(Positions(desktops), Below(|desktops|));
    assert position in Below(|desktops|);
  }

  lemma {:induction false} AtPositionIs(desktops: seq<Desktop>, k: nat)
    requires Distinct(desktops) && k < |desktops|
    ensures AtPosition(desktops, desktops[k].position) == desktops[k]
    decreases |desktops|
  {
    if k > 0 {
      AtPositionIs(desktops[1..], k - 1);
    }
  }

  // Entry i has position i, and the entries are those given.
  lemma InOrderExactly(desktops: seq<Desktop>)
    requires Distinct(desktops) && InRange(desktops)
    ensures forall i :: 0 <= i < |desktops| ==> InOrder(desktops)[i].position == i && InOrder(desktops)[i] in desktops
    ensures forall d :: d in desktops ==> d.position < |desktops| && InOrder(desktops)[d.position] == d
    ensures Distinct(InOrder(desktops)) && IdsOf(InOrder(desktops)) == IdsOf(desktops)
  {
    forall i | 0 <= i < |desktops|
      ensures InOrder(desktops)[i].position == i && InOrder(desktops)[i] in desktops
    {
      Pigeonhole(desktops, i);
      var k :| 0 <= k < |desktops| && desktops[k].position == i;
      AtPositionIs(desktops, k);
    }
    forall d | d in desktops
      ensures d.position < |desktops| && InOrder(desktops)[d.position] == d
    {
      var k :| 0 <= k < |desktops| && desktops[k] == d;
      AtPositionIs(desktops, k);
    }
    OrderDistinct(desktops, InOrder(desktops));
  }

  lemma OrderDistinct(desktops: seq<Desktop>, r: seq<Desktop>)
    requires Distinct(desktops) && |r| == |desktops|
    requires forall i :: 0 <= i < |r| ==> r[i].position == i && r[i] in desktops
    requires forall d :: d in desktops ==> d.position < |r| && r[d.position] == d
    ensures Distinct(r) && IdsOf(r) == IdsOf(desktops)
  {
    forall i, j | 0 <= i < j < |r|
      ensures r[i].id != r[j].id && r[i].position != r[j].position
    {
      var k :| 0 <= k < |desktops| && desktops[k] == r[i];
      var l :| 0 <= l < |desktops| && desktops[l] == r[j];
    }
    forall id | id in IdsOf(desktops)
      ensures id in IdsOf(r)
    {
      var d :| d in desktops && d.id == id;
      assert r[d.position] in r;
    }
  }

  lemma DecodedInRange(raws: seq<RawDesktop>)
    requires Decodable(raws, |raws|)
    ensures InRange(Decoded(raws, |raws|))
  {
  }

  // Desktops are accepted exactly when there is a bounded number of well-formed ones whose
  // ids differ and whose positions are a permutation; the result lists them by position.
  lemma DesktopsExactly(raws: seq<RawDesktop>)
    ensures DecodeDesktops(raws).Ok?
            <==> 0 < |raws| <= MAX_DESKTOPS && Decodable(raws, |raws|) && Distinct(Decoded(raws, |raws|))
    ensures DecodeDesktops(raws).Ok? ==>
              var r := DecodeDesktops(raws).value;
              && |r| == |raws| && Distinct(r)
              && (forall i :: 0 <= i < |r| ==> r[i].position == i && r[i] in Decoded(raws, |raws|))
              && (forall d :: d in Decoded(raws, |raws|) ==> d in r)
  {
    hide DecodeAll, DecodeDesktop, AtPosition;
    if raws != [] && |raws| <= MAX_DESKTOPS {
      DecodeAllExactly(raws, |raws|, []);
      if DecodeAll(raws, |raws|, []).Ok? {
        var decoded := Decoded(raws, |raws|);
        assert [] + decoded == decoded;
        DecodedInRange(raws);
        InOrderExactly(decoded);
      } else if Decodable(raws, |raws|) {
        assert [] + Decoded(raws, |raws|) == Decoded(raws, |raws|);
      }
    }
  }

  // ---- The order given does not matter ----

  lemma SameMembers(a: seq<RawDesktop>, b: seq<RawDesktop>)
    requires multiset(a) == multiset(b)
    ensures |a| == |b| && forall x :: x in a <==> x in b
  {
    assert |a| == |multiset(a)| && |b| == |multiset(b)|;
    forall x
      ensures x in a <==> x in b
    {
      assert x in a <==> multiset(a)[x] > 0;
      assert x in b <==> multiset(b)[x] > 0;
    }
  }

  lemma DistinctRaws(raws: seq<RawDesktop>, count: nat)
    requires Decodable(raws, count) && Distinct(Decoded(raws, count))
    ensures forall i, j :: 0 <= i < j < |raws| ==> raws[i] != raws[j]
  {
    hide DecodeDesktop;
    forall i, j | 0 <= i < j < |raws|
      ensures raws[i] != raws[j]
    {
      assert Decoded(raws, count)[i] == DecodeDesktop(raws[i], count).value;
      assert Decoded(raws, count)[j] == DecodeDesktop(raws[j], count).value;
    }
  }

  lemma OnceEach(a: seq<RawDesktop>, b: seq<RawDesktop>)
    requires multiset(a) == multiset(b) && forall i, j :: 0 <= i < j < |a| ==> a[i] != a[j]
    ensures forall i, j :: 0 <= i < j < |b| ==> b[i] != b[j]
  {
    forall i, j | 0 <= i < j < |b|
      ensures b[i] != b[j]
    {
      if b[i] == b[j] {
        TwiceIn(b, i, j);
        OnlyOnce(a, b[i]);
      }
    }
  }

  lemma TwiceIn(s: seq<RawDesktop>, i: nat, j: nat)
    requires i < j < |s| && s[i] == s[j]
    ensures multiset(s)[s[i]] >= 2
  {
    assert s == s[..i] + [s[i]] + s[i + 1..j] + [s[j]] + s[j + 1..];
  }

  lemma {:induction false} OnlyOnce(s: seq<RawDesktop>, x: RawDesktop)
    requires forall i, j :: 0 <= i < j < |s| ==> s[i] != s[j]
    ensures multiset(s)[x] <= 1
    decreases |s|
  {
    if s != [] {
      OnlyOnce(s[1..], x);
      assert s == [s[0]] + s[1..];
      if s[0] == x {
        assert x !in s[1..];
        assert multiset(s[1..])[x] == 0;
      }
    }
  }

  lemma DecodedHas(raws: seq<RawDesktop>, count: nat, d: Desktop)
    requires Decodable(raws, count)
    ensures d in Decoded(raws, count) <==> exists x :: x in raws && DecodeDesktop(x, count) == Ok(d)
  {
    hide DecodeDesktop;
    if d in Decoded(raws, count) {
      var i :| 0 <= i < |raws| && Decoded(raws, count)[i] == d;
      assert raws[i] in raws;
    }
    if x :| x in raws && DecodeDesktop(x, count) == Ok(d) {
      var i :| 0 <= i < |raws| && raws[i] == x;
      assert Decoded(raws, count)[i] == d;
    }
  }

  lemma DecodableBy(raws: seq<RawDesktop>, count: nat)
    ensures Decodable(raws, count) <==> forall x :: x in raws ==> DecodeDesktop(x, count).Ok?
  {
    hide DecodeDesktop;
  }

  // Different entries of a list that decodes to different desktops differ after decoding.
  lemma ApartBy(raws: seq<RawDesktop>, count: nat, x: RawDesktop, y: RawDesktop)
    requires Decodable(raws, count) && Distinct(Decoded(raws, count)) && x in raws && y in raws && x != y
    ensures DecodeDesktop(x, count).Ok? && DecodeDesktop(y, count).Ok?
    ensures DecodeDesktop(x, count).value.id != DecodeDesktop(y, count).value.id
            && DecodeDesktop(x, count).value.position != DecodeDesktop(y, count).value.position
  {
    hide DecodeDesktop;
    var i :| 0 <= i < |raws| && raws[i] == x;
    var j :| 0 <= j < |raws| && raws[j] == y;
    assert Decoded(raws, count)[i] == DecodeDesktop(x, count).value;
    assert Decoded(raws, count)[j] == DecodeDesktop(y, count).value;
  }

  lemma ReorderedApart(a: seq<RawDesktop>, b: seq<RawDesktop>, n: nat)
    requires multiset(a) == multiset(b) && Decodable(a, n) && Distinct(Decoded(a, n)) && Decodable(b, n)
    requires forall x :: x in b ==> x in a
    ensures Distinct(Decoded(b, n))
  {
    hide DecodeDesktop;
    DistinctRaws(a, n);
    OnceEach(a, b);
    var r := Decoded(b, n);
    forall i, j | 0 <= i < j < |r|
      ensures r[i].id != r[j].id && r[i].position != r[j].position
    {
      ApartBy(a, n, b[i], b[j]);
    }
  }

  lemma ReorderedDistinct(a: seq<RawDesktop>, b: seq<RawDesktop>)
    requires multiset(a) == multiset(b) && Decodable(a, |a|) && Distinct(Decoded(a, |a|))
    ensures |a| == |b| && Decodable(b, |b|) && Distinct(Decoded(b, |b|))
    ensures forall d :: d in Decoded(b, |b|) <==> d in Decoded(a, |a|)
  {
    hide DecodeDesktop, Decoded, Distinct, Decodable;
    SameMembers(a, b);
    DecodableBy(a, |a|);
    DecodableBy(b, |a|);
    ReorderedApart(a, b, |a|);
    forall d
      ensures d in Decoded(b, |b|) <==> d in Decoded(a, |a|)
    {
      DecodedHas(a, |a|, d);
      DecodedHas(b, |b|, d);
    }
  }

  lemma ReorderedDesktops(a: seq<RawDesktop>, b: seq<RawDesktop>)
    requires multiset(a) == multiset(b) && DecodeDesktops(a).Ok?
    ensures DecodeDesktops(b) == DecodeDesktops(a)
  {
    hide DecodeDesktops, Decoded, Distinct, DecodeDesktop;
    DesktopsExactly(a);
    ReorderedDistinct(a, b);
    DesktopsExactly(b);
    var r, s := DecodeDesktops(a).value, DecodeDesktops(b).value;
    forall i | 0 <= i < |r|
      ensures r[i] == s[i]
    {
      assert r[i] in Decoded(b, |b|);
      var k :| 0 <= k < |s| && s[k] == r[i];
    }
    assert r == s;
  }

  // Any order of the same desktops gives the identical snapshot, or none at all.
  lemma OrderDoesNotMatter(epoch: string, a: seq<RawDesktop>, b: seq<RawDesktop>, outputs: seq<RawOutput>,
                           fits: Snapshot -> bool)
    requires multiset(a) == multiset(b)
    ensures Canonicalise(epoch, a, outputs, fits).Ok? <==> Canonicalise(epoch, b, outputs, fits).Ok?
    ensures Canonicalise(epoch, a, outputs, fits).Ok? ==>
              Canonicalise(epoch, b, outputs, fits) == Canonicalise(epoch, a, outputs, fits)
  {
    hide DecodeDesktops, DecodeOutputs, ValidEpoch;
    SameMembers(a, b);
    if DecodeDesktops(a).Ok? {
      ReorderedDesktops(a, b);
    }
    if DecodeDesktops(b).Ok? {
      ReorderedDesktops(b, a);
    }
  }

  // ---- Outputs ----

  ghost predicate GoodOutputs(outputs: seq<Output>, ids: set<string>) {
    && (forall i, j :: 0 <= i < j < |outputs| ==>
          outputs[i].name != outputs[j].name && !(outputs[i].showTransient && outputs[j].showTransient))
    && (forall i :: 0 <= i < |outputs| ==> outputs[i].currentId in ids)
  }

  ghost predicate ReadableOutputs(raws: seq<RawOutput>) {
    forall i :: 0 <= i < |raws| ==> DecodeOutput(raws[i]).Ok?
  }

  function OutputsOf(raws: seq<RawOutput>): (r: seq<Output>)
    requires ReadableOutputs(raws)
    ensures |r| == |raws|
  {
    seq(|raws|, i requires 0 <= i < |raws| => DecodeOutput(raws[i]).value)
  }

  lemma FaultIs(seen: seq<Output>, o: Output, ids: set<string>)
    requires GoodOutputs(seen, ids)
    ensures GoodOutputs(seen + [o], ids) <==> OutputFault(seen, o, ids).None?
  {
    var more := seen + [o];
    assert more[|seen|] == o;
    if e :| e in seen && (e.name == o.name || (e.showTransient && o.showTransient)) {
      var i :| 0 <= i < |seen| && seen[i] == e;
      assert more[i] == e;
    }
    if GoodOutputs(more, ids) {
      assert OutputFault(seen, o, ids).None?;
    } else if OutputFault(seen, o, ids).None? {
      NoFaultGood(seen, o, ids);
    }
  }

  lemma NoFaultGood(seen: seq<Output>, o: Output, ids: set<string>)
    requires GoodOutputs(seen, ids) && OutputFault(seen, o, ids).None?
    ensures GoodOutputs(seen + [o], ids)
  {
    var more := seen + [o];
    forall i, j | 0 <= i < j < |more|
      ensures more[i].name != more[j].name && !(more[i].showTransient && more[j].showTransient)
    {
      if j == |seen| {
        assert more[i] in seen;
      }
    }
  }

  lemma PrefixGood(a: seq<Output>, b: seq<Output>, ids: set<string>)
    requires GoodOutputs(a + b, ids)
    ensures GoodOutputs(a, ids)
  {
    forall i, j | 0 <= i < j < |a|
      ensures a[i].name != a[j].name && !(a[i].showTransient && a[j].showTransient)
    {
      assert (a + b)[i] == a[i] && (a + b)[j] == a[j];
    }
    forall i | 0 <= i < |a|
      ensures a[i].currentId in ids
    {
      assert (a + b)[i] == a[i];
    }
  }

  lemma ReadableTail(raws: seq<RawOutput>)
    requires raws != []
    ensures ReadableOutputs(raws) <==> DecodeOutput(raws[0]).Ok? && ReadableOutputs(raws[1..])
  {
    hide DecodeOutput;
    if DecodeOutput(raws[0]).Ok? && ReadableOutputs(raws[1..]) {
      forall i | 0 <= i < |raws|
        ensures DecodeOutput(raws[i]).Ok?
      {
        if i > 0 {
          assert raws[i] == raws[1..][i - 1];
        }
      }
    }
  }

  lemma {:induction false} OutputsFromExactly(raws: seq<RawOutput>, ids: set<string>, seen: seq<Output>)
    requires GoodOutputs(seen, ids)
    ensures DecodeOutputsFrom(raws, ids, seen).Ok?
            <==> ReadableOutputs(raws) && GoodOutputs(seen + OutputsOf(raws), ids)
    ensures DecodeOutputsFrom(raws, ids, seen).Ok? ==>
              DecodeOutputsFrom(raws, ids, seen).value == seen + OutputsOf(raws)
    decreases |raws|
  {
    hide DecodeOutput, OutputFault, GoodOutputs;
    if raws == [] {
      assert seen + OutputsOf(raws) == seen;
    } else {
      var o := DecodeOutput(raws[0]);
      ReadableTail(raws);
      if o.Ok? {
        var rest := raws[1..];
        FaultIs(seen, o.value, ids);
        if ReadableOutputs(raws) {
          assert seen + OutputsOf(raws) == (seen + [o.value]) + OutputsOf(rest);
          if GoodOutputs(seen + OutputsOf(raws), ids) {
            PrefixGood(seen + [o.value], OutputsOf(rest), ids);
          }
        }
        if OutputFault(seen, o.value, ids).None? {
          OutputsFromExactly(rest, ids, seen + [o.value]);
        }
      }
    }
  }

  // Outputs are accepted exactly when names differ, desktops resolve and at most one asks
  // for feedback; they keep their order.
  lemma OutputsExactly(raws: seq<RawOutput>, ids: set<string>)
    ensures DecodeOutputs(raws, ids).Ok?
            <==> 0 < |raws| <= MAX_OUTPUTS && ReadableOutputs(raws) && GoodOutputs(OutputsOf(raws), ids)
    ensures DecodeOutputs(raws, ids).Ok? ==> DecodeOutputs(raws, ids).value == OutputsOf(raws)
  {
    hide DecodeOutput, OutputFault;
    OutputsFromExactly(raws, ids, []);
    if ReadableOutputs(raws) {
      assert [] + OutputsOf(raws) == OutputsOf(raws);
    }
  }

  // Every output of an accepted snapshot shows exactly one of its desktops.
  lemma OutputsResolve(epoch: string, desktops: seq<RawDesktop>, outputs: seq<RawOutput>, fits: Snapshot -> bool)
    requires Canonicalise(epoch, desktops, outputs, fits).Ok?
    ensures var s := Canonicalise(epoch, desktops, outputs, fits).value;
      && (forall i :: 0 <= i < |s.desktops| ==> s.desktops[i].position == i)
      && |s.outputs| == |outputs|
      && (forall o :: 0 <= o < |s.outputs| ==> ResolvesOnce(s.desktops, s.outputs[o].currentId))
      && (forall i, j :: 0 <= i < j < |s.outputs| ==> !(s.outputs[i].showTransient && s.outputs[j].showTransient))
  {
    hide DecodeDesktops, DecodeOutputs, DecodeOutput, DecodeDesktop, ValidEpoch;
    if desktops != [] {
      var s := Canonicalise(epoch, desktops, outputs, fits).value;
      DesktopsExactly(desktops);
      OutputsExactly(outputs, IdsOf(s.desktops));
      hide IdsOf;
      forall o | 0 <= o < |s.outputs|
        ensures ResolvesOnce(s.desktops, s.outputs[o].currentId)
      {
        ResolvesIn(s.desktops, s.outputs[o].currentId);
      }
    }
  }

  ghost predicate ResolvesOnce(desktops: seq<Desktop>, id: string) {
    exists d :: 0 <= d < |desktops| && desktops[d].id == id
                && forall e :: 0 <= e < |desktops| && desktops[e].id == id ==> e == d
  }

  lemma ResolvesIn(desktops: seq<Desktop>, id: string)
    requires Distinct(desktops) && id in IdsOf(desktops)
    ensures ResolvesOnce(desktops, id)
  {
    var x :| x in desktops && x.id == id;
    var d :| 0 <= d < |desktops| && desktops[d] == x;
    assert forall e :: 0 <= e < |desktops| && desktops[e].id == id ==> e == d;
  }

  // ---- Feeding a snapshot back ----

  function RawDesktops(desktops: seq<Desktop>): (r: seq<RawDesktop>)
    ensures |r| == |desktops|
  {
    seq(|desktops|, i requires 0 <= i < |desktops| =>
          RawDesktop(Some(desktops[i].id), Some(desktops[i].name), Some(desktops[i].position as real)))
  }

  function RawOutputs(outputs: seq<Output>): (r: seq<RawOutput>)
    ensures |r| == |outputs|
  {
    seq(|outputs|, i requires 0 <= i < |outputs| =>
          RawOutput(Some(outputs[i].name), Some(outputs[i].currentId), Some(outputs[i].showTransient)))
  }

  lemma DesktopBack(d: Desktop, raw: RawDesktop, count: nat)
    requires DecodeDesktop(raw, count) == Ok(d)
    ensures DecodeDesktop(RawDesktop(Some(d.id), Some(d.name), Some(d.position as real)), count) == Ok(d)
  {
  }

  lemma OutputBack(o: Output, raw: RawOutput)
    requires DecodeOutput(raw) == Ok(o)
    ensures DecodeOutput(RawOutput(Some(o.name), Some(o.currentId), Some(o.showTransient))) == Ok(o)
  {
  }

  lemma DesktopsBack(raws: seq<RawDesktop>)
    requires DecodeDesktops(raws).Ok?
    ensures DecodeDesktops(RawDesktops(DecodeDesktops(raws).value)) == DecodeDesktops(raws)
  {
    hide DecodeDesktops, DecodeDesktop;
    DesktopsExactly(raws);
    var r := DecodeDesktops(raws).value;
    var back := RawDesktops(r);
    forall i | 0 <= i < |r|
      ensures DecodeDesktop(back[i], |r|) == Ok(r[i])
    {
      var k :| 0 <= k < |raws| && Decoded(raws, |raws|)[k] == r[i];
      DesktopBack(r[i], raws[k], |raws|);
    }
    assert Decoded(back, |back|) == r;
    DesktopsExactly(back);
    var again := DecodeDesktops(back).value;
    forall i | 0 <= i < |r|
      ensures again[i] == r[i]
    {
      assert again[i] in r;
      var k :| 0 <= k < |r| && r[k] == again[i];
    }
    assert again == r;
  }

  lemma OutputsBack(raws: seq<RawOutput>, ids: set<string>)
    requires DecodeOutputs(raws, ids).Ok?
    ensures DecodeOutputs(RawOutputs(DecodeOutputs(raws, ids).value), ids) == DecodeOutputs(raws, ids)
  {
    hide DecodeOutputs, DecodeOutput, GoodOutputs;
    OutputsExactly(raws, ids);
    var r := DecodeOutputs(raws, ids).value;
    var back := RawOutputs(r);
    forall i | 0 <= i < |r|
      ensures DecodeOutput(back[i]) == Ok(r[i])
    {
      OutputBack(r[i], raws[i]);
    }
    assert OutputsOf(back) == r;
    OutputsExactly(back, ids);
  }

  // A canonical snapshot is its own canonical form.
  lemma CanonicalIsFixed(epoch: string, desktops: seq<RawDesktop>, outputs: seq<RawOutput>, fits: Snapshot -> bool)
    requires Canonicalise(epoch, desktops, outputs, fits).Ok?
    ensures var s := Canonicalise(epoch, desktops, outputs, fits).value;
      Canonicalise(epoch, RawDesktops(s.desktops), RawOutputs(s.outputs), fits) == Ok(s)
  {
    hide DecodeDesktops, DecodeOutputs, ValidEpoch;
    if desktops != [] {
      DesktopsBack(desktops);
      DesktopsExactly(desktops);
      var s := Canonicalise(epoch, desktops, outputs, fits).value;
      OutputsBack(outputs, IdsOf(s.desktops));
      OutputsExactly(outputs, IdsOf(s.desktops));
    }
  }
}
