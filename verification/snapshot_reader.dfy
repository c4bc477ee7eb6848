/** Reading a script snapshot step by step, and publishing each snapshot once in a row. */
module SnapshotReader {
  import opened Basics
  import opened Snapshots

  // ---- Sorting by position ----

  ghost predicate Ascending(desktops: seq<Desktop>) {
    forall i, j :: 0 <= i < j < |desktops| ==> desktops[i].position <= desktops[j].position
  }

  method SortByPosition(desktops: seq<Desktop>) returns (r: seq<Desktop>)
    ensures Ascending(r) && multiset(r) == multiset(desktops)
  {
    r := [];
    var k := 0;
    while k < |desktops|
      invariant 0 <= k <= |desktops|
      invariant Ascending(r) && multiset(r) == multiset(desktops[..k])
    {
      assert desktops[..k + 1] == desktops[..k] + [desktops[k]];
      r := InsertByPosition(r, desktops[k]);
      k := k + 1;
    }
    assert desktops[..k] == desktops;
  }

  method InsertByPosition(r: seq<Desktop>, d: Desktop) returns (t: seq<Desktop>)
    requires Ascending(r)
    ensures Ascending(t) && multiset(t) == multiset(r) + multiset{d}
  {
    var at := |r|;
    while at > 0 && r[at - 1].position > d.position
      invariant 0 <= at <= |r|
      invariant forall i :: at <= i < |r| ==> r[i].position > d.position
    {
      at := at - 1;
    }
    Inserted(r, d, at);
    return r[..at] + [d] + r[at..];
  }

  lemma Inserted(r: seq<Desktop>, d: Desktop, at: nat)
    requires Ascending(r) && at <= |r|
    requires at > 0 ==> r[at - 1].position <= d.position
    requires forall i :: at <= i < |r| ==> r[i].position > d.position
    ensures Ascending(r[..at] + [d] + r[at..]) && multiset(r[..at] + [d] + r[at..]) == multiset(r) + multiset{d}
  {
    InsertedMultiset(r, d, at);
    var t := r[..at] + [d] + r[at..];
    assert forall i :: 0 <= i < at ==> t[i] == r[i] && r[i].position <= d.position;
    assert forall i :: at < i < |t| ==> t[i] == r[i - 1];
  }

  lemma InsertedMultiset(r: seq<Desktop>, d: Desktop, at: nat)
    requires at <= |r|
    ensures multiset(r[..at] + [d] + r[at..]) == multiset(r) + multiset{d}
  {
    assert r == r[..at] + r[at..];
  }

  lemma InSorted(desktops: seq<Desktop>, r: seq<Desktop>)
    requires multiset(r) == multiset(desktops)
    ensures |r| == |desktops| && forall d :: d in r <==> d in desktops
  {
    assert |r| == |multiset(r)| && |desktops| == |multiset(desktops)|;
    forall d
      ensures d in r <==> d in desktops
    {
      assert d in r <==> multiset(r)[d] > 0;
      assert d in desktops <==> multiset(desktops)[d] > 0;
    }
  }

  ghost predicate Increasing(desktops: seq<Desktop>) {
    forall i, j :: 0 <= i < j < |desktops| ==> desktops[i].position < desktops[j].position
  }

  lemma {:induction false} AtLeast(r: seq<Desktop>, i: nat)
    requires Increasing(r) && i < |r|
    ensures r[i].position >= i
    decreases i
  {
    if i > 0 {
      AtLeast(r, i - 1);
    }
  }

  lemma {:induction false} AtMost(r: seq<Desktop>, i: nat)
    requires Increasing(r) && InRange(r) && i < |r|
    ensures r[i].position <= i
    decreases |r| - i
  {
    if i + 1 < |r| {
      AtMost(r, i + 1);
    }
  }

  // Sorting by position is putting every desktop at its position.
  lemma SortedIsInOrder(desktops: seq<Desktop>, r: seq<Desktop>)
    requires Distinct(desktops) && InRange(desktops) && Ascending(r) && multiset(r) == multiset(desktops)
    ensures r == InOrder(desktops)
  {
    InSorted(desktops, r);
    InOrderExactly(desktops);
    NoRepeat(desktops, r);
    assert forall i :: 0 <= i < |r| ==> r[i] in r;
    forall i | 0 <= i < |r|
      ensures r[i] == InOrder(desktops)[i]
    {
      AtLeast(r, i);
      AtMost(r, i);
    }
  }

  lemma NoRepeat(desktops: seq<Desktop>, r: seq<Desktop>)
    requires Distinct(desktops) && Ascending(r) && multiset(r) == multiset(desktops)
    ensures Increasing(r)
  {
    InSorted(desktops, r);
    forall i, j | 0 <= i < j < |r|
      ensures r[i].position < r[j].position
    {
      assert r[i] in r && r[j] in r;
      var k :| 0 <= k < |desktops| && desktops[k] == r[i];
      var l :| 0 <= l < |desktops| && desktops[l] == r[j];
      if k == l {
        TwoOf(r, i, j);
        OneOf(desktops, k);
      }
    }
  }

  lemma TwoOf(s: seq<Desktop>, i: nat, j: nat)
    requires i < j < |s| && s[i] == s[j]
    ensures multiset(s)[s[i]] >= 2
  {
    assert s == s[..i] + [s[i]] + s[i + 1..j] + [s[j]] + s[j + 1..];
  }

  lemma OneOf(s: seq<Desktop>, k: nat)
    requires Distinct(s) && k < |s|
    ensures multiset(s)[s[k]] == 1
  {
    assert s == s[..k] + [s[k]] + s[k + 1..];
    assert s[k] !in s[..k] && s[k] !in s[k + 1..];
  }

  // ---- Decoding ----

  method ReadDesktops(raws: seq<RawDesktop>) returns (r: Result<seq<Desktop>>)
    ensures r == DecodeDesktops(raws)
  {
    hide DecodeDesktop, InOrder;
    if raws == [] || |raws| > MAX_DESKTOPS { return Err(DesktopCount); }
    var desktops: seq<Desktop> := [];
    var ids: set<string> := {};
    var positions: set<nat> := {};
    var k := 0;
    while k < |raws|
      invariant 0 <= k <= |raws| && Distinct(desktops)
      invariant forall id :: id in ids <==> exists d :: d in desktops && d.id == id
      invariant forall p :: p in positions <==> exists d :: d in desktops && d.position == p
      invariant DecodeAll(raws, |raws|, []) == DecodeAll(raws[k..], |raws|, desktops)
    {
      assert raws[k..][0] == raws[k] && raws[k..][1..] == raws[k + 1..];
      var d := DecodeDesktop(raws[k], |raws|);
      if d.Err? { return Err(d.error); }
      ClashesIs(desktops, d.value);
      if d.value.id in ids || d.value.position in positions { return Err(DesktopDuplicate); }
      ids := ids + {d.value.id};
      positions := positions + {d.value.position};
      desktops := desktops + [d.value];
      k := k + 1;
    }
    assert raws[k..] == [];
    DecodeAllExactly(raws, |raws|, []);
    assert [] + Decoded(raws, |raws|) == Decoded(raws, |raws|);
    DecodedInRange(raws);
    var sorted := SortByPosition(desktops);
    SortedIsInOrder(desktops, sorted);
    return Ok(sorted);
  }

  method ReadOutputs(raws: seq<RawOutput>, ids: set<string>) returns (r: Result<seq<Output>>)
    ensures r == DecodeOutputs(raws, ids)
  {
    hide DecodeOutput;
    if raws == [] || |raws| > MAX_OUTPUTS { return Err(OutputCount); }
    var outputs: seq<Output> := [];
    var names: set<string> := {};
    var transientSeen := false;
    var k := 0;
    while k < |raws|
      invariant 0 <= k <= |raws|
      invariant forall n :: n in names <==> exists o :: o in outputs && o.name == n
      invariant transientSeen <==> exists o :: o in outputs && o.showTransient
      invariant DecodeOutputsFrom(raws, ids, []) == DecodeOutputsFrom(raws[k..], ids, outputs)
    {
      assert raws[k..][0] == raws[k] && raws[k..][1..] == raws[k + 1..];
      var o := DecodeOutput(raws[k]);
      if o.Err? { return Err(o.error); }
      if o.value.name in names { return Err(OutputDuplicate); }
      if o.value.currentId !in ids { return Err(OutputUnresolved); }
      if o.value.showTransient && transientSeen { return Err(OutputFeedback); }
      names := names + {o.value.name};
      transientSeen := transientSeen || o.value.showTransient;
      outputs := outputs + [o.value];
      k := k + 1;
    }
    assert raws[k..] == [];
    return Ok(outputs);
  }

  method ReadSnapshot(epoch: string, desktops: seq<RawDesktop>, outputs: seq<RawOutput>, fits: Snapshot -> bool)
    returns (r: Result<Snapshot>)
    ensures r == Canonicalise(epoch, desktops, outputs, fits)
  {
    hide DecodeDesktops, DecodeOutputs;
    if !ValidEpoch(epoch) { return Err(InvalidEpoch); }
    if desktops == [] || outputs == [] {
      if desktops != [] || outputs != [] { return Err(NotCanonical); }
      return Ok(Snapshot(epoch, [], []));
    }
    var decoded := ReadDesktops(desktops);
    if decoded.Err? { return Err(decoded.error); }
    var ids := IdsOf(decoded.value);
    var shown := ReadOutputs(outputs, ids);
    if shown.Err? { return Err(shown.error); }
    var snapshot := Snapshot(epoch, decoded.value, shown.value);
    if !fits(snapshot) { return Err(TooLong); }
    return Ok(snapshot);
  }

  // ---- Publishing ----

  class SnapshotDeduplicator<T(==)> {
    var last: Option<T>

    constructor ()
      ensures last == None
    {
      last := None;
    }

    method ShouldPublish(snapshot: T) returns (publish: bool)
      modifies this
      ensures publish <==> old(last) != Some(snapshot)
      ensures last == Some(snapshot)
    {
      publish := last != Some(snapshot);
      last := Some(snapshot);
    }
  }

  function Published<T(==)>(last: Option<T>, offered: seq<T>): seq<T>
    decreases |offered|
  {
    if offered == [] then []
    else if last == Some(offered[0]) then Published(last, offered[1..])
    else [offered[0]] + Published(Some(offered[0]), offered[1..])
  }

  // What is published never repeats at once, starts anew, and ends with the last offered.
  lemma {:induction false} PublishedChanges<T>(last: Option<T>, offered: seq<T>)
    ensures var p := Published(last, offered);
      && (forall i :: 0 < i < |p| ==> p[i] != p[i - 1])
      && (p != [] ==> last != Some(p[0]))
      && (offered != [] ==> offered[|offered| - 1] == if p != [] then p[|p| - 1] else last.value)
      && (offered != [] && p == [] ==> last.Some?)
    decreases |offered|
  {
    if offered != [] {
      var rest := offered[1..];
      var next := if last == Some(offered[0]) then last else Some(offered[0]);
      PublishedChanges(next, rest);
      assert rest != [] ==> rest[|rest| - 1] == offered[|offered| - 1];
    }
  }
}
