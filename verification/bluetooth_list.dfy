/**
  * The bounded device list: records are appended one by one and, whenever there are too
  * many, sorted and cut; that equals sorting all of them once and cutting at the end.
  */
module BluetoothList {
  import opened Basics

  type Path = string

  // The name as case-insensitive comparison sees it: its folded code units.
  datatype Device = Device(token: int, path: Path, adapterPath: Path, folded: seq<nat>, paired: bool,
                           connected: bool, lastSeen: int)

  const MAX_DEVICES: nat := 32
  const DISCOVERED_RETENTION_MS: int := 60_000

  // ---- The order ----

  function CompareNames(a: seq<nat>, b: seq<nat>): int {
    if a == [] && b == [] then 0
    else if a == [] then -1
    else if b == [] then 1
    else if a[0] != b[0] then (if a[0] < b[0] then -1 else 1)
    else CompareNames(a[1..], b[1..])
  }

  predicate Before(a: Device, b: Device, target: int) {
    if (a.token == target) != (b.token == target) then a.token == target
    else if a.connected != b.connected then a.connected
    else if a.paired != b.paired then a.paired
    else if CompareNames(a.folded, b.folded) == 0 then a.token < b.token
    else CompareNames(a.folded, b.folded) < 0
  }

  lemma {:induction false} CompareSwap(a: seq<nat>, b: seq<nat>)
    ensures CompareNames(a, b) == -CompareNames(b, a)
    ensures CompareNames(a, b) in {-1, 0, 1}
    decreases |a| + |b|
  {
    if a != [] && b != [] {
      CompareSwap(a[1..], b[1..]);
    }
  }

  lemma {:induction false} CompareChain(a: seq<nat>, b: seq<nat>, c: seq<nat>)
    requires CompareNames(a, b) <= 0 && CompareNames(b, c) <= 0
    ensures CompareNames(a, c) <= 0
    ensures CompareNames(a, c) == 0 ==> CompareNames(a, b) == 0 && CompareNames(b, c) == 0
    decreases |a| + |b| + |c|
  {
    if a != [] && b != [] && c != [] && a[0] == b[0] == c[0] {
      CompareChain(a[1..], b[1..], c[1..]);
    }
  }

  // A strict total order on records with distinct tokens.
  lemma BeforeTotal(a: Device, b: Device, target: int)
    ensures !(Before(a, b, target) && Before(b, a, target))
    ensures a.token != b.token ==> Before(a, b, target) || Before(b, a, target)
  {
    CompareSwap(a.folded, b.folded);
  }

  lemma BeforeChain(a: Device, b: Device, c: Device, target: int)
    requires Before(a, b, target) && Before(b, c, target)
    ensures Before(a, c, target)
  {
    if a.token == target || b.token == target || c.token == target {
      BeforeTotal(a, b, target);
    }
    if CompareNames(a.folded, b.folded) <= 0 && CompareNames(b.folded, c.folded) <= 0 {
      CompareChain(a.folded, b.folded, c.folded);
    }
  }

  // ---- Sorting ----

  ghost predicate IsSorted(s: seq<Device>, target: int) {
    forall i, j :: 0 <= i < j < |s| ==> Before(s[i], s[j], target)
  }

  ghost predicate DistinctTokens(s: seq<Device>) {
    forall i, j :: 0 <= i < j < |s| ==> s[i].token != s[j].token
  }

  function Insert(x: Device, s: seq<Device>, target: int): (r: seq<Device>)
    ensures |r| == |s| + 1
  {
    if s == [] then [x]
    else if Before(x, s[0], target) then [x] + s
    else [s[0]] + Insert(x, s[1..], target)
  }

  function Sorted(s: seq<Device>, target: int): (r: seq<Device>)
    ensures |r| == |s|
  {
    if s == [] then [] else Insert(s[|s| - 1], Sorted(s[..|s| - 1], target), target)
  }

  function Cut(s: seq<Device>): (r: seq<Device>)
    ensures |r| == Min(|s|, MAX_DEVICES)
  {
    s[..Min(|s|, MAX_DEVICES)]
  }

  lemma {:induction false} InsertMultiset(x: Device, s: seq<Device>, target: int)
    ensures multiset(Insert(x, s, target)) == multiset(s) + multiset{x}
    decreases |s|
  {
    if s != [] && !Before(x, s[0], target) {
      InsertMultiset(x, s[1..], target);
      assert s == [s[0]] + s[1..];
    }
  }

  lemma {:induction false} SortedMultiset(s: seq<Device>, target: int)
    ensures multiset(Sorted(s, target)) == multiset(s)
    decreases |s|
  {
    if s != [] {
      SortedMultiset(s[..|s| - 1], target);
      InsertMultiset(s[|s| - 1], Sorted(s[..|s| - 1], target), target);
      assert s == s[..|s| - 1] + [s[|s| - 1]];
    }
  }

  lemma MemberOf(x: Device, s: seq<Device>, t: seq<Device>)
    requires multiset(s) == multiset(t)
    ensures x in s <==> x in t
  {
    assert x in s <==> multiset(s)[x] > 0;
    assert x in t <==> multiset(t)[x] > 0;
  }

  ghost predicate Apart(x: Device, s: seq<Device>) {
    forall d :: d in s ==> d.token != x.token
  }

  lemma {:induction false} InsertSorted(x: Device, s: seq<Device>, target: int)
    requires IsSorted(s, target) && Apart(x, s)
    ensures IsSorted(Insert(x, s, target), target)
    decreases |s|
  {
    if s != [] {
      assert s[0] in s;
      BeforeTotal(x, s[0], target);
      if Before(x, s[0], target) {
        forall i | 0 <= i < |s|
          ensures Before(x, s[i], target)
        {
          if i > 0 {
            BeforeChain(x, s[0], s[i], target);
          }
        }
      } else {
        var rest := Insert(x, s[1..], target);
        InsertSorted(x, s[1..], target);
        InsertMultiset(x, s[1..], target);
        forall i | 0 <= i < |rest|
          ensures Before(s[0], rest[i], target)
        {
          assert rest[i] in multiset(rest);
          if rest[i] != x {
            assert rest[i] in s[1..];
          }
        }
      }
    }
  }

  lemma {:induction false} SortedSorted(s: seq<Device>, target: int)
    requires DistinctTokens(s)
    ensures IsSorted(Sorted(s, target), target)
    decreases |s|
  {
    if s != [] {
      var rest := s[..|s| - 1];
      SortedSorted(rest, target);
      SortedMultiset(rest, target);
      forall d | d in Sorted(rest, target)
        ensures d.token != s[|s| - 1].token
      {
        MemberOf(d, Sorted(rest, target), rest);
      }
      InsertSorted(s[|s| - 1], Sorted(rest, target), target);
    }
  }

  lemma SameHead(s: seq<Device>, t: seq<Device>, target: int)
    requires IsSorted(s, target) && IsSorted(t, target) && multiset(s) == multiset(t) && s != [] && t != []
    ensures s[0] == t[0]
  {
    assert s[0] in s && t[0] in t;
    MemberOf(s[0], s, t);
    MemberOf(t[0], s, t);
    var i :| 0 <= i < |t| && t[i] == s[0];
    var j :| 0 <= j < |s| && s[j] == t[0];
    BeforeTotal(s[0], t[0], target);
  }

  lemma TailMultiset(s: seq<Device>)
    requires s != []
    ensures multiset(s[1..]) == multiset(s) - multiset{s[0]}
  {
    assert s == [s[0]] + s[1..];
  }

  // Whatever algorithm sorts, there is one sorted arrangement.
  lemma {:induction false} SortedUnique(s: seq<Device>, t: seq<Device>, target: int)
    requires IsSorted(s, target) && IsSorted(t, target) && multiset(s) == multiset(t)
    ensures s == t
    decreases |s|
  {
    hide Before;
    assert |s| == |multiset(s)| && |t| == |multiset(t)|;
    if s != [] {
      SameHead(s, t, target);
      TailMultiset(s);
      TailMultiset(t);
      SortedUnique(s[1..], t[1..], target);
      assert s == [s[0]] + s[1..] && t == [t[0]] + t[1..];
    }
  }

  // With repeated tokens a sort only promises that nothing stands before what it should follow.
  ghost predicate Unreversed(s: seq<Device>, target: int) {
    forall i, j :: 0 <= i < j < |s| ==> !Before(s[j], s[i], target)
  }

  lemma NotBeforeChain(a: Device, b: Device, c: Device, target: int)
    requires !Before(b, a, target) && !Before(c, b, target)
    ensures !Before(c, a, target)
  {
    CompareSwap(a.folded, b.folded);
    CompareSwap(b.folded, c.folded);
    CompareSwap(a.folded, c.folded);
    if CompareNames(a.folded, b.folded) <= 0 && CompareNames(b.folded, c.folded) <= 0 {
      CompareChain(a.folded, b.folded, c.folded);
    }
  }

  lemma {:induction false} InsertUnreversed(x: Device, s: seq<Device>, target: int)
    requires Unreversed(s, target)
    ensures Unreversed(Insert(x, s, target), target)
    decreases |s|
  {
    hide Before;
    if s != [] {
      BeforeTotal(x, s[0], target);
      if Before(x, s[0], target) {
        forall i | 0 < i < |s|
          ensures !Before(s[i], x, target)
        {
          NotBeforeChain(x, s[0], s[i], target);
        }
      } else {
        var rest := Insert(x, s[1..], target);
        InsertUnreversed(x, s[1..], target);
        InsertMultiset(x, s[1..], target);
        forall i | 0 <= i < |rest|
          ensures !Before(rest[i], s[0], target)
        {
          assert rest[i] in multiset(rest);
          if rest[i] != x {
            assert rest[i] in s[1..];
          }
        }
      }
    }
  }

  lemma {:induction false} SortedUnreversed(s: seq<Device>, target: int)
    ensures Unreversed(Sorted(s, target), target)
    decreases |s|
  {
    if s != [] {
      SortedUnreversed(s[..|s| - 1], target);
      InsertUnreversed(s[|s| - 1], Sorted(s[..|s| - 1], target), target);
    }
  }

  // ---- Cutting ----

  lemma {:induction false} CutInsert(x: Device, s: seq<Device>, k: nat, target: int)
    ensures Insert(x, s, target)[..Min(|s| + 1, k)]
            == Insert(x, s[..Min(|s|, k)], target)[..Min(|s[..Min(|s|, k)]| + 1, k)]
    decreases |s|
  {
    hide Before;
    var cut := s[..Min(|s|, k)];
    if s != [] && k > 0 {
      assert cut[0] == s[0];
      if !Before(x, s[0], target) {
        CutInsert(x, s[1..], k - 1, target);
        assert cut[1..] == s[1..][..Min(|s| - 1, k - 1)];
      }
    }
  }

  lemma {:induction false} SortedFixed(s: seq<Device>, target: int)
    requires IsSorted(s, target)
    ensures Sorted(s, target) == s
    decreases |s|
  {
    if s != [] {
      var rest := s[..|s| - 1];
      SortedFixed(rest, target);
      InsertLast(s[|s| - 1], rest, target);
    }
  }

  lemma {:induction false} InsertLast(x: Device, s: seq<Device>, target: int)
    requires forall i :: 0 <= i < |s| ==> Before(s[i], x, target)
    ensures Insert(x, s, target) == s + [x]
    decreases |s|
  {
    if s != [] {
      BeforeTotal(s[0], x, target);
      InsertLast(x, s[1..], target);
    }
  }

  // The kept records stand for all appended so far.
  ghost predicate StandsFor(kept: seq<Device>, all: seq<Device>, target: int) {
    Cut(Sorted(kept, target)) == Cut(Sorted(all, target))
  }

  lemma AppendStands(kept: seq<Device>, all: seq<Device>, x: Device, target: int)
    requires StandsFor(kept, all, target)
    ensures StandsFor(kept + [x], all + [x], target)
  {
    assert (kept + [x])[..|kept|] == kept && (all + [x])[..|all|] == all;
    CutInsert(x, Sorted(kept, target), MAX_DEVICES, target);
    CutInsert(x, Sorted(all, target), MAX_DEVICES, target);
  }

  lemma CutStands(kept: seq<Device>, all: seq<Device>, sorted: seq<Device>, target: int)
    requires StandsFor(kept, all, target) && DistinctTokens(kept)
    requires IsSorted(sorted, target) && multiset(sorted) == multiset(kept)
    ensures sorted == Sorted(kept, target)
    ensures StandsFor(Cut(sorted), all, target)
  {
    SortedSorted(kept, target);
    SortedMultiset(kept, target);
    SortedUnique(sorted, Sorted(kept, target), target);
    SortedFixed(Cut(sorted), target);
  }
}
