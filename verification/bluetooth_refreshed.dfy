/**
  * What a refresh lists: which of the devices found are worth listing, what is known of each,
  * in which order they stand, and which give way when there are too many.
  */
module BluetoothRefreshed {
  import opened BluetoothList
  import opened BluetoothTokens

  // ---- The order ----

  // Where two names first differ, the smaller unit, or the end, comes first.
  ghost predicate NameBefore(a: seq<nat>, b: seq<nat>) {
    exists k :: 0 <= k <= |a| && k < |b| && a[..k] == b[..k] && (k == |a| || a[k] < b[k])
  }

  lemma NameTails(a: seq<nat>, b: seq<nat>)
    requires a != [] && b != [] && a[0] == b[0]
    ensures NameBefore(a, b) <==> NameBefore(a[1..], b[1..])
  {
    if k :| 0 <= k <= |a| && k < |b| && a[..k] == b[..k] && (k == |a| || a[k] < b[k]) {
      assert k > 0 && a[1..][..k - 1] == a[..k][1..] && b[1..][..k - 1] == b[..k][1..];
      assert k - 1 == |a[1..]| || a[1..][k - 1] < b[1..][k - 1];
    }
    if k :| 0 <= k <= |a[1..]| && k < |b[1..]| && a[1..][..k] == b[1..][..k]
            && (k == |a[1..]| || a[1..][k] < b[1..][k]) {
      assert a[..k + 1] == [a[0]] + a[1..][..k] && b[..k + 1] == [b[0]] + b[1..][..k];
      assert k + 1 == |a| || a[k + 1] < b[k + 1];
    }
  }

  lemma NameHeads(a: seq<nat>, b: seq<nat>)
    requires a == [] || b == [] || a[0] != b[0]
    ensures NameBefore(a, b) <==> b != [] && (a == [] || a[0] < b[0])
  {
    if b != [] && (a == [] || a[0] < b[0]) {
      assert a[..0] == b[..0];
    }
    forall k | 0 <= k <= |a| && k < |b| && a[..k] == b[..k]
      ensures k == 0
    {
      SameHead(a, b, k);
    }
  }

  lemma SameHead(a: seq<nat>, b: seq<nat>, k: nat)
    requires k <= |a| && k <= |b| && a[..k] == b[..k]
    ensures k > 0 ==> a[0] == b[0]
  {
    if k > 0 {
      assert a[0] == a[..k][0] && b[0] == b[..k][0];
    }
  }

  lemma {:induction false} CompareIs(a: seq<nat>, b: seq<nat>)
    ensures CompareNames(a, b) < 0 <==> NameBefore(a, b)
    ensures CompareNames(a, b) == 0 <==> a == b
    decreases |a| + |b|
  {
    if a != [] && b != [] && a[0] == b[0] {
      NameTails(a, b);
      CompareIs(a[1..], b[1..]);
      assert a == [a[0]] + a[1..] && b == [b[0]] + b[1..];
    } else {
      NameHeads(a, b);
    }
  }

  // The operation's target first, then connected devices, then paired ones, then by name,
  // and at last by token.
  ghost predicate GoesAhead(a: Device, b: Device, target: int) {
    || (a.token == target && b.token != target)
    || ((a.token == target <==> b.token == target)
        && ((a.connected && !b.connected)
            || (a.connected == b.connected && a.paired && !b.paired)
            || (a.connected == b.connected && a.paired == b.paired
                && (NameBefore(a.folded, b.folded) || (a.folded == b.folded && a.token < b.token)))))
  }

  lemma BeforeIs(a: Device, b: Device, target: int)
    ensures Before(a, b, target) <==> GoesAhead(a, b, target)
  {
    CompareIs(a.folded, b.folded);
    hide CompareNames, NameBefore;
  }

  // ---- What is known of each ----

  // When the device was last seen: now, while discovering; otherwise as the list before says.
  ghost predicate SeenAt(context: Context, path: Path, seen: int) {
    && (context.active ==> seen == context.now)
    && (!context.active && (forall i :: 0 <= i < |context.previous| ==> context.previous[i].path != path) ==> seen == 0)
    && (!context.active ==>
          forall i :: 0 <= i < |context.previous| && context.previous[i].path == path
                      && (forall j :: 0 <= j < i ==> context.previous[j].path != path) ==>
            seen == context.previous[i].lastSeen)
  }

  lemma {:induction false} PreviousSeenIs(previous: seq<Device>, path: Path)
    ensures (forall i :: 0 <= i < |previous| ==> previous[i].path != path) ==> PreviousSeen(previous, path) == 0
    ensures forall i :: 0 <= i < |previous| && previous[i].path == path
                        && (forall j :: 0 <= j < i ==> previous[j].path != path) ==>
              PreviousSeen(previous, path) == previous[i].lastSeen
  {
    if previous != [] && previous[0].path != path {
      var rest := previous[1..];
      PreviousSeenIs(rest, path);
      forall i | 0 <= i < |previous| && previous[i].path == path
                 && (forall j :: 0 <= j < i ==> previous[j].path != path)
        ensures PreviousSeen(previous, path) == previous[i].lastSeen
      {
        assert rest[i - 1] == previous[i] && forall j :: 0 <= j < i - 1 ==> rest[j] == previous[j + 1];
      }
      assert forall i :: 0 <= i < |rest| ==> rest[i] == previous[i + 1];
    }
  }

  lemma LastSeenIs(context: Context, path: Path)
    ensures SeenAt(context, path, LastSeen(context, path))
  {
    PreviousSeenIs(context.previous, path);
  }

  // Paired, connected, being discovered, or seen within the last minute.
  ghost predicate WorthListing(context: Context, f: Found, seen: int) {
    f.paired || f.connected || context.active || (seen != 0 && context.now - seen < 60_000)
  }

  // What is listed about a device found.
  ghost predicate Describes(context: Context, d: Device, f: Found) {
    && d.path == f.path && d.adapterPath == f.adapterPath && d.folded == f.folded && d.paired == f.paired
    && d.connected == f.connected && SeenAt(context, f.path, d.lastSeen) && WorthListing(context, f, d.lastSeen)
  }

  // `all` describes exactly the devices worth listing, in the order they were found.
  ghost predicate DescribesAll(context: Context, all: seq<Device>, found: seq<Found>)
    decreases |found|
  {
    if found == [] then all == []
    else if exists seen :: SeenAt(context, found[0].path, seen) && WorthListing(context, found[0], seen)
    then all != [] && Describes(context, all[0], found[0]) && DescribesAll(context, all[1..], found[1..])
    else DescribesAll(context, all, found[1..])
  }

  lemma OnlySeen(context: Context, path: Path, a: int, b: int)
    requires SeenAt(context, path, a) && SeenAt(context, path, b)
    ensures a == b
  {
    if !context.active && exists i :: 0 <= i < |context.previous| && context.previous[i].path == path {
      var i :| 0 <= i < |context.previous| && context.previous[i].path == path;
      var first := FirstOf(context.previous, path, i);
      assert context.previous[first].path == path;
    }
  }

  lemma {:induction false} FirstOf(previous: seq<Device>, path: Path, i: nat) returns (first: nat)
    requires i < |previous| && previous[i].path == path
    ensures first <= i && previous[first].path == path
    ensures forall j :: 0 <= j < first ==> previous[j].path != path
    decreases i
  {
    first := i;
    if j :| 0 <= j < i && previous[j].path == path {
      first := FirstOf(previous, path, j);
    }
  }

  lemma ForgottenIs(context: Context, f: Found)
    ensures Forgotten(context, f) <==> !exists seen :: SeenAt(context, f.path, seen) && WorthListing(context, f, seen)
  {
    LastSeenIs(context, f.path);
    var seen := LastSeen(context, f.path);
    assert Forgotten(context, f) <==> !WorthListing(context, f, seen);
    if other :| SeenAt(context, f.path, other) && WorthListing(context, f, other) {
      OnlySeen(context, f.path, seen, other);
    }
  }

  lemma CollectAppends(c: Collection, context: Context, f: Found)
    ensures Collect(c, context, f).appended
            == c.appended + if Forgotten(context, f) then [] else [Record(c, context, f)]
  {
    hide Sorted, Cut, TokensOf;
  }

  lemma {:induction false} AllAppended(c: Collection, context: Context, found: seq<Found>)
    ensures c.appended <= CollectAll(c, context, found).appended
    ensures DescribesAll(context, CollectAll(c, context, found).appended[|c.appended|..], found)
    decreases |found|
  {
    var all := CollectAll(c, context, found).appended;
    if found != [] {
      var next := Collect(c, context, found[0]);
      CollectAppends(c, context, found[0]);
      AllAppended(next, context, found[1..]);
      ForgottenIs(context, found[0]);
      if !Forgotten(context, found[0]) {
        RecordDescribes(c, context, found[0]);
        assert all[|c.appended|..][1..] == all[|next.appended|..];
        assert all[|c.appended|] == next.appended[|c.appended|];
      }
    }
  }

  lemma RecordDescribes(c: Collection, context: Context, f: Found)
    requires !Forgotten(context, f)
    ensures Describes(context, Record(c, context, f), f)
  {
    LastSeenIs(context, f.path);
    hide SeenAt;
  }

  // ---- What is listed ----

  lemma RefreshedAppends(tokens: map<Path, int>, next: int, context: Context, found: seq<Found>)
    ensures DescribesAll(context, Refreshed(tokens, next, context, found).appended, found)
  {
    var start := Collection([], tokens, next, []);
    AllAppended(start, context, found);
    var all := CollectAll(start, context, found).appended;
    assert all[0..] == all;
  }

  // At most 32 are listed, in order, and one worth listing is left out only behind 32 others.
  ghost predicate ListsFirst(list: seq<Device>, all: seq<Device>, target: int) {
    && |list| <= 32 && (forall d :: d in list ==> d in all)
    && (forall i, j :: 0 <= i < j < |list| ==> GoesAhead(list[i], list[j], target))
    && forall d :: d in all && d !in list ==>
         |list| == 32 && forall i :: 0 <= i < |list| ==> GoesAhead(list[i], d, target)
  }

  lemma InCut(sorted: seq<Device>, j: nat)
    requires j < |sorted|
    ensures j < |Cut(sorted)| ==> sorted[j] in Cut(sorted)
  {
    assert j < |Cut(sorted)| ==> Cut(sorted)[j] == sorted[j];
  }

  lemma TopIsFirst(all: seq<Device>, target: int)
    requires DistinctTokens(all)
    ensures ListsFirst(Cut(Sorted(all, target)), all, target)
  {
    var sorted := Sorted(all, target);
    SortedSorted(all, target);
    SortedMultiset(all, target);
    hide Before, GoesAhead, Sorted;
    forall i, j | 0 <= i < j < |sorted|
      ensures GoesAhead(sorted[i], sorted[j], target)
    {
      BeforeIs(sorted[i], sorted[j], target);
    }
    var list := Cut(sorted);
    forall d | d in list
      ensures d in all
    {
      assert d in sorted;
      MemberOf(d, sorted, all);
    }
    forall d | d in all && d !in list
      ensures |list| == 32 && forall i :: 0 <= i < |list| ==> GoesAhead(list[i], d, target)
    {
      MemberOf(d, all, sorted);
      var j :| 0 <= j < |sorted| && sorted[j] == d;
      InCut(sorted, j);
    }
  }

  // The list of a refresh, when no two devices met share a token: of everything worth listing,
  // each as it was found, the first 32.
  lemma RefreshListsExactly(tokens: map<Path, int>, next: int, context: Context, found: seq<Found>)
    requires DistinctTokens(Refreshed(tokens, next, context, found).appended)
    ensures var c := Refreshed(tokens, next, context, found);
      DescribesAll(context, c.appended, found) && ListsFirst(c.kept, c.appended, context.target)
  {
    hide Refreshed, Sorted, ListsFirst, DescribesAll;
    RefreshedAppends(tokens, next, context, found);
    RefreshedIsTop(tokens, next, context, found);
    TopIsFirst(Refreshed(tokens, next, context, found).appended, context.target);
  }
}
