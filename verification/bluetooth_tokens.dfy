/**
  * One refresh of the device list: tokens are handed out as devices are met, and the token
  * map is cut down together with the list.
  */
module BluetoothTokens {
  import opened Basics
  import opened BluetoothList

  datatype Found = Found(path: Path, adapterPath: Path, folded: seq<nat>, paired: bool, connected: bool)

  // What a refresh knows about the world: the list before it, the operation's target.
  datatype Context = Context(previous: seq<Device>, target: int, active: bool, now: int)

  // `appended` records every device ever appended during the refresh.
  datatype Collection = Collection(kept: seq<Device>, tokens: map<Path, int>, next: int, appended: seq<Device>)

  function NextToken(next: int): int {
    if next >= MAX_INT then 1 else next + 1
  }

  function TokenFor(c: Collection, path: Path): int {
    if path in c.tokens then c.tokens[path] else c.next
  }

  function WithToken(c: Collection, path: Path): Collection {
    if path in c.tokens then c else c.(tokens := c.tokens[path := c.next], next := NextToken(c.next))
  }

  function LastSeen(context: Context, path: Path): int {
    if context.active then context.now else PreviousSeen(context.previous, path)
  }

  function PreviousSeen(previous: seq<Device>, path: Path): int {
    if previous == [] then 0
    else if previous[0].path == path then previous[0].lastSeen
    else PreviousSeen(previous[1..], path)
  }

  // Neither paired nor connected, not being discovered, and not seen lately.
  predicate Forgotten(context: Context, f: Found) {
    var seen := LastSeen(context, f.path);
    !f.paired && !f.connected && !context.active && (seen == 0 || context.now - seen >= DISCOVERED_RETENTION_MS)
  }

  function TokensOf(devices: seq<Device>): map<Path, int> {
    if devices == [] then map[]
    else TokensOf(devices[..|devices| - 1])[devices[|devices| - 1].path := devices[|devices| - 1].token]
  }

  function Trimmed(c: Collection, target: int): Collection {
    if |c.kept| <= MAX_DEVICES then c else
    var cut := Cut(Sorted(c.kept, target));
    c.(kept := cut, tokens := TokensOf(cut))
  }

  function Record(c: Collection, context: Context, f: Found): Device {
    Device(TokenFor(c, f.path), f.path, f.adapterPath, f.folded, f.paired, f.connected, LastSeen(context, f.path))
  }

  function Collect(c: Collection, context: Context, f: Found): Collection {
    if Forgotten(context, f) then c else
    var device := Record(c, context, f);
    Trimmed(WithToken(c, f.path).(kept := c.kept + [device], appended := c.appended + [device]), context.target)
  }

  function CollectAll(c: Collection, context: Context, found: seq<Found>): Collection
    decreases |found|
  {
    if found == [] then c else CollectAll(Collect(c, context, found[0]), context, found[1..])
  }

  function Refreshed(tokens: map<Path, int>, next: int, context: Context, found: seq<Found>): Collection {
    var c := CollectAll(Collection([], tokens, next, []), context, found);
    var sorted := Sorted(c.kept, context.target);
    c.(kept := sorted, tokens := TokensOf(sorted))
  }

  // ---- Tokens stay distinct ----

  ghost predicate Injective(tokens: map<Path, int>) {
    forall p, q :: p in tokens && q in tokens && tokens[p] == tokens[q] ==> p == q
  }

  ghost predicate DistinctPaths(found: seq<Found>) {
    forall i, j :: 0 <= i < j < |found| ==> found[i].path != found[j].path
  }

  ghost predicate DistinctDevices(devices: seq<Device>) {
    forall i, j :: 0 <= i < j < |devices| ==> devices[i].path != devices[j].path
  }

  // Every token in use is below the next one, and no two devices share one.
  ghost predicate Separate(c: Collection) {
    && Injective(c.tokens) && (forall p :: p in c.tokens ==> c.tokens[p] < c.next)
    && DistinctDevices(c.appended)
    && DistinctTokens(c.appended) && (forall d :: d in c.appended ==> d.token < c.next)
    && (forall d, p :: d in c.appended && p in c.tokens && c.tokens[p] == d.token ==> p == d.path)
    && (forall d :: d in c.kept ==> d in c.appended) && DistinctTokens(c.kept)
    && |c.kept| <= MAX_DEVICES
  }

  ghost predicate Unmet(c: Collection, found: seq<Found>) {
    forall d, f :: d in c.appended && f in found ==> d.path != f.path
  }

  lemma {:induction false} TokensOfHas(devices: seq<Device>, path: Path)
    ensures path in TokensOf(devices) ==>
              exists d :: d in devices && d.path == path && d.token == TokensOf(devices)[path]
    decreases |devices|
  {
    if devices != [] {
      var last := devices[|devices| - 1];
      assert last in devices;
      if path != last.path {
        TokensOfHas(devices[..|devices| - 1], path);
      }
    }
  }

  lemma CutDistinct(kept: seq<Device>, target: int)
    requires DistinctTokens(kept)
    ensures DistinctTokens(Cut(Sorted(kept, target)))
    ensures forall d :: d in Cut(Sorted(kept, target)) ==> d in kept
  {
    hide Before;
    var sorted := Sorted(kept, target);
    SortedSorted(kept, target);
    SortedMultiset(kept, target);
    SortedTokens(sorted, target);
    forall d | d in Cut(sorted)
      ensures d in kept
    {
      assert d in sorted;
      MemberOf(d, sorted, kept);
    }
    SortedApart(kept, sorted);
  }

  lemma SortedTokens(sorted: seq<Device>, target: int)
    requires IsSorted(sorted, target)
    ensures forall i, j :: 0 <= i < j < |sorted| ==> sorted[i] != sorted[j]
  {
    forall i, j | 0 <= i < j < |sorted|
      ensures sorted[i] != sorted[j]
    {
      BeforeTotal(sorted[i], sorted[j], target);
    }
  }

  lemma SortedApart(kept: seq<Device>, sorted: seq<Device>)
    requires DistinctTokens(kept) && multiset(sorted) == multiset(kept)
    requires forall i, j :: 0 <= i < j < |sorted| ==> sorted[i] != sorted[j]
    ensures DistinctTokens(sorted)
  {
    forall i, j | 0 <= i < j < |sorted|
      ensures sorted[i].token != sorted[j].token
    {
      MemberOf(sorted[i], sorted, kept);
      MemberOf(sorted[j], sorted, kept);
      assert sorted[i] in sorted && sorted[j] in sorted;
    }
  }

  lemma AppendSeparate(c: Collection, context: Context, f: Found)
    requires Separate(c) && Unmet(c, [f]) && c.next < MAX_INT
    ensures var device := Record(c, context, f);
      var d := WithToken(c, f.path).(kept := c.kept + [device], appended := c.appended + [device]);
      && DistinctTokens(d.appended) && DistinctTokens(d.kept) && DistinctDevices(d.appended)
      && Injective(d.tokens) && (forall p :: p in d.tokens ==> d.tokens[p] < d.next)
      && (forall x :: x in d.appended ==> x.token < d.next)
      && (forall x, p :: x in d.appended && p in d.tokens && d.tokens[p] == x.token ==> p == x.path)
      && (forall x :: x in d.kept ==> x in d.appended)
  {
    assert f in [f];
    var device := Record(c, context, f);
    forall x | x in c.appended
      ensures x.token != device.token
    {
      assert x.path != f.path;
    }
    var appended := c.appended + [device];
    forall i, j | 0 <= i < j < |appended|
      ensures appended[i].token != appended[j].token && appended[i].path != appended[j].path
    {
      if j == |c.appended| {
        assert appended[i] in c.appended;
      }
    }
    var kept := c.kept + [device];
    forall i, j | 0 <= i < j < |kept|
      ensures kept[i].token != kept[j].token
    {
      if j == |c.kept| {
        assert kept[i] in c.kept;
      }
    }
  }

  lemma TrimSeparate(c: Collection, target: int)
    requires DistinctTokens(c.appended) && DistinctTokens(c.kept) && |c.kept| <= MAX_DEVICES + 1
    requires DistinctDevices(c.appended)
    requires Injective(c.tokens) && (forall p :: p in c.tokens ==> c.tokens[p] < c.next)
    requires forall x :: x in c.appended ==> x.token < c.next
    requires forall x, p :: x in c.appended && p in c.tokens && c.tokens[p] == x.token ==> p == x.path
    requires forall x :: x in c.kept ==> x in c.appended
    ensures Separate(Trimmed(c, target))
  {
    if |c.kept| > MAX_DEVICES {
      hide Sorted, Before, Cut;
      var cut := Cut(Sorted(c.kept, target));
      CutDistinct(c.kept, target);
      TokensFromList(c, cut);
    }
  }

  lemma TokensFromList(c: Collection, cut: seq<Device>)
    requires DistinctTokens(c.appended) && DistinctTokens(cut)
    requires forall x :: x in c.appended ==> x.token < c.next
    requires forall x :: x in cut ==> x in c.appended
    ensures var tokens := TokensOf(cut);
      && Injective(tokens) && (forall p :: p in tokens ==> tokens[p] < c.next)
      && (forall x, p :: x in c.appended && p in tokens && tokens[p] == x.token ==> p == x.path)
  {
    var tokens := TokensOf(cut);
    forall p | p in tokens
      ensures exists d :: d in cut && d.path == p && d.token == tokens[p]
    {
      TokensOfHas(cut, p);
    }
    forall x, p | x in c.appended && p in tokens && tokens[p] == x.token
      ensures p == x.path
    {
      var d :| d in cut && d.path == p && d.token == tokens[p];
      SameToken(c.appended, d, x);
    }
    forall p, q | p in tokens && q in tokens && tokens[p] == tokens[q]
      ensures p == q
    {
      var d :| d in cut && d.path == p && d.token == tokens[p];
      var x :| x in cut && x.path == q && x.token == tokens[q];
      SameToken(c.appended, d, x);
    }
  }

  lemma SameToken(devices: seq<Device>, a: Device, b: Device)
    requires DistinctTokens(devices) && a in devices && b in devices && a.token == b.token
    ensures a == b
  {
  }

  lemma SamePath(devices: seq<Device>, a: Device, b: Device)
    requires DistinctDevices(devices) && a in devices && b in devices && a.path == b.path
    ensures a == b
  {
  }

  lemma {:induction false} TokensOfAll(devices: seq<Device>, device: Device)
    requires device in devices
    requires forall d :: d in devices && d.path == device.path ==> d == device
    ensures device.path in TokensOf(devices) && TokensOf(devices)[device.path] == device.token
    decreases |devices|
  {
    var rest := devices[..|devices| - 1];
    var last := devices[|devices| - 1];
    assert last in devices;
    if device.path != last.path {
      assert device in rest;
      TokensOfAll(rest, device);
    }
  }

  // ---- The streamed list, as long as no token was handed out twice ----

  ghost predicate Streams(c: Collection, target: int) {
    && (forall d :: d in c.kept ==> d in c.appended) && DistinctTokens(c.kept) && |c.kept| <= MAX_DEVICES
    && StandsFor(c.kept, c.appended, target)
  }

  lemma AppendedGrows(c: Collection, context: Context, f: Found)
    ensures c.appended <= Collect(c, context, f).appended
  {
    hide Sorted, Cut;
  }

  lemma {:induction false} AllAppendedGrows(c: Collection, context: Context, found: seq<Found>)
    ensures c.appended <= CollectAll(c, context, found).appended
    decreases |found|
  {
    hide Collect;
    if found != [] {
      AppendedGrows(c, context, found[0]);
      AllAppendedGrows(Collect(c, context, found[0]), context, found[1..]);
    }
  }

  lemma AppendDistinct(c: Collection, device: Device)
    requires DistinctTokens(c.appended + [device])
    requires (forall d :: d in c.kept ==> d in c.appended) && DistinctTokens(c.kept)
    ensures DistinctTokens(c.kept + [device])
  {
    var all, kept := c.appended + [device], c.kept + [device];
    forall i, j | 0 <= i < j < |kept|
      ensures kept[i].token != kept[j].token
    {
      if j == |c.kept| {
        assert kept[i] in c.appended;
        var k :| 0 <= k < |c.appended| && c.appended[k] == kept[i];
        assert all[k] == kept[i] && all[|c.appended|] == device;
      }
    }
  }

  lemma CollectStreams(c: Collection, context: Context, f: Found)
    requires Streams(c, context.target) && DistinctTokens(Collect(c, context, f).appended)
    ensures Streams(Collect(c, context, f), context.target)
  {
    if !Forgotten(context, f) {
      hide StandsFor, Sorted, Before, Cut;
      var device := Record(c, context, f);
      var d := WithToken(c, f.path).(kept := c.kept + [device], appended := c.appended + [device]);
      AppendDistinct(c, device);
      AppendStands(c.kept, c.appended, device, context.target);
      if |d.kept| > MAX_DEVICES {
        SortedSorted(d.kept, context.target);
        SortedMultiset(d.kept, context.target);
        CutStands(d.kept, d.appended, Sorted(d.kept, context.target), context.target);
        CutDistinct(d.kept, context.target);
        CutSize(Sorted(d.kept, context.target));
      }
    }
  }

  lemma CutSize(s: seq<Device>)
    ensures |Cut(s)| <= MAX_DEVICES
  {
  }

  lemma {:induction false} CollectAllStreams(c: Collection, context: Context, found: seq<Found>)
    requires Streams(c, context.target) && DistinctTokens(CollectAll(c, context, found).appended)
    ensures Streams(CollectAll(c, context, found), context.target)
    decreases |found|
  {
    if found != [] {
      hide Streams, Collect;
      var d := Collect(c, context, found[0]);
      AllAppendedGrows(d, context, found[1..]);
      PrefixDistinct(d.appended, CollectAll(d, context, found[1..]).appended);
      CollectStreams(c, context, found[0]);
      CollectAllStreams(d, context, found[1..]);
    }
  }

  lemma PrefixDistinct(s: seq<Device>, all: seq<Device>)
    requires s <= all && DistinctTokens(all)
    ensures DistinctTokens(s)
  {
  }

  // ---- The paths of what was appended ----

  lemma {:induction false} CollectAllPaths(c: Collection, context: Context, found: seq<Found>)
    requires DistinctPaths(found) && DistinctDevices(c.appended) && Unmet(c, found)
    ensures DistinctDevices(CollectAll(c, context, found).appended)
    decreases |found|
  {
    if found != [] {
      hide Collect;
      assert found[0] in found;
      CollectPaths(c, context, found[0]);
      var d := Collect(c, context, found[0]);
      forall x, f | x in d.appended && f in found[1..]
        ensures x.path != f.path
      {
        assert f in found;
      }
      CollectAllPaths(d, context, found[1..]);
    }
  }

  lemma CollectPaths(c: Collection, context: Context, f: Found)
    requires DistinctDevices(c.appended) && Unmet(c, [f])
    ensures var d := Collect(c, context, f);
      DistinctDevices(d.appended) && forall x :: x in d.appended ==> x in c.appended || x.path == f.path
  {
    assert f in [f];
    hide Sorted, Cut;
    assert forall d :: d in c.appended ==> d.path != f.path;
  }

  // If no two devices met got one token, the streamed list is the first 32 of a full sort of everything
  // appended.
  lemma RefreshedIsTop(tokens: map<Path, int>, next: int, context: Context, found: seq<Found>)
    requires DistinctTokens(Refreshed(tokens, next, context, found).appended)
    ensures var c := Refreshed(tokens, next, context, found);
      && c.kept == Cut(Sorted(c.appended, context.target))
      && IsSorted(c.kept, context.target) && DistinctTokens(c.kept)
  {
    hide Before, Sorted;
    var start := Collection([], tokens, next, []);
    CollectAllStreams(start, context, found);
    var c := CollectAll(start, context, found);
    var sorted := Sorted(c.kept, context.target);
    SortedSorted(c.kept, context.target);
    SortedMultiset(c.kept, context.target);
    CutDistinct(c.kept, context.target);
    assert Cut(sorted) == sorted;
  }

  // ---- The token map is always the list's ----

  ghost predicate FromAppended(c: Collection) {
    forall d :: d in c.kept ==> d in c.appended
  }

  lemma SortedKeeps(s: seq<Device>, target: int)
    ensures forall d :: d in Sorted(s, target) ==> d in s
    ensures forall d :: d in Cut(Sorted(s, target)) ==> d in s
  {
    SortedMultiset(s, target);
    var sorted := Sorted(s, target);
    forall d | d in sorted
      ensures d in s
    {
      MemberOf(d, sorted, s);
    }
  }

  lemma CollectKeeps(c: Collection, context: Context, f: Found)
    requires FromAppended(c)
    ensures FromAppended(Collect(c, context, f))
  {
    hide Sorted, Cut;
    SortedKeeps(c.kept + [Record(c, context, f)], context.target);
  }

  lemma {:induction false} CollectAllKeeps(c: Collection, context: Context, found: seq<Found>)
    requires FromAppended(c)
    ensures FromAppended(CollectAll(c, context, found))
    decreases |found|
  {
    if found != [] {
      hide FromAppended, Collect;
      CollectKeeps(c, context, found[0]);
      CollectAllKeeps(Collect(c, context, found[0]), context, found[1..]);
    }
  }

  // Also when tokens repeat, the map names exactly the devices of the list, each with its token.
  lemma MapIsTheLists(tokens: map<Path, int>, next: int, context: Context, found: seq<Found>)
    requires DistinctPaths(found)
    ensures var c := Refreshed(tokens, next, context, found);
      && (forall d :: d in c.kept ==> d.path in c.tokens && c.tokens[d.path] == d.token)
      && (forall p :: p in c.tokens ==> exists d :: d in c.kept && d.path == p && d.token == c.tokens[p])
  {
    hide Before, Sorted;
    var start := Collection([], tokens, next, []);
    CollectAllKeeps(start, context, found);
    CollectAllPaths(start, context, found);
    var c := CollectAll(start, context, found);
    var sorted := Sorted(c.kept, context.target);
    SortedKeeps(c.kept, context.target);
    forall d | d in sorted
      ensures d.path in TokensOf(sorted) && TokensOf(sorted)[d.path] == d.token
    {
      forall x | x in sorted && x.path == d.path
        ensures x == d
      {
        SamePath(c.appended, x, d);
      }
      TokensOfAll(sorted, d);
    }
    forall p | p in TokensOf(sorted)
      ensures exists d :: d in sorted && d.path == p && d.token == TokensOf(sorted)[p]
    {
      TokensOfHas(sorted, p);
    }
  }

  // ---- When tokens are handed out once ----

  lemma CollectSeparate(c: Collection, context: Context, f: Found)
    requires Separate(c) && Unmet(c, [f]) && c.next < MAX_INT
    ensures var d := Collect(c, context, f);
      && Separate(d) && c.next <= d.next <= c.next + 1
      && (forall x :: x in d.appended ==> x in c.appended || x.path == f.path)
  {
    if !Forgotten(context, f) {
      hide Sorted, Before;
      var device := Record(c, context, f);
      var d := WithToken(c, f.path).(kept := c.kept + [device], appended := c.appended + [device]);
      AppendSeparate(c, context, f);
      TrimSeparate(d, context.target);
    }
  }

  lemma {:induction false} CollectAllSeparate(c: Collection, context: Context, found: seq<Found>)
    requires Separate(c) && Unmet(c, found) && DistinctPaths(found) && c.next + |found| <= MAX_INT
    ensures Separate(CollectAll(c, context, found))
    decreases |found|
  {
    if found != [] {
      hide Separate, Collect;
      assert found[0] in found;
      CollectSeparate(c, context, found[0]);
      var d := Collect(c, context, found[0]);
      forall x, f | x in d.appended && f in found[1..]
        ensures x.path != f.path
      {
        assert f in found;
      }
      CollectAllSeparate(d, context, found[1..]);
    }
  }

  // Before the counter wraps every token is handed out once, and stays so.
  lemma UnwrappedIsSeparate(tokens: map<Path, int>, next: int, context: Context, found: seq<Found>)
    requires Injective(tokens) && (forall p :: p in tokens ==> tokens[p] < next)
    requires DistinctPaths(found) && next + |found| <= MAX_INT
    ensures var c := Refreshed(tokens, next, context, found);
      && DistinctTokens(c.appended) && DistinctTokens(c.kept)
      && Injective(c.tokens) && (forall p :: p in c.tokens ==> c.tokens[p] < c.next)
      && (forall d :: d in c.kept ==> d.token < c.next)
  {
    hide Before, Sorted;
    var start := Collection([], tokens, next, []);
    CollectAllSeparate(start, context, found);
    var c := CollectAll(start, context, found);
    var sorted := Sorted(c.kept, context.target);
    SortedSorted(c.kept, context.target);
    SortedMultiset(c.kept, context.target);
    CutDistinct(c.kept, context.target);
    assert Cut(sorted) == sorted;
    TokensFromList(c, sorted);
  }

  // At the wrap a token still in use is handed out again, and two devices of the list share it.
  lemma WrappedRepeats(context: Context)
    ensures
      var found := [Found("a", "", [], true, false), Found("b", "", [], true, false), Found("c", "", [], true, false)];
      var c := Refreshed(map["c" := 1], MAX_INT, context, found);
      && DistinctPaths(found) && Injective(map["c" := 1]) && 1 < MAX_INT
      && |c.appended| == |c.kept| == 3 && c.appended[1].path == "b" && c.appended[2].path == "c"
      && c.appended[1].token == 1 && c.appended[2].token == 1 && multiset(c.kept) == multiset(c.appended)
  {
    hide Sorted, Before;
    var a, b, d := Found("a", "", [], true, false), Found("b", "", [], true, false), Found("c", "", [], true, false);
    var tokens: map<Path, int> := map["c" := 1];
    var start := Collection([], tokens, MAX_INT, []);
    var one := Collect(start, context, a);
    assert "a" !in tokens;
    assert one.tokens == tokens["a" := MAX_INT] && one.next == 1 && |one.appended| == 1;
    var two := Collect(one, context, b);
    assert two.tokens == one.tokens["b" := 1] && |two.appended| == 2 && two.appended[1].token == 1;
    var three := Collect(two, context, d);
    assert |three.appended| == 3 && three.appended[2].token == 1 && three.kept == three.appended;
    assert [a, b, d][1..] == [b, d] && [b, d][1..] == [d] && [d][1..] == [];
    assert CollectAll(three, context, []) == three;
    assert CollectAll(two, context, [d]) == three;
    assert CollectAll(one, context, [b, d]) == three;
    assert CollectAll(start, context, [a, b, d]) == three;
    SortedMultiset(three.kept, context.target);
  }
}
