/**
  * Which tokens a refresh hands out, and exactly when one of them is already in use: known devices
  * among the first 33 met keep theirs, all others get the next ones of a counter that starts again
  * at 1 after the largest integer.
  */
module BluetoothHandout {
  import opened Basics
  import opened BluetoothList
  import opened BluetoothTokens

  // The devices a refresh appends, in the order they are met.
  function Met(context: Context, found: seq<Found>): seq<Found> {
    if found == [] then []
    else if Forgotten(context, found[0]) then Met(context, found[1..])
    else [found[0]] + Met(context, found[1..])
  }

  // Until the list first overflows the map still knows the devices of earlier refreshes.
  predicate Reuses(tokens: map<Path, int>, met: seq<Found>, i: nat)
    requires i < |met|
  {
    i <= MAX_DEVICES && met[i].path in tokens
  }

  function FreshAmong(tokens: map<Path, int>, met: seq<Found>, n: nat): nat
    requires n <= |met|
  {
    if n == 0 then 0 else FreshAmong(tokens, met, n - 1) + if Reuses(tokens, met, n - 1) then 0 else 1
  }

  function Nth(next: int, k: nat): int {
    if k == 0 then next else NextToken(Nth(next, k - 1))
  }

  function HandedTo(tokens: map<Path, int>, next: int, met: seq<Found>, i: nat): int
    requires i < |met|
  {
    if Reuses(tokens, met, i) then tokens[met[i].path] else Nth(next, FreshAmong(tokens, met, i))
  }

  // ---- What a refresh hands out ----

  ghost predicate Handed(c: Collection, tokens: map<Path, int>, next: int, met: seq<Found>) {
    && |c.appended| == |met|
    && (forall i :: 0 <= i < |met| ==>
          c.appended[i].path == met[i].path && c.appended[i].token == HandedTo(tokens, next, met, i))
    && c.next == Nth(next, FreshAmong(tokens, met, |met|))
    && |c.kept| == Min(|met|, MAX_DEVICES) && FromAppended(c)
    && (forall p :: p in c.tokens ==> (exists i :: 0 <= i < |met| && met[i].path == p)
                                      || (|met| <= MAX_DEVICES && p in tokens && c.tokens[p] == tokens[p]))
    && (|met| <= MAX_DEVICES ==> forall p :: p in tokens ==> p in c.tokens && c.tokens[p] == tokens[p])
  }

  lemma {:induction false} FreshPrefix(tokens: map<Path, int>, met: seq<Found>, more: seq<Found>, n: nat)
    requires met <= more && n <= |met|
    ensures FreshAmong(tokens, met, n) == FreshAmong(tokens, more, n)
    decreases n
  {
    if n > 0 {
      FreshPrefix(tokens, met, more, n - 1);
    }
  }

  lemma {:induction false} FreshBounds(tokens: map<Path, int>, met: seq<Found>, i: nat, j: nat)
    requires i <= j <= |met|
    ensures FreshAmong(tokens, met, i) <= FreshAmong(tokens, met, j)
    ensures i < j && !Reuses(tokens, met, i) ==> FreshAmong(tokens, met, i) < FreshAmong(tokens, met, j)
    decreases j
  {
    if i < j {
      FreshBounds(tokens, met, i, j - 1);
    }
  }

  lemma {:induction false} FreshIndex(tokens: map<Path, int>, met: seq<Found>, n: nat, k: nat) returns (i: nat)
    requires n <= |met| && k < FreshAmong(tokens, met, n)
    ensures i < n && !Reuses(tokens, met, i) && FreshAmong(tokens, met, i) == k
    decreases n
  {
    if !Reuses(tokens, met, n - 1) && FreshAmong(tokens, met, n - 1) == k {
      i := n - 1;
    } else {
      i := FreshIndex(tokens, met, n - 1, k);
    }
  }

  // The device gets the token the account says.
  lemma RecordHanded(c: Collection, context: Context, tokens: map<Path, int>, next: int, met: seq<Found>, f: Found)
    requires Handed(c, tokens, next, met) && forall i :: 0 <= i < |met| ==> met[i].path != f.path
    ensures TokenFor(c, f.path) == HandedTo(tokens, next, met + [f], |met|)
    ensures f.path in c.tokens <==> Reuses(tokens, met + [f], |met|)
  {
    var more := met + [f];
    FreshPrefix(tokens, met, more, |met|);
    assert more[|met|] == f;
  }

  lemma AppendedHanded(c: Collection, tokens: map<Path, int>, next: int, met: seq<Found>, f: Found, device: Device)
    requires |c.appended| == |met|
    requires forall i :: 0 <= i < |met| ==>
               c.appended[i].path == met[i].path && c.appended[i].token == HandedTo(tokens, next, met, i)
    requires device.path == f.path && device.token == HandedTo(tokens, next, met + [f], |met|)
    ensures
      var more, all := met + [f], c.appended + [device];
      |all| == |more| && forall i :: 0 <= i < |more| ==>
        all[i].path == more[i].path && all[i].token == HandedTo(tokens, next, more, i)
  {
    var more, all := met + [f], c.appended + [device];
    forall i | 0 <= i < |more|
      ensures all[i].path == more[i].path && all[i].token == HandedTo(tokens, next, more, i)
    {
      if i < |met| {
        FreshPrefix(tokens, met, more, i);
        assert more[i] == met[i];
      }
    }
  }

  lemma CutFrom(c: Collection, target: int)
    requires FromAppended(c) && |c.kept| == MAX_DEVICES + 1
    ensures var d := Trimmed(c, target);
      && |d.kept| == MAX_DEVICES && FromAppended(d)
      && forall p :: p in d.tokens ==> exists x :: x in c.appended && x.path == p
  {
    hide Sorted;
    var cut := Cut(Sorted(c.kept, target));
    SortedKeeps(c.kept, target);
    forall p | p in TokensOf(cut)
      ensures exists x :: x in c.appended && x.path == p
    {
      TokensOfHas(cut, p);
    }
  }

  lemma CollectHanded(c: Collection, context: Context, tokens: map<Path, int>, next: int, met: seq<Found>, f: Found)
    requires Handed(c, tokens, next, met) && forall i :: 0 <= i < |met| ==> met[i].path != f.path
    requires !Forgotten(context, f)
    ensures Handed(Collect(c, context, f), tokens, next, met + [f])
  {
    hide HandedTo, Sorted, Cut, TokensOf, Nth;
    var more := met + [f];
    var device := Record(c, context, f);
    var d := WithToken(c, f.path).(kept := c.kept + [device], appended := c.appended + [device]);
    RecordHanded(c, context, tokens, next, met, f);
    AppendedHanded(c, tokens, next, met, f, device);
    FreshPrefix(tokens, met, more, |met|);
    assert d.next == Nth(next, FreshAmong(tokens, more, |more|)) by { NthNext(next, FreshAmong(tokens, met, |met|)); }
    assert more[|met|] == f && forall i :: 0 <= i < |met| ==> more[i] == met[i];
    if |met| < MAX_DEVICES {
      assert Collect(c, context, f) == d;
    } else {
      CutFrom(d, context.target);
    }
  }

  lemma NthNext(next: int, k: nat)
    ensures Nth(next, k + 1) == NextToken(Nth(next, k)) && Nth(next, 0) == next
  {
  }

  ghost predicate NotMet(met: seq<Found>, found: seq<Found>) {
    forall i, f :: 0 <= i < |met| && f in found ==> met[i].path != f.path
  }

  lemma {:induction false} CollectAllHanded(c: Collection, context: Context, tokens: map<Path, int>, next: int,
                                            met: seq<Found>, found: seq<Found>)
    requires Handed(c, tokens, next, met) && DistinctPaths(found) && NotMet(met, found)
    ensures Handed(CollectAll(c, context, found), tokens, next, met + Met(context, found))
    decreases |found|
  {
    hide Handed, Collect, Forgotten;
    if found == [] {
      assert met + [] == met;
    } else {
      var f, rest := found[0], found[1..];
      assert f in found && forall g :: g in rest ==> g in found && g.path != f.path;
      if Forgotten(context, f) {
        assert Collect(c, context, f) == c by { ForgottenStays(c, context, f); }
        CollectAllHanded(c, context, tokens, next, met, rest);
      } else {
        CollectHanded(c, context, tokens, next, met, f);
        CollectAllHanded(Collect(c, context, f), context, tokens, next, met + [f], rest);
        assert met + [f] + Met(context, rest) == met + Met(context, found);
      }
    }
  }

  lemma ForgottenStays(c: Collection, context: Context, f: Found)
    requires Forgotten(context, f)
    ensures Collect(c, context, f) == c
  {
  }

  // Every device met gets a known token or the next fresh one, in this order and no other.
  lemma RefreshHandsOut(tokens: map<Path, int>, next: int, context: Context, found: seq<Found>)
    requires DistinctPaths(found)
    ensures var met, all := Met(context, found), Refreshed(tokens, next, context, found).appended;
      && |all| == |met|
      && forall i :: 0 <= i < |met| ==>
           all[i].path == met[i].path && all[i].token == HandedTo(tokens, next, met, i)
    ensures Refreshed(tokens, next, context, found).next
            == Nth(next, FreshAmong(tokens, Met(context, found), |Met(context, found)|))
  {
    var start := Collection([], tokens, next, []);
    assert Handed(start, tokens, next, []);
    CollectAllHanded(start, context, tokens, next, [], found);
    assert [] + Met(context, found) == Met(context, found);
  }

  // ---- Exactly when tokens are distinct ----

  // One of the first `count` tokens after `next`, going on at 1 after the largest integer.
  predicate InRange(token: int, next: int, count: nat) {
    1 <= token <= MAX_INT && (if token >= next then token - next else token - next + MAX_INT) < count
  }

  // As many tokens are fresh as there are integers at most, no known one is handed out again, and no two of
  // the devices that keep theirs share it already.
  predicate Suffices(tokens: map<Path, int>, next: int, met: seq<Found>) {
    var count := FreshAmong(tokens, met, |met|);
    && count <= MAX_INT
    && (forall i :: 0 <= i < |met| && Reuses(tokens, met, i) ==> !InRange(tokens[met[i].path], next, count))
    && forall i, j :: 0 <= i < j < |met| && Reuses(tokens, met, i) && Reuses(tokens, met, j) ==>
         tokens[met[i].path] != tokens[met[j].path]
  }

  lemma {:induction false} NthIs(next: int, k: nat)
    requires 1 <= next <= MAX_INT && k <= MAX_INT
    ensures Nth(next, k) == (if next + k <= MAX_INT then next + k else next + k - MAX_INT)
    decreases k
  {
    if k > 0 {
      NthIs(next, k - 1);
    }
  }

  lemma NthInRange(next: int, k: nat, count: nat)
    requires 1 <= next <= MAX_INT && k < count <= MAX_INT
    ensures InRange(Nth(next, k), next, count)
  {
    NthIs(next, k);
  }

  lemma InRangeIsNth(token: int, next: int, count: nat) returns (k: nat)
    requires 1 <= next <= MAX_INT && count <= MAX_INT && InRange(token, next, count)
    ensures k < count && Nth(next, k) == token
  {
    k := if token >= next then token - next else token - next + MAX_INT;
    NthIs(next, k);
  }

  lemma HandedApart(tokens: map<Path, int>, next: int, met: seq<Found>, i: nat, j: nat)
    requires 1 <= next <= MAX_INT && Suffices(tokens, next, met) && i < j < |met|
    ensures HandedTo(tokens, next, met, i) != HandedTo(tokens, next, met, j)
  {
    hide Nth, InRange;
    var count := FreshAmong(tokens, met, |met|);
    forall m: nat | m < |met| && !Reuses(tokens, met, m)
      ensures FreshAmong(tokens, met, m) < count && InRange(HandedTo(tokens, next, met, m), next, count)
    {
      FreshBounds(tokens, met, m, |met|);
      NthInRange(next, FreshAmong(tokens, met, m), count);
    }
    if !Reuses(tokens, met, i) && !Reuses(tokens, met, j) {
      FreshBounds(tokens, met, i, j);
      NthIs(next, FreshAmong(tokens, met, i));
      NthIs(next, FreshAmong(tokens, met, j));
    }
  }

  // Otherwise two of them get one token.
  lemma HandedTwice(tokens: map<Path, int>, next: int, met: seq<Found>) returns (i: nat, j: nat)
    requires 1 <= next <= MAX_INT && !Suffices(tokens, next, met)
    ensures i < |met| && j < |met| && i != j && HandedTo(tokens, next, met, i) == HandedTo(tokens, next, met, j)
  {
    hide Nth, InRange;
    var count := FreshAmong(tokens, met, |met|);
    if count > MAX_INT {
      i := FreshIndex(tokens, met, |met|, 0);
      j := FreshIndex(tokens, met, |met|, MAX_INT);
      NthIs(next, MAX_INT);
      NthIs(next, 0);
    } else if a, b :| 0 <= a < b < |met| && Reuses(tokens, met, a) && Reuses(tokens, met, b)
                      && tokens[met[a].path] == tokens[met[b].path] {
      i, j := a, b;
    } else {
      i :| 0 <= i < |met| && Reuses(tokens, met, i) && InRange(tokens[met[i].path], next, count);
      var k := InRangeIsNth(tokens[met[i].path], next, count);
      j := FreshIndex(tokens, met, |met|, k);
    }
  }

  // The tokens of a refresh are distinct exactly when those kept are, the counter has enough of them and does
  // not come to one that is kept: a condition on the map, the counter and what is found.
  lemma DistinctExactly(tokens: map<Path, int>, next: int, context: Context, found: seq<Found>)
    requires DistinctPaths(found) && 1 <= next <= MAX_INT
    ensures DistinctTokens(Refreshed(tokens, next, context, found).appended)
            <==> Suffices(tokens, next, Met(context, found))
  {
    hide Refreshed, HandedTo, Suffices, Forgotten;
    var met, all := Met(context, found), Refreshed(tokens, next, context, found).appended;
    RefreshHandsOut(tokens, next, context, found);
    if Suffices(tokens, next, met) {
      forall i, j | 0 <= i < j < |all|
        ensures all[i].token != all[j].token
      {
        HandedApart(tokens, next, met, i, j);
      }
    } else {
      var i, j := HandedTwice(tokens, next, met);
      assert all[i].token == all[j].token;
    }
  }
}
