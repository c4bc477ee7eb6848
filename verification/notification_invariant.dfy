/** The two-way link between live associations and live history records, kept by every step. */
module NotificationInvariant {
  import opened Basics
  import opened NotificationModel

  ghost predicate Ordered(history: seq<Record>) {
    forall i, j :: 0 <= i < j < |history| ==> history[i].key > history[j].key
  }

  ghost predicate CounterOk(c: Counter) {
    1 <= c.next <= MAX_SEQUENCE && (c.exhausted ==> c.next == MAX_SEQUENCE)
  }

  ghost predicate HistoryOk(history: seq<Record>, keys: Counter) {
    && Ordered(history)
    && forall r :: r in history ==> 1 <= r.key < Limit(keys) && r.cutoff == r.admittedAt + HISTORY_LIFETIME_MS
  }

  ghost predicate AssociationsOk(live: map<nat, Association>, sequences: Counter) {
    && |live| <= MAX_LIVE
    && SequencesDistinct(live)
    && forall id :: id in live ==>
         && id == live[id].notification.protocolId != 0
         && live[id].sequence < Limit(sequences)
         && 0 <= live[id].revision <= MAX_REVISION
         && -1 <= live[id].deadline
  }

  /** Links are one-to-one, and transient associations hold none. */
  ghost predicate LinksOk(live: map<nat, Association>) {
    && (forall id :: id in live && live[id].transient ==> live[id].recordKey.None?)
    && (forall a, b :: a in live && b in live && live[a].recordKey.Some? && live[a].recordKey == live[b].recordKey
          ==> a == b)
  }

  /** `pending` holds the key of a record admitted for a newcomer that is not tracked yet. */
  ghost predicate Core(s: State, pending: set<nat>) {
    && CounterOk(s.historyKeys) && CounterOk(s.liveKeys)
    && HistoryOk(s.history, s.historyKeys)
    && AssociationsOk(s.live, s.liveKeys)
    && LinksOk(s.live)
    && LinkedKeys(s.live) !! pending
    && LiveKeys(s.history) == LinkedKeys(s.live) + pending
  }

  ghost predicate Inv(s: State) {
    Core(s, {}) && |s.history| <= MAX_HISTORY
  }

  ghost predicate NoneSeen(live: map<nat, Association>) {
    forall id :: id in live ==> !live[id].seen
  }

  /** While a generation is reconciled nothing is recorded, linked or recognised yet. */
  ghost predicate Settled(s: State) {
    s.reconciling ==> s.history == [] && LinkedKeys(s.live) == {} && NoneSeen(s.live)
  }

  // ---------------------------------------------------------------- primitives

  lemma {:induction false} WithoutOrdered(history: seq<Record>, keys: set<nat>)
    requires Ordered(history)
    ensures Ordered(Without(history, keys))
  {
    if history != [] {
      WithoutOrdered(history[1..], keys);
      assert forall r :: r in history[1..] ==> history[0].key > r.key;
    }
  }

  lemma LiveKeysWithout(history: seq<Record>, keys: set<nat>)
    ensures LiveKeys(Without(history, keys)) == LiveKeys(history) - keys
  {}

  lemma LinkedKeysUnlink(live: map<nat, Association>, keys: set<nat>)
    ensures LinkedKeys(Unlink(live, keys)) == LinkedKeys(live) - keys
  {
    var unlinked := Unlink(live, keys);
    forall k | k in LinkedKeys(live) - keys ensures k in LinkedKeys(unlinked) {
      var id :| id in live && live[id].recordKey == Some(k);
      assert unlinked[id].recordKey == Some(k);
    }
  }

  lemma SameSize<A, B>(m: map<nat, A>, n: map<nat, B>)
    requires m.Keys == n.Keys
    ensures |m| == |n|
  {
    assert |m| == |m.Keys| && |n| == |n.Keys|;
  }

  lemma UnlinkAssociations(live: map<nat, Association>, keys: set<nat>, sequences: Counter)
    requires AssociationsOk(live, sequences)
    ensures AssociationsOk(Unlink(live, keys), sequences)
  {
    var unlinked := Unlink(live, keys);
    assert unlinked.Keys == live.Keys;
    SameSize(unlinked, live);
    assert forall id :: id in live ==> unlinked[id] == live[id].(recordKey := unlinked[id].recordKey);
  }

  lemma UnlinkLinks(live: map<nat, Association>, keys: set<nat>)
    requires LinksOk(live)
    ensures LinksOk(Unlink(live, keys))
  {
    var unlinked := Unlink(live, keys);
    assert forall id :: id in live ==>
      unlinked[id].transient == live[id].transient && unlinked[id].recordKey in {None, live[id].recordKey};
  }

  lemma ForgetKeeps(s: State, keys: set<nat>, pending: set<nat>)
    requires Core(s, pending)
    ensures Core(Forget(s, keys), pending - keys)
    ensures Forget(s, keys).live.Keys == s.live.Keys
  {
    hide LinkedKeys, LiveKeys, LinksOk, AssociationsOk;
    assert Unlink(s.live, keys).Keys == s.live.Keys;
    WithoutOrdered(s.history, keys);
    LiveKeysWithout(s.history, keys);
    LinkedKeysUnlink(s.live, keys);
    UnlinkAssociations(s.live, keys, s.liveKeys);
    UnlinkLinks(s.live, keys);
  }

  lemma OverflowKeeps(s: State, pending: set<nat>)
    requires Core(s, pending)
    ensures |s.history| > MAX_HISTORY ==>
              Core(PruneOverflow(s), pending - Keys(s.history[MAX_HISTORY..]))
    ensures |s.history| <= MAX_HISTORY ==> PruneOverflow(s) == s
    ensures PruneOverflow(s).live.Keys == s.live.Keys
  {
    if |s.history| > MAX_HISTORY {
      var h := s.history;
      var dropped := Keys(h[MAX_HISTORY..]);
      assert LiveKeys(h[..MAX_HISTORY]) == LiveKeys(h) - dropped by {
        assert forall r, q :: r in h[..MAX_HISTORY] && q in h[MAX_HISTORY..] ==> r.key > q.key;
        assert forall r :: r in h ==> r in h[..MAX_HISTORY] || r in h[MAX_HISTORY..];
      }
      LinkedKeysUnlink(s.live, dropped);
      UnlinkAssociations(s.live, dropped, s.liveKeys);
      UnlinkLinks(s.live, dropped);
    }
  }

  lemma PruneKeeps(s: State, now: nat)
    requires Core(s, {})
    ensures Inv(Prune(s, now))
    ensures Prune(s, now).live.Keys == s.live.Keys
  {
    ForgetKeeps(s, StaleKeys(s.history, now), {});
    assert {} - StaleKeys(s.history, now) == {};
    hide Core, Forget;
    var aged := PruneByAge(s, now);
    OverflowKeeps(aged, {});
    OverflowBounds(aged);
    assert |aged.history| > MAX_HISTORY ==> {} - Keys(aged.history[MAX_HISTORY..]) == {};
  }

  lemma OverflowBounds(s: State)
    ensures |PruneOverflow(s).history| <= MAX_HISTORY
  {}

  // ---------------------------------------------------------------- admission to history

  /** Associations are as before, except that some may have lost their link. */
  ghost predicate SameButLinks(live: map<nat, Association>, before: map<nat, Association>) {
    && live.Keys == before.Keys
    && forall id :: id in live ==> live[id] in {before[id], before[id].(recordKey := None)}
  }

  lemma PruneIsLocal(s: State, now: nat)
    ensures SameButLinks(Prune(s, now).live, s.live)
    ensures Prune(s, now) == s.(history := Prune(s, now).history, live := Prune(s, now).live)
  {
    assert SameButLinks(PruneByAge(s, now).live, s.live);
  }

  lemma PrependKeeps(s: State, n: Notification, now: nat)
    requires Inv(s) && !s.historyKeys.exhausted
    ensures
      var (key, counter) := Allocate(s.historyKeys);
      Core(s.(historyKeys := counter, history := [MakeRecord(n, key.value, now)] + s.history), {key.value})
  {
    var (key, counter) := Allocate(s.historyKeys);
    var r := MakeRecord(n, key.value, now);
    assert forall q :: q in s.history ==> q.key < key.value;
    PrependedKeys(r, s.history);
    hide LinkedKeys, LiveKeys, LinksOk, AssociationsOk;
  }

  lemma PrependedKeys(r: Record, history: seq<Record>)
    requires r.live
    ensures LiveKeys([r] + history) == LiveKeys(history) + {r.key}
  {
    assert forall q :: q in [r] + history <==> q == r || q in history;
  }

  lemma PruneNewest(s: State, now: nat)
    requires s.history != [] && s.history[0].cutoff > now
    requires Core(s, {s.history[0].key}) && |s.history| <= MAX_HISTORY + 1
    ensures
      var s1 := Prune(s, now);
      && Core(s1, {s.history[0].key}) && 1 <= |s1.history| <= MAX_HISTORY && s1.history[0] == s.history[0]
  {
    var k := s.history[0].key;
    var stale := StaleKeys(s.history, now);
    assert k !in stale by {
      assert forall r :: r in s.history && r.key == k ==> r == s.history[0];
    }
    ForgetKeeps(s, stale, {k});
    assert {k} - stale == {k};
    var s1 := PruneByAge(s, now);
    assert s1.history[0] == s.history[0];
    OverflowKeeps(s1, {k});
    if |s1.history| > MAX_HISTORY {
      assert k !in Keys(s1.history[MAX_HISTORY..]);
      assert {k} - Keys(s1.history[MAX_HISTORY..]) == {k};
    }
  }

  /** A record is admitted exactly when the notification is not transient and a key is left. */
  lemma AdmitHistoryKeeps(s: State, n: Notification, now: nat)
    requires Inv(s)
    ensures
      var (s1, key) := AdmitHistory(s, n, now);
      && SameButLinks(s1.live, s.live)
      && (key.Some? <==> !n.transient && !s.historyKeys.exhausted)
      && (key.None? ==> s1 == s)
      && (key.Some? ==>
            && Core(s1, {key.value}) && 1 <= |s1.history| <= MAX_HISTORY
            && key.value == s.historyKeys.next
            && s1.history[0] == MakeRecord(n, key.value, now)
            && s1 == s.(history := s1.history, live := s1.live, historyKeys := Allocate(s.historyKeys).1))
  {
    if !n.transient && !s.historyKeys.exhausted {
      var (key, counter) := Allocate(s.historyKeys);
      var s0 := s.(historyKeys := counter, history := [MakeRecord(n, key.value, now)] + s.history);
      PrependKeeps(s, n, now);
      PruneNewest(s0, now);
      PruneIsLocal(s0, now);
      assert Prune(s0, now).history[0].key in Keys(Prune(s0, now).history);
    }
  }

  // ---------------------------------------------------------------- one association at a time

  function KeyOf(a: Association): set<nat> {
    if a.recordKey.Some? then {a.recordKey.value} else {}
  }

  /** What an association looks like on its own. */
  ghost predicate AssociationOk(id: nat, a: Association, sequences: Counter) {
    && id == a.notification.protocolId != 0
    && a.sequence < Limit(sequences)
    && 0 <= a.revision <= MAX_REVISION
    && -1 <= a.deadline
  }

  lemma PutAssociation(live: map<nat, Association>, sequences: Counter, id: nat, a: Association)
    requires AssociationsOk(live, sequences)
    requires AssociationOk(id, a, sequences)
    requires id in live ==> live[id].sequence == a.sequence
    requires id !in live ==> |live| < MAX_LIVE && forall other :: other in live ==> live[other].sequence != a.sequence
    ensures AssociationsOk(live[id := a], sequences)
  {
    assert live[id := a].Keys == live.Keys + {id};
    SameSize(live[id := a], live[id := a]);
    assert |live| == |live.Keys|;
  }

  lemma PutLink(live: map<nat, Association>, id: nat, a: Association)
    requires LinksOk(live)
    requires a.transient ==> a.recordKey.None?
    requires KeyOf(a) !! LinkedKeys(live - {id})
    ensures LinksOk(live[id := a])
    ensures LinkedKeys(live[id := a]) == LinkedKeys(live - {id}) + KeyOf(a)
  {
    var put, rest := live[id := a], live - {id};
    forall other | other in put && other != id
      ensures put[other].recordKey.Some? ==> put[other].recordKey.value in LinkedKeys(rest)
    {
      assert rest[other] == put[other];
    }
    forall k | k in LinkedKeys(rest) ensures k in LinkedKeys(put) {
      var other :| other in rest && rest[other].recordKey == Some(k);
      assert put[other].recordKey == Some(k);
    }
    if a.recordKey.Some? {
      assert put[id].recordKey == a.recordKey;
    }
  }

  lemma DropLink(live: map<nat, Association>, id: nat)
    requires LinksOk(live)
    ensures LinksOk(live - {id})
    ensures LinkedKeys(live - {id}) == LinkedKeys(live) - (if id in live then KeyOf(live[id]) else {})
  {
    var rest := live - {id};
    forall k | k in LinkedKeys(live) && (id in live ==> k !in KeyOf(live[id])) ensures k in LinkedKeys(rest) {
      var other :| other in live && live[other].recordKey == Some(k);
      assert rest[other].recordKey == Some(k);
    }
  }

  lemma DropAssociation(live: map<nat, Association>, sequences: Counter, id: nat)
    requires AssociationsOk(live, sequences)
    ensures AssociationsOk(live - {id}, sequences)
    ensures id in live ==> |live - {id}| < |live|
  {
    assert (live - {id}).Keys == live.Keys - {id};
    SameSize(live - {id}, live - {id});
    assert |live| == |live.Keys|;
  }

  lemma EraseAfterUnlink(live: map<nat, Association>, id: nat, key: nat)
    requires LinksOk(live) && id in live && live[id].recordKey == Some(key)
    ensures Unlink(live, {key}) - {id} == live - {id}
  {}

  // ---------------------------------------------------------------- closing

  /** The association of `id` goes, and its record is no longer live. */
  lemma EndKeeps(s: State, id: nat, history: seq<Record>, pending: set<nat>)
    requires Core(s, pending) && id in s.live
    requires HistoryOk(history, s.historyKeys)
    requires LiveKeys(history) == LiveKeys(s.history) - KeyOf(s.live[id])
    ensures Core(s.(history := history, live := s.live - {id}), pending)
  {
    DropLink(s.live, id);
    DropAssociation(s.live, s.liveKeys, id);
  }

  lemma ExpiredLiveKeys(history: seq<Record>, key: nat)
    requires Ordered(history)
    ensures LiveKeys(Expired(history, key)) == LiveKeys(history) - {key}
  {
    var marked := Expired(history, key);
    forall k | k in LiveKeys(history) - {key} ensures k in LiveKeys(marked) {
      var i :| 0 <= i < |history| && history[i].key == k && history[i].live;
      assert marked[i] == history[i] && marked[i] in marked;
    }
    forall k | k in LiveKeys(marked) ensures k in LiveKeys(history) - {key} {
      var i :| 0 <= i < |marked| && marked[i].key == k && marked[i].live;
      assert history[i] in history;
    }
  }

  lemma ExpiredOk(history: seq<Record>, key: nat, keys: Counter)
    requires HistoryOk(history, keys)
    ensures HistoryOk(Expired(history, key), keys)
  {
    var marked := Expired(history, key);
    forall r | r in marked ensures exists q :: q in history && r == q.(live := r.live) {
      var i :| 0 <= i < |marked| && marked[i] == r;
      assert history[i] in history;
    }
  }
}
