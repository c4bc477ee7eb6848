/** What recognition makes of records and links, also when some were made while the generation was
    reconciled: an exact account of the history a reload leaves. */
module NotificationRecognition {
  import opened Basics
  import opened NotificationModel
  import opened NotificationSteps
  import opened NotificationInvariant
  import opened NotificationSafety
  import opened NotificationTracking
  import opened NotificationReload

  // ---------------------------------------------------------------- which old records stay

  function FreshOnly(history: seq<Record>, now: nat): seq<Record> {
    if history == [] then []
    else if history[0].cutoff <= now then FreshOnly(history[1..], now)
    else [history[0]] + FreshOnly(history[1..], now)
  }

  /** What is left of the records there were, after `recorded` new ones came in front of them. */
  function KeptOld(history: seq<Record>, recorded: nat, now: nat): seq<Record> {
    if recorded == 0 then history
    else
      var kept := FreshOnly(history, now);
      kept[..Min(|kept|, Max(0, MAX_HISTORY - recorded))]
  }

  function Lasting(s: State, ids: set<nat>, w: World): set<nat> {
    set id | id in ids && id in s.live && !w.read(s.live[id].notification).transient
  }

  function KeysLeft(c: Counter): nat
    requires CounterOk(c)
  {
    MAX_SEQUENCE + 1 - Limit(c)
  }

  /** How many survivors are recorded: the lasting ones, as long as there are keys. */
  function RecordedCount(s: State, w: World): nat
    requires CounterOk(s.historyKeys)
  {
    Min(|Lasting(s, Survivors(s, w), w)|, KeysLeft(s.historyKeys))
  }

  lemma {:induction false} WithoutIsFresh(history: seq<Record>, keys: set<nat>, now: nat)
    requires forall r :: r in history ==> (r.key in keys <==> r.cutoff <= now)
    ensures Without(history, keys) == FreshOnly(history, now)
  {
    if history != [] {
      assert forall r :: r in history[1..] ==> r in history;
      WithoutIsFresh(history[1..], keys, now);
    }
  }

  lemma StaleIsOld(history: seq<Record>, now: nat)
    requires Ordered(history)
    ensures forall r :: r in history ==> (r.key in StaleKeys(history, now) <==> r.cutoff <= now)
  {
    assert forall r, q :: r in history && q in history && r.key == q.key ==> r == q;
  }

  lemma {:induction false} FreshOfBoth(first: seq<Record>, second: seq<Record>, now: nat)
    ensures FreshOnly(first + second, now) == FreshOnly(first, now) + FreshOnly(second, now)
  {
    if first == [] {
      assert first + second == second;
    } else {
      assert (first + second)[1..] == first[1..] + second;
      FreshOfBoth(first[1..], second, now);
    }
  }

  lemma {:induction false} FreshAll(history: seq<Record>, now: nat)
    requires forall i :: 0 <= i < |history| ==> history[i].cutoff > now
    ensures FreshOnly(history, now) == history
  {
    if history != [] {
      FreshAll(history[1..], now);
    }
  }

  lemma {:induction false} FreshAreFresh(history: seq<Record>, now: nat)
    ensures forall i :: 0 <= i < |FreshOnly(history, now)| ==>
              FreshOnly(history, now)[i].cutoff > now && FreshOnly(history, now)[i] in history
    ensures |FreshOnly(history, now)| <= |history|
  {
    if history != [] {
      FreshAreFresh(history[1..], now);
    }
  }

  lemma KeptOldIn(history: seq<Record>, recorded: nat, now: nat)
    ensures forall r :: r in KeptOld(history, recorded, now) ==> r in history
    ensures 0 < recorded ==> forall i :: 0 <= i < |KeptOld(history, recorded, now)| ==>
              KeptOld(history, recorded, now)[i].cutoff > now
  {
    FreshAreFresh(history, now);
  }

  /** One more record in front, and the pruning that follows. */
  lemma OneMore(front: seq<Record>, history: seq<Record>, n: nat, now: nat)
    requires |front| == n + 1 <= MAX_HISTORY
    requires forall i :: 0 <= i < |front| ==> front[i].cutoff > now
    ensures
      var kept := FreshOnly(front + KeptOld(history, n, now), now);
      (if |kept| <= MAX_HISTORY then kept else kept[..MAX_HISTORY]) == front + KeptOld(history, n + 1, now)
  {
    var before := KeptOld(history, n, now);
    FreshOfBoth(front, before, now);
    FreshAll(front, now);
    if n > 0 {
      KeptOldIn(history, n, now);
      FreshAll(before, now);
    }
  }

  lemma PruneIs(s: State, front: seq<Record>, history: seq<Record>, n: nat, now: nat)
    requires Ordered(s.history) && s.history == front + KeptOld(history, n, now)
    requires |front| == n + 1 <= MAX_HISTORY
    requires forall i :: 0 <= i < |front| ==> front[i].cutoff > now
    ensures Prune(s, now).history == front + KeptOld(history, n + 1, now)
  {
    StaleIsOld(s.history, now);
    WithoutIsFresh(s.history, StaleKeys(s.history, now), now);
    OneMore(front, history, n, now);
    hide FreshOnly, KeptOld, Without;
  }

  // ---------------------------------------------------------------- which new records come

  ghost predicate Ascends(ids: seq<nat>) {
    forall i, j :: 0 <= i < j < |ids| ==> ids[i] < ids[j]
  }

  function Members(ids: seq<nat>): set<nat> {
    set id | id in ids
  }

  ghost predicate AllTracked(s: State, ids: seq<nat>) {
    forall i :: 0 <= i < |ids| ==> ids[i] in s.live
  }

  /** The records made for `ids` one after another, the last one in front. */
  ghost function NewRecords(s: State, ids: seq<nat>, w: World): (front: seq<Record>)
    requires AllTracked(s, ids)
  {
    seq(|ids|, i requires 0 <= i < |ids| =>
      var j: nat := |ids| - 1 - i;
      MakeRecord(w.read(s.live[ids[j]].notification), Limit(s.historyKeys) + j, w.now))
  }

  lemma NewRecordsMore(s: State, ids: seq<nat>, id: nat, w: World)
    requires AllTracked(s, ids) && AllTracked(s, ids + [id]) && id in s.live
    ensures NewRecords(s, ids + [id], w)
      == [MakeRecord(w.read(s.live[id].notification), Limit(s.historyKeys) + |ids|, w.now)] + NewRecords(s, ids, w)
  {
    hide MakeRecord, Limit;
  }

  lemma OneMoreTracked(s: State, ids: seq<nat>, id: nat)
    requires AllTracked(s, ids) && id in s.live
    ensures AllTracked(s, ids + [id])
  {}

  /** What is left of a link when only the records of `history` are. */
  function OldLink(a: Association, history: seq<Record>): Option<nat> {
    if a.recordKey.Some? && a.recordKey.value in Keys(history) then a.recordKey else None
  }

  // ---------------------------------------------------------------- the account, half way through

  ghost predicate Recorded(s: State, v: State, ids: seq<nat>, w: World) {
    && AllTracked(s, ids)
    && CounterOk(v.historyKeys) && Limit(v.historyKeys) == Limit(s.historyKeys) + |ids|
    && v.history == NewRecords(s, ids, w) + KeptOld(s.history, |ids|, w.now)
    && HistoryOk(v.history, v.historyKeys) && |v.history| <= MAX_HISTORY
  }

  /** The lasting ones were recorded in ascending order, until there were no keys left. */
  ghost predicate Ranked(s: State, v: State, ids: seq<nat>, done: set<nat>, w: World) {
    && Ascends(ids) && (forall id :: id in ids ==> id in Lasting(s, done, w))
    && forall id :: id in Lasting(s, done, w) && id !in ids ==>
         v.historyKeys.exhausted && forall i :: 0 <= i < |ids| ==> ids[i] < id
  }

  /** A lasting one that was recognised holds its new record, if any; the others hold what they held. */
  ghost predicate Linked(s: State, v: State, ids: seq<nat>, done: set<nat>, w: World) {
    && v.live.Keys == s.live.Keys
    && (forall j :: 0 <= j < |ids| ==>
          ids[j] in v.live && v.live[ids[j]].recordKey == Some(Limit(s.historyKeys) + j))
    && (forall id :: id in Lasting(s, done, w) && id !in ids ==> v.live[id].recordKey.None?)
    && (forall id :: id in v.live && id !in Lasting(s, done, w) ==>
          v.live[id].recordKey == OldLink(s.live[id], v.history))
  }

  ghost predicate Mid(s: State, v: State, ids: seq<nat>, done: set<nat>, w: World) {
    Recorded(s, v, ids, w) && Ranked(s, v, ids, done, w) && Linked(s, v, ids, done, w) && Recognised(s, v, done, w)
  }

  lemma MidStarts(s: State, v: State, w: World)
    requires Inv(s) && v == s.(buffered := v.buffered)
    ensures Mid(s, v, [], {}, w)
  {
    hide AssociationsOk, LinksOk;
    assert Lasting(s, {}, w) == {};
    assert NewRecords(s, [], w) + KeptOld(s.history, 0, w.now) == s.history;
    forall id | id in s.live ensures s.live[id].recordKey == OldLink(s.live[id], s.history) {
      if s.live[id].recordKey.Some? {
        assert s.live[id].recordKey.value in LinkedKeys(s.live);
      }
    }
  }

  lemma LastingMore(s: State, done: set<nat>, id: nat, w: World)
    requires id in s.live
    ensures Lasting(s, done + {id}, w)
      == Lasting(s, done, w) + if w.read(s.live[id].notification).transient then {} else {id}
  {}

  /** Recognised as transient: records and links stay. */
  lemma MidTransient(s: State, v: State, ids: seq<nat>, done: set<nat>, id: nat, w: World)
    requires Mid(s, v, ids, done, w) && id in v.live && id !in done
    requires w.read(s.live[id].notification).transient
    ensures
      var b := Reread(v.live[id], w.read(v.live[id].notification));
      Mid(s, v.(live := v.live[id := b]), ids, done + {id}, w)
  {
    hide HistoryOk, KeptOld, NewRecords, Limit, OldLink, Lasting;
    RecognisedMarked(s, v, done, id, w);
    LastingMore(s, done, id, w);
    LinkedTouched(s, v, ids, done, id, Reread(v.live[id], w.read(v.live[id].notification)), w);
  }

  lemma LinkedTouched(s: State, v: State, ids: seq<nat>, done: set<nat>, id: nat, b: Association, w: World)
    requires Linked(s, v, ids, done, w) && id in v.live && b.recordKey == v.live[id].recordKey
    ensures Linked(s, v.(live := v.live[id := b]), ids, done, w)
  {
    hide Lasting, OldLink, Limit;
  }

  /** Recognised as lasting when no keys are left: no record, and no link. */
  lemma MidExhausted(s: State, v: State, ids: seq<nat>, done: set<nat>, id: nat, w: World)
    requires Mid(s, v, ids, done, w) && id in v.live && id !in done && (forall d :: d in done ==> d < id)
    requires !w.read(s.live[id].notification).transient && v.historyKeys.exhausted
    ensures
      var b := Reread(v.live[id], w.read(v.live[id].notification)).(recordKey := None);
      Mid(s, v.(live := v.live[id := b]), ids, done + {id}, w)
  {
    hide HistoryOk, KeptOld, NewRecords, Limit, OldLink, Lasting, Ranked, Linked, AllTracked, CounterOk, Reread;
    var b := Reread(v.live[id], w.read(v.live[id].notification));
    var c := b.(recordKey := None);
    LastingMore(s, done, id, w);
    LastingIn(s, done, w);
    RankedExhausted(s, v, v.(live := v.live[id := c]), ids, done, id, w);
    LinkedNone(s, v, ids, done, id, c, w);
    RecognisedMarked(s, v, done, id, w);
    RecognisedRelinked(s, v.(live := v.live[id := b]), done + {id}, id, None, w);
    assert v.live[id := b][id := c] == v.live[id := c];
  }

  lemma RecognisedRelinked(s: State, v: State, done: set<nat>, id: nat, key: Option<nat>, w: World)
    requires Recognised(s, v, done, w) && id in v.live
    ensures Recognised(s, v.(live := v.live[id := v.live[id].(recordKey := key)]), done, w)
  {}

  lemma RankedExhausted(s: State, v: State, u: State, ids: seq<nat>, done: set<nat>, id: nat, w: World)
    requires Ranked(s, v, ids, done, w) && v.historyKeys.exhausted && forall d :: d in done ==> d < id
    requires Lasting(s, done + {id}, w) == Lasting(s, done, w) + {id} && Lasting(s, done, w) <= done
    requires u.historyKeys == v.historyKeys
    ensures Ranked(s, u, ids, done + {id}, w)
    ensures forall other :: other in ids ==> other in done
  {
    hide Lasting;
    assert forall i :: 0 <= i < |ids| ==> ids[i] in ids;
  }

  lemma LastingIn(s: State, done: set<nat>, w: World)
    ensures Lasting(s, done, w) <= done
  {}

  lemma LinkedNone(s: State, v: State, ids: seq<nat>, done: set<nat>, id: nat, b: Association, w: World)
    requires Linked(s, v, ids, done, w) && id in v.live && id !in done && b.recordKey.None?
    requires Lasting(s, done + {id}, w) == Lasting(s, done, w) + {id} && forall other :: other in ids ==> other in done
    ensures Linked(s, v.(live := v.live[id := b]), ids, done + {id}, w)
  {
    hide Lasting, OldLink, Limit;
  }

  // ---------------------------------------------------------------- recognised and recorded

  lemma PruneHistoryOk(s: State, keys: Counter, now: nat)
    requires HistoryOk(s.history, keys)
    ensures HistoryOk(Prune(s, now).history, keys) && |Prune(s, now).history| <= MAX_HISTORY
  {
    WithoutOrdered(s.history, StaleKeys(s.history, now));
    OverflowBounds(PruneByAge(s, now));
  }

  /** The state just after the record of a notification was put in front, before pruning. */
  function Prepended(v: State, n: Notification, now: nat): State
    requires !v.historyKeys.exhausted
  {
    var (key, counter) := Allocate(v.historyKeys);
    v.(historyKeys := counter, history := [MakeRecord(n, key.value, now)] + v.history)
  }

  lemma PrependedOk(v: State, n: Notification, now: nat)
    requires HistoryOk(v.history, v.historyKeys) && CounterOk(v.historyKeys) && !v.historyKeys.exhausted
    ensures
      var u := Prepended(v, n, now);
      && HistoryOk(u.history, u.historyKeys) && CounterOk(u.historyKeys)
      && Limit(u.historyKeys) == Limit(v.historyKeys) + 1
      && u.history[0] == MakeRecord(n, Limit(v.historyKeys), now)
  {
    assert forall q :: q in v.history ==> q.key < v.historyKeys.next;
  }

  /** Pruning leaves of each link what is left of its record. */
  lemma PruneLinks(s: State, now: nat)
    requires Ordered(s.history)
    requires forall id :: id in s.live && s.live[id].recordKey.Some? ==> s.live[id].recordKey.value in Keys(s.history)
    ensures
      var t := Prune(s, now);
      && t.live.Keys == s.live.Keys && (forall k :: k in Keys(t.history) ==> k in Keys(s.history))
      && forall id :: id in s.live ==> t.live[id] == s.live[id].(recordKey := OldLink(s.live[id], t.history))
  {
    hide StaleKeys;
    var keys := StaleKeys(s.history, now);
    WithoutOrdered(s.history, keys);
    var aged := PruneByAge(s, now);
    ForgotLinks(s, keys);
    OverflowLinks(aged);
  }

  lemma ForgotLinks(s: State, keys: set<nat>)
    requires forall id :: id in s.live && s.live[id].recordKey.Some? ==> s.live[id].recordKey.value in Keys(s.history)
    ensures
      var t := Forget(s, keys);
      && t.live.Keys == s.live.Keys && Keys(t.history) == Keys(s.history) - keys
      && forall id :: id in s.live ==> t.live[id] == s.live[id].(recordKey := OldLink(s.live[id], t.history))
  {}

  lemma KeysSplit(h: seq<Record>, n: nat)
    requires Ordered(h) && n <= |h|
    ensures Keys(h[..n]) == Keys(h) - Keys(h[n..])
  {
    assert forall r, q :: r in h[..n] && q in h[n..] ==> r.key > q.key;
    assert forall r :: r in h ==> r in h[..n] || r in h[n..];
  }

  lemma OverflowLinks(s: State)
    requires Ordered(s.history)
    requires forall id :: id in s.live && s.live[id].recordKey.Some? ==> s.live[id].recordKey.value in Keys(s.history)
    ensures
      var t := PruneOverflow(s);
      && t.live.Keys == s.live.Keys && Keys(t.history) <= Keys(s.history)
      && forall id :: id in s.live ==> t.live[id] == s.live[id].(recordKey := OldLink(s.live[id], t.history))
  {
    hide Keys, Ordered;
    if |s.history| > MAX_HISTORY {
      KeysSplit(s.history, MAX_HISTORY);
    }
  }

  lemma NewAreFresh(s: State, ids: seq<nat>, w: World)
    requires AllTracked(s, ids)
    ensures
      var front := NewRecords(s, ids, w);
      forall i :: 0 <= i < |front| ==> front[i].live && front[i].cutoff > w.now && front[i].key >= Limit(s.historyKeys)
  {
    forall i | 0 <= i < |ids|
      ensures
        var r := NewRecords(s, ids, w)[i];
        r.live && r.cutoff > w.now && r.key >= Limit(s.historyKeys)
    {
      var j := |ids| - 1 - i;
      NewRecordAt(s, ids, j, w);
    }
  }

  lemma NewRecordAt(s: State, ids: seq<nat>, j: nat, w: World)
    requires AllTracked(s, ids) && j < |ids|
    ensures NewRecords(s, ids, w)[|ids| - 1 - j]
      == MakeRecord(w.read(s.live[ids[j]].notification), Limit(s.historyKeys) + j, w.now)
  {}

  /** The new record comes in front and is not pruned. */
  lemma RecordedMore(s: State, v: State, ids: seq<nat>, id: nat, w: World)
    requires Recorded(s, v, ids, w) && |ids| < MAX_HISTORY && !v.historyKeys.exhausted && id in s.live
    requires !w.read(s.live[id].notification).transient
    ensures
      var n := w.read(s.live[id].notification);
      var u := Prune(Prepended(v, n, w.now), w.now);
      && AdmitHistory(v, n, w.now) == (u, Some(Limit(v.historyKeys)))
      && Recorded(s, u, ids + [id], w)
  {
    var n := w.read(s.live[id].notification);
    var u0 := Prepended(v, n, w.now);
    PrependedOk(v, n, w.now);
    OneMoreTracked(s, ids, id);
    NewRecordsMore(s, ids, id, w);
    NewAreFresh(s, ids + [id], w);
    var more := NewRecords(s, ids + [id], w);
    assert u0.history == more + KeptOld(s.history, |ids|, w.now);
    hide KeptOld, FreshOnly, HistoryOk, CounterOk, PruneByAge, PruneOverflow, NewRecords, AllTracked;
    assert Ordered(u0.history) by { OkIsOrdered(u0); }
    PruneIs(u0, more, s.history, |ids|, w.now);
    PruneIsLocal(u0, w.now);
    PruneHistoryOk(u0, u0.historyKeys, w.now);
    assert Prune(u0, w.now).history[0].key in Keys(Prune(u0, w.now).history);
  }

  lemma OkIsOrdered(s: State)
    requires HistoryOk(s.history, s.historyKeys)
    ensures Ordered(s.history)
  {}

  lemma RankedMore(s: State, v: State, u: State, ids: seq<nat>, done: set<nat>, id: nat, w: World)
    requires Ranked(s, v, ids, done, w) && !v.historyKeys.exhausted && forall d :: d in done ==> d < id
    requires Lasting(s, done + {id}, w) == Lasting(s, done, w) + {id} && Lasting(s, done, w) <= done
    ensures Ranked(s, u, ids + [id], done + {id}, w)
    ensures forall other :: other in ids ==> other in done
    ensures Lasting(s, done, w) == Members(ids)
  {
    hide Lasting;
    assert forall i :: 0 <= i < |ids| ==> ids[i] in ids;
  }

  /** Every link of `v` is to a record of its history. */
  lemma LinkedIn(s: State, v: State, ids: seq<nat>, done: set<nat>, w: World)
    requires Recorded(s, v, ids, w) && Linked(s, v, ids, done, w)
    ensures forall id :: id in v.live && v.live[id].recordKey.Some? ==> v.live[id].recordKey.value in Keys(v.history)
  {
    hide Lasting, KeptOld;
    forall id | id in v.live && v.live[id].recordKey.Some? ensures v.live[id].recordKey.value in Keys(v.history) {
      if id in ids {
        var j :| 0 <= j < |ids| && ids[j] == id;
        NewRecordAt(s, ids, j, w);
        assert v.history[|ids| - 1 - j] == NewRecords(s, ids, w)[|ids| - 1 - j];
      }
    }
  }

  /** Links there were point to records there were. */
  ghost predicate OldBelow(s: State) {
    forall id :: id in s.live && s.live[id].recordKey.Some? ==> s.live[id].recordKey.value < Limit(s.historyKeys)
  }

  ghost predicate HasKeys(history: seq<Record>, start: nat, count: nat) {
    forall k: nat :: start <= k < start + count ==> k in Keys(history)
  }

  /** The others hold what is left of what they held. */
  lemma OldLinksLeft(s: State, v: State, u: State, ids: seq<nat>, done: set<nat>, id: nat, w: World)
    requires OldBelow(s) && Linked(s, v, ids, done, w) && u.live.Keys == v.live.Keys
    requires forall other :: other in v.live && other != id ==>
               u.live[other].recordKey == OldLink(v.live[other], u.history)
    requires forall k :: k in Keys(u.history) && k < Limit(s.historyKeys) ==> k in Keys(v.history)
    ensures forall other :: other in u.live && other != id && other !in Lasting(s, done, w) ==>
              u.live[other].recordKey == OldLink(s.live[other], u.history)
  {
    hide Lasting, Keys, Limit;
    forall other | other in u.live && other != id && other !in Lasting(s, done, w)
      ensures u.live[other].recordKey == OldLink(s.live[other], u.history)
    {
      assert v.live[other].recordKey == OldLink(s.live[other], v.history);
    }
  }

  lemma NewLinksLeft(s: State, v: State, u: State, ids: seq<nat>, done: set<nat>, id: nat, w: World)
    requires Linked(s, v, ids, done, w) && u.live.Keys == v.live.Keys && id !in ids
    requires forall other :: other in v.live && other != id ==>
               u.live[other].recordKey == OldLink(v.live[other], u.history)
    requires HasKeys(u.history, Limit(s.historyKeys), |ids|)
    ensures forall j :: 0 <= j < |ids| ==>
              ids[j] != id && ids[j] in u.live && u.live[ids[j]].recordKey == Some(Limit(s.historyKeys) + j)
  {
    hide Lasting, Keys, Limit;
    assert forall j :: 0 <= j < |ids| ==> ids[j] in ids;
  }

  /** What pruning leaves of the links of `v`, and the link that is made. */
  lemma LinkedMore(s: State, v: State, u: State, ids: seq<nat>, done: set<nat>, id: nat, b: Association, w: World)
    requires OldBelow(s) && Linked(s, v, ids, done, w) && id in v.live && id !in done && id !in ids
    requires Lasting(s, done, w) == Members(ids)
    requires Lasting(s, done + {id}, w) == Lasting(s, done, w) + {id}
    requires u.live.Keys == v.live.Keys
    requires forall other :: other in v.live && other != id ==>
               u.live[other].recordKey == OldLink(v.live[other], u.history)
    requires HasKeys(u.history, Limit(s.historyKeys), |ids|)
    requires forall k :: k in Keys(u.history) && k < Limit(s.historyKeys) ==> k in Keys(v.history)
    requires b.recordKey == Some(Limit(s.historyKeys) + |ids|)
    ensures Linked(s, u.(live := u.live[id := b]), ids + [id], done + {id}, w)
  {
    hide Lasting, Keys, Limit, OldLink, OldBelow, HasKeys, Members;
    OldLinksLeft(s, v, u, ids, done, id, w);
    NewLinksLeft(s, v, u, ids, done, id, w);
    MembersAre(ids);
    assert u.live.Keys == s.live.Keys;
    hide Linked;
    LinkedPut(s, u, ids, done + {id}, id, b, w);
  }

  lemma LinkedPut(s: State, u: State, ids: seq<nat>, done: set<nat>, id: nat, b: Association, w: World)
    requires u.live.Keys == s.live.Keys && id in u.live && id in Lasting(s, done, w)
    requires forall other :: other in Lasting(s, done, w) ==> other in ids || other == id
    requires forall j :: 0 <= j < |ids| ==>
               ids[j] != id && ids[j] in u.live && u.live[ids[j]].recordKey == Some(Limit(s.historyKeys) + j)
    requires forall other :: other in u.live && other != id && other !in Lasting(s, done, w) ==>
               u.live[other].recordKey == OldLink(s.live[other], u.history)
    requires b.recordKey == Some(Limit(s.historyKeys) + |ids|)
    ensures Linked(s, u.(live := u.live[id := b]), ids + [id], done, w)
  {
    hide Lasting, Limit, OldLink;
    assert forall other :: other in ids ==> other in ids + [id];
    assert id in ids + [id] by { assert (ids + [id])[|ids|] == id; }
  }

  lemma MembersAre(ids: seq<nat>)
    ensures forall id :: id in Members(ids) <==> id in ids
  {}

  lemma FewRecorded(s: State, v: State, ids: seq<nat>, done: set<nat>, id: nat, w: World)
    requires Recorded(s, v, ids, w) && Ranked(s, v, ids, done, w) && id in s.live && id !in done && |s.live| <= MAX_LIVE
    ensures |ids| < MAX_HISTORY
  {
    hide KeptOld, NewRecords, HistoryOk, Limit;
    LastingIn(s, done, w);
    var all := Members(ids);
    AscendingSize(ids);
    assert all <= s.live.Keys - {id};
    SubsetSize(all, s.live.Keys - {id});
    assert |s.live.Keys - {id}| == |s.live.Keys| - 1 && |s.live.Keys| == |s.live|;
  }

  lemma {:induction false} AscendingSize(ids: seq<nat>)
    requires Ascends(ids)
    ensures |Members(ids)| == |ids|
    decreases |ids|
  {
    hide Members, Ascends;
    if ids == [] {
      assert Members([]) == {} by { NoMembers(); }
    } else {
      var last := |ids| - 1;
      LastAbove(ids);
      AscendingSize(ids[..last]);
      MembersMore(ids[..last], ids[last]);
      assert ids == ids[..last] + [ids[last]];
    }
  }

  lemma NoMembers()
    ensures Members([]) == {}
  {}

  lemma LastAbove(ids: seq<nat>)
    requires Ascends(ids) && ids != []
    ensures Ascends(ids[..|ids| - 1]) && ids[|ids| - 1] !in Members(ids[..|ids| - 1])
  {}

  lemma MembersMore(ids: seq<nat>, id: nat)
    ensures Members(ids + [id]) == Members(ids) + {id}
  {}

  lemma PrunedLinksOf(s: State, v: State, v1: State, ids: seq<nat>, id: nat, w: World)
    requires Recorded(s, v, ids, w) && !v.historyKeys.exhausted && id in v.live && id in s.live
    requires id in v1.live && v1 == v.(live := v.live[id := v1.live[id]])
    requires v1.live[id].recordKey == v.live[id].recordKey
    requires forall other :: other in v.live && v.live[other].recordKey.Some? ==>
               v.live[other].recordKey.value in Keys(v.history)
    ensures
      var n := w.read(s.live[id].notification);
      var u := Prune(Prepended(v1, n, w.now), w.now);
      && u.live.Keys == v.live.Keys
      && (forall other :: other in v.live && other != id ==>
            u.live[other].recordKey == OldLink(v.live[other], u.history))
      && (forall k :: k in Keys(u.history) ==> k in Keys(v.history) || k == Limit(v.historyKeys))
  {
    hide Prune, KeptOld, NewRecords, AllTracked;
    var n := w.read(s.live[id].notification);
    var u0 := Prepended(v1, n, w.now);
    PrependedOk(v1, n, w.now);
    assert Keys(u0.history) == Keys(v.history) + {Limit(v.historyKeys)} by {
      KeysMore(u0.history[0], v.history);
    }
    hide Keys, HistoryOk, CounterOk;
    OkIsOrdered(u0);
    PruneLinks(u0, w.now);
  }

  lemma KeysMore(r: Record, history: seq<Record>)
    ensures Keys([r] + history) == Keys(history) + {r.key}
  {
    assert forall q :: q in [r] + history <==> q == r || q in history;
  }

  lemma NewKeysIn(s: State, u: State, ids: seq<nat>, w: World)
    requires Recorded(s, u, ids, w)
    ensures HasKeys(u.history, Limit(s.historyKeys), |ids|)
  {
    hide KeptOld, HistoryOk;
    forall k | Limit(s.historyKeys) <= k < Limit(s.historyKeys) + |ids| ensures k in Keys(u.history) {
      var j := k - Limit(s.historyKeys);
      NewRecordAt(s, ids, j, w);
      assert u.history[|ids| - 1 - j] == NewRecords(s, ids, w)[|ids| - 1 - j];
      assert u.history[|ids| - 1 - j] in u.history;
    }
  }

  lemma RecordedIsLocal(s: State, v: State, u: State, ids: seq<nat>, w: World)
    requires Recorded(s, v, ids, w) && u == v.(live := u.live)
    ensures Recorded(s, u, ids, w)
  {}

  /** Recognised as lasting while there are keys: recorded, pruned and linked. */
  lemma MidRecorded(s: State, v: State, ids: seq<nat>, done: set<nat>, id: nat, w: World)
    requires Mid(s, v, ids, done, w) && OldBelow(s) && |s.live| <= MAX_LIVE
    requires id in s.live && id in v.live && id !in done && (forall d :: d in done ==> d < id)
    requires !w.read(s.live[id].notification).transient && !v.historyKeys.exhausted
    ensures
      var n := w.read(s.live[id].notification);
      var (u, key) := AdmitHistory(v.(live := v.live[id := Reread(v.live[id], n)]), n, w.now);
      && key == Some(Limit(s.historyKeys) + |ids|) && id in u.live
      && Mid(s, u.(live := u.live[id := u.live[id].(recordKey := key)]), ids + [id], done + {id}, w)
  {
    hide Recorded, Ranked, Linked, Recognised, Lasting, AdmitHistory, Prepended, Prune, Limit, OldLink, Keys, OldBelow;
    var n := w.read(s.live[id].notification);
    var v1 := v.(live := v.live[id := Reread(v.live[id], n)]);
    LinkedIn(s, v, ids, done, w);
    RecordedIsLocal(s, v, v1, ids, w);
    FewRecorded(s, v, ids, done, id, w);
    MidKeys(s, v, ids, done, w);
    RecordedMore(s, v1, ids, id, w);
    var u := Prune(Prepended(v1, n, w.now), w.now);
    PrunedLinksOf(s, v, v1, ids, id, w);
    LastingMore(s, done, id, w);
    LastingIn(s, done, w);
    var b := u.live[id].(recordKey := Some(Limit(s.historyKeys) + |ids|));
    var t := u.(live := u.live[id := b]);
    RankedMore(s, v, t, ids, done, id, w);
    NewKeysIn(s, u, ids + [id], w);
    LinkedMore(s, v, u, ids, done, id, b, w);
    RecordedIsLocal(s, u, t, ids + [id], w);
    RecognisedRecorded(s, v, u, done, id, Some(Limit(s.historyKeys) + |ids|), w);
  }

  lemma RecognisedRecorded(s: State, v: State, u: State, done: set<nat>, id: nat, key: Option<nat>, w: World)
    requires Recognised(s, v, done, w) && id in s.live && id in v.live
    requires v.live[id].notification == s.live[id].notification
    requires u == AdmitHistory(v.(live := v.live[id := Reread(v.live[id], w.read(s.live[id].notification))]),
                               w.read(s.live[id].notification), w.now).0
    ensures id in u.live
    ensures Recognised(s, u.(live := u.live[id := u.live[id].(recordKey := key)]), done + {id}, w)
  {
    hide Recognised, AdmitHistory, Reread;
    var n := w.read(s.live[id].notification);
    var v1 := v.(live := v.live[id := Reread(v.live[id], n)]);
    RecognisedMarked(s, v, done, id, w);
    AdmitHistoryLinks(v1, n, w.now);
    RecognisedLinks(s, v1, u, done + {id}, w);
    RecognisedRelinked(s, u, done + {id}, id, key, w);
  }

  lemma MidKeys(s: State, v: State, ids: seq<nat>, done: set<nat>, w: World)
    requires Mid(s, v, ids, done, w)
    ensures v.live.Keys == s.live.Keys && Limit(v.historyKeys) == Limit(s.historyKeys) + |ids|
    ensures forall id :: id in v.live ==> v.live[id].notification == s.live[id].notification
  {}

  lemma RecogniseIs(v: State, o: Object, w: World)
    requires Owns(v, o)
    ensures
      var id, n := o.protocolId, w.read(o);
      var a := Reread(v.live[id], n);
      var (u, key) := AdmitHistory(v.(live := v.live[id := a]), n, w.now);
      && (n.transient ==> Recognise(v, o, w) == v.(live := v.live[id := a]))
      && (!n.transient && v.historyKeys.exhausted ==>
            Recognise(v, o, w) == v.(live := v.live[id := a.(recordKey := None)]))
      && (!n.transient && id in u.live ==>
            Recognise(v, o, w) == u.(live := u.live[id := u.live[id].(recordKey := key)]))
  {
    hide Prune;
  }

  lemma MidStep(s: State, v: State, ids: seq<nat>, done: set<nat>, o: Object, w: World) returns (more: seq<nat>)
    requires Mid(s, v, ids, done, w) && OldBelow(s) && |s.live| <= MAX_LIVE
    requires Owns(v, o) && o.protocolId !in done && (forall d :: d in done ==> d < o.protocolId)
    ensures Mid(s, Recognise(v, o, w), more, done + {o.protocolId}, w)
  {
    hide Mid, Recognise, AdmitHistory, Reread, OldBelow, Limit;
    var id, n := o.protocolId, w.read(o);
    MidKeys(s, v, ids, done, w);
    assert v.live[id].notification == s.live[id].notification == o;
    RecogniseIs(v, o, w);
    if n.transient {
      more := ids;
      MidTransient(s, v, ids, done, id, w);
    } else if v.historyKeys.exhausted {
      more := ids;
      MidExhausted(s, v, ids, done, id, w);
    } else {
      more := ids + [id];
      MidRecorded(s, v, ids, done, id, w);
    }
  }

  /** Everything carried is gone through from the last, so in ascending order. */
  lemma {:induction false} MidAll(s: State, v: State, ids: seq<nat>, done: set<nat>, objects: seq<Object>, w: World)
    returns (more: seq<nat>)
    requires Mid(s, v, ids, done, w) && OldBelow(s) && |s.live| <= MAX_LIVE
    requires Descending(objects) && forall d, o :: d in done && o in objects ==> d < o.protocolId
    ensures Mid(s, RecogniseAll(v, objects, w), more, done + OwnedIds(s, objects), w)
    decreases |objects|
  {
    hide Mid, Recognise, OwnedIds, Owns, OldBelow;
    if objects == [] {
      NoneOwned(s);
      assert RecogniseAll(v, objects, w) == v && done + OwnedIds(s, objects) == done;
      more := ids;
    } else {
      var last := |objects| - 1;
      var o, rest := objects[last], objects[..last];
      DescendingDistinct(objects);
      OwnedSplit(s, objects);
      assert o in objects && forall p :: p in rest ==> p in objects && o.protocolId < p.protocolId;
      assert RecogniseAll(v, objects, w) == RecogniseAll(Recognise(v, o, w), rest, w);
      MidOwners(s, v, ids, done, w, o);
      if Owns(v, o) {
        var next := MidStep(s, v, ids, done, o, w);
        more := MidAll(s, Recognise(v, o, w), next, done + {o.protocolId}, rest, w);
        assert done + {o.protocolId} + OwnedIds(s, rest) == done + OwnedIds(s, objects);
      } else {
        UnownedIsLeft(v, o, w);
        more := MidAll(s, v, ids, done, rest, w);
        assert done + OwnedIds(s, rest) == done + OwnedIds(s, objects);
      }
    }
  }

  lemma MidOwners(s: State, v: State, ids: seq<nat>, done: set<nat>, w: World, o: Object)
    requires Mid(s, v, ids, done, w)
    ensures Owns(v, o) <==> Owns(s, o)
  {
    MidKeys(s, v, ids, done, w);
    hide Mid;
  }

  // ---------------------------------------------------------------- the account of a reload

  lemma AllRecognised(s: State, w: World) returns (ids: seq<nat>)
    requires Inv(s)
    ensures
      var carried := SortDescending(FirstPerId(s.buffered, true, {}, w));
      Mid(s, RecogniseAll(s.(buffered := []), carried, w), ids, Survivors(s, w), w)
  {
    hide Mid, RecogniseAll, OwnedIds, Survivors;
    var s0 := s.(buffered := []);
    var found := FirstPerId(s.buffered, true, {}, w);
    FirstPerIdDistinct(s.buffered, true, {}, w);
    SortDescendingIs(found);
    InvFacts(s);
    CarriedAreSurvivors(s, w);
    MidStarts(s, s0, w);
    ids := MidAll(s, s0, [], {}, SortDescending(found), w);
    assert {} + Survivors(s, w) == Survivors(s, w);
  }

  lemma InvFacts(s: State)
    requires Inv(s)
    ensures |s.live| <= MAX_LIVE && Keyed(s.live) && CounterOk(s.historyKeys) && OldBelow(s)
  {
    forall id | id in s.live && s.live[id].recordKey.Some? ensures s.live[id].recordKey.value < Limit(s.historyKeys) {
      assert s.live[id].recordKey.value in LinkedKeys(s.live);
    }
  }

  lemma RecordedMany(s: State, v: State, ids: seq<nat>, done: set<nat>, w: World)
    requires Mid(s, v, ids, done, w) && CounterOk(s.historyKeys)
    ensures |ids| == Min(|Lasting(s, done, w)|, KeysLeft(s.historyKeys))
  {
    hide Linked, Recognised, KeptOld, NewRecords, HistoryOk, Lasting;
    AscendingSize(ids);
    assert Members(ids) <= Lasting(s, done, w);
    SubsetSize(Members(ids), Lasting(s, done, w));
    if Members(ids) != Lasting(s, done, w) {
      var id :| id in Lasting(s, done, w) && id !in Members(ids);
      assert v.historyKeys.exhausted;
    }
  }

  /** What a reload makes of history and links: the first `|ids|` lasting survivors by id are recorded, each
      under the next key, in front of the old records that stay. */
  ghost predicate Account(s: State, t: State, ids: seq<nat>, w: World) {
    var lasting := Lasting(s, Survivors(s, w), w);
    var kept := KeptOld(s.history, |ids|, w.now);
    && AllTracked(s, ids) && Ascends(ids)
    && (forall id :: id in ids ==> id in lasting)
    && (forall id, i :: id in lasting && id !in ids && 0 <= i < |ids| ==> ids[i] < id)
    && t.history == NewRecords(s, ids, w) + kept
    && (forall j :: 0 <= j < |ids| ==>
          ids[j] in t.live && t.live[ids[j]].recordKey == Some(Limit(s.historyKeys) + j))
    && (forall id :: id in t.live && id in lasting && id !in ids ==> t.live[id].recordKey.None?)
    && (forall id :: id in t.live && id in s.live && id !in lasting ==>
          t.live[id].recordKey == OldLink(s.live[id], kept))
  }

  lemma OldLinkIs(s: State, v: State, ids: seq<nat>, id: nat, w: World)
    requires Recorded(s, v, ids, w) && OldBelow(s) && id in s.live
    ensures OldLink(s.live[id], v.history) == OldLink(s.live[id], KeptOld(s.history, |ids|, w.now))
  {
    hide KeptOld;
    NewAreFresh(s, ids, w);
    var front, kept := NewRecords(s, ids, w), KeptOld(s.history, |ids|, w.now);
    assert forall r :: r in v.history <==> r in front || r in kept;
  }

  lemma AccountOf(s: State, v: State, t: State, ids: seq<nat>, w: World)
    requires OldBelow(s) && Mid(s, v, ids, Survivors(s, w), w)
    requires t.history == v.history && t.live == SeenOnly(v.live) && t.live.Keys == Survivors(s, w)
    ensures Account(s, t, ids, w)
  {
    hide KeptOld, NewRecords, OldBelow, OldLink, Limit, Survivors, Lasting, Recognised, CounterOk, HistoryOk;
    LastingIn(s, Survivors(s, w), w);
    assert forall j :: 0 <= j < |ids| ==> ids[j] in ids;
    forall id | id in t.live && id in s.live && id !in Lasting(s, Survivors(s, w), w)
      ensures t.live[id].recordKey == OldLink(s.live[id], KeptOld(s.history, |ids|, w.now))
    {
      OldLinkIs(s, v, ids, id, w);
    }
  }

  /** The whole of a reload, whatever was recorded and linked while the generation was reconciled. */
  lemma ReloadAccount(s: State, w: World) returns (ids: seq<nat>)
    requires Inv(s) && NoneSeen(s.live)
    ensures
      var t := Reconcile(s, w);
      && t.live.Keys == Survivors(s, w) && (forall id :: id in t.live ==> Survived(s, t, id, w))
      && |ids| == RecordedCount(s, w) && Account(s, t, ids, w)
  {
    hide Inv, RecogniseAll, Survived, KeptOld, Lasting, OldLink, NewRecords, OldBelow;
    InvFacts(s);
    ReloadKeepsSurvivors(s, w);
    ids := AllRecognised(s, w);
    var v := RecogniseAll(s.(buffered := []), SortDescending(FirstPerId(s.buffered, true, {}, w)), w);
    RecordedMany(s, v, ids, Survivors(s, w), w);
    hide Survivors;
    AccountOf(s, v, Reconcile(s, w), ids, w);
  }

  /** With nothing recorded or linked beforehand: history is the new records only, and they and the survivors
      point at each other one to one. */
  lemma ReloadKeepsExactlySurvivors(s: State, w: World) returns (ids: seq<nat>)
    requires Inv(s) && Settled(s) && s.reconciling
    ensures
      var t := Reconcile(s, w);
      && t.live.Keys == Survivors(s, w) && (forall id :: id in t.live ==> Survived(s, t, id, w))
      && |ids| == RecordedCount(s, w) && Account(s, t, ids, w)
      && t.history == NewRecords(s, ids, w) && OneToOne(t)
  {
    hide Inv, Reconcile, Survivors, Survived, NewRecords, OneToOne;
    ids := ReloadAccount(s, w);
    assert KeptOld([], |ids|, w.now) == [];
    ReconcileKeeps(s, w);
    InvIsOneToOne(Reconcile(s, w));
  }
}
