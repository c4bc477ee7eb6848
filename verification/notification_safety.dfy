/** Every entry point keeps the invariant; so does every run. */
module NotificationSafety {
  import opened Basics
  import opened NotificationModel
  import opened NotificationSteps
  import opened NotificationInvariant

  // ---------------------------------------------------------------- closing

  /** The part of the state the invariant does not mention does not matter to it. */
  lemma Frame(s: State, t: State, pending: set<nat>)
    requires Core(s, pending)
    requires t.live == s.live && t.history == s.history
    requires t.historyKeys == s.historyKeys && t.liveKeys == s.liveKeys
    ensures Core(t, pending)
  {}

  lemma ReleaseKeeps(s: State, id: nat, reason: int, pending: set<nat>)
    requires Core(s, pending) && id in s.live
    ensures
      var s1 := Erase(Released(s, s.live[id].recordKey, reason), id);
      && Core(s1, pending)
      && s1 == s.(history := s1.history, live := s.live - {id})
      && |s1.history| <= |s.history|
  {
    match s.live[id].recordKey
    case None => EndKeeps(s, id, s.history, pending);
    case Some(k) =>
      if reason == 1 {
        ExpiredLiveKeys(s.history, k);
        ExpiredOk(s.history, k, s.historyKeys);
        EndKeeps(s, id, Expired(s.history, k), pending);
      } else {
        WithoutOrdered(s.history, {k});
        LiveKeysWithout(s.history, {k});
        EraseAfterUnlink(s.live, id, k);
        EndKeeps(s, id, Without(s.history, {k}), pending);
      }
  }

  /** Closing removes exactly one association; what is linked to it is expired or removed. */
  lemma CloseKeeps(s: State, o: Object, reason: int, now: nat, pending: set<nat>)
    requires Core(s, pending)
    ensures
      var s1 := Close(s, o, reason, now);
      && Core(s1, pending)
      && |s1.history| <= |s.history|
      && s1 == s.(history := s1.history, live := s1.live, timer := s1.timer)
      && s1.live == (if Owns(s, o) then s.live - {o.protocolId} else s.live)
      && (Owns(s, o) ==> |s1.live| < |s.live|)
  {
    if Owns(s, o) {
      var id := o.protocolId;
      ReleaseKeeps(s, id, reason, pending);
      DropAssociation(s.live, s.liveKeys, id);
      var s0 := Erase(Released(s, s.live[id].recordKey, reason), id);
      Frame(s0, Close(s, o, reason, now), pending);
    }
  }

  lemma AfterExpireKeeps(s: State, o: Object, w: World, pending: set<nat>)
    requires Core(s, pending)
    ensures
      var s1 := AfterExpire(s, o, w);
      && Core(s1, pending)
      && |s1.history| <= |s.history|
      && s1 == s.(history := s1.history, live := s1.live, timer := s1.timer)
      && s1.live
         == (if Owns(s, o) && ExpireCalled(o, w) && w.expire(o).Closes? then s.live - {o.protocolId} else s.live)
      && (!Owns(s, o) ==> s1 == s)
  {
    if ExpireCalled(o, w) && w.expire(o).Closes? {
      CloseKeeps(s, o, w.expire(o).reason, w.now, pending);
    }
  }

  // ---------------------------------------------------------------- admission

  ghost predicate Pending(s: State, key: Option<nat>) {
    Core(s, if key.Some? then {key.value} else {}) && |s.history| <= MAX_HISTORY
  }

  lemma MarkKeeps(s: State, key: nat)
    requires Pending(s, Some(key))
    ensures Inv(s.(history := Expired(s.history, key)))
  {
    ExpiredLiveKeys(s.history, key);
    ExpiredOk(s.history, key, s.historyKeys);
  }

  lemma TurnAwayKeeps(s: State, o: Object, key: Option<nat>, w: World)
    requires Pending(s, key) && o.protocolId !in s.live
    ensures
      var s1 := TurnAway(s, o, key, w);
      && Inv(s1)
      && s1 == s.(history := s1.history, timer := s1.timer)
      && s1.history == if key.Some? then Expired(s.history, key.value) else s.history
  {
    var s0 := if key.Some? then s.(history := Expired(s.history, key.value)) else s;
    if key.Some? {
      MarkKeeps(s, key.value);
    }
    Frame(s0, TurnAway(s, o, key, w), {});
  }

  /** The newcomer is distinct from everything tracked and consistent in itself. */
  ghost predicate Admissible(s: State, a: Association) {
    && AssociationOk(a.notification.protocolId, a, s.liveKeys)
    && a.notification.protocolId !in s.live
    && (forall id :: id in s.live ==> s.live[id].sequence != a.sequence)
    && (a.transient ==> a.recordKey.None?)
  }

  lemma MinusAbsent<V>(m: map<nat, V>, id: nat)
    requires id !in m
    ensures m - {id} == m
  {}

  lemma InsertKeeps(s: State, a: Association)
    requires Pending(s, a.recordKey) && |s.live| < MAX_LIVE
    requires Admissible(s, a)
    ensures Inv(s.(live := s.live[a.notification.protocolId := a]))
  {
    hide LinkedKeys, LiveKeys, LinksOk, HistoryOk, CounterOk, AssociationsOk;
    var id := a.notification.protocolId;
    assert AssociationsOk(s.live[id := a], s.liveKeys) by {
      PutAssociation(s.live, s.liveKeys, id, a);
    }
    assert LinksOk(s.live[id := a]) && LinkedKeys(s.live[id := a]) == LinkedKeys(s.live) + KeyOf(a) by {
      MinusAbsent(s.live, id);
      PutLink(s.live, id, a);
    }
  }

  lemma InstallKeeps(s: State, newcomer: Association, n: Notification, now: nat)
    requires Pending(s, newcomer.recordKey) && |s.live| < MAX_LIVE
    requires Admissible(s, newcomer)
    ensures Inv(Install(s, newcomer, n, now))
  {
    hide Core;
    var a := Presented(Scheduled(newcomer, n, now), n);
    InsertKeeps(s, a);
    Frame(s.(live := s.live[newcomer.notification.protocolId := a]), Install(s, newcomer, n, now), {});
  }

  lemma VictimIs(s: State, newcomer: Association)
    requires Core(s, KeyOf(newcomer)) && Admissible(s, newcomer)
    ensures IsVictim(s.live, s.history, newcomer, Victim(s.live, s.history, newcomer))
  {
    VictimExists(s.live, s.history, newcomer);
  }

  lemma OwnsTracked(s: State, id: nat, pending: set<nat>)
    requires Core(s, pending) && id in s.live
    ensures Owns(s, s.live[id].notification) && s.live[id].notification.protocolId == id
  {}

  lemma ContendKeeps(s: State, newcomer: Association, n: Notification, w: World)
    requires Pending(s, newcomer.recordKey)
    requires Admissible(s, newcomer)
    ensures Inv(Contend(s, newcomer, n, w))
  {
    hide Core, Install, TurnAway, AfterExpire, Victim, WeakerThan;
    VictimIs(s, newcomer);
    var v := Victim(s.live, s.history, newcomer);
    if v.None? {
      TurnAwayKeeps(s, newcomer.notification, newcomer.recordKey, w);
    } else {
      OwnsTracked(s, v.value, KeyOf(newcomer));
      var victim := s.live[v.value].notification;
      AfterExpireKeeps(s, victim, w, KeyOf(newcomer));
      var s1 := AfterExpire(s, victim, w);
      assert forall id :: id in s1.live ==> id in s.live && s1.live[id] == s.live[id];
      if !ExpireCalled(victim, w) || |s1.live| >= MAX_LIVE {
        TurnAwayKeeps(s1, newcomer.notification, newcomer.recordKey, w);
      } else {
        InstallKeeps(s1, newcomer, n, w.now);
      }
    }
  }

  lemma AdmitNewKeeps(s: State, o: Object, w: World)
    requires Inv(s) && o.protocolId != 0 && o.protocolId !in s.live && !s.liveKeys.exhausted
    ensures Inv(AdmitFresh(s, o, w))
  {
    hide Core, Install, Contend, AdmitHistory;
    var n := w.read(o);
    NewSequenceKeeps(s);
    var (sequence, counter) := Allocate(s.liveKeys);
    var s0 := s.(liveKeys := counter);
    AdmitHistoryKeeps(s0, n, w.now);
    var (s1, key) := AdmitHistory(s0, n, w.now);
    var newcomer := Newcomer(o, n, key, sequence.value);
    assert Admissible(s1, newcomer);
    if |s1.live| >= MAX_LIVE {
      ContendKeeps(s1, newcomer, n, w);
    } else {
      InstallKeeps(s1, newcomer, n, w.now);
    }
  }

  lemma AdmitFreshKeeps(s: State, o: Object, w: World)
    requires Inv(s)
    ensures Inv(AdmitFresh(s, o, w))
  {
    hide Core, Install, Contend, AdmitHistory, Queue, AfterExpire;
    if o.protocolId == 0 || (o.protocolId !in s.live && s.liveKeys.exhausted) {
      AfterExpireKeeps(s, o, w, {});
    } else if o.protocolId in s.live {
      QueueKeeps(s, o);
    } else {
      AdmitNewKeeps(s, o, w);
    }
  }

  lemma NewSequenceKeeps(s: State)
    requires Inv(s) && !s.liveKeys.exhausted
    ensures
      var (sequence, counter) := Allocate(s.liveKeys);
      && Inv(s.(liveKeys := counter)) && sequence.value == s.liveKeys.next < Limit(counter)
      && forall id :: id in s.live ==> s.live[id].sequence < sequence.value
  {}

  /** Rewriting one association without touching its link or identity. */
  ghost predicate SameIdentity(a: Association, b: Association) {
    && a.sequence == b.sequence && a.notification == b.notification
    && a.token == b.token && a.tokenGeneration == b.tokenGeneration
  }

  lemma TouchAssociation(live: map<nat, Association>, sequences: Counter, id: nat, a: Association)
    requires AssociationsOk(live, sequences) && id in live
    requires SameIdentity(a, live[id]) && a.revision <= MAX_REVISION && -1 <= a.deadline
    ensures AssociationsOk(live[id := a], sequences)
  {
    PutAssociation(live, sequences, id, a);
  }

  lemma TouchLink(live: map<nat, Association>, id: nat, a: Association)
    requires LinksOk(live) && id in live
    requires a.recordKey == live[id].recordKey && (a.transient ==> a.recordKey.None?)
    ensures LinksOk(live[id := a]) && LinkedKeys(live[id := a]) == LinkedKeys(live)
  {
    DropLink(live, id);
    PutLink(live, id, a);
    assert KeyOf(a) <= LinkedKeys(live);
  }

  lemma TouchKeeps(s: State, id: nat, a: Association, pending: set<nat>)
    requires Core(s, pending) && id in s.live
    requires SameIdentity(a, s.live[id]) && a.recordKey == s.live[id].recordKey
    requires a.transient ==> a.recordKey.None?
    requires a.revision <= MAX_REVISION && -1 <= a.deadline
    ensures Core(s.(live := s.live[id := a]), pending)
    ensures LinkedKeys(s.live[id := a]) == LinkedKeys(s.live)
  {
    hide LinkedKeys, LiveKeys, LinksOk, HistoryOk, CounterOk, AssociationsOk;
    assert AssociationsOk(s.live[id := a], s.liveKeys) by {
      TouchAssociation(s.live, s.liveKeys, id, a);
    }
    assert LinksOk(s.live[id := a]) && LinkedKeys(s.live[id := a]) == LinkedKeys(s.live) by {
      TouchLink(s.live, id, a);
    }
  }

  lemma QueueKeeps(s: State, o: Object)
    requires Inv(s)
    ensures Inv(Queue(s, o)) && (Settled(s) ==> Settled(Queue(s, o)))
  {
    if Owns(s, o) {
      TouchKeeps(s, o.protocolId, s.live[o.protocolId].(updateQueued := true), {});
    }
  }

  // ---------------------------------------------------------------- replacement

  /** An association without a link is rewritten and takes the pending key, if there is one. */
  lemma LinkKeeps(s: State, id: nat, a: Association)
    requires Pending(s, a.recordKey) && id in s.live && s.live[id].recordKey.None?
    requires SameIdentity(a, s.live[id]) && a.revision <= MAX_REVISION && -1 <= a.deadline
    requires a.transient ==> a.recordKey.None?
    ensures Inv(s.(live := s.live[id := a]))
  {
    hide LinkedKeys, LiveKeys, LinksOk, HistoryOk, CounterOk, AssociationsOk;
    assert AssociationsOk(s.live[id := a], s.liveKeys) by {
      TouchAssociation(s.live, s.liveKeys, id, a);
    }
    assert LinksOk(s.live[id := a]) && LinkedKeys(s.live[id := a]) == LinkedKeys(s.live) + KeyOf(a) by {
      DropLink(s.live, id);
      PutLink(s.live, id, a);
    }
  }

  lemma RewrittenLiveKeys(history: seq<Record>, key: nat, n: Notification)
    requires key in LiveKeys(history) && Ordered(history)
    ensures LiveKeys(Rewritten(history, key, n)) == LiveKeys(history)
  {
    var written := Rewritten(history, key, n);
    forall k | k in LiveKeys(history) ensures k in LiveKeys(written) {
      var i :| 0 <= i < |history| && history[i].key == k && history[i].live;
      assert written[i] in written;
    }
    forall k | k in LiveKeys(written) ensures k in LiveKeys(history) {
      var i :| 0 <= i < |written| && written[i].key == k && written[i].live;
      assert history[i] in history;
    }
  }

  lemma RewrittenOk(history: seq<Record>, key: nat, n: Notification, keys: Counter)
    requires HistoryOk(history, keys)
    ensures HistoryOk(Rewritten(history, key, n), keys)
  {
    var written := Rewritten(history, key, n);
    forall r | r in written ensures exists q :: q in history && r == q.(live := r.live, content := r.content) {
      var i :| 0 <= i < |written| && written[i] == r;
      assert history[i] in history;
    }
  }

  lemma TrackedFacts(s: State, id: nat, pending: set<nat>)
    requires Core(s, pending) && id in s.live
    ensures s.live[id].transient ==> s.live[id].recordKey.None?
    ensures s.live[id].recordKey.Some? ==> s.live[id].recordKey.value in LiveKeys(s.history)
    ensures s.live[id].recordKey.Some? ==> s.live[id].recordKey.value in Keys(s.history)
    ensures s.live[id].revision <= MAX_REVISION && -1 <= s.live[id].deadline
    ensures Ordered(s.history)
  {}

  lemma BecomesRecorded(s: State, id: nat, n: Notification, now: nat)
    requires Inv(s) && id in s.live && s.live[id].recordKey.None? && !n.transient
    ensures
      var (s1, key) := AdmitHistory(s, n, now);
      id in s1.live && Inv(s1.(live := s1.live[id := s.live[id].(recordKey := key, transient := false)]))
  {
    hide Core, AdmitHistory;
    AdmitHistoryKeeps(s, n, now);
    var (s1, key) := AdmitHistory(s, n, now);
    assert s1.live[id] == s.live[id];
    TrackedFacts(s1, id, if key.Some? then {key.value} else {});
    LinkKeeps(s1, id, s.live[id].(recordKey := key, transient := false));
  }

  lemma BecomesTransient(s: State, id: nat)
    requires Inv(s) && id in s.live
    ensures
      var k := s.live[id].recordKey;
      var s1 := if k.Some? then Forget(s, {k.value}) else s;
      Inv(s1.(live := s1.live[id := s.live[id].(recordKey := None, transient := true)]))
  {
    hide Core;
    var k := s.live[id].recordKey;
    var s1 := if k.Some? then Forget(s, {k.value}) else s;
    if k.Some? {
      ForgetKeeps(s, {k.value}, {});
      assert {} - {k.value} == {};
    }
    TrackedFacts(s1, id, {});
    TouchKeeps(s1, id, s.live[id].(recordKey := None, transient := true), {});
  }

  lemma IsRewritten(s: State, id: nat, n: Notification)
    requires Inv(s) && id in s.live && s.live[id].recordKey.Some?
    ensures Inv(s.(history := Rewritten(s.history, s.live[id].recordKey.value, n)))
  {
    hide LinkedKeys, LiveKeys, LinksOk, AssociationsOk;
    TrackedFacts(s, id, {});
    RewrittenLiveKeys(s.history, s.live[id].recordKey.value, n);
    RewrittenOk(s.history, s.live[id].recordKey.value, n, s.historyKeys);
  }

  /** The ways a replacement treats the record of the notification it replaces. */
  lemma RerecordKeeps(s: State, id: nat, oldKey: Option<nat>, n: Notification, now: nat)
    requires Inv(s) && id in s.live
    requires s.live[id].recordKey in {None, oldKey}
    requires oldKey.Some? && s.live[id].recordKey.None? ==> oldKey.value !in Keys(s.history)
    ensures
      var s1 := Rerecord(s, id, oldKey, n, now);
      && Inv(s1)
      && s1.live.Keys == s.live.Keys
      && s1.live[id] == s.live[id].(recordKey := s1.live[id].recordKey, transient := n.transient)
      && (n.transient ==> s1.live[id].recordKey.None?)
      && s1 == s.(live := s1.live, history := s1.history, historyKeys := s1.historyKeys)
  {
    hide Core, AdmitHistory;
    TrackedFacts(s, id, {});
    var a := s.live[id];
    if a.transient && !n.transient {
      AdmitHistoryKeeps(s, n, now);
      BecomesRecorded(s, id, n, now);
    } else if !a.transient && n.transient {
      BecomesTransient(s, id);
    } else if !n.transient && a.recordKey.Some? {
      IsRewritten(s, id, n);
    }
  }

  /** Pruning clears a link only together with the record. */
  lemma PrunedLink(s: State, now: nat, id: nat)
    requires Inv(s) && id in s.live && s.live[id].recordKey.Some?
    ensures
      var s1 := Prune(s, now);
      id in s1.live && s1.live[id].recordKey.None? ==> s.live[id].recordKey.value !in Keys(s1.history)
  {}

  lemma RefreshedFacts(a: Association, n: Notification, now: nat)
    requires a.revision <= MAX_REVISION && -1 <= a.deadline
    ensures
      var b := Presented(Scheduled(a.(transient := n.transient, urgency := n.content.urgency), n, now), n);
      && SameIdentity(b, a) && b.recordKey == a.recordKey && b.transient == n.transient && b.seen == a.seen
      && b.revision <= MAX_REVISION && -1 <= b.deadline
  {}

  lemma ReplaceKeeps(s: State, o: Object, w: World)
    requires Inv(s)
    ensures Inv(Replace(s, o, w))
    ensures Replace(s, o, w).reconciling == s.reconciling
  {
    hide Core, Prune, Rerecord, Presented, Scheduled;
    if Owns(s, o) {
      var id, n := o.protocolId, w.read(o);
      PruneKeeps(s, w.now);
      PruneIsLocal(s, w.now);
      var s1 := Prune(s, w.now);
      if s.live[id].recordKey.Some? {
        PrunedLink(s, w.now, id);
      }
      RerecordKeeps(s1, id, s.live[id].recordKey, n, w.now);
      var s2 := Rerecord(s1, id, s.live[id].recordKey, n, w.now);
      var a := Presented(Scheduled(s2.live[id].(transient := n.transient, urgency := n.content.urgency), n, w.now), n);
      TrackedFacts(s2, id, {});
      RefreshedFacts(s2.live[id], n, w.now);
      TouchKeeps(s2, id, a, {});
      Frame(s2.(live := s2.live[id := a]), Replace(s, o, w), {});
    }
  }

  lemma RunQueuedKeeps(s: State, o: Object, w: World)
    requires Inv(s)
    ensures Inv(RunQueued(s, o, w))
    ensures RunQueued(s, o, w).reconciling == s.reconciling
  {
    hide Core, Replace;
    if o.protocolId in s.live {
      TrackedFacts(s, o.protocolId, {});
      TouchKeeps(s, o.protocolId, s.live[o.protocolId].(updateQueued := false), {});
      ReplaceKeeps(s.(live := s.live[o.protocolId := s.live[o.protocolId].(updateQueued := false)]), o, w);
    }
  }

  // ---------------------------------------------------------------- reload

  /** Only associations recognised in this generation are linked. */
  ghost predicate LinkedAreSeen(s: State) {
    forall id :: id in s.live && s.live[id].recordKey.Some? ==> s.live[id].seen
  }

  lemma DetachedOk(live: map<nat, Association>, sequences: Counter)
    requires AssociationsOk(live, sequences)
    ensures AssociationsOk(Detached(live), sequences) && LinksOk(Detached(live)) && LinkedKeys(Detached(live)) == {}
  {
    var detached := Detached(live);
    assert detached.Keys == live.Keys;
    SameSize(detached, live);
    assert forall id :: id in live ==> SameIdentity(detached[id], live[id]) && detached[id].recordKey.None?;
  }

  lemma BeginGenerationKeeps(s: State, now: nat)
    requires Inv(s)
    ensures Inv(BeginGeneration(s, now)) && Settled(BeginGeneration(s, now))
  {
    hide LinkedKeys, LinksOk, AssociationsOk;
    DetachedOk(s.live, s.liveKeys);
    assert LiveKeys([]) == {};
  }

  lemma RecogniseKeeps(s: State, o: Object, w: World)
    requires Inv(s) && LinkedAreSeen(s)
    requires o.protocolId in s.live ==> s.live[o.protocolId].recordKey.None?
    ensures
      var s1 := Recognise(s, o, w);
      && Inv(s1) && LinkedAreSeen(s1) && s1.reconciling == s.reconciling
      && s1.live.Keys == s.live.Keys
      && forall id :: id in s.live && id != o.protocolId && s.live[id].recordKey.None? ==> s1.live[id] == s.live[id]
  {
    hide Core, AdmitHistory, AfterExpire;
    if !Owns(s, o) {
      AfterExpireKeeps(s, o, w, {});
    } else {
      var id, n := o.protocolId, w.read(o);
      var a := s.live[id].(seen := true, transient := n.transient, urgency := n.content.urgency);
      var s1 := s.(live := s.live[id := a]);
      TrackedFacts(s, id, {});
      TouchKeeps(s, id, a, {});
      if !n.transient {
        AdmitHistoryKeeps(s1, n, w.now);
        var (s2, key) := AdmitHistory(s1, n, w.now);
        TrackedFacts(s2, id, if key.Some? then {key.value} else {});
        LinkKeeps(s2, id, s2.live[id].(recordKey := key));
      }
    }
  }

  ghost predicate DistinctIds(objects: seq<Object>) {
    forall i, j :: 0 <= i < j < |objects| ==> objects[i].protocolId != objects[j].protocolId
  }

  lemma {:induction false} RecogniseAllKeeps(s: State, objects: seq<Object>, w: World)
    requires Inv(s) && LinkedAreSeen(s) && DistinctIds(objects)
    requires forall o :: o in objects && o.protocolId in s.live ==> s.live[o.protocolId].recordKey.None?
    ensures
      var s1 := RecogniseAll(s, objects, w);
      Inv(s1) && LinkedAreSeen(s1) && s1.reconciling == s.reconciling && s1.live.Keys == s.live.Keys
    decreases |objects|
  {
    hide Inv, Recognise, LinkedAreSeen;
    if objects != [] {
      var last := |objects| - 1;
      RecogniseKeeps(s, objects[last], w);
      var s1 := Recognise(s, objects[last], w);
      forall o | o in objects[..last] && o.protocolId in s1.live ensures s1.live[o.protocolId].recordKey.None? {
        var i :| 0 <= i < last && objects[i] == o;
        assert o.protocolId != objects[last].protocolId;
        assert o in objects;
      }
      RecogniseAllKeeps(s1, objects[..last], w);
    }
  }

  lemma SeenOnlyAssociations(live: map<nat, Association>, sequences: Counter)
    requires AssociationsOk(live, sequences)
    ensures AssociationsOk(SeenOnly(live), sequences)
  {
    var seen := SeenOnly(live);
    assert seen.Keys <= live.Keys;
    SubsetSize(seen.Keys, live.Keys);
    assert |seen| == |seen.Keys| && |live| == |live.Keys|;
    assert forall id :: id in seen ==> seen[id] == live[id];
  }

  lemma SeenOnlyLinks(s: State)
    requires LinksOk(s.live) && LinkedAreSeen(s)
    ensures LinksOk(SeenOnly(s.live)) && LinkedKeys(SeenOnly(s.live)) == LinkedKeys(s.live)
  {
    var seen := SeenOnly(s.live);
    forall k | k in LinkedKeys(s.live) ensures k in LinkedKeys(seen) {
      var id :| id in s.live && s.live[id].recordKey == Some(k);
      assert seen[id].recordKey == Some(k);
    }
  }

  lemma SeenOnlyKeeps(s: State)
    requires Inv(s) && LinkedAreSeen(s)
    ensures Inv(s.(live := SeenOnly(s.live), reconciling := false))
  {
    hide LinkedKeys, LiveKeys, LinksOk, HistoryOk, CounterOk, AssociationsOk, LinkedAreSeen;
    SeenOnlyAssociations(s.live, s.liveKeys);
    SeenOnlyLinks(s);
  }

  lemma {:induction false} SubsetSize(a: set<nat>, b: set<nat>)
    requires a <= b
    ensures |a| <= |b|
  {
    assert |b - a| >= 0;
    assert a + (b - a) == b;
  }

  // ---------------------------------------------------------------- removal and deadlines

  lemma ForgetInv(s: State, keys: set<nat>)
    requires Inv(s)
    ensures Inv(Forget(s, keys)) && (Settled(s) ==> Settled(Forget(s, keys)))
  {
    ForgetKeeps(s, keys, {});
    assert {} - keys == {};
    if s.reconciling && Settled(s) {
      LinkedKeysUnlink(s.live, keys);
    }
  }

  lemma ErasedLinks(s: State, id: nat, pending: set<nat>)
    requires Core(s, pending)
    ensures LinkedKeys(s.live - {id}) <= LinkedKeys(s.live)
  {
    DropLink(s.live, id);
  }

  lemma CloseSettled(s: State, o: Object, reason: int, now: nat)
    requires Inv(s)
    ensures Inv(Close(s, o, reason, now)) && (Settled(s) ==> Settled(Close(s, o, reason, now)))
  {
    hide Core, Close;
    CloseKeeps(s, o, reason, now, {});
    ErasedLinks(s, o.protocolId, {});
  }

  lemma ArmKeeps(s: State, now: nat)
    requires Inv(s)
    ensures Inv(Arm(s, now)) && (Settled(s) ==> Settled(Arm(s, now)))
  {
    hide TimerFor;
    Frame(s, Arm(s, now), {});
  }

  lemma DismissKeeps(s: State, key: nat, w: World)
    requires Inv(s)
    ensures Inv(Dismiss(s, key, w).0) && (Settled(s) ==> Settled(Dismiss(s, key, w).0))
  {
    hide Inv, Settled, Close, Arm, Forget;
    match Addressee(s, key, w)
    case Some(id) =>
      var o := s.live[id].notification;
      match w.dismiss(o) {
        case Refuses =>
          RefusedKeeps(s, id, key);
          ArmKeeps(Erase(Forget(s, {key}), id), w.now);
        case LeavesOpen =>
        case Closes(reason) =>
          CloseSettled(s, o, reason, w.now);
      }
    case None =>
      ForgetInv(s, {key});
      ArmKeeps(Forget(s, {key}), w.now);
  }

  lemma RefusedKeeps(s: State, id: nat, key: nat)
    requires Inv(s) && id in s.live && s.live[id].recordKey == Some(key)
    ensures
      var s1 := Erase(Forget(s, {key}), id);
      Inv(s1) && (Settled(s) ==> Settled(s1))
  {
    hide Core;
    ReleaseKeeps(s, id, 0, {});
    ErasedLinks(s, id, {});
    UnlinkedErased(s, id, key);
  }

  lemma UnlinkedErased(s: State, id: nat, key: nat)
    requires Core(s, {}) && id in s.live && s.live[id].recordKey == Some(key)
    ensures Unlink(s.live, {key}) - {id} == s.live - {id}
  {
    EraseAfterUnlink(s.live, id, key);
  }

  lemma ClearHistoryKeeps(s: State, now: nat)
    requires Inv(s)
    ensures Inv(ClearHistory(s, now)) && (Settled(s) ==> Settled(ClearHistory(s, now)))
  {
    hide LinkedKeys, LinksOk, AssociationsOk;
    UnlinkAllOk(s.live, s.liveKeys);
    assert LiveKeys([]) == {};
  }

  lemma UnlinkAllOk(live: map<nat, Association>, sequences: Counter)
    requires AssociationsOk(live, sequences)
    ensures AssociationsOk(UnlinkAll(live), sequences) && LinksOk(UnlinkAll(live)) && LinkedKeys(UnlinkAll(live)) == {}
  {
    var unlinked := UnlinkAll(live);
    assert unlinked.Keys == live.Keys;
    SameSize(unlinked, live);
    assert forall id :: id in live ==> SameIdentity(unlinked[id], live[id]) && unlinked[id].recordKey.None?;
  }

  lemma LoseOwnershipKeeps(s: State, now: nat)
    requires Inv(s)
    ensures Inv(LoseOwnership(s, now)) && (Settled(s) ==> Settled(LoseOwnership(s, now)))
  {
    WithoutOrdered(s.history, LinkedKeys(s.live));
    LiveKeysWithout(s.history, LinkedKeys(s.live));
    assert LinkedKeys(map[]) == {};
  }

  lemma ExpiredAllLiveKeys(history: seq<Record>, keys: set<nat>)
    requires Ordered(history)
    ensures LiveKeys(ExpiredAll(history, keys)) == LiveKeys(history) - keys
  {
    var marked := ExpiredAll(history, keys);
    forall k | k in LiveKeys(history) - keys ensures k in LiveKeys(marked) {
      var i :| 0 <= i < |history| && history[i].key == k && history[i].live;
      assert marked[i] == history[i] && marked[i] in marked;
    }
    forall k | k in LiveKeys(marked) ensures k in LiveKeys(history) - keys {
      var i :| 0 <= i < |marked| && marked[i].key == k && marked[i].live;
      assert history[i] in history;
    }
  }

  lemma ExpiredAllOk(history: seq<Record>, gone: set<nat>, keys: Counter)
    requires HistoryOk(history, keys)
    ensures HistoryOk(ExpiredAll(history, gone), keys)
  {
    var marked := ExpiredAll(history, gone);
    forall r | r in marked ensures exists q :: q in history && r == q.(live := r.live) {
      var i :| 0 <= i < |marked| && marked[i] == r;
      assert history[i] in history;
    }
  }

  lemma EndedLinks(s: State, ids: set<nat>, w: World)
    requires LinksOk(s.live)
    ensures LinksOk(s.live - EndedIds(s, ids, w))
    ensures LinkedKeys(s.live - EndedIds(s, ids, w))
      == LinkedKeys(s.live) - KeysEnding(s, ids, true, w) - KeysEnding(s, ids, false, w)
  {
    var ended := EndedIds(s, ids, w);
    var rest := s.live - ended;
    forall k | k in LinkedKeys(s.live) && k !in KeysEnding(s, ids, true, w) && k !in KeysEnding(s, ids, false, w)
      ensures k in LinkedKeys(rest)
    {
      var id :| id in s.live && s.live[id].recordKey == Some(k);
      assert id !in ended;
      assert rest[id].recordKey == Some(k);
    }
  }

  lemma EndedAssociations(live: map<nat, Association>, ended: set<nat>, sequences: Counter)
    requires AssociationsOk(live, sequences)
    ensures AssociationsOk(live - ended, sequences)
  {
    var rest := live - ended;
    assert rest.Keys == live.Keys - ended;
    SubsetSize(rest.Keys, live.Keys);
    assert |rest| == |rest.Keys| && |live| == |live.Keys|;
  }

  lemma EndedHistory(s: State, ids: set<nat>, w: World)
    requires HistoryOk(s.history, s.historyKeys)
    ensures HistoryOk(EndAll(s, ids, w).history, s.historyKeys)
    ensures LiveKeys(EndAll(s, ids, w).history)
      == LiveKeys(s.history) - KeysEnding(s, ids, true, w) - KeysEnding(s, ids, false, w)
  {
    hide KeysEnding, EndedIds, LiveKeys;
    var expired := ExpiredAll(s.history, KeysEnding(s, ids, true, w));
    ExpiredAllLiveKeys(s.history, KeysEnding(s, ids, true, w));
    ExpiredAllOk(s.history, KeysEnding(s, ids, true, w), s.historyKeys);
    WithoutOrdered(expired, KeysEnding(s, ids, false, w));
    LiveKeysWithout(expired, KeysEnding(s, ids, false, w));
  }

  lemma EndAllKeeps(s: State, ids: set<nat>, w: World)
    requires Inv(s)
    ensures Inv(EndAll(s, ids, w)) && (Settled(s) ==> Settled(EndAll(s, ids, w)))
  {
    hide LinkedKeys, LiveKeys, LinksOk, CounterOk, HistoryOk, AssociationsOk, KeysEnding, EndedIds, Without, ExpiredAll,
      EndAll;
    EndAllCore(s, ids, w);
    EndAllSettled(s, ids, w);
  }

  lemma EndAllCore(s: State, ids: set<nat>, w: World)
    requires Inv(s)
    ensures Inv(EndAll(s, ids, w))
  {
    hide LinkedKeys, LiveKeys, LinksOk, CounterOk, HistoryOk, AssociationsOk, KeysEnding, EndedIds, Without, ExpiredAll;
    EndedHistory(s, ids, w);
    EndedLinks(s, ids, w);
    EndedAssociations(s.live, EndedIds(s, ids, w), s.liveKeys);
    EndedLength(s, ids, w);
  }

  lemma EndedLength(s: State, ids: set<nat>, w: World)
    ensures |EndAll(s, ids, w).history| <= |s.history|
  {
    hide KeysEnding, EndedIds;
  }

  lemma EndAllSettled(s: State, ids: set<nat>, w: World)
    requires Inv(s)
    ensures Settled(s) ==> Settled(EndAll(s, ids, w))
  {
    hide LinkedKeys, LiveKeys, LinksOk, CounterOk, HistoryOk, AssociationsOk, KeysEnding, EndedIds, Without, ExpiredAll;
    EndedLinks(s, ids, w);
    EndedLength(s, ids, w);
  }

  lemma ProcessDueKeeps(s: State, w: World)
    requires Inv(s)
    ensures Inv(ProcessDue(s, w)) && (Settled(s) ==> Settled(ProcessDue(s, w)))
  {
    var s1 := EndAll(s, DueIds(s, w.now), w);
    assert Inv(s1) && (Settled(s) ==> Settled(s1)) by {
      EndAllKeeps(s, DueIds(s, w.now), w);
    }
    hide Core, Arm, EndAll, Forget;
    PruneSettled(s1, w.now);
    ArmKeeps(Prune(s1, w.now), w.now);
  }

  lemma PruneSettled(s: State, now: nat)
    requires Inv(s)
    ensures Inv(Prune(s, now)) && (Settled(s) ==> Settled(Prune(s, now)))
  {
    PruneKeeps(s, now);
    LinkedKeysUnlink(s.live, StaleKeys(s.history, now));
  }

  // ---------------------------------------------------------------- whole runs

  lemma {:induction false} FirstPerIdDistinct(buffered: seq<Buffered>, carried: bool, ids: set<nat>, w: World)
    ensures
      var objects := FirstPerId(buffered, carried, ids, w);
      DistinctIds(objects) && forall o :: o in objects ==> o.protocolId !in ids && o.protocolId != 0 && w.alive(o)
  {
    if buffered != [] {
      var id := buffered[0].notification.protocolId;
      FirstPerIdDistinct(buffered[1..], carried, ids + {id}, w);
      FirstPerIdDistinct(buffered[1..], carried, ids, w);
    }
  }

  ghost predicate Descending(objects: seq<Object>) {
    forall i, j :: 0 <= i < j < |objects| ==> objects[i].protocolId > objects[j].protocolId
  }

  lemma PrependDescending(head: Object, rest: seq<Object>)
    requires Descending(rest) && forall p :: p in rest ==> head.protocolId > p.protocolId
    ensures Descending([head] + rest)
  {}

  lemma {:induction false} InsertDescendingIs(o: Object, sorted: seq<Object>)
    requires Descending(sorted) && forall p :: p in sorted ==> p.protocolId != o.protocolId
    ensures Descending(InsertDescending(o, sorted))
    ensures forall p :: p in InsertDescending(o, sorted) <==> p == o || p in sorted
    ensures |InsertDescending(o, sorted)| == |sorted| + 1
  {
    if sorted != [] && o.protocolId <= sorted[0].protocolId {
      var head, tail := sorted[0], sorted[1..];
      assert head in sorted && sorted == [head] + tail;
      assert forall p :: p in tail ==> p in sorted && head.protocolId > p.protocolId;
      InsertDescendingIs(o, tail);
      var rest := InsertDescending(o, tail);
      assert InsertDescending(o, sorted) == [head] + rest;
      hide InsertDescending;
      PrependDescending(head, rest);
    }
  }

  lemma {:induction false} SortDescendingIs(objects: seq<Object>)
    requires DistinctIds(objects)
    ensures Descending(SortDescending(objects)) && |SortDescending(objects)| == |objects|
    ensures forall o :: o in SortDescending(objects) <==> o in objects
  {
    if objects != [] {
      SortDescendingIs(objects[1..]);
      InsertDescendingIs(objects[0], SortDescending(objects[1..]));
      forall p | p in objects[1..] ensures p.protocolId != objects[0].protocolId {
        var i :| 0 <= i < |objects| - 1 && objects[1..][i] == p;
        assert objects[i + 1] == p;
      }
    }
  }

  lemma ReconcileKeeps(s: State, w: World)
    requires Inv(s) && LinkedKeys(s.live) == {}
    ensures Inv(Reconcile(s, w)) && !Reconcile(s, w).reconciling
  {
    hide Core, RecogniseAll;
    var found := FirstPerId(s.buffered, true, {}, w);
    FirstPerIdDistinct(s.buffered, true, {}, w);
    SortDescendingIs(found);
    var carried := SortDescending(found);
    var s0 := s.(buffered := []);
    Frame(s, s0, {});
    NothingLinked(s0.live);
    RecogniseAllKeeps(s0, carried, w);
    SeenOnlyKeeps(RecogniseAll(s0, carried, w));
  }

  lemma NothingLinked(live: map<nat, Association>)
    requires LinkedKeys(live) == {}
    ensures forall id :: id in live ==> live[id].recordKey.None?
  {
    assert forall id :: id in live && live[id].recordKey.Some? ==> live[id].recordKey.value in LinkedKeys(live);
  }

  lemma AfterExpireReconciling(s: State, o: Object, w: World)
    ensures AfterExpire(s, o, w).reconciling == s.reconciling
  {
    hide TimerFor, Expired, Without, Unlink;
  }

  lemma TurnAwayReconciling(s: State, o: Object, key: Option<nat>, w: World)
    ensures TurnAway(s, o, key, w).reconciling == s.reconciling
  {
    hide TimerFor, AfterExpire, Expired;
    AfterExpireReconciling(if key.Some? then s.(history := Expired(s.history, key.value)) else s, o, w);
  }

  lemma ContendReconciling(s: State, newcomer: Association, n: Notification, w: World)
    ensures Contend(s, newcomer, n, w).reconciling == s.reconciling
  {
    hide TimerFor, AfterExpire, TurnAway, Victim;
    var v := Victim(s.live, s.history, newcomer);
    TurnAwayReconciling(s, newcomer.notification, newcomer.recordKey, w);
    if v.Some? && v.value in s.live {
      AfterExpireReconciling(s, s.live[v.value].notification, w);
      var s1 := AfterExpire(s, s.live[v.value].notification, w);
      TurnAwayReconciling(s1, newcomer.notification, newcomer.recordKey, w);
    }
  }

  lemma AdmitFreshReconciling(s: State, o: Object, w: World)
    requires Inv(s)
    ensures AdmitFresh(s, o, w).reconciling == s.reconciling
  {
    hide TimerFor, AfterExpire, Contend, Core, AdmitHistory;
    AfterExpireReconciling(s, o, w);
    if o.protocolId != 0 && o.protocolId !in s.live && !s.liveKeys.exhausted {
      var n := w.read(o);
      var (sequence, counter) := Allocate(s.liveKeys);
      NewSequenceKeeps(s);
      AdmitHistoryKeeps(s.(liveKeys := counter), n, w.now);
      var (s1, key) := AdmitHistory(s.(liveKeys := counter), n, w.now);
      ContendReconciling(s1, Newcomer(o, n, key, sequence.value), n, w);
    }
  }

  lemma {:induction false} AdmitAllKeeps(s: State, objects: seq<Object>, w: World)
    requires Inv(s)
    ensures Inv(AdmitAll(s, objects, w)) && AdmitAll(s, objects, w).reconciling == s.reconciling
    decreases |objects|
  {
    hide Inv, AdmitFresh;
    if objects != [] {
      AdmitFreshKeeps(s, objects[0], w);
      AdmitFreshReconciling(s, objects[0], w);
      AdmitAllKeeps(AdmitFresh(s, objects[0], w), objects[1..], w);
    }
  }

  lemma FinishGenerationKeeps(s: State, generation: nat, w: World)
    requires Inv(s) && Settled(s)
    ensures Inv(FinishGeneration(s, generation, w)) && Settled(FinishGeneration(s, generation, w))
  {
    hide Inv, Reconcile, AdmitAll, Arm, LinkedKeys, NoneSeen;
    if s.reconciling && generation == s.generation {
      ReconcileKeeps(s, w);
      var newcomers := FirstPerId(s.buffered, false, {}, w);
      AdmitAllKeeps(Reconcile(s, w), newcomers, w);
      ArmKeeps(AdmitAll(Reconcile(s, w), newcomers, w), w.now);
    }
  }

  /** A queued replacement of `o` would make a transient association a lasting one, and record it. */
  ghost predicate Records(s: State, o: Object, w: World) {
    && Owns(s, o) && w.alive(o) && s.live[o.protocolId].transient && !w.read(o).transient && !s.historyKeys.exhausted
  }

  /** While a generation is reconciled no queued replacement may record anything. */
  ghost predicate Permitted(s: State, e: Event, w: World) {
    e.QueuedEvent? && s.reconciling ==> !Records(s, e.o, w)
  }

  lemma PruneOfNothing(s: State, now: nat)
    requires s.history == []
    ensures Prune(s, now) == s
  {
    assert StaleKeys(s.history, now) == {};
    assert Unlink(s.live, {}) == s.live;
  }

  lemma RerecordOfNothing(s: State, id: nat, n: Notification, now: nat)
    requires Inv(s) && s.history == [] && NoneSeen(s.live) && LinkedKeys(s.live) == {} && id in s.live
    ensures
      var t := Rerecord(s, id, None, n, now);
      && id in t.live && t.reconciling == s.reconciling
      && (t.history == [] <==> !(s.live[id].transient && !n.transient && !s.historyKeys.exhausted))
      && (t.history == [] ==> NoneSeen(t.live) && LinkedKeys(t.live) == {})
  {
    hide Core, AdmitHistory;
    NothingLinked(s.live);
    AdmitHistoryKeeps(s, n, now);
    var t := Rerecord(s, id, None, n, now);
    assert t.history == [] ==> forall other :: other in t.live ==> !t.live[other].seen && t.live[other].recordKey.None?;
  }

  lemma SettledTouch(s: State, id: nat, a: Association)
    requires id in s.live && a.seen == s.live[id].seen && a.recordKey == s.live[id].recordKey
    ensures Settled(s.(live := s.live[id := a])) <==> Settled(s)
  {
    var t := s.(live := s.live[id := a]);
    assert NoneSeen(t.live) <==> NoneSeen(s.live) by {
      assert forall other :: other in s.live ==> t.live[other].seen == s.live[other].seen;
      assert t.live.Keys == s.live.Keys;
    }
    assert LinkedKeys(t.live) == LinkedKeys(s.live) by {
      assert forall other :: other in s.live ==> t.live[other].recordKey == s.live[other].recordKey;
    }
  }

  /** During reconciliation a queued replacement keeps the runtime settled exactly when it records nothing. */
  lemma QueuedSettlesExactly(s: State, o: Object, w: World)
    requires Inv(s) && Settled(s) && s.reconciling
    ensures Settled(RunQueued(s, o, w)) <==> !Records(s, o, w)
  {
    hide Core, LinkedKeys, NoneSeen, Prune, Rerecord, Presented, Scheduled, TimerFor;
    var id := o.protocolId;
    if id in s.live {
      var b := s.live[id].(updateQueued := false);
      var s1 := s.(live := s.live[id := b]);
      TrackedFacts(s, id, {});
      TouchKeeps(s, id, b, {});
      SettledTouch(s, id, b);
      if Owns(s, o) && w.alive(o) {
        ReplacedSettles(s1, o, w);
      }
    }
  }

  lemma StepQueued(s: State, o: Object, w: World)
    ensures Step(s, QueuedEvent(o), w) == RunQueued(s, o, w)
  {}

  lemma ReplacedSettles(s: State, o: Object, w: World)
    requires Inv(s) && Settled(s) && s.reconciling && Owns(s, o)
    ensures Settled(Replace(s, o, w))
      <==> !(s.live[o.protocolId].transient && !w.read(o).transient && !s.historyKeys.exhausted)
  {
    hide Core, LinkedKeys, NoneSeen, Prune, Rerecord, Presented, Scheduled, TimerFor;
    var id, n := o.protocolId, w.read(o);
    PruneOfNothing(s, w.now);
    NothingLinked(s.live);
    RerecordOfNothing(s, id, n, w.now);
    var t := Rerecord(s, id, None, n, w.now);
    assert t.live.Keys == s.live.Keys && t.live[id].revision <= MAX_REVISION && -1 <= t.live[id].deadline by {
      TrackedFacts(s, id, {});
      RerecordKeeps(s, id, None, n, w.now);
    }
    RefreshedFacts(t.live[id], n, w.now);
    var a := t.live[id].(transient := n.transient, urgency := n.content.urgency);
    SettledTouch(t, id, Presented(Scheduled(a, n, w.now), n));
  }

  lemma AttachKeeps(s: State, o: Object, generation: nat, lastGeneration: bool, w: World)
    requires Inv(s) && Settled(s)
    ensures Inv(Attach(s, o, generation, lastGeneration, w)) && Settled(Attach(s, o, generation, lastGeneration, w))
  {
    hide Core, AdmitFresh;
    Frame(s, s.(buffered := s.buffered + [Buffered(o, lastGeneration)]), {});
    AdmitFreshKeeps(s, o, w);
    AdmitFreshReconciling(s, o, w);
  }

  lemma StepKeeps(s: State, e: Event, w: World)
    requires Inv(s) && Settled(s) && Permitted(s, e, w)
    ensures Inv(Step(s, e, w)) && Settled(Step(s, e, w))
  {
    hide Core, BeginGeneration, Attach, Queue, RunQueued, Close, FinishGeneration, Dismiss, ClearHistory,
      LoseOwnership, ProcessDue;
    match e
    case BeginEvent => BeginGenerationKeeps(s, w.now);
    case AttachEvent(o, generation, lastGeneration) => AttachKeeps(s, o, generation, lastGeneration, w);
    case UpdateEvent(o) => QueueKeeps(s, o);
    case QueuedEvent(o) =>
      RunQueuedKeeps(s, o, w);
      if s.reconciling {
        QueuedSettlesExactly(s, o, w);
      }
    case CloseEvent(o, reason) => CloseSettled(s, o, reason, w.now);
    case FinishEvent(generation) => FinishGenerationKeeps(s, generation, w);
    case DismissEvent(key) => DismissKeeps(s, key, w);
    case ClearEvent => ClearHistoryKeeps(s, w.now);
    case OwnershipLostEvent => LoseOwnershipKeeps(s, w.now);
    case DueEvent => ProcessDueKeeps(s, w);
  }

  ghost predicate PermittedRun(s: State, events: seq<(Event, World)>)
    decreases |events|
  {
    events == [] ||
    (Permitted(s, events[0].0, events[0].1) && PermittedRun(Step(s, events[0].0, events[0].1), events[1..]))
  }

  /** In every state reached by permitted events the links are exactly the live records. */
  lemma {:induction false} RunKeeps(s: State, events: seq<(Event, World)>)
    requires Inv(s) && Settled(s) && PermittedRun(s, events)
    ensures Inv(Run(s, events)) && Settled(Run(s, events))
    decreases |events|
  {
    hide Inv, Settled, Step, Permitted;
    if events != [] {
      StepKeeps(s, events[0].0, events[0].1);
      RunKeeps(Step(s, events[0].0, events[0].1), events[1..]);
    }
  }

  lemma InitialInv()
    ensures Inv(INITIAL) && Settled(INITIAL)
  {
    assert LinkedKeys(map[]) == {} && LiveKeys([]) == {};
  }

  ghost predicate HasLiveRecord(history: seq<Record>, key: nat) {
    exists r :: r in history && r.live && r.key == key
  }

  ghost predicate HasHolder(live: map<nat, Association>, key: nat) {
    exists id :: id in live && live[id].recordKey == Some(key)
  }

  ghost predicate AtMostOneHolder(live: map<nat, Association>) {
    forall a, b, key :: a in live && b in live && live[a].recordKey == Some(key) && live[b].recordKey == Some(key)
      ==> a == b
  }

  /** Records marked live and associations holding a key point at each other one to one. */
  ghost predicate OneToOne(s: State) {
    && (forall id :: id in s.live && s.live[id].transient ==> s.live[id].recordKey.None?)
    && (forall id, key :: id in s.live && s.live[id].recordKey == Some(key) ==> HasLiveRecord(s.history, key))
    && (forall r :: r in s.history && r.live ==> HasHolder(s.live, r.key))
    && AtMostOneHolder(s.live)
    && Ordered(s.history)
  }

  lemma InvIsOneToOne(s: State)
    requires Inv(s)
    ensures OneToOne(s) && |s.live| <= MAX_LIVE && |s.history| <= MAX_HISTORY
  {
    forall id, key | id in s.live && s.live[id].recordKey == Some(key) ensures HasLiveRecord(s.history, key) {
      assert key in LinkedKeys(s.live);
    }
    forall r | r in s.history && r.live ensures HasHolder(s.live, r.key) {
      assert r.key in LiveKeys(s.history);
    }
  }
}
