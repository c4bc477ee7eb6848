/** What each entry point makes of the content, the deadline and the record of a notification. */
module NotificationExact {
  import opened Basics
  import opened NotificationModel
  import opened NotificationSteps
  import opened NotificationInvariant
  import opened NotificationTracking
  import opened NotificationReload
  import opened NotificationRecognition
  import opened NotificationAgeing
  import opened NotificationBounds
  import opened NotificationCapacity

  // ---------------------------------------------------------------- what is shown, and how long

  ghost predicate Shows(a: Association, n: Notification) {
    && a.presented
    && a.payload.appName == n.content.appName && a.payload.summary == n.content.summary
    && a.payload.body == n.content.body && a.payload.appIconName == n.content.appIconName
  }

  /** Critical notifications and those that ask for it stay; others go when they ask to, or after five
      seconds when low and ten when normal. */
  ghost predicate GoesAsAsked(deadline: int, n: Notification, now: nat) {
    && (n.content.urgency == Critical || n.expireTimeoutMs == 0 ==> deadline == -1)
    && (n.content.urgency != Critical && n.expireTimeoutMs > 0 ==> deadline == now + n.expireTimeoutMs)
    && (n.content.urgency == Low && n.expireTimeoutMs < 0 ==> deadline == now + 5000)
    && (n.content.urgency == Normal && n.expireTimeoutMs < 0 ==> deadline == now + 10_000)
  }

  /** The association as a newcomer, whatever its record. */
  ghost predicate Arrival(s: State, a: Association, o: Object, w: World) {
    var n := w.read(o);
    && Shows(a, n) && GoesAsAsked(a.deadline, n, w.now)
    && a.notification == o && a.transient == n.transient && a.urgency == n.content.urgency
    && a.sequence == s.liveKeys.next && a.token == SourceToken(s.liveKeys.next) && a.tokenGeneration == 1
    && a.revision == 1 && a.seen && !a.updateQueued
  }

  lemma InstallArrival(s: State, s1: State, o: Object, key: Option<nat>, w: World)
    ensures
      var newcomer := Newcomer(o, w.read(o), key, s.liveKeys.next);
      var t := Install(s1, newcomer, w.read(o), w.now);
      && t.live.Keys == s1.live.Keys + {o.protocolId} && Arrival(s, t.live[o.protocolId], o, w)
      && t.live[o.protocolId].recordKey == key && t.history == s1.history
      && forall id :: id in s1.live && id != o.protocolId ==> t.live[id] == s1.live[id]
  {
    hide TimerFor, SourceToken;
  }

  lemma NotInstalled(s: State, newcomer: Association, n: Notification, w: World)
    requires newcomer.notification.protocolId !in s.live
    requires newcomer.notification.protocolId in Contend(s, newcomer, n, w).live
    ensures exists s1 :: Contend(s, newcomer, n, w) == Install(s1, newcomer, n, w.now)
  {
    hide AfterExpire, TurnAway, Install, Victim;
    var v := Victim(s.live, s.history, newcomer);
    TurnAwayStays(s, newcomer.notification, newcomer.recordKey, w);
    if v.Some? && v.value in s.live {
      var victim := s.live[v.value].notification;
      var s1 := AfterExpire(s, victim, w);
      AfterExpireStays(s, victim, w);
      TurnAwayStays(s1, newcomer.notification, newcomer.recordKey, w);
    }
  }

  lemma SameHistoric(s: State, t: State)
    requires Historic(s) && t.history == s.history && t.historyKeys == s.historyKeys
    ensures Historic(t)
  {}

  /** Whoever is admitted, to a free place or a cleared one, shows its content under revision 1, goes as
      asked and is linked to its record. */
  lemma AdmittedExactly(s: State, o: Object, w: World)
    requires Historic(s) && o.protocolId !in s.live && o.protocolId in AdmitFresh(s, o, w).live && o.protocolId != 0
    ensures
      var a := AdmitFresh(s, o, w).live[o.protocolId];
      && Arrival(s, a, o, w)
      && a.recordKey
         == if w.read(o).transient || s.historyKeys.exhausted then None else Some(s.historyKeys.next)
  {
    hide AfterExpire, Contend, Install, AdmitHistory, SourceToken, Arrival, Historic;
    AfterExpireStays(s, o, w);
    var n := w.read(o);
    var (sequence, counter) := Allocate(s.liveKeys);
    if sequence.Some? {
      var s0 := s.(liveKeys := counter);
      var (s1, key) := AdmitHistory(s0, n, w.now);
      AdmitHistoryStays(s0, n, w.now);
      SameHistoric(s, s0);
      RecordedExactly(s0, n, w.now);
      var newcomer := Newcomer(o, n, key, sequence.value);
      InstallArrival(s, s1, o, key, w);
      if |s1.live| >= MAX_LIVE {
        NotInstalled(s1, newcomer, n, w);
        var s2 :| Contend(s1, newcomer, n, w) == Install(s2, newcomer, n, w.now);
        InstallArrival(s, s2, o, key, w);
      }
    }
  }

  /** With a place free the newcomer gets it and nobody loses one; links are cut only by pruning. */
  lemma FreePlaceIsTaken(s: State, o: Object, w: World)
    requires o.protocolId != 0 && o.protocolId !in s.live && !s.liveKeys.exhausted && |s.live| < MAX_LIVE
    ensures
      var t := AdmitFresh(s, o, w);
      t.live.Keys == s.live.Keys + {o.protocolId} && SameButLinks(t.live - {o.protocolId}, s.live)
  {
    hide AdmitHistory, Install, SourceToken, Contend;
    var s0 := s.(liveKeys := Allocate(s.liveKeys).1);
    AdmitHistoryLinks(s0, w.read(o), w.now);
    var (s1, key) := AdmitHistory(s0, w.read(o), w.now);
    SameSize(s1.live, s.live);
    InstallArrival(s, s1, o, key, w);
    hide Arrival, Allocate;
    OneMoreLive(s.live, s1.live, AdmitFresh(s, o, w).live, o.protocolId);
  }

  lemma OneMoreLive(a: map<nat, Association>, b: map<nat, Association>, c: map<nat, Association>, id: nat)
    requires SameButLinks(b, a) && id !in a && c.Keys == b.Keys + {id}
    requires forall other :: other in b && other != id ==> c[other] == b[other]
    ensures c.Keys == a.Keys + {id} && SameButLinks(c - {id}, a)
  {}

  /** Objects without an id, or when sequences have run out, leave everything as it was; a tracked object is
      marked; another one under the same id is ignored. */
  lemma OthersLeaveNoTrace(s: State, o: Object, w: World)
    requires Keyed(s.live) && (o.protocolId == 0 || o.protocolId in s.live || s.liveKeys.exhausted)
    ensures
      var t, id := AdmitFresh(s, o, w), o.protocolId;
      if id in s.live && s.live[id].notification == o
      then t == s.(live := s.live[id := s.live[id].(updateQueued := true)])
      else t == s
  {
    hide TimerFor, AdmitHistory;
  }

  // ---------------------------------------------------------------- what is recorded

  /** The newest of what is not too old, within the bound. */
  function Retained(history: seq<Record>, now: nat): seq<Record> {
    var kept := FreshOnly(history, now);
    kept[..Min(|kept|, MAX_HISTORY)]
  }

  lemma PrunedHistory(s: State, now: nat)
    requires Ordered(s.history)
    ensures Prune(s, now).history == Retained(s.history, now)
  {
    StaleIsOld(s.history, now);
    WithoutIsFresh(s.history, StaleKeys(s.history, now), now);
  }

  /** Links to the records that are gone are cut, and nothing else changes. */
  ghost predicate CutFrom(after: map<nat, Association>, before: map<nat, Association>, gone: set<nat>) {
    && after.Keys == before.Keys
    && forall id :: id in before ==>
         && (before[id].recordKey.Some? && before[id].recordKey.value in gone ==>
               after[id] == before[id].(recordKey := None))
         && (before[id].recordKey.Some? && before[id].recordKey.value !in gone ==> after[id] == before[id])
         && (before[id].recordKey.None? ==> after[id] == before[id])
  }

  lemma UnlinkCuts(live: map<nat, Association>, keys: set<nat>)
    ensures CutFrom(Unlink(live, keys), live, keys)
  {}

  lemma CutTwice(a: map<nat, Association>, b: map<nat, Association>, c: map<nat, Association>, g: set<nat>, h: set<nat>)
    requires CutFrom(b, a, g) && CutFrom(c, b, h)
    ensures CutFrom(c, a, g + h)
  {}

  lemma WithoutKeys(history: seq<Record>, keys: set<nat>)
    ensures Keys(Without(history, keys)) == Keys(history) - keys
  {}

  /** A link is cut exactly when pruning removed its record. */
  lemma PrunedLinks(s: State, now: nat)
    requires Ordered(s.history)
    ensures CutFrom(Prune(s, now).live, s.live, Keys(s.history) - Keys(Prune(s, now).history))
  {
    var stale := StaleKeys(s.history, now);
    var aged := PruneByAge(s, now);
    WithoutOrdered(s.history, stale);
    WithoutKeys(s.history, stale);
    UnlinkCuts(s.live, stale);
    assert stale <= Keys(s.history);
    hide Ordered, CutFrom, Unlink, Keys, StaleKeys;
    if |aged.history| > MAX_HISTORY {
      var over := Keys(aged.history[MAX_HISTORY..]);
      KeysSplit(aged.history, MAX_HISTORY);
      UnlinkCuts(aged.live, over);
      CutTwice(s.live, aged.live, Prune(s, now).live, stale, over);
      TailKeys(aged.history, MAX_HISTORY);
      assert stale + over == Keys(s.history) - Keys(Prune(s, now).history);
    } else {
      assert stale == Keys(s.history) - Keys(Prune(s, now).history);
    }
  }

  lemma TailKeys(history: seq<Record>, n: nat)
    requires n <= |history|
    ensures Keys(history[n..]) <= Keys(history)
  {}

  /** One new record in front, stamped with now and a day later; the rest is pruned behind it. */
  lemma RecordedExactly(s: State, n: Notification, now: nat)
    requires Historic(s)
    ensures
      var (t, key) := AdmitHistory(s, n, now);
      if n.transient || s.historyKeys.exhausted then t == s && key == None
      else
        var kept := FreshOnly(s.history, now);
        && key == Some(s.historyKeys.next)
        && t.history == [Record(s.historyKeys.next, now, now + 86_400_000, true, n.content)]
                        + kept[..Min(|kept|, MAX_HISTORY - 1)]
  {
    if !n.transient && !s.historyKeys.exhausted {
      var r := Record(s.historyKeys.next, now, now + 86_400_000, true, n.content);
      var (key, counter) := Allocate(s.historyKeys);
      var s1 := s.(historyKeys := counter, history := [r] + s.history);
      assert Ordered(s1.history);
      PrunedHistory(s1, now);
      RetainedFirst(r, s.history, now);
      hide Prune, Retained, FreshOnly, Ordered;
      InFront(Prune(s1, now).history, r);
    }
  }

  lemma InFront(history: seq<Record>, r: Record)
    requires history != [] && history[0] == r
    ensures r.key in Keys(history)
  {}

  lemma RetainedFirst(r: Record, history: seq<Record>, now: nat)
    requires r.cutoff > now
    ensures
      var kept := FreshOnly(history, now);
      Retained([r] + history, now) == [r] + kept[..Min(|kept|, MAX_HISTORY - 1)]
  {
    assert ([r] + history)[1..] == history;
  }

  // ---------------------------------------------------------------- replacement

  /** The same association with the new properties; at the last revision nothing is shown any more. */
  ghost predicate Replaced(a: Association, b: Association, n: Notification, now: nat) {
    && a.notification == b.notification && a.sequence == b.sequence && a.seen == b.seen
    && a.token == b.token && a.tokenGeneration == b.tokenGeneration && a.updateQueued == b.updateQueued
    && a.transient == n.transient && a.urgency == n.content.urgency && GoesAsAsked(a.deadline, n, now)
    && (b.revision < MAX_REVISION ==> Shows(a, n) && a.revision == b.revision + 1)
    && (b.revision == MAX_REVISION ==> !a.presented && a.revision == b.revision)
  }

  ghost predicate Rewrites(after: seq<Record>, before: seq<Record>, key: nat, content: Content) {
    && |after| == |before|
    && forall i :: 0 <= i < |before| ==>
         after[i] == (if before[i].key == key
                      then Record(key, before[i].admittedAt, before[i].cutoff, true, content) else before[i])
  }

  ghost predicate Removes(after: seq<Record>, before: seq<Record>, key: Option<nat>) {
    Ordered(after) && forall r :: r in after <==> r in before && key != Some(r.key)
  }

  /** What becomes of the record when the association `b`, once `p` is pruned, is replaced. */
  ghost predicate Rerecorded(p: State, after: seq<Record>, key: Option<nat>, b: Association, oldKey: Option<nat>,
                             n: Notification, now: nat)
  {
    if b.transient && n.transient then key == b.recordKey && after == p.history
    else if b.transient && p.historyKeys.exhausted then key == None && after == p.history
    else if b.transient then
      && key == Some(p.historyKeys.next)
      && after == [Record(p.historyKeys.next, now, now + 86_400_000, true, n.content)]
                  + FreshOnly(p.history, now)[..Min(|FreshOnly(p.history, now)|, MAX_HISTORY - 1)]
    else if n.transient then key == None && Removes(after, p.history, oldKey)
    else if b.recordKey.Some? && b.recordKey.value in Keys(p.history) then
      key == b.recordKey && Rewrites(after, p.history, b.recordKey.value, n.content)
    else key == None && after == p.history
  }

  lemma RewrittenRewrites(history: seq<Record>, key: nat, n: Notification)
    ensures Rewrites(Rewritten(history, key, n), history, key, n.content)
  {}

  lemma RemovedRemoves(s: State, oldKey: Option<nat>)
    requires Ordered(s.history)
    ensures
      var s1 := if oldKey.Some? && oldKey.value in Keys(s.history) then Forget(s, {oldKey.value}) else s;
      Removes(s1.history, s.history, oldKey) && SameButLinks(s1.live, s.live)
  {
    if oldKey.Some? && oldKey.value in Keys(s.history) {
      WithoutOrdered(s.history, {oldKey.value});
    }
  }

  /** What a rerecording leaves of the associations. */
  ghost predicate SameAssociations(s: State, t: State, id: nat, transient: bool) {
    && id in s.live && id in t.live && t.live.Keys == s.live.Keys
    && t.live[id] == s.live[id].(recordKey := t.live[id].recordKey, transient := transient)
    && (forall other :: other in s.live && other != id ==>
          t.live[other] in {s.live[other], s.live[other].(recordKey := None)})
  }

  lemma BecameLasting(s: State, id: nat, oldKey: Option<nat>, n: Notification, now: nat)
    requires Historic(s) && id in s.live && s.live[id].transient && !n.transient
    ensures
      var t := Rerecord(s, id, oldKey, n, now);
      SameAssociations(s, t, id, n.transient)
      && Rerecorded(s, t.history, t.live[id].recordKey, s.live[id], oldKey, n, now)
  {
    hide AdmitHistory, FreshOnly, Historic, Removes, Rewrites;
    RecordedExactly(s, n, now);
    AdmitHistoryLinks(s, n, now);
  }

  lemma BecameTransient(s: State, id: nat, oldKey: Option<nat>, n: Notification, now: nat)
    requires Historic(s) && id in s.live && !s.live[id].transient && n.transient
    ensures
      var t := Rerecord(s, id, oldKey, n, now);
      SameAssociations(s, t, id, n.transient)
      && Rerecorded(s, t.history, t.live[id].recordKey, s.live[id], oldKey, n, now)
  {
    RemovedRemoves(s, oldKey);
    hide AdmitHistory, FreshOnly, Historic, Removes, Rewrites, Forget;
  }

  /** Records aside, the association is the same; links of others can only be cut. */
  lemma RerecordExactly(s: State, id: nat, oldKey: Option<nat>, n: Notification, now: nat)
    requires Historic(s) && id in s.live
    ensures
      var t := Rerecord(s, id, oldKey, n, now);
      SameAssociations(s, t, id, n.transient)
      && Rerecorded(s, t.history, t.live[id].recordKey, s.live[id], oldKey, n, now)
  {
    hide AdmitHistory, FreshOnly, Historic, Rewrites, Forget, Rewritten;
    if s.live[id].transient && !n.transient {
      BecameLasting(s, id, oldKey, n, now);
    } else if !s.live[id].transient && n.transient {
      BecameTransient(s, id, oldKey, n, now);
    } else if s.live[id].recordKey.Some? {
      RewrittenRewrites(s.history, s.live[id].recordKey.value, n);
    }
  }

  lemma RefreshedExactly(a: Association, n: Notification, now: nat)
    requires a.revision <= MAX_REVISION
    ensures
      var b := Presented(Scheduled(a.(transient := n.transient, urgency := n.content.urgency), n, now), n);
      Replaced(b, a, n, now) && b.recordKey == a.recordKey
  {}

  lemma PrunedHistoric(s: State, now: nat)
    requires Historic(s)
    ensures Historic(Prune(s, now))
  {
    PrunedWithin(s, now);
    PruneIsLocal(s, now);
    WithoutOrdered(s.history, StaleKeys(s.history, now));
    hide Without, Unlink, StaleKeys;
  }

  /** A replacement shows the new content under the next revision, goes as newly asked, and moves its record
      to what the new transience asks for. */
  lemma ReplacedExactly(s: State, o: Object, w: World)
    requires Owns(s, o) && Historic(s) && s.live[o.protocolId].revision <= MAX_REVISION
    ensures
      var id, p, t := o.protocolId, Prune(s, w.now), Replace(s, o, w);
      && id in t.live && id in p.live && t.live.Keys == s.live.Keys
      && Replaced(t.live[id], s.live[id], w.read(o), w.now)
      && Rerecorded(p, t.history, t.live[id].recordKey, p.live[id], s.live[id].recordKey, w.read(o), w.now)
      && (forall other :: other in s.live && other != id ==>
            t.live[other] in {s.live[other], s.live[other].(recordKey := None)})
  {
    hide Prune, Historic, Rerecord, Rerecorded, Presented, Scheduled, TimerFor, Replaced;
    var id, n, p := o.protocolId, w.read(o), Prune(s, w.now);
    PruneIsLocal(s, w.now);
    PrunedHistoric(s, w.now);
    RerecordExactly(p, id, s.live[id].recordKey, n, w.now);
    var s2 := Rerecord(p, id, s.live[id].recordKey, n, w.now);
    RefreshedExactly(s2.live[id], n, w.now);
    var b := Presented(Scheduled(s2.live[id].(transient := n.transient, urgency := n.content.urgency), n, w.now), n);
    ReplacedSame(b, s2.live[id], s.live[id], n, w.now);
  }

  lemma ReplacedSame(a: Association, b: Association, c: Association, n: Notification, now: nat)
    requires Replaced(a, b, n, now) && b == c.(recordKey := b.recordKey, transient := b.transient)
    ensures Replaced(a, c, n, now)
  {}

  /** A queued replacement of an object that is gone, or not tracked, changes nothing but the mark. */
  lemma RunQueuedExactly(s: State, o: Object, w: World)
    requires !w.alive(o) || !Owns(s, o)
    ensures
      var t := RunQueued(s, o, w);
      && t == s.(live := t.live) && t.live.Keys == s.live.Keys
      && forall id :: id in s.live ==>
           t.live[id] == if id == o.protocolId then s.live[id].(updateQueued := false) else s.live[id]
  {}

  // ---------------------------------------------------------------- the end of a notification

  ghost predicate Marks(after: seq<Record>, before: seq<Record>, key: nat) {
    && |after| == |before|
    && forall i :: 0 <= i < |before| ==>
         after[i] == (if before[i].key == key
                      then Record(key, before[i].admittedAt, before[i].cutoff, false, before[i].content) else before[i])
  }

  /** Only the closed notification goes; its record stays, no longer live, exactly when it expired. */
  lemma ClosedExactly(s: State, o: Object, reason: int, now: nat)
    requires Keyed(s.live) && OneHolder(s.live) && Ordered(s.history)
    ensures
      var t := Close(s, o, reason, now);
      if !Owns(s, o) then t == s
      else
        var key := s.live[o.protocolId].recordKey;
        && t == s.(live := s.live - {o.protocolId}, history := t.history, timer := t.timer)
        && (key.None? ==> t.history == s.history)
        && (key.Some? && reason == 1 ==> Marks(t.history, s.history, key.value))
        && (key.Some? && reason != 1 ==> Removes(t.history, s.history, key))
  {
    hide TimerFor, Expired, Without;
    if Owns(s, o) && s.live[o.protocolId].recordKey.Some? {
      var key := s.live[o.protocolId].recordKey.value;
      WithoutOrdered(s.history, {key});
      ExpiredMarks(s.history, key);
      ForgottenIs(s, key);
      assert Unlink(s.live, {key}) - {o.protocolId} == s.live - {o.protocolId};
    }
  }

  lemma ExpiredMarks(history: seq<Record>, key: nat)
    ensures Marks(Expired(history, key), history, key)
  {}

  lemma ForgottenIs(s: State, key: nat)
    ensures forall r :: r in Without(s.history, {key}) <==> r in s.history && r.key != key
  {}

  // ---------------------------------------------------------------- dismissing

  ghost predicate HeldAlive(s: State, id: nat, key: nat, w: World) {
    id in s.live && s.live[id].recordKey == Some(key) && w.alive(s.live[id].notification)
  }

  /** The record goes, and every link to it. */
  ghost predicate RecordGone(s: State, t: State, key: nat) {
    && t == s.(live := t.live, history := t.history, timer := t.timer)
    && Removes(t.history, s.history, Some(key)) && CutFrom(t.live, s.live, {key})
  }

  lemma ForgetIs(s: State, key: nat, now: nat)
    requires Ordered(s.history)
    ensures RecordGone(s, Arm(Forget(s, {key}), now), key)
  {
    hide TimerFor;
    WithoutOrdered(s.history, {key});
    UnlinkCuts(s.live, {key});
  }

  lemma AddresseeIs(s: State, id: nat, key: nat, w: World)
    requires OneHolder(s.live) && HeldAlive(s, id, key, w)
    ensures Addressee(s, key, w) == Some(id)
  {
    assert Addressed(s, id, key, w);
  }

  /** An entry held by a living object is dismissed through it; what is left without one is removed. */
  lemma DismissedExactly(s: State, key: nat, w: World)
    requires Keyed(s.live) && OneHolder(s.live) && Ordered(s.history) && key != 0
    ensures
      var (t, done) := Dismiss(s, key, w);
      && (forall id :: HeldAlive(s, id, key, w) ==>
            var reply := w.dismiss(s.live[id].notification);
            && done
            && (reply.LeavesOpen? ==> t == s)
            && (reply.Refuses? ==>
                  && t == s.(live := t.live, history := t.history, timer := t.timer)
                  && t.live == s.live - {id} && Removes(t.history, s.history, Some(key)))
            && (reply.Closes? ==> t == Close(s, s.live[id].notification, reply.reason, w.now)))
      && ((forall id :: !HeldAlive(s, id, key, w)) && key in Keys(s.history) ==> done && RecordGone(s, t, key))
      && ((forall id :: !HeldAlive(s, id, key, w)) && key !in Keys(s.history) ==> !done && t == s)
  {
    hide Close, TimerFor, OneHolder, RecordGone, Without;
    ForgetIs(s, key, w.now);
    WithoutOrdered(s.history, {key});
    ForgottenIs(s, key);
    if id :| HeldAlive(s, id, key, w) {
      AddresseeIs(s, id, key, w);
      assert forall other :: HeldAlive(s, other, key, w) ==> other == id by { OnlyHolder(s, id, key, w); }
      HolderErased(s, id, key);
    } else {
      assert forall id :: Addressed(s, id, key, w) ==> HeldAlive(s, id, key, w);
    }
  }

  lemma OnlyHolder(s: State, id: nat, key: nat, w: World)
    requires OneHolder(s.live) && HeldAlive(s, id, key, w)
    ensures forall other :: HeldAlive(s, other, key, w) ==> other == id
  {}

  lemma HolderErased(s: State, id: nat, key: nat)
    requires OneHolder(s.live) && id in s.live && s.live[id].recordKey == Some(key)
    ensures Unlink(s.live, {key}) - {id} == s.live - {id}
  {}

  // ---------------------------------------------------------------- what falls due

  ghost predicate Due(s: State, id: nat, now: nat) {
    id in s.live && 0 <= s.live[id].deadline <= now
  }

  /** A due notification ends when its object is gone or refuses, or closes when told to expire. */
  ghost predicate Ends(s: State, id: nat, w: World) {
    Due(s, id, w.now) && !(w.alive(s.live[id].notification) && w.expire(s.live[id].notification).LeavesOpen?)
  }

  ghost predicate EndsExpired(s: State, id: nat, w: World) {
    && Due(s, id, w.now) && w.alive(s.live[id].notification)
    && w.expire(s.live[id].notification) == Closes(1)
  }

  /** `r` is what is left of `q` when everything due has ended: its holder may have expired, or just gone. */
  ghost predicate LeftOf(s: State, r: Record, q: Record, w: World) {
    && (r == q || r == q.(live := false))
    && (forall id :: id in s.live && s.live[id].recordKey == Some(q.key) && Ends(s, id, w) ==>
          EndsExpired(s, id, w) && r == q.(live := false))
    && ((forall id :: id in s.live && s.live[id].recordKey == Some(q.key) ==> !Ends(s, id, w)) ==> r == q)
  }

  lemma EndingIs(s: State, id: nat, w: World)
    requires id in DueIds(s, w.now)
    ensures Ending(s.live[id], w).Some? <==> Ends(s, id, w)
    ensures Ending(s.live[id], w) == Some(1) <==> EndsExpired(s, id, w)
  {}

  lemma ExpiredAllIn(history: seq<Record>, keys: set<nat>, r: Record)
    ensures r in ExpiredAll(history, keys)
      <==> exists q :: q in history && r == if q.key in keys then q.(live := false) else q
  {
    if r in ExpiredAll(history, keys) {
      var i :| 0 <= i < |history| && ExpiredAll(history, keys)[i] == r;
      assert history[i] in history;
    }
    if q :| q in history && r == if q.key in keys then q.(live := false) else q {
      var i :| 0 <= i < |history| && history[i] == q;
      assert ExpiredAll(history, keys)[i] == r;
    }
  }

  lemma EndingKeys(s: State, key: nat, expired: bool, w: World)
    ensures key in KeysEnding(s, DueIds(s, w.now), expired, w)
      <==> exists id :: id in s.live && s.live[id].recordKey == Some(key) && Ends(s, id, w)
                        && EndsExpired(s, id, w) == expired
  {
    forall id | id in DueIds(s, w.now)
      ensures Ending(s.live[id], w).Some? <==> Ends(s, id, w)
      ensures Ending(s.live[id], w) == Some(1) <==> EndsExpired(s, id, w)
    {
      EndingIs(s, id, w);
    }
    hide Ending;
    assert forall id :: Ends(s, id, w) ==> id in DueIds(s, w.now);
    assert forall id :: id in DueIds(s, w.now) ==> id in s.live;
  }

  lemma LeftOfIs(s: State, r: Record, q: Record, w: World)
    requires OneHolder(s.live)
    ensures
      LeftOf(s, r, q, w)
      <==> q.key !in KeysEnding(s, DueIds(s, w.now), false, w)
           && r == if q.key in KeysEnding(s, DueIds(s, w.now), true, w) then q.(live := false) else q
  {
    EndingKeys(s, q.key, false, w);
    EndingKeys(s, q.key, true, w);
    hide KeysEnding, DueIds, Ends, EndsExpired;
  }

  lemma EndAllHistory(s: State, r: Record, w: World)
    requires OneHolder(s.live)
    ensures r in EndAll(s, DueIds(s, w.now), w).history <==> exists q :: q in s.history && LeftOf(s, r, q, w)
  {
    var marked, dropped := KeysEnding(s, DueIds(s, w.now), true, w), KeysEnding(s, DueIds(s, w.now), false, w);
    ExpiredAllIn(s.history, marked, r);
    hide KeysEnding, DueIds, ExpiredAll, LeftOf;
    forall q | q in s.history
      ensures LeftOf(s, r, q, w)
        <==> q.key !in dropped && r == if q.key in marked then q.(live := false) else q
    {
      LeftOfIs(s, r, q, w);
    }
  }

  lemma OnlyStaleGo(s: State, now: nat)
    requires Ordered(s.history) && |s.history| <= MAX_HISTORY
    ensures forall r :: r in Prune(s, now).history <==> r in s.history && r.cutoff > now
  {
    StaleIsOld(s.history, now);
  }

  lemma EndAllLive(s: State, w: World)
    ensures forall id :: id in EndAll(s, DueIds(s, w.now), w).live <==> id in s.live && !Ends(s, id, w)
  {
    hide KeysEnding, ExpiredAll, Without;
    forall id | id in DueIds(s, w.now) ensures Ending(s.live[id], w).Some? <==> Ends(s, id, w) {
      EndingIs(s, id, w);
    }
    hide Ending;
    assert forall id :: Ends(s, id, w) ==> id in DueIds(s, w.now);
  }

  lemma EndAllOrdered(s: State, w: World)
    requires Ordered(s.history)
    ensures
      var t := EndAll(s, DueIds(s, w.now), w);
      Ordered(t.history) && |t.history| <= |s.history|
  {
    hide KeysEnding;
    WithoutOrdered(ExpiredAll(s.history, KeysEnding(s, DueIds(s, w.now), true, w)),
                   KeysEnding(s, DueIds(s, w.now), false, w));
  }

  /** What is due ends, unless its object leaves it open; its record stays, no longer live, exactly when it
      expired; nothing else goes but what is too old. */
  lemma DueExactly(s: State, w: World)
    requires OneHolder(s.live) && Ordered(s.history) && |s.history| <= MAX_HISTORY
    ensures
      var t := ProcessDue(s, w);
      && (forall id :: id in t.live <==> id in s.live && !Ends(s, id, w))
      && forall r :: r in t.history <==> exists q :: q in s.history && q.cutoff > w.now && LeftOf(s, r, q, w)
  {
    var s1 := EndAll(s, DueIds(s, w.now), w);
    EndAllLive(s, w);
    EndAllOrdered(s, w);
    OnlyStaleGo(s1, w.now);
    PruneIsLocal(s1, w.now);
    hide EndAll, Prune, TimerFor, Ends, LeftOf, DueIds, OneHolder;
    forall r
      ensures r in ProcessDue(s, w).history
        <==> exists q :: q in s.history && q.cutoff > w.now && LeftOf(s, r, q, w)
    {
      EndAllHistory(s, r, w);
      LeftCutoff(s, r, w);
    }
  }

  lemma LeftCutoff(s: State, r: Record, w: World)
    ensures forall q :: LeftOf(s, r, q, w) ==> r.cutoff == q.cutoff
  {
    hide Ends, EndsExpired;
  }

  // ---------------------------------------------------------------- losing the service

  /** When the service is lost every notification goes with its record; what remains of history is what was
      no longer live. */
  lemma OwnershipLostExactly(s: State, now: nat)
    requires Inv(s)
    ensures
      var t := LoseOwnership(s, now);
      t.live == map[] && forall r :: r in t.history <==> r in s.history && !r.live
  {
    hide TimerFor;
    assert forall r, q :: r in s.history && q in s.history && r.key == q.key ==> r == q;
    assert forall r :: r in s.history ==> (r.key in LiveKeys(s.history) <==> r.live);
  }

  // ---------------------------------------------------------------- what a reload goes through

  /** The first living object of its sort under its id. */
  ghost predicate Leads(buffered: seq<Buffered>, i: nat, carried: bool, w: World)
    requires i < |buffered|
  {
    var o := buffered[i].notification;
    && o.protocolId != 0 && w.alive(o) && buffered[i].carried == carried
    && forall j :: 0 <= j < i && buffered[j].notification.protocolId == o.protocolId ==>
         buffered[j].carried != carried || !w.alive(buffered[j].notification)
  }

  /** The ids taken by the first `k`. */
  function TakenIds(buffered: seq<Buffered>, k: nat, carried: bool, w: World): set<nat>
    requires k <= |buffered|
  {
    set i | 0 <= i < k && w.alive(buffered[i].notification) && buffered[i].carried == carried
            && buffered[i].notification.protocolId != 0 :: buffered[i].notification.protocolId
  }

  /** `at` are the places, from `k` on, of the first living objects under their ids. */
  ghost predicate LeadersAt(buffered: seq<Buffered>, k: nat, carried: bool, w: World, objects: seq<Object>,
                            at: seq<nat>)
  {
    && |at| == |objects| && (forall i, j :: 0 <= i < j < |at| ==> at[i] < at[j])
    && (forall j :: 0 <= j < |at| ==>
          k <= at[j] < |buffered| && Leads(buffered, at[j], carried, w)
          && objects[j] == buffered[at[j]].notification)
    && forall i :: k <= i < |buffered| && Leads(buffered, i, carried, w) ==> i in at
  }

  lemma LeadsIs(buffered: seq<Buffered>, k: nat, carried: bool, w: World)
    requires k < |buffered|
    ensures
      var o := buffered[k].notification;
      Leads(buffered, k, carried, w)
      <==> w.alive(o) && o.protocolId != 0 && buffered[k].carried == carried
           && o.protocolId !in TakenIds(buffered, k, carried, w)
    ensures
      TakenIds(buffered, k + 1, carried, w)
      == TakenIds(buffered, k, carried, w)
         + if Leads(buffered, k, carried, w) then {buffered[k].notification.protocolId} else {}
  {}

  lemma LeadersMore(buffered: seq<Buffered>, k: nat, carried: bool, w: World, objects: seq<Object>, rest: seq<nat>)
    requires k < |buffered| && LeadersAt(buffered, k + 1, carried, w, objects, rest)
    ensures !Leads(buffered, k, carried, w) ==> LeadersAt(buffered, k, carried, w, objects, rest)
    ensures Leads(buffered, k, carried, w) ==>
              LeadersAt(buffered, k, carried, w, [buffered[k].notification] + objects, [k] + rest)
  {
    hide Leads;
    if Leads(buffered, k, carried, w) {
      LeaderFirst(buffered, k, carried, w, objects, rest);
    }
  }

  lemma LeaderFirst(buffered: seq<Buffered>, k: nat, carried: bool, w: World, objects: seq<Object>, rest: seq<nat>)
    requires k < |buffered| && LeadersAt(buffered, k + 1, carried, w, objects, rest) && Leads(buffered, k, carried, w)
    ensures LeadersAt(buffered, k, carried, w, [buffered[k].notification] + objects, [k] + rest)
  {
    hide Leads;
    LeaderOrder(k, rest);
    InRest(k, rest);
    var at, all := [k] + rest, [buffered[k].notification] + objects;
    hide LeadersAt;
    LeaderEach(buffered, k, carried, w, objects, rest);
    LeaderAll(buffered, k, carried, w, objects, rest);
    LeadersMade(buffered, k, carried, w, all, at);
  }

  lemma LeaderOrder(k: nat, rest: seq<nat>)
    requires (forall i, j :: 0 <= i < j < |rest| ==> rest[i] < rest[j]) && forall j :: 0 <= j < |rest| ==> k < rest[j]
    ensures forall i, j :: 0 <= i < j < |[k] + rest| ==> ([k] + rest)[i] < ([k] + rest)[j]
  {}

  lemma InRest(k: nat, rest: seq<nat>)
    ensures forall i :: i in [k] + rest <==> i == k || i in rest
  {}

  lemma LeaderEach(buffered: seq<Buffered>, k: nat, carried: bool, w: World, objects: seq<Object>, rest: seq<nat>)
    requires k < |buffered| && LeadersAt(buffered, k + 1, carried, w, objects, rest) && Leads(buffered, k, carried, w)
    ensures
      var at, all := [k] + rest, [buffered[k].notification] + objects;
      |at| == |all| && forall j :: 0 <= j < |at| ==>
        k <= at[j] < |buffered| && Leads(buffered, at[j], carried, w) && all[j] == buffered[at[j]].notification
  {
    hide Leads;
    var at, all := [k] + rest, [buffered[k].notification] + objects;
    forall j | 0 <= j < |at|
      ensures k <= at[j] < |buffered| && Leads(buffered, at[j], carried, w) && all[j] == buffered[at[j]].notification
    {
      if j > 0 {
        assert at[j] == rest[j - 1] && all[j] == objects[j - 1];
      }
    }
  }

  lemma LeaderAll(buffered: seq<Buffered>, k: nat, carried: bool, w: World, objects: seq<Object>, rest: seq<nat>)
    requires k < |buffered| && LeadersAt(buffered, k + 1, carried, w, objects, rest)
    ensures forall i :: k <= i < |buffered| && Leads(buffered, i, carried, w) ==> i == k || i in rest
  {
    hide Leads;
  }

  lemma LeadersMade(buffered: seq<Buffered>, k: nat, carried: bool, w: World, objects: seq<Object>, at: seq<nat>)
    requires |at| == |objects| && forall i, j :: 0 <= i < j < |at| ==> at[i] < at[j]
    requires forall j :: 0 <= j < |at| ==>
      k <= at[j] < |buffered| && Leads(buffered, at[j], carried, w) && objects[j] == buffered[at[j]].notification
    requires forall i :: k <= i < |buffered| && Leads(buffered, i, carried, w) ==> i in at
    ensures LeadersAt(buffered, k, carried, w, objects, at)
  {
    hide Leads;
  }

  lemma FirstPerIdMore(buffered: seq<Buffered>, k: nat, carried: bool, w: World)
    requires k < |buffered|
    ensures
      var rest := FirstPerId(buffered[k + 1..], carried, TakenIds(buffered, k + 1, carried, w), w);
      FirstPerId(buffered[k..], carried, TakenIds(buffered, k, carried, w), w)
      == if Leads(buffered, k, carried, w) then [buffered[k].notification] + rest else rest
  {
    LeadsIs(buffered, k, carried, w);
    hide Leads, TakenIds;
    assert buffered[k..][1..] == buffered[k + 1..];
    var ids := TakenIds(buffered, k, carried, w);
    assert ids + {} == ids;
  }

  lemma {:induction false} LeadersFrom(buffered: seq<Buffered>, k: nat, carried: bool, w: World) returns (at: seq<nat>)
    requires k <= |buffered|
    ensures
      LeadersAt(buffered, k, carried, w,
                FirstPerId(buffered[k..], carried, TakenIds(buffered, k, carried, w), w), at)
    decreases |buffered| - k
  {
    at := [];
    if k < |buffered| {
      var rest := LeadersFrom(buffered, k + 1, carried, w);
      hide Leads, TakenIds, LeadersAt, FirstPerId;
      FirstPerIdMore(buffered, k, carried, w);
      LeadersMore(buffered, k, carried, w, FirstPerId(buffered[k + 1..], carried,
                  TakenIds(buffered, k + 1, carried, w), w), rest);
      at := if Leads(buffered, k, carried, w) then [k] + rest else rest;
    }
  }

  /** A reload goes through the first living object buffered under each id, in the order they were buffered. */
  lemma FirstPerIdExactly(buffered: seq<Buffered>, carried: bool, w: World)
    ensures exists at :: LeadersAt(buffered, 0, carried, w, FirstPerId(buffered, carried, {}, w), at)
  {
    var at := LeadersFrom(buffered, 0, carried, w);
    assert buffered[0..] == buffered && TakenIds(buffered, 0, carried, w) == {};
  }

  // ---------------------------------------------------------------- generations

  /** A new generation begins with nothing recorded, linked, marked, recognised or buffered; everyone stays
      tracked as they were. */
  lemma BeginsExactly(s: State, now: nat)
    ensures
      var t := BeginGeneration(s, now);
      && t.generation == (if s.generation == MAX_SEQUENCE then MAX_SEQUENCE else s.generation + 1)
      && t.reconciling && t.buffered == [] && t.history == [] && t.live.Keys == s.live.Keys
      && (forall id :: id in s.live ==>
            && t.live[id] == s.live[id].(recordKey := None, seen := false, updateQueued := false))
      && t.historyKeys == s.historyKeys && t.liveKeys == s.liveKeys
  {
    hide TimerFor;
  }

  /** What belongs to another generation is ignored; while one is reconciled objects are kept for its end,
      and changes are not taken up. */
  lemma OtherGenerationsAreIgnored(s: State, o: Object, generation: nat, last: bool, w: World)
    ensures generation != s.generation ==> Attach(s, o, generation, last, w) == s
    ensures generation == s.generation && s.reconciling ==>
              Attach(s, o, generation, last, w) == s.(buffered := s.buffered + [Buffered(o, last)])
    ensures generation != s.generation || !s.reconciling ==> FinishGeneration(s, generation, w) == s
    ensures s.reconciling ==> Update(s, o) == s
    ensures !s.reconciling && o.protocolId in s.live && s.live[o.protocolId].notification == o ==>
              Update(s, o) == s.(live := s.live[o.protocolId := s.live[o.protocolId].(updateQueued := true)])
  {
    hide AdmitFresh, Reconcile, AdmitAll, TimerFor;
  }

  /** Clearing the history cuts every link and ends nobody. */
  lemma ClearsExactly(s: State, now: nat)
    ensures
      var t := ClearHistory(s, now);
      && t.history == [] && t.live.Keys == s.live.Keys
      && (s.history != [] ==> forall id :: id in s.live ==> t.live[id] == s.live[id].(recordKey := None))
  {
    hide TimerFor;
  }
}
