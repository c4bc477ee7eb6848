/** Who is tracked: which associations stay, which arrive and which are recognised, in every run.
    Nothing here turns on records or links. */
module NotificationTracking {
  import opened Basics
  import opened NotificationModel
  import opened NotificationSteps
  import opened NotificationInvariant

  ghost predicate Formed(a: Association) {
    a.revision <= MAX_REVISION && -1 <= a.deadline
  }

  /** The same object, still (or not yet) recognised, and not newly marked for a replacement. */
  ghost predicate StillIs(a: Association, b: Association) {
    && a.notification == b.notification && a.seen == b.seen && (a.updateQueued ==> b.updateQueued)
    && (Formed(b) ==> Formed(a))
  }

  ghost predicate Stays(s: State, t: State) {
    t.reconciling == s.reconciling && forall id :: id in t.live ==> id in s.live && StillIs(t.live[id], s.live[id])
  }

  ghost predicate Arrived(id: nat, a: Association) {
    id == a.notification.protocolId != 0 && !a.updateQueued && Formed(a)
  }

  ghost predicate Arrives(s: State, t: State) {
    && t.reconciling == s.reconciling
    && forall id :: id in t.live ==> (id in s.live && StillIs(t.live[id], s.live[id])) || Arrived(id, t.live[id])
  }

  lemma StaysTransitive(s: State, t: State, u: State)
    requires Stays(s, t) && Stays(t, u)
    ensures Stays(s, u)
  {}

  lemma StaysArrives(s: State, t: State, u: State)
    requires Stays(s, t) && Arrives(t, u)
    ensures Arrives(s, u)
  {}

  // ---------------------------------------------------------------- nothing arrives

  lemma PruneStays(s: State, now: nat)
    ensures Stays(s, Prune(s, now))
  {
    PruneIsLocal(s, now);
  }

  lemma AdmitHistoryStays(s: State, n: Notification, now: nat)
    ensures Stays(s, AdmitHistory(s, n, now).0)
  {
    hide Prune;
    var (key, counter) := Allocate(s.historyKeys);
    if key.Some? {
      PruneStays(s.(historyKeys := counter, history := [MakeRecord(n, key.value, now)] + s.history), now);
    }
  }

  lemma CloseStays(s: State, o: Object, reason: int, now: nat)
    ensures Stays(s, Close(s, o, reason, now))
  {
    hide TimerFor, Without, Expired;
  }

  lemma AfterExpireStays(s: State, o: Object, w: World)
    ensures Stays(s, AfterExpire(s, o, w))
  {
    hide Close;
    CloseStays(s, o, if w.expire(o).Closes? then w.expire(o).reason else 0, w.now);
  }

  lemma TurnAwayStays(s: State, o: Object, key: Option<nat>, w: World)
    ensures Stays(s, TurnAway(s, o, key, w))
  {
    hide TimerFor, AfterExpire, Expired;
    AfterExpireStays(if key.Some? then s.(history := Expired(s.history, key.value)) else s, o, w);
  }

  lemma PresentedIs(a: Association, n: Notification, now: nat)
    ensures
      var b := Presented(Scheduled(a, n, now), n);
      && b.updateQueued == a.updateQueued && b.notification == a.notification && b.seen == a.seen
      && (Formed(a) ==> Formed(b))
  {}

  lemma OneStays(s: State, id: nat, a: Association)
    requires id in s.live && StillIs(a, s.live[id])
    ensures Stays(s, s.(live := s.live[id := a]))
  {}

  lemma ArmStays(s: State, now: nat)
    ensures Stays(s, Arm(s, now))
  {}

  lemma RerecordStays(s: State, id: nat, oldKey: Option<nat>, n: Notification, now: nat)
    requires id in s.live
    ensures Stays(s, Rerecord(s, id, oldKey, n, now))
  {
    hide AdmitHistory, Without, Rewritten;
    AdmitHistoryStays(s, n, now);
  }

  lemma ReplaceStays(s: State, o: Object, w: World)
    ensures Stays(s, Replace(s, o, w))
  {
    hide Prune, Rerecord, Arm, Presented, Scheduled, Stays;
    StaysSame(s);
    if Owns(s, o) {
      var id, n := o.protocolId, w.read(o);
      var s1 := Prune(s, w.now);
      PruneStays(s, w.now);
      if id in s1.live {
        var s2 := Rerecord(s1, id, s.live[id].recordKey, n, w.now);
        RerecordStays(s1, id, s.live[id].recordKey, n, w.now);
        StaysTransitive(s, s1, s2);
        if id in s2.live {
          var a := s2.live[id].(transient := n.transient, urgency := n.content.urgency);
          var b := Presented(Scheduled(a, n, w.now), n);
          var s3 := s2.(live := s2.live[id := b]);
          PresentedIs(a, n, w.now);
          OneStays(s2, id, b);
          ArmStays(s3, w.now);
          StaysTransitive(s, s2, s3);
          StaysTransitive(s, s3, Arm(s3, w.now));
        }
      }
    }
  }

  lemma StaysSame(s: State)
    ensures Stays(s, s)
  {}

  lemma RunQueuedStays(s: State, o: Object, w: World)
    ensures Stays(s, RunQueued(s, o, w))
  {
    hide Replace, Stays;
    StaysSame(s);
    if o.protocolId in s.live {
      var s1 := s.(live := s.live[o.protocolId := s.live[o.protocolId].(updateQueued := false)]);
      OneStays(s, o.protocolId, s.live[o.protocolId].(updateQueued := false));
      ReplaceStays(s1, o, w);
      StaysTransitive(s, s1, Replace(s1, o, w));
    }
  }

  lemma ProcessDueStays(s: State, w: World)
    ensures Stays(s, ProcessDue(s, w))
  {
    hide TimerFor, Prune, EndedIds, KeysEnding, ExpiredAll, Without;
    PruneStays(EndAll(s, DueIds(s, w.now), w), w.now);
  }

  lemma DismissStays(s: State, key: nat, w: World)
    ensures Stays(s, Dismiss(s, key, w).0)
  {
    hide TimerFor, Without, Close;
    match Addressee(s, key, w)
    case Some(id) =>
      var o := s.live[id].notification;
      CloseStays(s, o, if w.dismiss(o).Closes? then w.dismiss(o).reason else 0, w.now);
    case None =>
  }

  /** Only beginning, admitting, queueing and finishing do more than keep or drop associations. */
  ghost predicate Keeping(e: Event) {
    e.QueuedEvent? || e.CloseEvent? || e.DismissEvent? || e.ClearEvent? || e.OwnershipLostEvent? || e.DueEvent?
  }

  lemma KeepingStays(s: State, e: Event, w: World)
    requires Keeping(e)
    ensures Stays(s, Step(s, e, w))
  {
    hide TimerFor, RunQueued, Close, Dismiss, ProcessDue, Without;
    match e
    case QueuedEvent(o) => RunQueuedStays(s, o, w);
    case CloseEvent(o, reason) => CloseStays(s, o, reason, w.now);
    case DismissEvent(key) => DismissStays(s, key, w);
    case DueEvent => ProcessDueStays(s, w);
    case ClearEvent =>
    case OwnershipLostEvent =>
  }

  // ---------------------------------------------------------------- admission

  lemma InstallArrives(s: State, newcomer: Association, n: Notification, now: nat)
    requires Arrived(newcomer.notification.protocolId, newcomer)
    ensures Arrives(s, Install(s, newcomer, n, now))
  {
    hide TimerFor, Presented, Scheduled;
    PresentedIs(newcomer, n, now);
  }

  lemma ContendArrives(s: State, newcomer: Association, n: Notification, w: World)
    requires Arrived(newcomer.notification.protocolId, newcomer)
    ensures Arrives(s, Contend(s, newcomer, n, w))
  {
    hide AfterExpire, TurnAway, Install, Victim;
    var v := Victim(s.live, s.history, newcomer);
    TurnAwayStays(s, newcomer.notification, newcomer.recordKey, w);
    if v.Some? && v.value in s.live {
      var victim := s.live[v.value].notification;
      var s1 := AfterExpire(s, victim, w);
      AfterExpireStays(s, victim, w);
      TurnAwayStays(s1, newcomer.notification, newcomer.recordKey, w);
      InstallArrives(s1, newcomer, n, w.now);
    }
  }

  /** A newcomer arrives; what is tracked already is at most marked. */
  lemma AdmitFreshArrives(s: State, o: Object, w: World)
    ensures o.protocolId == 0 || o.protocolId !in s.live ==> Arrives(s, AdmitFresh(s, o, w))
    ensures o.protocolId != 0 && o.protocolId in s.live ==> AdmitFresh(s, o, w) == Queue(s, o)
  {
    hide AfterExpire, Contend, Install, AdmitHistory, SourceToken, Arrives, Stays;
    AfterExpireStays(s, o, w);
    SameArrives(s, AfterExpire(s, o, w));
    if o.protocolId != 0 && o.protocolId !in s.live && !s.liveKeys.exhausted {
      var n := w.read(o);
      var (sequence, counter) := Allocate(s.liveKeys);
      var s0 := s.(liveKeys := counter);
      var (s1, key) := AdmitHistory(s0, n, w.now);
      CounterStays(s, counter);
      AdmitHistoryStays(s0, n, w.now);
      StaysTransitive(s, s0, s1);
      var newcomer := Newcomer(o, n, key, sequence.value);
      ContendArrives(s1, newcomer, n, w);
      InstallArrives(s1, newcomer, n, w.now);
      StaysArrives(s, s1, AdmitFresh(s, o, w));
    }
  }

  lemma SameArrives(s: State, t: State)
    requires Stays(s, t)
    ensures Arrives(s, t)
  {}

  lemma CounterStays(s: State, counter: Counter)
    ensures Stays(s, s.(liveKeys := counter))
  {}

  // ---------------------------------------------------------------- recognition

  /** What recognition makes of one association, its link aside. */
  function Reread(a: Association, n: Notification): Association {
    a.(seen := true, transient := n.transient, urgency := n.content.urgency)
  }

  /** Exactly `done` was recognised; nothing else changed but links. */
  ghost predicate Recognised(s: State, v: State, done: set<nat>, w: World) {
    && v.live.Keys == s.live.Keys && v.reconciling == s.reconciling
    && forall id :: id in v.live ==>
         var a := s.live[id];
         v.live[id] == (if id in done then Reread(a, w.read(a.notification)) else a).(recordKey := v.live[id].recordKey)
  }

  lemma RecognisedLinks(s: State, v: State, u: State, done: set<nat>, w: World)
    requires Recognised(s, v, done, w) && SameButLinks(u.live, v.live) && u.reconciling == v.reconciling
    ensures Recognised(s, u, done, w)
  {}

  lemma RecognisedMarked(s: State, v: State, done: set<nat>, id: nat, w: World)
    requires Recognised(s, v, done, w) && id in v.live
    ensures
      var b := Reread(v.live[id], w.read(v.live[id].notification));
      Recognised(s, v.(live := v.live[id := b]), done + {id}, w)
  {}

  lemma AdmitHistoryLinks(s: State, n: Notification, now: nat)
    ensures
      var t := AdmitHistory(s, n, now).0;
      SameButLinks(t.live, s.live) && t.reconciling == s.reconciling
  {
    hide Prune;
    var (key, counter) := Allocate(s.historyKeys);
    if key.Some? {
      PruneIsLocal(s.(historyKeys := counter, history := [MakeRecord(n, key.value, now)] + s.history), now);
    }
  }

  lemma RecogniseOne(s: State, v: State, done: set<nat>, o: Object, w: World)
    requires Recognised(s, v, done, w)
    ensures Recognised(s, Recognise(v, o, w), if Owns(v, o) then done + {o.protocolId} else done, w)
  {
    hide AdmitHistory, SameButLinks, Reread;
    if Owns(v, o) {
      var id, n := o.protocolId, w.read(o);
      var v1 := v.(live := v.live[id := Reread(v.live[id], n)]);
      RecognisedMarked(s, v, done, id, w);
      RereadIs(v.live[id], n);
      if !n.transient {
        var (v2, key) := AdmitHistory(v1, n, w.now);
        AdmitHistoryLinks(v1, n, w.now);
        RecognisedLinks(s, v1, v2, done + {id}, w);
      }
    }
  }

  lemma RereadIs(a: Association, n: Notification)
    ensures Reread(a, n) == a.(seen := true, transient := n.transient, urgency := n.content.urgency)
  {}
}
