/** What every run keeps, however its links turn out: both bounds, and no record key held twice. */
module NotificationBounds {
  import opened Basics
  import opened NotificationModel
  import opened NotificationSteps
  import opened NotificationInvariant
  import opened NotificationSafety
  import opened NotificationTracking

  /** Links are to keys handed out already, and no two associations hold the same. */
  ghost predicate Apart(s: State) {
    && CounterOk(s.historyKeys) && OneHolder(s.live)
    && forall id :: id in s.live && s.live[id].recordKey.Some? ==> s.live[id].recordKey.value < Limit(s.historyKeys)
  }

  ghost predicate OneHolder(live: map<nat, Association>) {
    forall a, b ::
      (a in live && b in live && live[a].recordKey.Some? && live[a].recordKey == live[b].recordKey) ==> a == b
  }

  ghost predicate Bounded(s: State) {
    |s.live| <= MAX_LIVE && |s.history| <= MAX_HISTORY
  }

  // ---------------------------------------------------------------- what a step may do

  /** Associations and records may go, links may be cut; nothing comes. */
  ghost predicate Sheds(s: State, t: State) {
    && t.historyKeys == s.historyKeys && |t.history| <= |s.history| && t.live.Keys <= s.live.Keys
    && forall id :: id in t.live ==> t.live[id].recordKey in {None, s.live[id].recordKey}
  }

  /** A link is as before or to a key handed out since, and such a key is held once. */
  ghost predicate Links(s: State, t: State) {
    && CounterOk(t.historyKeys) && Limit(s.historyKeys) <= Limit(t.historyKeys)
    && (forall id :: id in t.live && t.live[id].recordKey.Some? ==>
          (id in s.live && t.live[id].recordKey == s.live[id].recordKey)
          || Limit(s.historyKeys) <= t.live[id].recordKey.value < Limit(t.historyKeys))
    && forall a, b ::
         (a in t.live && b in t.live && t.live[a].recordKey.Some? && t.live[a].recordKey == t.live[b].recordKey
          && t.live[a].recordKey.value >= Limit(s.historyKeys)) ==> a == b
  }

  /** Within the bounds it stays there. */
  ghost predicate Fits(s: State, t: State) {
    && (|s.live| <= MAX_LIVE ==> |t.live| <= MAX_LIVE)
    && (|s.history| <= MAX_HISTORY ==> |t.history| <= MAX_HISTORY)
  }

  ghost predicate Moves(s: State, t: State) {
    Links(s, t) && Fits(s, t)
  }

  lemma LinksApart(s: State, t: State)
    requires Apart(s) && Links(s, t)
    ensures Apart(t)
  {}

  lemma MovesTransitive(s: State, t: State, u: State)
    requires Moves(s, t) && Moves(t, u)
    ensures Moves(s, u)
  {
    LinksTransitive(s, t, u);
    hide Links;
  }

  lemma LinksTransitive(s: State, t: State, u: State)
    requires Links(s, t) && Links(t, u)
    ensures Links(s, u)
  {
    hide Limit, CounterOk;
  }

  /** Apart associations stay apart when links are only cut. */
  lemma ShedsMoves(s: State, t: State)
    requires Sheds(s, t) && Apart(s)
    ensures Moves(s, t)
  {
    SubsetSize(t.live.Keys, s.live.Keys);
    assert |t.live| == |t.live.Keys| && |s.live| == |s.live.Keys|;
  }

  // ---------------------------------------------------------------- nothing comes

  lemma PruneSheds(s: State, now: nat)
    ensures Sheds(s, Prune(s, now))
  {
    PruneIsLocal(s, now);
    ShorterPruned(s, now);
    hide Prune;
  }

  lemma ShorterPruned(s: State, now: nat)
    ensures |Prune(s, now).history| <= |s.history| && |Prune(s, now).history| <= MAX_HISTORY
  {
    hide StaleKeys, Unlink;
  }

  lemma CloseSheds(s: State, o: Object, reason: int, now: nat)
    ensures Sheds(s, Close(s, o, reason, now))
  {
    hide TimerFor, Without, Expired;
  }

  lemma AfterExpireSheds(s: State, o: Object, w: World)
    ensures Sheds(s, AfterExpire(s, o, w))
  {
    hide Close;
    CloseSheds(s, o, if w.expire(o).Closes? then w.expire(o).reason else 0, w.now);
  }

  lemma TurnAwaySheds(s: State, o: Object, key: Option<nat>, w: World)
    ensures Sheds(s, TurnAway(s, o, key, w))
  {
    hide TimerFor, AfterExpire, Expired;
    AfterExpireSheds(if key.Some? then s.(history := Expired(s.history, key.value)) else s, o, w);
  }

  lemma DismissSheds(s: State, key: nat, w: World)
    ensures Sheds(s, Dismiss(s, key, w).0)
  {
    hide TimerFor, Without, Close;
    match Addressee(s, key, w)
    case Some(id) =>
      var o := s.live[id].notification;
      CloseSheds(s, o, if w.dismiss(o).Closes? then w.dismiss(o).reason else 0, w.now);
    case None =>
  }

  lemma ProcessDueSheds(s: State, w: World)
    ensures Sheds(s, ProcessDue(s, w))
  {
    hide TimerFor, Prune, EndedIds, KeysEnding, ExpiredAll, Without;
    PruneSheds(EndAll(s, DueIds(s, w.now), w), w.now);
  }

  lemma RemovalSheds(s: State, e: Event, w: World)
    requires !e.AttachEvent? && !e.QueuedEvent? && !e.FinishEvent?
    ensures Sheds(s, Step(s, e, w))
  {
    hide TimerFor, Close, Dismiss, ProcessDue, Without;
    match e
    case CloseEvent(o, reason) => CloseSheds(s, o, reason, w.now);
    case DismissEvent(key) => DismissSheds(s, key, w);
    case DueEvent => ProcessDueSheds(s, w);
    case _ =>
  }

  // ---------------------------------------------------------------- records and links come

  /** `t` came from handing out a key to `s`, if there was one; no link to it was made, and links may be cut. */
  ghost predicate Granted(s: State, t: State, key: Option<nat>) {
    && t.live.Keys <= s.live.Keys && Fits(s, t)
    && (forall id :: id in t.live ==> t.live[id].recordKey in {None, s.live[id].recordKey})
    && CounterOk(t.historyKeys) && Limit(s.historyKeys) <= Limit(t.historyKeys)
    && (key.Some? ==> key.value == Limit(s.historyKeys) && Limit(t.historyKeys) == key.value + 1)
  }

  lemma AdmitHistoryGrants(s: State, n: Notification, now: nat)
    requires CounterOk(s.historyKeys)
    ensures
      var (t, key) := AdmitHistory(s, n, now);
      Granted(s, t, key) && t.live.Keys == s.live.Keys
  {
    hide Prune;
    var (key, counter) := Allocate(s.historyKeys);
    if !n.transient && key.Some? {
      var s1 := s.(historyKeys := counter, history := [MakeRecord(n, key.value, now)] + s.history);
      PruneSheds(s1, now);
      PruneIsLocal(s1, now);
      ShorterPruned(s1, now);
      SameSize(Prune(s1, now).live, s.live);
    }
  }

  lemma GrantedSheds(s: State, t: State, u: State, key: Option<nat>)
    requires Granted(s, t, key) && Sheds(t, u)
    ensures Granted(s, u, key)
  {
    hide Limit, CounterOk;
    SubsetSize(u.live.Keys, t.live.Keys);
    assert |t.live| == |t.live.Keys| && |u.live| == |u.live.Keys|;
  }

  lemma GrantMoves(s: State, t: State, key: Option<nat>)
    requires Apart(s) && Granted(s, t, key)
    ensures Moves(s, t)
  {
    hide Limit, CounterOk, Fits;
  }

  /** One association is stored, its link cut, kept or made to the key just handed out. */
  lemma PutLinks(s: State, t: State, key: Option<nat>, id: nat, a: Association)
    requires Apart(s) && Granted(s, t, key)
    requires a.recordKey in {None, key} || (id in s.live && a.recordKey == s.live[id].recordKey)
    ensures Links(s, t.(live := t.live[id := a]))
  {
    hide Limit, CounterOk, OneHolder, Fits;
  }

  lemma PutFits(s: State, t: State, id: nat, a: Association)
    requires Fits(s, t) && (id in t.live || |t.live| < MAX_LIVE)
    ensures Fits(s, t.(live := t.live[id := a]))
  {
    assert t.live[id := a].Keys == t.live.Keys + {id};
    assert |t.live[id := a]| == |t.live[id := a].Keys| && |t.live| == |t.live.Keys|;
  }

  lemma GrantedPut(s: State, t: State, key: Option<nat>, id: nat, a: Association)
    requires Apart(s) && Granted(s, t, key) && (id in t.live || |t.live| < MAX_LIVE)
    requires a.recordKey in {None, key} || (id in s.live && a.recordKey == s.live[id].recordKey)
    ensures Moves(s, t.(live := t.live[id := a]))
  {
    hide Fits, Links, Limit, Apart;
    PutLinks(s, t, key, id, a);
    PutFits(s, t, id, a);
  }

  lemma ArmMoves(s: State, t: State, now: nat)
    requires Moves(s, t)
    ensures Moves(s, Arm(t, now))
  {
    hide TimerFor;
  }

  // ---------------------------------------------------------------- admission

  lemma PresentedLink(a: Association, n: Notification, now: nat)
    ensures Presented(Scheduled(a, n, now), n).recordKey == a.recordKey
  {}

  lemma InstallMoves(s: State, t: State, newcomer: Association, n: Notification, now: nat)
    requires Apart(s) && Granted(s, t, newcomer.recordKey) && |t.live| < MAX_LIVE
    ensures Moves(s, Install(t, newcomer, n, now))
  {
    hide Moves, Granted, Apart, Presented, Scheduled, Arm;
    var a := Presented(Scheduled(newcomer, n, now), n);
    PresentedLink(newcomer, n, now);
    GrantedPut(s, t, newcomer.recordKey, newcomer.notification.protocolId, a);
    ArmMoves(s, t.(live := t.live[newcomer.notification.protocolId := a]), now);
  }

  lemma ContendMoves(s: State, t: State, newcomer: Association, n: Notification, w: World)
    requires Apart(s) && Granted(s, t, newcomer.recordKey)
    ensures Moves(s, Contend(t, newcomer, n, w))
  {
    hide Moves, Granted, Apart, AfterExpire, TurnAway, Install, Victim, Sheds;
    var v, o, key := Victim(t.live, t.history, newcomer), newcomer.notification, newcomer.recordKey;
    if v.None? || v.value !in t.live {
      TurnAwaySheds(t, o, key, w);
      GrantedSheds(s, t, TurnAway(t, o, key, w), key);
      GrantMoves(s, TurnAway(t, o, key, w), key);
    } else {
      var victim := t.live[v.value].notification;
      var t1 := AfterExpire(t, victim, w);
      AfterExpireSheds(t, victim, w);
      GrantedSheds(s, t, t1, key);
      if !ExpireCalled(victim, w) || |t1.live| >= MAX_LIVE {
        TurnAwaySheds(t1, o, key, w);
        GrantedSheds(s, t1, TurnAway(t1, o, key, w), key);
        GrantMoves(s, TurnAway(t1, o, key, w), key);
      } else {
        InstallMoves(s, t1, newcomer, n, w.now);
      }
    }
  }

  lemma QueueSheds(s: State, o: Object)
    ensures Sheds(s, Queue(s, o))
  {}

  lemma ShedsSame(s: State)
    ensures Sheds(s, s)
  {}

  lemma GrantedSame(s: State, s0: State, t: State, key: Option<nat>)
    requires Granted(s0, t, key) && s0 == s.(liveKeys := s0.liveKeys)
    ensures Granted(s, t, key)
  {}

  lemma AdmitFreshMoves(s: State, o: Object, w: World)
    requires Apart(s)
    ensures Moves(s, AdmitFresh(s, o, w))
  {
    hide Moves, AfterExpire, Contend, Install, AdmitHistory, Granted, SourceToken, Sheds, OneHolder;
    if o.protocolId == 0 || (o.protocolId !in s.live && s.liveKeys.exhausted) {
      AfterExpireSheds(s, o, w);
      ShedsMoves(s, AfterExpire(s, o, w));
    } else if o.protocolId in s.live {
      QueueSheds(s, o);
      ShedsMoves(s, Queue(s, o));
      ShedsSame(s);
      ShedsMoves(s, s);
    } else {
      var n := w.read(o);
      var (sequence, counter) := Allocate(s.liveKeys);
      var s0 := s.(liveKeys := counter);
      AdmitHistoryGrants(s0, n, w.now);
      var (s1, key) := AdmitHistory(s0, n, w.now);
      GrantedSame(s, s0, s1, key);
      ContendMoves(s, s1, Newcomer(o, n, key, sequence.value), n, w);
      if |s1.live| < MAX_LIVE {
        InstallMoves(s, s1, Newcomer(o, n, key, sequence.value), n, w.now);
      }
    }
  }

  lemma ShedsSize(s: State, t: State)
    requires Sheds(s, t)
    ensures |t.live| <= |s.live|
  {
    SubsetSize(t.live.Keys, s.live.Keys);
    assert |s.live| == |s.live.Keys| && |t.live| == |t.live.Keys|;
  }

  lemma PutSize<V>(m: map<nat, V>, id: nat, v: V)
    ensures |m[id := v]| <= |m| + 1
  {
    assert m[id := v].Keys == m.Keys + {id};
    assert |m| == |m.Keys| && |m[id := v]| == |m[id := v].Keys|;
  }

  lemma InstallSize(s: State, newcomer: Association, n: Notification, now: nat)
    ensures |Install(s, newcomer, n, now).live| <= |s.live| + 1
  {
    hide TimerFor, Presented, Scheduled;
    PutSize(s.live, newcomer.notification.protocolId, Presented(Scheduled(newcomer, n, now), n));
  }

  lemma ContendSize(s: State, newcomer: Association, n: Notification, w: World)
    requires |s.live| <= MAX_LIVE
    ensures |Contend(s, newcomer, n, w).live| <= MAX_LIVE
  {
    hide AfterExpire, TurnAway, Install, Victim, Sheds;
    var v, o, key := Victim(s.live, s.history, newcomer), newcomer.notification, newcomer.recordKey;
    TurnAwaySheds(s, o, key, w);
    ShedsSize(s, TurnAway(s, o, key, w));
    if v.Some? && v.value in s.live {
      var s1 := AfterExpire(s, s.live[v.value].notification, w);
      AfterExpireSheds(s, s.live[v.value].notification, w);
      ShedsSize(s, s1);
      TurnAwaySheds(s1, o, key, w);
      ShedsSize(s1, TurnAway(s1, o, key, w));
      InstallSize(s1, newcomer, n, w.now);
    }
  }

  /** The table never outgrows its bound, whatever else is wrong with it. */
  lemma AdmitFreshFits(s: State, o: Object, w: World)
    requires |s.live| <= MAX_LIVE
    ensures |AdmitFresh(s, o, w).live| <= MAX_LIVE
  {
    hide AfterExpire, Contend, Install, AdmitHistory, SourceToken, Sheds, Queue;
    AfterExpireSheds(s, o, w);
    ShedsSize(s, AfterExpire(s, o, w));
    QueueSheds(s, o);
    ShedsSize(s, Queue(s, o));
    if o.protocolId != 0 && o.protocolId !in s.live && !s.liveKeys.exhausted {
      var n := w.read(o);
      var (sequence, counter) := Allocate(s.liveKeys);
      var s0 := s.(liveKeys := counter);
      AdmitHistoryLinks(s0, n, w.now);
      var (s1, key) := AdmitHistory(s0, n, w.now);
      SameSize(s1.live, s.live);
      ContendSize(s1, Newcomer(o, n, key, sequence.value), n, w);
      InstallSize(s1, Newcomer(o, n, key, sequence.value), n, w.now);
    }
  }

  // ---------------------------------------------------------------- replacement

  lemma ForgetSheds(s: State, keys: set<nat>)
    ensures Sheds(s, Forget(s, keys)) && Forget(s, keys).live.Keys == s.live.Keys
  {
    hide Without;
    assert |Without(s.history, keys)| <= |s.history|;
  }

  lemma ShedsGranted(s: State, t: State)
    requires Sheds(s, t) && CounterOk(s.historyKeys)
    ensures Granted(s, t, None)
  {
    SubsetSize(t.live.Keys, s.live.Keys);
    assert |t.live| == |t.live.Keys| && |s.live| == |s.live.Keys|;
  }

  lemma RerecordMoves(s: State, id: nat, oldKey: Option<nat>, n: Notification, now: nat)
    requires Apart(s) && id in s.live
    ensures Moves(s, Rerecord(s, id, oldKey, n, now))
  {
    hide Moves, AdmitHistory, Forget, Rewritten, OneHolder, Granted, Sheds;
    var a := s.live[id];
    ShedsSame(s);
    ShedsMoves(s, s);
    if a.transient && !n.transient {
      AdmitHistoryGrants(s, n, now);
      var (s1, key) := AdmitHistory(s, n, now);
      GrantedPut(s, s1, key, id, a.(recordKey := key, transient := false));
    } else if !a.transient && n.transient {
      var keys := if oldKey.Some? && oldKey.value in Keys(s.history) then {oldKey.value} else {};
      var s1 := if keys != {} then Forget(s, keys) else s;
      ForgetSheds(s, keys);
      ShedsGranted(s, s1);
      GrantedPut(s, s1, None, id, a.(recordKey := None, transient := true));
    } else if !n.transient && a.recordKey.Some? {
      if a.recordKey.value in Keys(s.history) {
        RewrittenSheds(s, a.recordKey.value, n);
        ShedsMoves(s, s.(history := Rewritten(s.history, a.recordKey.value, n)));
      } else {
        ShedsGranted(s, s);
        GrantedPut(s, s, None, id, a.(recordKey := None));
      }
    }
  }

  lemma RewrittenSheds(s: State, key: nat, n: Notification)
    ensures Sheds(s, s.(history := Rewritten(s.history, key, n)))
  {}

  lemma MovesApart(s: State, t: State)
    requires Apart(s) && Moves(s, t)
    ensures Apart(t)
  {
    LinksApart(s, t);
    hide Links, Apart;
  }

  /** One association is rewritten with its link as it is. */
  lemma TouchMoves(s: State, id: nat, a: Association)
    requires Apart(s) && id in s.live && a.recordKey == s.live[id].recordKey
    ensures Moves(s, s.(live := s.live[id := a]))
  {
    hide Granted, Sheds, Moves, Apart;
    ShedsSame(s);
    assert CounterOk(s.historyKeys) by { ApartCounter(s); }
    ShedsGranted(s, s);
    GrantedPut(s, s, None, id, a);
  }

  lemma ApartCounter(s: State)
    requires Apart(s)
    ensures CounterOk(s.historyKeys)
  {}

  lemma ReplaceMoves(s: State, o: Object, w: World)
    requires Apart(s)
    ensures Moves(s, Replace(s, o, w))
  {
    hide Moves, Apart, Prune, Rerecord, Presented, Scheduled, Arm, Sheds;
    ShedsSame(s);
    ShedsMoves(s, s);
    if Owns(s, o) {
      var id, n := o.protocolId, w.read(o);
      var s1 := Prune(s, w.now);
      PruneSheds(s, w.now);
      ShedsMoves(s, s1);
      MovesApart(s, s1);
      if id in s1.live {
        var s2 := Rerecord(s1, id, s.live[id].recordKey, n, w.now);
        RerecordMoves(s1, id, s.live[id].recordKey, n, w.now);
        MovesTransitive(s, s1, s2);
        MovesApart(s1, s2);
        if id in s2.live {
          var a := s2.live[id].(transient := n.transient, urgency := n.content.urgency);
          var s3 := s2.(live := s2.live[id := Presented(Scheduled(a, n, w.now), n)]);
          PresentedLink(a, n, w.now);
          TouchMoves(s2, id, Presented(Scheduled(a, n, w.now), n));
          MovesTransitive(s, s2, s3);
          ArmMoves(s, s3, w.now);
        }
      }
    }
  }

  lemma RunQueuedMoves(s: State, o: Object, w: World)
    requires Apart(s)
    ensures Moves(s, RunQueued(s, o, w))
  {
    hide Moves, Apart, Replace, Sheds;
    ShedsSame(s);
    ShedsMoves(s, s);
    if o.protocolId in s.live {
      var b := s.live[o.protocolId].(updateQueued := false);
      var s1 := s.(live := s.live[o.protocolId := b]);
      TouchMoves(s, o.protocolId, b);
      MovesApart(s, s1);
      ReplaceMoves(s1, o, w);
      MovesTransitive(s, s1, Replace(s1, o, w));
    }
  }

  // ---------------------------------------------------------------- reload

  lemma RecogniseMoves(s: State, o: Object, w: World)
    requires Apart(s)
    ensures Moves(s, Recognise(s, o, w))
  {
    hide Moves, Apart, AdmitHistory, AfterExpire, Granted, Sheds, Reread;
    if !Owns(s, o) {
      AfterExpireSheds(s, o, w);
      ShedsMoves(s, AfterExpire(s, o, w));
    } else {
      var id, n := o.protocolId, w.read(o);
      RereadIs(s.live[id], n);
      var a := s.live[id].(seen := true, transient := n.transient, urgency := n.content.urgency);
      var s1 := s.(live := s.live[id := a]);
      TouchMoves(s, id, a);
      if !n.transient {
        MovesApart(s, s1);
        ApartCounter(s1);
        AdmitHistoryGrants(s1, n, w.now);
        var (s2, key) := AdmitHistory(s1, n, w.now);
        var t := s2.(live := s2.live[id := s2.live[id].(recordKey := key)]);
        GrantedPut(s1, s2, key, id, s2.live[id].(recordKey := key));
        MovesTransitive(s, s1, t);
      }
    }
  }

  lemma {:induction false} RecogniseAllMoves(s: State, objects: seq<Object>, w: World)
    requires Apart(s)
    ensures Moves(s, RecogniseAll(s, objects, w))
    decreases |objects|
  {
    hide Moves, Apart, Recognise, Sheds;
    if objects == [] {
      ShedsSame(s);
      ShedsMoves(s, s);
    } else {
      var last := |objects| - 1;
      var s1 := Recognise(s, objects[last], w);
      RecogniseMoves(s, objects[last], w);
      MovesApart(s, s1);
      RecogniseAllMoves(s1, objects[..last], w);
      MovesTransitive(s, s1, RecogniseAll(s1, objects[..last], w));
    }
  }

  lemma {:induction false} AdmitAllMoves(s: State, objects: seq<Object>, w: World)
    requires Apart(s)
    ensures Moves(s, AdmitAll(s, objects, w))
    decreases |objects|
  {
    hide Moves, Apart, AdmitFresh, Sheds;
    if objects == [] {
      ShedsSame(s);
      ShedsMoves(s, s);
    } else {
      var s1 := AdmitFresh(s, objects[0], w);
      AdmitFreshMoves(s, objects[0], w);
      MovesApart(s, s1);
      AdmitAllMoves(s1, objects[1..], w);
      MovesTransitive(s, s1, AdmitAll(s1, objects[1..], w));
    }
  }

  lemma SeenSheds(s: State)
    ensures Sheds(s, s.(live := SeenOnly(s.live), reconciling := false))
  {}

  lemma BufferSheds(s: State, t: State)
    requires t == s.(buffered := t.buffered)
    ensures Sheds(s, t)
  {}

  lemma ReconcileMoves(s: State, w: World)
    requires Apart(s)
    ensures Moves(s, Reconcile(s, w))
  {
    hide Moves, Apart, RecogniseAll, Sheds;
    var carried := SortDescending(FirstPerId(s.buffered, true, {}, w));
    var s0 := s.(buffered := []);
    var s1 := RecogniseAll(s0, carried, w);
    BufferSheds(s, s0);
    ShedsMoves(s, s0);
    MovesApart(s, s0);
    RecogniseAllMoves(s0, carried, w);
    MovesApart(s0, s1);
    MovesTransitive(s, s0, s1);
    SeenSheds(s1);
    ShedsMoves(s1, Reconcile(s, w));
    MovesTransitive(s, s1, Reconcile(s, w));
  }

  lemma FinishMoves(s: State, generation: nat, w: World)
    requires Apart(s)
    ensures Moves(s, FinishGeneration(s, generation, w))
  {
    hide Moves, Apart, Reconcile, AdmitAll, Arm, Sheds;
    if !s.reconciling || generation != s.generation {
      ShedsSame(s);
      ShedsMoves(s, s);
    } else {
      var s1 := Reconcile(s, w);
      var newcomers := FirstPerId(s.buffered, false, {}, w);
      ReconcileMoves(s, w);
      MovesApart(s, s1);
      AdmitAllMoves(s1, newcomers, w);
      MovesTransitive(s, s1, AdmitAll(s1, newcomers, w));
      ArmMoves(s, AdmitAll(s1, newcomers, w), w.now);
    }
  }

  // ---------------------------------------------------------------- every step

  lemma StepMoves(s: State, e: Event, w: World)
    requires Apart(s)
    ensures Moves(s, Step(s, e, w))
  {
    hide Moves, Apart, AdmitFresh, RunQueued, FinishGeneration, Close, Dismiss, ProcessDue, ClearHistory, LoseOwnership,
      BeginGeneration, Update, Sheds;
    match e
    case AttachEvent(o, generation, lastGeneration) =>
      BufferSheds(s, s);
      ShedsMoves(s, s);
      BufferSheds(s, s.(buffered := s.buffered + [Buffered(o, lastGeneration)]));
      ShedsMoves(s, s.(buffered := s.buffered + [Buffered(o, lastGeneration)]));
      AdmitFreshMoves(s, o, w);
    case QueuedEvent(o) => RunQueuedMoves(s, o, w);
    case FinishEvent(generation) => FinishMoves(s, generation, w);
    case _ =>
      RemovalSheds(s, e, w);
      ShedsMoves(s, Step(s, e, w));
  }
}
