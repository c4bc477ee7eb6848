/** Exactly when a reload gets the links right although something was recorded meanwhile, over one
    reload and over whole runs; and a run in which it does not. */
module NotificationOrphans {
  import opened Basics
  import opened NotificationModel
  import opened NotificationSteps
  import opened NotificationInvariant
  import opened NotificationSafety
  import opened NotificationTracking
  import opened NotificationReload
  import opened NotificationRecognition
  import opened NotificationPresentation
  import opened NotificationAgeing
  import opened NotificationBounds
  import opened NotificationRuns
  import opened NotificationCallbacks

  // ---------------------------------------------------------------- exactly when the links come out right

  /** No record still marked live is among the old ones a reload would keep. */
  ghost predicate NoOldLive(s: State, w: World)
    requires CounterOk(s.historyKeys)
  {
    forall r :: r in KeptOld(s.history, RecordedCount(s, w), w.now) ==> !r.live
  }

  lemma KeptBelow(s: State, count: nat, now: nat)
    requires Inv(s)
    ensures forall r :: r in KeptOld(s.history, count, now) ==> r in s.history && r.key < Limit(s.historyKeys)
  {
    KeptOldIn(s.history, count, now);
    hide KeptOld;
  }

  /** An old record still marked live has no holder any more, or a transient one. */
  lemma OldLiveRecordBreaks(s: State, t: State, ids: seq<nat>, w: World, r: Record)
    requires Inv(s) && Account(s, t, ids, w) && t.live.Keys == Survivors(s, w)
    requires forall id :: id in t.live ==> Survived(s, t, id, w)
    requires r in KeptOld(s.history, |ids|, w.now) && r.live
    ensures !OneToOne(t)
  {
    KeptBelow(s, |ids|, w.now);
    hide KeptOld, Inv, NewRecords, Limit, Survivors;
    assert r in t.history;
    if holder :| holder in t.live && t.live[holder].recordKey == Some(r.key) {
      assert Survived(s, t, holder, w);
      NewHolders(s, t, ids, w);
      HolderIsTransient(s, t, ids, holder, w);
    } else {
      assert !HasHolder(t.live, r.key);
    }
  }

  lemma NewHolders(s: State, t: State, ids: seq<nat>, w: World)
    requires Account(s, t, ids, w)
    ensures forall id :: id in ids ==>
              id in t.live && t.live[id].recordKey.Some? && t.live[id].recordKey.value >= Limit(s.historyKeys)
  {
    hide KeptOld, NewRecords, Limit, Survivors, Lasting, OldLink;
  }

  lemma HolderIsTransient(s: State, t: State, ids: seq<nat>, id: nat, w: World)
    requires Account(s, t, ids, w) && id in t.live && id !in ids && t.live[id].recordKey.Some?
    requires t.live.Keys == Survivors(s, w) && Survived(s, t, id, w)
    ensures t.live[id].transient
  {
    hide KeptOld, NewRecords, Limit;
  }

  /** A link that is left leads to a record that is left, and that is live. */
  lemma OldLinkIsLive(s: State, id: nat, kept: seq<Record>)
    requires Inv(s) && id in s.live && OldLink(s.live[id], kept).Some? && forall r :: r in kept ==> r in s.history
    ensures exists r :: r in kept && r.live
  {
    var k := s.live[id].recordKey.value;
    assert k in LinkedKeys(s.live);
    var r :| r in kept && r.key == k;
    var q :| q in s.history && q.live && q.key == k;
    assert r == q;
  }

  lemma OnlyNewLinks(s: State, t: State, ids: seq<nat>, w: World)
    requires Inv(s) && Account(s, t, ids, w) && t.live.Keys == Survivors(s, w)
    requires forall id :: id in t.live ==> Survived(s, t, id, w)
    requires forall r :: r in KeptOld(s.history, |ids|, w.now) ==> !r.live
    ensures forall id :: id in t.live && t.live[id].recordKey.Some? ==> id in ids
  {
    KeptBelow(s, |ids|, w.now);
    hide KeptOld, Inv, NewRecords, Limit, Survivors, Lasting, OldLink;
    forall id | id in t.live && t.live[id].recordKey.Some? ensures id in ids {
      assert Survived(s, t, id, w);
      if id !in ids {
        OldLinkIsLive(s, id, KeptOld(s.history, |ids|, w.now));
        assert false;
      }
    }
  }

  lemma NewRecordsHeld(s: State, t: State, ids: seq<nat>, w: World)
    requires Account(s, t, ids, w) && forall r :: r in KeptOld(s.history, |ids|, w.now) ==> !r.live
    ensures LiveKeys(t.history) <= LinkedKeys(t.live)
  {
    hide KeptOld, Limit, Survivors, Lasting, OldLink, NewRecords;
    var front, kept := NewRecords(s, ids, w), KeptOld(s.history, |ids|, w.now);
    forall k | k in LiveKeys(t.history) ensures k in LinkedKeys(t.live) {
      var r :| r in t.history && r.live && r.key == k;
      assert r in front || r in kept;
      var i :| 0 <= i < |front| && front[i] == r;
      NewSize(s, ids, w);
      NewRecordAt(s, ids, |ids| - 1 - i, w);
      assert t.live[ids[|ids| - 1 - i]].recordKey == Some(k);
    }
  }

  lemma NewSize(s: State, ids: seq<nat>, w: World)
    requires AllTracked(s, ids)
    ensures |NewRecords(s, ids, w)| == |ids|
  {}

  lemma NewLinksLead(s: State, t: State, ids: seq<nat>, w: World)
    requires Account(s, t, ids, w) && forall id :: id in t.live && t.live[id].recordKey.Some? ==> id in ids
    ensures LinkedKeys(t.live) <= LiveKeys(t.history)
  {
    hide KeptOld, Limit, Survivors, Lasting, OldLink, NewRecords;
    var front := NewRecords(s, ids, w);
    forall k | k in LinkedKeys(t.live) ensures k in LiveKeys(t.history) {
      var id :| id in t.live && t.live[id].recordKey == Some(k);
      var j :| 0 <= j < |ids| && ids[j] == id;
      NewSize(s, ids, w);
      NewRecordAt(s, ids, j, w);
      assert front[|ids| - 1 - j] in t.history;
    }
  }

  lemma NewHoldersApart(s: State, t: State, ids: seq<nat>, w: World)
    requires Account(s, t, ids, w) && forall id :: id in t.live && t.live[id].recordKey.Some? ==> id in ids
    ensures forall a, b ::
              (a in t.live && b in t.live && t.live[a].recordKey.Some? && t.live[a].recordKey == t.live[b].recordKey)
              ==> a == b
  {
    hide KeptOld, Limit, Survivors, Lasting, OldLink, NewRecords;
    forall a, b | a in t.live && b in t.live && t.live[a].recordKey.Some? && t.live[a].recordKey == t.live[b].recordKey
      ensures a == b
    {
      var i :| 0 <= i < |ids| && ids[i] == a;
      var j :| 0 <= j < |ids| && ids[j] == b;
    }
  }

  lemma ReconcileCounters(s: State, w: World)
    requires Inv(s)
    ensures
      var t := Reconcile(s, w);
      && CounterOk(t.historyKeys) && t.liveKeys == s.liveKeys
      && HistoryOk(t.history, t.historyKeys) && |t.history| <= MAX_HISTORY
  {
    var carried := SortDescending(FirstPerId(s.buffered, true, {}, w));
    hide Inv, RecogniseAll, Survivors, HistoryOk, CounterOk;
    var ids := AllRecognised(s, w);
    MidCounters(s, RecogniseAll(s.(buffered := []), carried, w), ids, Survivors(s, w), w);
    RecogniseAllSequences(s.(buffered := []), carried, w);
  }

  lemma MidCounters(s: State, v: State, ids: seq<nat>, done: set<nat>, w: World)
    requires Mid(s, v, ids, done, w)
    ensures CounterOk(v.historyKeys) && HistoryOk(v.history, v.historyKeys) && |v.history| <= MAX_HISTORY
  {}

  lemma RecogniseSequences(v: State, o: Object, w: World)
    ensures Recognise(v, o, w).liveKeys == v.liveKeys
  {
    hide Prune;
    forall t, now ensures Prune(t, now).liveKeys == t.liveKeys { PruneIsLocal(t, now); }
    if !Owns(v, o) {
      UnownedIsLeft(v, o, w);
    }
  }

  lemma {:induction false} RecogniseAllSequences(v: State, objects: seq<Object>, w: World)
    ensures RecogniseAll(v, objects, w).liveKeys == v.liveKeys
    decreases |objects|
  {
    hide Recognise;
    if objects != [] {
      RecogniseSequences(v, objects[|objects| - 1], w);
      RecogniseAllSequences(Recognise(v, objects[|objects| - 1], w), objects[..|objects| - 1], w);
    }
  }

  lemma SurvivedAssociations(s: State, t: State, w: World)
    requires AssociationsOk(s.live, s.liveKeys) && t.live.Keys <= s.live.Keys
    requires forall id :: id in t.live ==> Survived(s, t, id, w)
    ensures AssociationsOk(t.live, s.liveKeys)
  {
    hide Limit;
    SubsetSize(t.live.Keys, s.live.Keys);
    assert |t.live| == |t.live.Keys| && |s.live| == |s.live.Keys|;
    forall id | id in t.live
      ensures SameIdentity(t.live[id], s.live[id])
      ensures t.live[id].deadline == s.live[id].deadline && t.live[id].revision == s.live[id].revision
    {
      assert Survived(s, t, id, w);
    }
  }

  lemma LastingIsRecorded(s: State, t: State, ids: seq<nat>, w: World)
    requires Account(s, t, ids, w) && forall id :: id in t.live ==> Survived(s, t, id, w)
    requires forall id :: id in t.live && t.live[id].recordKey.Some? ==> id in ids
    ensures forall id :: id in t.live && t.live[id].transient ==> t.live[id].recordKey.None?
  {
    hide KeptOld, Limit, Survivors, OldLink, NewRecords;
    forall id | id in t.live && t.live[id].transient ensures t.live[id].recordKey.None? {
      assert Survived(s, t, id, w);
    }
  }

  lemma Assembled(t: State)
    requires CounterOk(t.historyKeys) && CounterOk(t.liveKeys) && HistoryOk(t.history, t.historyKeys)
    requires AssociationsOk(t.live, t.liveKeys) && LinksOk(t.live) && LiveKeys(t.history) == LinkedKeys(t.live)
    requires |t.history| <= MAX_HISTORY
    ensures Inv(t)
  {
    hide CounterOk, HistoryOk, AssociationsOk, LinksOk, LiveKeys, LinkedKeys;
  }

  lemma RightLinks(s: State, t: State, ids: seq<nat>, w: World)
    requires Inv(s) && Account(s, t, ids, w) && t.live.Keys == Survivors(s, w)
    requires forall id :: id in t.live ==> Survived(s, t, id, w)
    requires forall r :: r in KeptOld(s.history, |ids|, w.now) ==> !r.live
    ensures LinksOk(t.live) && LiveKeys(t.history) == LinkedKeys(t.live)
  {
    hide Inv, KeptOld, Survivors, Survived, Account, LinkedKeys, LiveKeys;
    OnlyNewLinks(s, t, ids, w);
    NewRecordsHeld(s, t, ids, w);
    NewLinksLead(s, t, ids, w);
    NewHoldersApart(s, t, ids, w);
    LastingIsRecorded(s, t, ids, w);
  }

  lemma NoOldLiveIsRight(s: State, w: World)
    requires Inv(s) && NoneSeen(s.live) && NoOldLive(s, w)
    ensures Inv(Reconcile(s, w))
  {
    assert AssociationsOk(s.live, s.liveKeys) && CounterOk(s.liveKeys);
    hide Inv, Reconcile, KeptOld, Survivors, Survived, Account, LinkedKeys, LiveKeys, CounterOk, HistoryOk,
      AssociationsOk, LinksOk;
    var t := Reconcile(s, w);
    var ids := ReloadAccount(s, w);
    ReconcileCounters(s, w);
    RightLinks(s, t, ids, w);
    SurvivorsTracked(s, w);
    SurvivedAssociations(s, t, w);
    Assembled(t);
  }

  lemma SurvivorsTracked(s: State, w: World)
    ensures Survivors(s, w) <= s.live.Keys
  {}

  /** Whatever queued replacements recorded and linked while a generation was reconciled: at the end of the
      reconciliation, before newcomers are admitted, live records and links are one to one exactly when no
      record still marked live is left of those there were before. Admitting newcomers can prune such a
      record again, so for the state after that the condition is sufficient. */
  lemma ReconcileExactly(s: State, w: World)
    requires Inv(s) && NoneSeen(s.live)
    ensures OneToOne(Reconcile(s, w)) <==> NoOldLive(s, w)
    ensures Inv(Reconcile(s, w)) <==> NoOldLive(s, w)
  {
    InvFacts(s);
    hide Inv, OneToOne, Reconcile, KeptOld, Survivors, Survived, Account;
    if NoOldLive(s, w) {
      NoOldLiveIsRight(s, w);
      InvIsOneToOne(Reconcile(s, w));
    } else {
      var ids := ReloadAccount(s, w);
      var r :| r in KeptOld(s.history, RecordedCount(s, w), w.now) && r.live;
      OldLiveRecordBreaks(s, Reconcile(s, w), ids, w, r);
      NotOneToOne(Reconcile(s, w));
    }
  }

  lemma NotOneToOne(t: State)
    requires !OneToOne(t)
    ensures !Inv(t)
  {
    hide Inv, OneToOne;
    if Inv(t) {
      InvIsOneToOne(t);
    }
  }

  // ---------------------------------------------------------------- every reload of every run

  lemma SoundReconciling(s: State)
    requires Sound(s) && s.reconciling
    ensures Inv(s) && NoneSeen(s.live) && CounterOk(s.historyKeys)
  {
    hide Inv, Numbered, Bounded, Historic;
  }

  /** The account of a reload holds for every reload, however the earlier ones ended. */
  lemma EveryReloadAccount(events: seq<(Event, World)>, w: World) returns (ids: seq<nat>)
    requires Run(INITIAL, events).reconciling
    ensures
      var s := Run(INITIAL, events);
      var t := Reconcile(s, w);
      && CounterOk(s.historyKeys)
      && t.live.Keys == Survivors(s, w) && (forall id :: id in t.live ==> Survived(s, t, id, w))
      && |ids| == RecordedCount(s, w) && Account(s, t, ids, w)
  {
    hide Run, Reconcile, Survived, Account, Sound, Inv;
    EveryRunIsSound(events);
    SoundReconciling(Run(INITIAL, events));
    ids := ReloadAccount(Run(INITIAL, events), w);
  }

  lemma EveryReloadExactly(events: seq<(Event, World)>, w: World)
    requires Run(INITIAL, events).reconciling
    ensures
      var s := Run(INITIAL, events);
      CounterOk(s.historyKeys) && (OneToOne(Reconcile(s, w)) <==> NoOldLive(s, w))
  {
    hide Run, Reconcile, OneToOne, NoOldLive, Sound, Inv;
    EveryRunIsSound(events);
    SoundReconciling(Run(INITIAL, events));
    ReconcileExactly(Run(INITIAL, events), w);
  }

  // ---------------------------------------------------------------- whole runs

  ghost predicate Ends(s: State, e: Event) {
    e.FinishEvent? && s.reconciling && e.generation == s.generation
  }

  /** A reload that ends here leaves no old record that is still marked live. */
  ghost predicate Right(s: State, e: Event, w: World) {
    Ends(s, e) ==> CounterOk(s.historyKeys) && NoOldLive(s, w)
  }

  lemma FinishRight(s: State, generation: nat, w: World)
    requires Inv(s) && Tracked(s) && Right(s, FinishEvent(generation), w)
    ensures Inv(FinishGeneration(s, generation, w))
  {
    hide Inv, Reconcile, AdmitAll, Arm, NoOldLive;
    if s.reconciling && generation == s.generation {
      NoOldLiveIsRight(s, w);
      var newcomers := FirstPerId(s.buffered, false, {}, w);
      AdmitAllKeeps(Reconcile(s, w), newcomers, w);
      ArmKeeps(AdmitAll(Reconcile(s, w), newcomers, w), w.now);
    }
  }

  lemma StepFinish(s: State, generation: nat, w: World)
    ensures Step(s, FinishEvent(generation), w) == FinishGeneration(s, generation, w)
  {}

  lemma StepRight(s: State, e: Event, w: World)
    requires Inv(s) && Tracked(s) && Right(s, e, w)
    ensures Inv(Step(s, e, w))
  {
    hide Inv, Tracked, Right, Step, FinishGeneration;
    if e.FinishEvent? {
      StepFinish(s, e.generation, w);
      FinishRight(s, e.generation, w);
    } else {
      StepKeepsInv(s, e, w);
    }
  }

  /** Whether the links are right after an event: a reload that begins restores them, and only one that ends
      can spoil them. */
  ghost predicate RightAfter(s: State, right: bool, e: Event, w: World) {
    if e.BeginEvent? then true else if Ends(s, e) then Right(s, e, w) else right
  }

  /** The last reload that ended in a run, if none has begun since, left no old record still marked live. */
  ghost predicate RightRun(s: State, right: bool, events: seq<(Event, World)>)
    decreases |events|
  {
    if events == [] then right
    else
      var (e, w) := events[0];
      RightRun(Step(s, e, w), RightAfter(s, right, e, w), events[1..])
  }

  lemma StepRightAfter(s: State, right: bool, e: Event, w: World)
    requires Sound(s) && (right ==> Inv(s))
    ensures RightAfter(s, right, e, w) ==> Inv(Step(s, e, w))
  {
    hide Inv, Tracked, Numbered, Bounded, Apart, Historic, Right, Step, BeginGeneration;
    if e.BeginEvent? {
      BeginRestores(s, w.now);
      StepBegin(s, w);
    } else if RightAfter(s, right, e, w) {
      assert Right(s, e, w) by { NotEnding(s, e, w); }
      StepRight(s, e, w);
    }
  }

  lemma NotEnding(s: State, e: Event, w: World)
    ensures !Ends(s, e) ==> Right(s, e, w)
  {}

  lemma {:induction false} RunRight(s: State, right: bool, events: seq<(Event, World)>)
    requires Sound(s) && (right ==> Inv(s)) && RightRun(s, right, events)
    ensures Inv(Run(s, events))
    decreases |events|
  {
    hide Inv, Sound, Step, RightAfter;
    if events != [] {
      var (e, w) := events[0];
      StepSound(s, e, w);
      StepRightAfter(s, right, e, w);
      RunRight(Step(s, e, w), RightAfter(s, right, e, w), events[1..]);
    }
  }

  /** However earlier reloads ended, live records and linked associations are one to one whenever the last one
      ended right, and while one is under way. */
  lemma ReachableIsOneToOne(events: seq<(Event, World)>)
    requires RightRun(INITIAL, true, events)
    ensures
      var s := Run(INITIAL, events);
      OneToOne(s) && |s.live| <= MAX_LIVE && |s.history| <= MAX_HISTORY
  {
    hide Inv, Run, OneToOne, RightRun, Sound;
    InitialInv();
    InitialSound();
    RunRight(INITIAL, true, events);
    InvIsOneToOne(Run(INITIAL, events));
  }

  lemma SettledIsRight(s: State, e: Event, w: World)
    requires Inv(s) && Settled(s)
    ensures Right(s, e, w)
  {
    hide Survivors;
    if s.reconciling {
      InvFacts(s);
      assert KeptOld([], RecordedCount(s, w), w.now) == [];
    }
  }

  /** So they do when no queued replacement records anything while a generation is reconciled. */
  lemma {:induction false} PermittedIsRight(s: State, events: seq<(Event, World)>)
    requires Inv(s) && Settled(s) && PermittedRun(s, events)
    ensures RightRun(s, true, events)
    decreases |events|
  {
    hide Inv, Settled, Step, Permitted, Right;
    if events != [] {
      SettledIsRight(s, events[0].0, events[0].1);
      StepKeeps(s, events[0].0, events[0].1);
      PermittedIsRight(Step(s, events[0].0, events[0].1), events[1..]);
    }
  }

  // ---------------------------------------------------------------- a run in which they do not

  /** Attached, updated, a reload begins, the replacement posted before runs, the reload ends. */
  ghost function Interleaved(o: Object, before: World, after: World): seq<(Event, World)> {
    [(AttachEvent(o, 0, false), before), (UpdateEvent(o), before), (BeginEvent, before),
     (QueuedEvent(o), after), (FinishEvent(1), after)]
  }

  ghost predicate OneTransient(s: State, o: Object, queued: bool) {
    && s.live.Keys == {o.protocolId} && Owns(s, o)
    && s.live[o.protocolId].transient && s.live[o.protocolId].recordKey.None?
    && s.live[o.protocolId].updateQueued == queued
    && s.history == [] && s.buffered == [] && s.historyKeys == Counter(1, false)
  }

  lemma AttachedIs(o: Object, w: World)
    requires o.protocolId != 0 && w.read(o).transient
    ensures
      var s := Step(INITIAL, AttachEvent(o, 0, false), w);
      OneTransient(s, o, false) && !s.reconciling && s.generation == 0
    ensures Posted(INITIAL, AttachEvent(o, 0, false), w) == multiset{}
  {
    hide TimerFor, SourceToken;
  }

  lemma UpdatedIs(s: State, o: Object, w: World)
    requires OneTransient(s, o, false) && !s.reconciling
    ensures
      var t := Step(s, UpdateEvent(o), w);
      OneTransient(t, o, true) && !t.reconciling && t.generation == s.generation
    ensures Posted(s, UpdateEvent(o), w) == multiset{o}
  {}

  lemma BegunIs(s: State, o: Object, w: World)
    requires OneTransient(s, o, true) && s.generation == 0
    ensures
      var t := Step(s, BeginEvent, w);
      OneTransient(t, o, false) && NoneSeen(t.live) && t.reconciling && t.generation == 1
  {
    hide TimerFor;
  }

  lemma FirstRecorded(s: State, n: Notification, now: nat)
    requires s.history == [] && s.historyKeys == Counter(1, false) && !n.transient
    ensures AdmitHistory(s, n, now)
      == (s.(historyKeys := Counter(2, false), history := [MakeRecord(n, 1, now)]), Some(1))
  {
    var r := MakeRecord(n, 1, now);
    var s1 := s.(historyKeys := Counter(2, false), history := [r]);
    assert [r] + s.history == [r];
    assert StaleKeys([r], now) == {};
    assert Without([r], {}) == [r] by { assert Without([r][1..], {}) == []; }
    assert Unlink(s.live, {}) == s.live;
    assert Prune(s1, now) == s1;
    assert r in s1.history;
  }

  lemma ReplacedIs(s: State, o: Object, w: World)
    requires OneTransient(s, o, false) && NoneSeen(s.live) && w.alive(o) && !w.read(o).transient
    ensures
      var t := RunQueued(s, o, w);
      && t.live.Keys == {o.protocolId} && NoneSeen(t.live) && t.history == [MakeRecord(w.read(o), 1, w.now)]
      && t.buffered == [] && t.reconciling == s.reconciling && t.generation == s.generation
  {
    hide TimerFor, AdmitHistory;
    var id, n := o.protocolId, w.read(o);
    var s1 := s.(live := s.live[id := s.live[id].(updateQueued := false)]);
    PruneOfNothing(s1, w.now);
    FirstRecorded(s1, n, w.now);
  }

  lemma FinishesEmpty(s: State, w: World)
    requires s.reconciling && s.generation == 1 && s.buffered == [] && NoneSeen(s.live)
    ensures FinishGeneration(s, 1, w).live == map[] && FinishGeneration(s, 1, w).history == s.history
  {
    hide TimerFor;
    assert RecogniseAll(s.(buffered := []), [], w) == s.(buffered := []);
    assert SeenOnly(s.live) == map[];
  }

  lemma RunSplit(s: State, e: Event, w: World, rest: seq<(Event, World)>, posted: multiset<Object>)
    ensures Run(s, [(e, w)] + rest) == Run(Step(s, e, w), rest)
    ensures Delivered(s, posted, [(e, w)] + rest)
      <==> Taken(e) <= posted && Delivered(Step(s, e, w), OnTheWay(s, posted, e, w), rest)
  {
    assert ([(e, w)] + rest)[1..] == rest;
    hide Step;
  }

  /** The guard matters: a replacement posted before a reload and run while it is reconciled can leave
      a record marked live that nothing holds. */
  lemma QueuedDuringReconciliationLeavesOrphan(o: Object, before: World, after: World)
    requires o.protocolId != 0 && before.read(o).transient && !after.read(o).transient && after.alive(o)
    ensures Delivered(INITIAL, multiset{}, Interleaved(o, before, after))
    ensures
      var s := Run(INITIAL, Interleaved(o, before, after));
      && s.live == map[] && s.history == [MakeRecord(after.read(o), 1, after.now)] && s.history[0].live
      && !OneToOne(s)
  {
    hide Step, Run, Delivered, TimerFor, Posted, OneTransient, Owns, NoneSeen;
    var es := Interleaved(o, before, after);
    AttachedIs(o, before);
    var s1 := Step(INITIAL, es[0].0, before);
    UpdatedIs(s1, o, before);
    var s2 := Step(s1, es[1].0, before);
    BegunIs(s2, o, before);
    var s3 := Step(s2, es[2].0, before);
    ReplacedIs(s3, o, after);
    var s4 := Step(s3, es[3].0, after);
    assert s4 == RunQueued(s3, o, after) by { StepQueued(s3, o, after); }
    FinishesEmpty(s4, after);
    var s5 := Step(s4, es[4].0, after);
    assert s5 == FinishGeneration(s4, 1, after) by { StepFinish(s4, 1, after); }
    RunsThrough(o, before, after, s1, s2, s3, s4, s5);
    assert s5.history[0] in s5.history;
    assert !HasHolder(s5.live, s5.history[0].key);
  }

  lemma RunsThrough(o: Object, before: World, after: World, s1: State, s2: State, s3: State, s4: State, s5: State)
    requires s1 == Step(INITIAL, AttachEvent(o, 0, false), before) && s2 == Step(s1, UpdateEvent(o), before)
    requires s3 == Step(s2, BeginEvent, before) && s4 == Step(s3, QueuedEvent(o), after)
    requires s5 == Step(s4, FinishEvent(1), after)
    requires Posted(INITIAL, AttachEvent(o, 0, false), before) == multiset{}
    requires Posted(s1, UpdateEvent(o), before) == multiset{o}
    ensures Run(INITIAL, Interleaved(o, before, after)) == s5
    ensures Delivered(INITIAL, multiset{}, Interleaved(o, before, after))
  {
    hide Step, Posted, OnTheWay;
    var es := Interleaved(o, before, after);
    var o2 := multiset{o};
    NothingTaken(INITIAL, multiset{}, AttachEvent(o, 0, false), before);
    NothingTaken(s1, multiset{}, UpdateEvent(o), before);
    NothingPosted(s2, o2, BeginEvent, before);
    assert o2 - multiset{} == o2 && multiset{} + o2 == o2;
    var o4 := OnTheWay(s3, o2, QueuedEvent(o), after);
    hide Run, Delivered;
    RunSplit(s4, FinishEvent(1), after, [], o4);
    RunSplit(s3, QueuedEvent(o), after, es[4..], o2);
    RunSplit(s2, BeginEvent, before, es[3..], o2);
    RunSplit(s1, UpdateEvent(o), before, es[2..], multiset{});
    RunSplit(INITIAL, AttachEvent(o, 0, false), before, es[1..], multiset{});
    RunEnds(s5, OnTheWay(s4, o4, FinishEvent(1), after));
    assert es[4..] == [es[4]] + [] && es[3..] == [es[3]] + es[4..] && es[2..] == [es[2]] + es[3..];
    assert es[1..] == [es[1]] + es[2..] && es == [es[0]] + es[1..];
  }

  lemma RunEnds(s: State, posted: multiset<Object>)
    ensures Run(s, []) == s && Delivered(s, posted, [])
  {}
}
