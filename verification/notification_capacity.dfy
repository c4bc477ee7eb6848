/** What happens when a newcomer meets a full table. */
module NotificationCapacity {
  import opened Basics
  import opened NotificationModel
  import opened NotificationSteps
  import opened NotificationInvariant
  import opened NotificationSafety
  import opened NotificationTracking
  import opened NotificationReload
  import opened NotificationPresentation
  import opened NotificationAgeing
  import opened NotificationBounds
  import opened NotificationRuns

  /** The state in which the capacity decision is taken: the newcomer's record is already admitted. */
  ghost function Contest(s: State, o: Object, w: World): (State, Association)
    requires !s.liveKeys.exhausted
  {
    var (sequence, counter) := Allocate(s.liveKeys);
    var (s1, key) := AdmitHistory(s.(liveKeys := counter), w.read(o), w.now);
    (s1, Newcomer(o, w.read(o), key, sequence.value))
  }

  /** A newcomer meets a full table, in any state whatsoever that a run can reach. */
  ghost predicate NewAndFull(s: State, o: Object) {
    && Numbered(s) && Keyed(s.live) && OneHolder(s.live)
    && |s.live| == MAX_LIVE && !s.liveKeys.exhausted && o.protocolId != 0 && o.protocolId !in s.live
  }

  /** Nothing but links was touched so far, and the newcomer is the youngest. */
  ghost predicate Meets(s: State, newcomer: Association) {
    && SequencesDistinct(s.live) && Keyed(s.live) && OneHolder(s.live) && |s.live| == MAX_LIVE
    && newcomer.notification.protocolId !in s.live
    && forall id :: id in s.live ==> s.live[id].sequence < newcomer.sequence
  }

  lemma MeetsAfter(s: State, t: State, newcomer: Association)
    requires Meets(s, newcomer) && SameButLinks(t.live, s.live)
    ensures Meets(t, newcomer)
  {
    SameSize(t.live, s.live);
    assert forall id :: id in t.live ==> t.live[id].sequence == s.live[id].sequence;
    assert forall id :: id in t.live ==> t.live[id].notification == s.live[id].notification;
    assert forall id :: id in t.live ==> t.live[id].recordKey in {None, s.live[id].recordKey};
  }

  lemma ContestFacts(s: State, o: Object, w: World)
    requires NewAndFull(s, o)
    ensures
      var (s1, newcomer) := Contest(s, o, w);
      && Meets(s1, newcomer) && SameButLinks(s1.live, s.live)
      && newcomer.notification == o && newcomer.sequence == s.liveKeys.next
      && AdmitFresh(s, o, w) == Contend(s1, newcomer, w.read(o), w)
  {
    hide AdmitHistory, Contend, SourceToken;
    var s0 := s.(liveKeys := Allocate(s.liveKeys).1);
    AdmitHistoryLinks(s0, w.read(o), w.now);
    var (s1, newcomer) := Contest(s, o, w);
    assert Meets(s, newcomer);
    MeetsAfter(s, s1, newcomer);
  }

  lemma VictimIsLeast(s: State, newcomer: Association)
    requires Meets(s, newcomer)
    ensures IsVictim(s.live, s.history, newcomer, Victim(s.live, s.history, newcomer))
  {
    VictimExists(s.live, s.history, newcomer);
  }

  /** The table after a contest, told from who is the weakest and how it answers. */
  ghost predicate ContestResult(s: State, newcomer: Association, victim: Option<nat>, after: map<nat, Association>,
                                w: World)
    requires victim.Some? ==> victim.value in s.live
  {
    match victim
    case None => after == s.live
    case Some(v) =>
      var held := s.live[v].notification;
      var id := newcomer.notification.protocolId;
      if ExpireCalled(held, w) && w.expire(held).Closes?
      then after.Keys == s.live.Keys - {v} + {id} && after[id].sequence == newcomer.sequence
        && forall other :: other in s.live && other != v ==> after[other] == s.live[other]
      else after == s.live
  }

  /** An object that is not tracked is told to expire in vain. */
  lemma TurnAwayLeaves(s: State, o: Object, key: Option<nat>, w: World)
    requires o.protocolId !in s.live
    ensures
      var marked := if key.Some? then Expired(s.history, key.value) else s.history;
      TurnAway(s, o, key, w).live == s.live && TurnAway(s, o, key, w).history == marked
  {
    hide TimerFor, Expired;
  }

  lemma RefusedVictim(s: State, newcomer: Association, n: Notification, w: World, v: nat)
    requires Meets(s, newcomer) && v in s.live && Victim(s.live, s.history, newcomer) == Some(v)
    requires !(ExpireCalled(s.live[v].notification, w) && w.expire(s.live[v].notification).Closes?)
    ensures Contend(s, newcomer, n, w).live == s.live
  {
    hide Install, TurnAway, Victim, WeakerThan;
    TurnAwayLeaves(s, newcomer.notification, newcomer.recordKey, w);
  }

  /** The victim goes, and nobody else is touched. */
  lemma ClosedLeaves(s: State, o: Object, w: World)
    requires Keyed(s.live) && OneHolder(s.live) && o.protocolId in s.live && s.live[o.protocolId].notification == o
    requires ExpireCalled(o, w) && w.expire(o).Closes?
    ensures AfterExpire(s, o, w).live == s.live - {o.protocolId}
  {
    hide TimerFor, Expired, Without;
    var v := o.protocolId;
    if s.live[v].recordKey.Some? {
      var k := s.live[v].recordKey.value;
      assert Unlink(s.live, {k}) - {v} == s.live - {v};
    }
  }

  lemma ClosedVictim(s: State, newcomer: Association, n: Notification, w: World, v: nat)
    requires Meets(s, newcomer) && v in s.live && Victim(s.live, s.history, newcomer) == Some(v)
    requires ExpireCalled(s.live[v].notification, w) && w.expire(s.live[v].notification).Closes?
    ensures ContestResult(s, newcomer, Some(v), Contend(s, newcomer, n, w).live, w)
  {
    hide TurnAway, AfterExpire, Victim, WeakerThan, TimerFor, OneHolder, SequencesDistinct;
    ClosedLeaves(s, s.live[v].notification, w);
    DropSize(s.live, v);
  }

  /** Exactly one contender is the weakest, and it alone can lose its place. */
  lemma EvictsTheWeakest(s: State, o: Object, w: World, victim: Option<nat>)
    requires NewAndFull(s, o)
    requires
      var (s1, newcomer) := Contest(s, o, w);
      IsVictim(s1.live, s1.history, newcomer, victim)
    ensures
      var (s1, newcomer) := Contest(s, o, w);
      ContestResult(s1, newcomer, victim, AdmitFresh(s, o, w).live, w)
    ensures |AdmitFresh(s, o, w).live| <= MAX_LIVE
  {
    var (s1, newcomer) := Contest(s, o, w);
    ContestFacts(s, o, w);
    assert victim == Victim(s1.live, s1.history, newcomer) by {
      VictimIsLeast(s1, newcomer);
      VictimUnique(s1.live, s1.history, newcomer, victim, Victim(s1.live, s1.history, newcomer));
    }
    AdmitFreshFits(s, o, w);
    hide AdmitFresh, Contest, Victim, TurnAway, AfterExpire, WeakerThan, Install, OneHolder, SequencesDistinct;
    match victim
    case None =>
      TurnAwayLeaves(s1, o, newcomer.recordKey, w);
    case Some(v) =>
      if ExpireCalled(s1.live[v].notification, w) && w.expire(s1.live[v].notification).Closes? {
        ClosedVictim(s1, newcomer, w.read(o), w, v);
      } else {
        RefusedVictim(s1, newcomer, w.read(o), w, v);
      }
  }

  /** Over every run: a newcomer to a full table displaces the weakest of all, or nobody. */
  lemma EveryRunEvictsTheWeakest(events: seq<(Event, World)>, o: Object, w: World, victim: Option<nat>)
    requires
      var s := Run(INITIAL, events);
      |s.live| == MAX_LIVE && !s.liveKeys.exhausted && o.protocolId != 0 && o.protocolId !in s.live
    requires
      var (s1, newcomer) := Contest(Run(INITIAL, events), o, w);
      IsVictim(s1.live, s1.history, newcomer, victim)
    ensures
      var (s1, newcomer) := Contest(Run(INITIAL, events), o, w);
      ContestResult(s1, newcomer, victim, AdmitFresh(Run(INITIAL, events), o, w).live, w)
  {
    EveryRunIsSound(events);
    hide Run, AdmitFresh, Contest, IsVictim, ContestResult, Numbered, OneHolder, Inv, Bounded, Historic;
    EvictsTheWeakest(Run(INITIAL, events), o, w, victim);
  }

  lemma DropSize<V>(m: map<nat, V>, id: nat)
    requires id in m
    ensures |m - {id}| == |m| - 1
  {
    assert (m - {id}).Keys == m.Keys - {id};
    SameSize(m - {id}, m - {id});
    assert |m| == |m.Keys|;
  }

  /** The newcomer, being the youngest, is turned away by rank only when everyone else outranks it. */
  lemma NewcomerLosesOnlyToAll(s: State, o: Object, w: World)
    requires NewAndFull(s, o)
    ensures
      var (s1, newcomer) := Contest(s, o, w);
      IsVictim(s1.live, s1.history, newcomer, None)
      <==> forall id :: id in s1.live ==> CapacityClass(newcomer, s1.history) < CapacityClass(s1.live[id], s1.history)
  {
    ContestFacts(s, o, w);
    hide Contest, CapacityClass, AdmitFresh, OneHolder, Numbered;
  }

  lemma HistoryKeysAfter(s: State, n: Notification, now: nat)
    requires CounterOk(s.historyKeys)
    ensures
      var t := AdmitHistory(s, n, now).0;
      forall k :: k in Keys(t.history) && k < Limit(s.historyKeys) ==> k in Keys(s.history)
  {
    var (key, counter) := Allocate(s.historyKeys);
    if !n.transient && key.Some? {
      var r := MakeRecord(n, key.value, now);
      PrunedWithin(s.(historyKeys := counter, history := [r] + s.history), now);
      hide Prune;
      assert forall q :: q in [r] + s.history ==> q == r || q in s.history;
    }
  }

  lemma PrunedWithin(s: State, now: nat)
    ensures forall r :: r in Prune(s, now).history ==> r in s.history
  {
    hide Unlink, StaleKeys;
    var aged := PruneByAge(s, now);
    assert forall r :: r in aged.history ==> r in s.history;
    assert forall r :: r in PruneOverflow(aged).history ==> r in aged.history;
  }

  /** Making room for the newcomer's record can cost an old association its rank. */
  lemma DisplacedRecordLosesRank(s: State, o: Object, w: World, id: nat)
    requires NewAndFull(s, o) && Apart(s) && id in s.live
    ensures
      var (s1, newcomer) := Contest(s, o, w);
      CapacityClass(s1.live[id], s1.history) in {0, CapacityClass(s.live[id], s.history)}
  {
    ContestFacts(s, o, w);
    HistoryKeysAfter(s.(liveKeys := Allocate(s.liveKeys).1), w.read(o), w.now);
    hide Keys, AdmitHistory, Contend, SourceToken, Numbered, OneHolder;
    var (s1, newcomer) := Contest(s, o, w);
    assert s1.live[id] in {s.live[id], s.live[id].(recordKey := None)};
  }

  /** The newcomer's record is in front and was not pruned. */
  lemma NewestStays(s: State, n: Notification, now: nat)
    requires Historic(s) && !n.transient && !s.historyKeys.exhausted
    ensures
      var (t, key) := AdmitHistory(s, n, now);
      key == Some(s.historyKeys.next) && MakeRecord(n, s.historyKeys.next, now) in t.history
  {
    var (key, counter) := Allocate(s.historyKeys);
    var r := MakeRecord(n, key.value, now);
    var s1 := s.(historyKeys := counter, history := [r] + s.history);
    assert r.key !in StaleKeys(s1.history, now) by {
      assert forall q :: q in s1.history && q.key == r.key ==> q == r;
    }
    var aged := PruneByAge(s1, now);
    assert aged.history[0] == r;
    assert PruneOverflow(aged).history[0] == r;
  }

  /** A newcomer that is not tracked in the end is remembered, as an expired record. */
  lemma TurnedAwayIsRemembered(s: State, o: Object, w: World)
    requires NewAndFull(s, o) && Apart(s) && Historic(s) && o.protocolId !in AdmitFresh(s, o, w).live
    requires !w.read(o).transient && !s.historyKeys.exhausted
    ensures
      var after := AdmitFresh(s, o, w);
      Expired([MakeRecord(w.read(o), s.historyKeys.next, w.now)], s.historyKeys.next)[0] in after.history
  {
    var n := w.read(o);
    var (s1, newcomer) := Contest(s, o, w);
    ContestFacts(s, o, w);
    var key := s.historyKeys.next;
    var r := MakeRecord(n, key, w.now);
    NewestStays(s.(liveKeys := Allocate(s.liveKeys).1), n, w.now);
    assert newcomer.recordKey == Some(key) && r in s1.history;
    assert forall id :: id in s1.live ==> s1.live[id].recordKey != Some(key) by { OldLinks(s, s1); }
    hide AdmitFresh, Contest, Victim, TurnAway, AfterExpire, Install, WeakerThan, OneHolder, Numbered, Historic, Apart;
    var v := Victim(s1.live, s1.history, newcomer);
    VictimIsLeast(s1, newcomer);
    if v.None? {
      TurnAwayLeaves(s1, o, newcomer.recordKey, w);
      MarkedIn(s1.history, r);
    } else {
      var held := s1.live[v.value].notification;
      AfterExpireSheds(s1, held, w);
      OthersSurvive(s1, held, w, key);
      var s2 := AfterExpire(s1, held, w);
      TurnAwayLeaves(s2, o, newcomer.recordKey, w);
      MarkedIn(s2.history, r);
    }
  }

  lemma OldLinks(s: State, t: State)
    requires Apart(s) && SameButLinks(t.live, s.live) && !s.historyKeys.exhausted
    ensures forall id :: id in t.live ==> t.live[id].recordKey != Some(s.historyKeys.next)
  {
    hide OneHolder;
    forall id | id in t.live ensures t.live[id].recordKey in {None, s.live[id].recordKey} {
      assert t.live[id] in {s.live[id], s.live[id].(recordKey := None)};
    }
  }

  lemma MarkedIn(history: seq<Record>, r: Record)
    requires r in history
    ensures Expired([r], r.key)[0] in Expired(history, r.key)
  {
    var i :| 0 <= i < |history| && history[i] == r;
    assert Expired(history, r.key)[i] == Expired([r], r.key)[0];
  }

  /** Expiring a notification touches no record but its own: none under a key it does not hold. */
  lemma OthersSurvive(s: State, o: Object, w: World, key: nat)
    requires forall id :: id in s.live ==> s.live[id].recordKey != Some(key)
    ensures forall r :: r in s.history && r.key == key ==> r in AfterExpire(s, o, w).history
  {
    hide TimerFor, Unlink;
    if Owns(s, o) && s.live[o.protocolId].recordKey.Some? {
      var k := s.live[o.protocolId].recordKey.value;
      forall r | r in s.history && r.key == key ensures r in Expired(s.history, k) {
        var i :| 0 <= i < |s.history| && s.history[i] == r;
        assert Expired(s.history, k)[i] == r;
      }
    }
  }
}
