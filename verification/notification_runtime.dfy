/** The notification runtime as an object: tables updated in place, walked in any order. */
module NotificationRuntimes {
  import opened Basics
  import opened NotificationModel
  import opened NotificationSteps
  import opened NotificationInvariant
  import opened NotificationSafety
  import opened NotificationSchedule
  import opened NotificationPresentation
  import opened NotificationCallbacks
  import opened NotificationReload
  import opened NotificationTelling

  lemma UnlinkStep(live: map<nat, Association>, keys: set<nat>, key: nat)
    ensures Unlink(Unlink(live, keys), {key}) == Unlink(live, keys + {key})
  {}

  lemma UnlinkNothing(live: map<nat, Association>)
    ensures Unlink(live, {}) == live
  {}

  lemma UnmarkedKeeps(s: State, id: nat)
    requires Inv(s) && id in s.live
    ensures Inv(s.(live := s.live[id := s.live[id].(updateQueued := false)]))
  {
    hide Core;
    TrackedFacts(s, id, {});
    TouchKeeps(s, id, s.live[id].(updateQueued := false), {});
  }

  lemma QueuedKeeps(s: State, o: Object, w: World)
    requires Inv(s) && TimerExact(s)
    ensures Inv(RunQueued(s, o, w)) && TimerExact(RunQueued(s, o, w))
    ensures Settled(s) && Permitted(s, QueuedEvent(o), w) ==> Settled(RunQueued(s, o, w))
  {
    hide Inv, Step, RunQueued, TimerExact, Settled, Permitted;
    StepQueued(s, o, w);
    RunQueuedKeeps(s, o, w);
    StepExact(s, QueuedEvent(o), w);
    if Settled(s) && Permitted(s, QueuedEvent(o), w) {
      StepKeeps(s, QueuedEvent(o), w);
    }
  }

  class NotificationRuntime {
    var liveAssociations: map<nat, Association>
    var historySnapshots: seq<Record>
    var bufferedNotifications: seq<Buffered>
    var nextHistorySequence: nat
    var historySequenceExhausted: bool
    var nextLiveSequence: nat
    var liveSequenceExhausted: bool
    var currentGeneration: nat
    var reconcilingGeneration: bool
    var deadlineTimer: Option<Timer>

    function Now(): State
      reads this
    {
      State(liveAssociations, historySnapshots, bufferedNotifications,
            Counter(nextHistorySequence, historySequenceExhausted), Counter(nextLiveSequence, liveSequenceExhausted),
            currentGeneration, reconcilingGeneration, deadlineTimer)
    }

    ghost predicate Valid()
      reads this
    {
      Inv(Now()) && Settled(Now()) && TimerExact(Now())
    }

    constructor ()
      ensures Valid() && Now() == INITIAL
    {
      liveAssociations, historySnapshots, bufferedNotifications := map[], [], [];
      nextHistorySequence, historySequenceExhausted := 1, false;
      nextLiveSequence, liveSequenceExhausted := 1, false;
      currentGeneration, reconcilingGeneration := 0, false;
      deadlineTimer := None;
      new;
      InitialInv();
    }

    // -------------------------------------------------------------- tables

    method SnapshotIndex(recordKey: nat) returns (index: int)
      ensures index < 0 ==> recordKey !in Keys(historySnapshots)
      ensures index >= 0 ==> index < |historySnapshots| && historySnapshots[index].key == recordKey
    {
      index := 0;
      while index < |historySnapshots|
        invariant 0 <= index <= |historySnapshots|
        invariant forall i :: 0 <= i < index ==> historySnapshots[i].key != recordKey
      {
        if historySnapshots[index].key == recordKey {
          return;
        }
        index := index + 1;
      }
      index := -1;
    }

    method ClearRecordLink(recordKey: nat)
      modifies this`liveAssociations
      ensures liveAssociations == Unlink(old(liveAssociations), {recordKey})
    {
      var rest := liveAssociations.Keys;
      while rest != {}
        invariant rest <= liveAssociations.Keys == old(liveAssociations).Keys
        invariant forall id :: id in rest ==> liveAssociations[id] == old(liveAssociations)[id]
        invariant forall id :: id in liveAssociations && id !in rest ==>
          liveAssociations[id] == Unlink(old(liveAssociations), {recordKey})[id]
        decreases rest
      {
        var id :| id in rest;
        if liveAssociations[id].recordKey == Some(recordKey) {
          liveAssociations := liveAssociations[id := liveAssociations[id].(recordKey := None)];
        }
        rest := rest - {id};
      }
    }

    method RemoveSnapshot(recordKey: nat)
      requires Ordered(historySnapshots)
      modifies this`liveAssociations, this`historySnapshots
      ensures historySnapshots == Without(old(historySnapshots), {recordKey}) && Ordered(historySnapshots)
      ensures recordKey in Keys(old(historySnapshots)) || recordKey !in LinkedKeys(old(liveAssociations)) ==>
        Now() == Forget(old(Now()), {recordKey})
    {
      WithoutOrdered(historySnapshots, {recordKey});
      var index := SnapshotIndex(recordKey);
      if index < 0 {
        WithoutAbsent(historySnapshots, recordKey);
        if recordKey !in LinkedKeys(liveAssociations) {
          UnlinkAbsent(liveAssociations, recordKey);
        }
        return;
      }
      WithoutAt(historySnapshots, index);
      historySnapshots := historySnapshots[..index] + historySnapshots[index + 1..];
      ClearRecordLink(recordKey);
    }

    method MarkSnapshotExpired(recordKey: nat)
      requires Ordered(historySnapshots)
      modifies this`historySnapshots
      ensures historySnapshots == Expired(old(historySnapshots), recordKey)
    {
      var index := SnapshotIndex(recordKey);
      if index >= 0 {
        historySnapshots := historySnapshots[index := historySnapshots[index].(live := false)];
      } else {
        assert forall r :: r in historySnapshots ==> r.key != recordKey;
        assert Expired(historySnapshots, recordKey) == historySnapshots;
      }
    }

    /** Removes the record at `index` and the link to it. */
    method RemoveAt(index: nat)
      requires index < |historySnapshots|
      modifies this`liveAssociations, this`historySnapshots
      ensures historySnapshots == old(historySnapshots)[..index] + old(historySnapshots)[index + 1..]
      ensures liveAssociations == Unlink(old(liveAssociations), {old(historySnapshots)[index].key})
    {
      var recordKey := historySnapshots[index].key;
      historySnapshots := historySnapshots[..index] + historySnapshots[index + 1..];
      ClearRecordLink(recordKey);
    }

    method PruneStale(now: nat)
      requires Ordered(historySnapshots)
      modifies this`liveAssociations, this`historySnapshots
      ensures historySnapshots == PruneByAge(old(Now()), now).history
      ensures liveAssociations == PruneByAge(old(Now()), now).live
    {
      ghost var stale := StaleKeys(historySnapshots, now);
      ghost var before, live := historySnapshots, liveAssociations;
      var index := |historySnapshots| - 1;
      UnlinkNothing(liveAssociations);
      ghost var gone: set<nat> := {};
      hide Unlink, Without, StaleKeys;
      NoneGone(before, stale);
      while index >= 0
        invariant -1 <= index < |before|
        invariant historySnapshots == before[..index + 1] + Without(before[index + 1..], stale)
        invariant gone == stale * Keys(before[index + 1..])
        invariant liveAssociations == Unlink(live, gone)
      {
        PruneOne(before, stale, now, index);
        if historySnapshots[index].cutoff <= now {
          UnlinkStep(live, gone, before[index].key);
          RemoveAt(index);
          gone := gone + {before[index].key};
        }
        index := index - 1;
      }
      AllGone(before, now);
    }

    method PruneOverflowing()
      modifies this`liveAssociations, this`historySnapshots
      ensures historySnapshots == PruneOverflow(old(Now())).history
      ensures liveAssociations == PruneOverflow(old(Now())).live
    {
      ghost var before, live := historySnapshots, liveAssociations;
      ghost var gone: set<nat> := {};
      UnlinkNothing(liveAssociations);
      while |historySnapshots| > MAX_HISTORY
        invariant historySnapshots <= before && |historySnapshots| >= Min(MAX_HISTORY, |before|)
        invariant gone == Keys(before[|historySnapshots|..])
        invariant liveAssociations == Unlink(live, gone)
        decreases |historySnapshots|
      {
        var last := |historySnapshots| - 1;
        UnlinkStep(live, gone, before[last].key);
        RemoveAt(last);
        assert before[last..] == [before[last]] + before[last + 1..];
        gone := gone + {before[last].key};
      }
    }

    method PruneHistory(now: nat)
      requires Ordered(historySnapshots)
      modifies this`liveAssociations, this`historySnapshots
      ensures Now() == Prune(old(Now()), now)
    {
      PruneStale(now);
      PruneOverflowing();
    }

    // -------------------------------------------------------------- sequences and history

    method AllocateHistorySequence() returns (key: Option<nat>)
      modifies this`nextHistorySequence, this`historySequenceExhausted
      ensures (key, Now().historyKeys) == Allocate(old(Now()).historyKeys)
    {
      if historySequenceExhausted {
        return None;
      }
      key := Some(nextHistorySequence);
      if nextHistorySequence == MAX_SEQUENCE {
        historySequenceExhausted := true;
      } else {
        nextHistorySequence := nextHistorySequence + 1;
      }
    }

    method AllocateLiveSequence() returns (sequence: Option<nat>)
      modifies this`nextLiveSequence, this`liveSequenceExhausted
      ensures (sequence, Now().liveKeys) == Allocate(old(Now()).liveKeys)
    {
      if liveSequenceExhausted {
        return None;
      }
      sequence := Some(nextLiveSequence);
      if nextLiveSequence == MAX_SEQUENCE {
        liveSequenceExhausted := true;
      } else {
        nextLiveSequence := nextLiveSequence + 1;
      }
    }

    method AdmitHistoryRecord(n: Notification, now: nat) returns (key: Option<nat>)
      requires Inv(Now())
      modifies this`liveAssociations, this`historySnapshots, this`nextHistorySequence, this`historySequenceExhausted
      ensures (Now(), key) == AdmitHistory(old(Now()), n, now)
    {
      if n.transient {
        return None;
      }
      ghost var before := Now();
      hide Prune, Core;
      key := AllocateHistorySequence();
      if key.None? {
        return;
      }
      PrependOrdered(before, n, now);
      historySnapshots := [MakeRecord(n, key.value, now)] + historySnapshots;
      PruneHistory(now);
      var index := SnapshotIndex(key.value);
      if index < 0 {
        key := None;
      } else {
        assert historySnapshots[index] in historySnapshots;
      }
    }

    // -------------------------------------------------------------- the timer

    method EarliestDeadline() returns (earliest: int)
      ensures Tracks(earliest, Deadlines(liveAssociations, liveAssociations.Keys))
    {
      earliest := -1;
      var rest := liveAssociations.Keys;
      ghost var visited: set<nat> := {};
      while rest != {}
        invariant rest + visited == liveAssociations.Keys
        invariant Tracks(earliest, Deadlines(liveAssociations, visited))
        decreases rest
      {
        var id :| id in rest;
        var deadline := liveAssociations[id].deadline;
        DeadlineStep(liveAssociations, visited, id);
        TracksStep(earliest, Deadlines(liveAssociations, visited), deadline);
        if deadline >= 0 && (earliest < 0 || deadline < earliest) {
          earliest := deadline;
        }
        rest, visited := rest - {id}, visited + {id};
      }
      assert visited == liveAssociations.Keys;
    }

    method EarliestWithCutoffs(start: int, ghost times: set<int>) returns (earliest: int)
      requires Tracks(start, times)
      ensures Tracks(earliest, times + Cutoffs(historySnapshots))
    {
      earliest := start;
      var index := 0;
      assert times + Cutoffs([]) == times;
      while index < |historySnapshots|
        invariant 0 <= index <= |historySnapshots|
        invariant Tracks(earliest, times + Cutoffs(historySnapshots[..index]))
      {
        var cutoff := historySnapshots[index].cutoff;
        TracksStep(earliest, times + Cutoffs(historySnapshots[..index]), cutoff);
        if earliest < 0 || cutoff < earliest {
          earliest := cutoff;
        }
        assert historySnapshots[..index + 1] == historySnapshots[..index] + [historySnapshots[index]];
        assert times + Cutoffs(historySnapshots[..index + 1]) == times + Cutoffs(historySnapshots[..index]) + {cutoff};
        index := index + 1;
      }
      assert historySnapshots[..index] == historySnapshots;
    }

    method ArmScheduler(now: nat)
      modifies this`deadlineTimer
      ensures Now() == Arm(old(Now()), now)
    {
      var earliest := EarliestDeadline();
      ghost var deadlines := Deadlines(liveAssociations, liveAssociations.Keys);
      earliest := EarliestWithCutoffs(earliest, deadlines);
      assert deadlines + Cutoffs(historySnapshots) == DueTimes(liveAssociations, historySnapshots);
      if earliest < 0 {
        deadlineTimer := None;
      } else {
        LeastUnique(DueTimes(liveAssociations, historySnapshots), earliest,
                    Least(DueTimes(liveAssociations, historySnapshots)));
        deadlineTimer := Some(Timer(now, FireTime(now, earliest)));
      }
    }

    // -------------------------------------------------------------- ending associations

    method EraseAssociation(protocolId: nat)
      modifies this`liveAssociations
      ensures liveAssociations == old(liveAssociations) - {protocolId}
    {
      if protocolId !in liveAssociations {
        assert liveAssociations - {protocolId} == liveAssociations;
        return;
      }
      liveAssociations := liveAssociations[protocolId := Invalidated(liveAssociations[protocolId])];
      assert liveAssociations - {protocolId} == old(liveAssociations) - {protocolId};
      liveAssociations := liveAssociations - {protocolId};
    }

    /** Also entered from inside `expire` and `dismiss`, when a newcomer's record may be pending. */
    method CloseNotification(o: Object, reason: int, now: nat, ghost pending: set<nat>)
      requires Core(Now(), pending)
      modifies this`liveAssociations, this`historySnapshots, this`deadlineTimer
      ensures Now() == Close(old(Now()), o, reason, now)
      ensures Core(Now(), pending)
      ensures pending == {} && old(Valid()) ==> Valid()
    {
      ghost var before := Now();
      hide Core, Settled, TimerExact, TimerFor, Without, Expired, Unlink;
      CloseKeeps(before, o, reason, now, pending);
      var id := o.protocolId;
      if id !in liveAssociations || liveAssociations[id].notification != o {
        return;
      }
      var recordKey := liveAssociations[id].recordKey;
      TrackedFacts(before, id, pending);
      if recordKey.Some? {
        if reason == 1 {
          MarkSnapshotExpired(recordKey.value);
        } else {
          RemoveSnapshot(recordKey.value);
        }
      }
      EraseAssociation(id);
      ArmScheduler(now);
      assert Now() == Close(before, o, reason, now);
      if pending == {} && Inv(before) && Settled(before) && TimerExact(before) {
        CloseSettled(before, o, reason, now);
        CloseExact(before, o, reason, now);
      }
    }

    method ExpireNotification(o: Object, w: World, ghost pending: set<nat>)
      returns (called: bool, told: multiset<Object>)
      requires Core(Now(), pending)
      modifies this`liveAssociations, this`historySnapshots, this`deadlineTimer
      ensures Now() == AfterExpire(old(Now()), o, w)
      ensures called == ExpireCalled(o, w) && told == Told(o, w)
      ensures Core(Now(), pending)
    {
      told := multiset{};
      if !w.alive(o) {
        return false, told;
      }
      told := multiset{o};
      match w.expire(o)
      case Refuses => called := false;
      case LeavesOpen => called := true;
      case Closes(reason) =>
        called := true;
        CloseNotification(o, reason, w.now, pending);
    }

    // -------------------------------------------------------------- capacity

    method CapacityClassOf(a: Association) returns (c: nat)
      ensures c == CapacityClass(a, historySnapshots)
      ensures c == 0 <==> a.transient || !exists r :: r in historySnapshots && a.recordKey == Some(r.key)
      ensures c != 0 ==> c == match a.urgency case Low => 1 case Normal => 2 case Critical => 3
    {
      if a.transient || a.recordKey.None? {
        return 0;
      }
      var index := SnapshotIndex(a.recordKey.value);
      if index < 0 {
        return 0;
      }
      assert historySnapshots[index] in historySnapshots;
      c := UrgencyClass(a.urgency);
    }

    method ChooseVictim(newcomer: Association) returns (victim: Option<nat>)
      requires SequencesDistinct(liveAssociations)
      requires forall id :: id in liveAssociations ==> liveAssociations[id].sequence != newcomer.sequence
      ensures IsVictim(liveAssociations, historySnapshots, newcomer, victim)
    {
      victim := None;
      var victimClass := CapacityClassOf(newcomer);
      var victimSequence := newcomer.sequence;
      var rest := liveAssociations.Keys;
      ghost var visited: set<nat> := {};
      hide CapacityClass;
      while rest != {}
        invariant rest + visited == liveAssociations.Keys && rest !! visited
        invariant IsVictim(Among(liveAssociations, visited), historySnapshots, newcomer, victim)
        invariant victimClass == CapacityClass(Chosen(liveAssociations, newcomer, victim), historySnapshots)
        invariant victimSequence == Chosen(liveAssociations, newcomer, victim).sequence
        decreases rest
      {
        var id :| id in rest;
        var candidateClass := CapacityClassOf(liveAssociations[id]);
        VictimStep(liveAssociations, historySnapshots, newcomer, visited, victim, id);
        if candidateClass < victimClass
          || (candidateClass == victimClass && liveAssociations[id].sequence < victimSequence)
        {
          victim := Some(id);
          victimClass := candidateClass;
          victimSequence := liveAssociations[id].sequence;
        }
        rest, visited := rest - {id}, visited + {id};
      }
      assert Among(liveAssociations, visited) == liveAssociations;
    }

    /** Leaves the newcomer's record, if any, as an expired one and tells the sender. */
    method TurnNewcomerAway(o: Object, key: Option<nat>, w: World) returns (told: multiset<Object>)
      requires Pending(Now(), key) && o.protocolId !in liveAssociations
      modifies this`liveAssociations, this`historySnapshots, this`deadlineTimer
      ensures Now() == TurnAway(old(Now()), o, key, w) && told == Told(o, w)
    {
      ghost var before := Now();
      hide Core, TimerFor, Expired;
      if key.Some? {
        PendingOrdered(before, key);
        MarkKeeps(before, key.value);
        MarkSnapshotExpired(key.value);
      }
      var _, asked := ExpireNotification(o, w, {});
      told := asked;
      ArmScheduler(w.now);
    }

    method DispatchPresentation(protocolId: nat, n: Notification)
      requires protocolId in liveAssociations
      modifies this`liveAssociations
      ensures liveAssociations
        == old(liveAssociations)[protocolId := Presented(old(liveAssociations)[protocolId], n)]
    {
      var a := liveAssociations[protocolId];
      if a.revision == MAX_REVISION {
        liveAssociations := liveAssociations[protocolId := Invalidated(a)];
        return;
      }
      var payload := Payload(n.content.appName, n.content.summary, n.content.body, n.content.appIconName);
      liveAssociations := liveAssociations[protocolId :=
        a.(payload := payload, revision := a.revision + 1, presented := true)];
    }

    /** Marks the association and hands its replacement to the event loop, unless one is marked already. */
    method QueueReplacement(o: Object) returns (posted: multiset<Object>)
      modifies this`liveAssociations
      ensures Now() == Queue(old(Now()), o) && posted == PostedBy(old(Now()), o)
    {
      posted := multiset{};
      if o.protocolId !in liveAssociations || liveAssociations[o.protocolId].notification != o {
        return;
      }
      var a := liveAssociations[o.protocolId];
      if a.updateQueued {
        assert a == a.(updateQueued := true);
        return;
      }
      liveAssociations := liveAssociations[o.protocolId := a.(updateQueued := true)];
      posted := multiset{o};
    }

    method InstallNewcomer(newcomer: Association, n: Notification, now: nat)
      modifies this`liveAssociations, this`deadlineTimer
      ensures Now() == Install(old(Now()), newcomer, n, now)
    {
      hide TimerFor;
      ghost var before := liveAssociations;
      var id := newcomer.notification.protocolId;
      liveAssociations := liveAssociations[id := Scheduled(newcomer, n, now)];
      DispatchPresentation(id, n);
      assert liveAssociations == before[id := Presented(Scheduled(newcomer, n, now), n)];
      ArmScheduler(now);
    }

    method ContendForPlace(newcomer: Association, n: Notification, w: World) returns (told: multiset<Object>)
      requires Pending(Now(), newcomer.recordKey) && Admissible(Now(), newcomer)
      modifies this`liveAssociations, this`historySnapshots, this`deadlineTimer
      ensures Now() == Contend(old(Now()), newcomer, n, w) && told == ToldByContest(old(Now()), newcomer, w)
    {
      ghost var before := Now();
      SequencesAreDistinct(before, KeyOf(newcomer));
      hide Core, TimerFor, Expired, Install, TurnAway, AfterExpire, WeakerThan;
      var victim := ChooseVictim(newcomer);
      VictimIs(before, newcomer);
      VictimUnique(before.live, before.history, newcomer, victim, Victim(before.live, before.history, newcomer));
      if victim.None? {
        told := TurnNewcomerAway(newcomer.notification, newcomer.recordKey, w);
        return;
      }
      var held := liveAssociations[victim.value].notification;
      AfterExpireKeeps(before, held, w, KeyOf(newcomer));
      var called, asked := ExpireNotification(held, w, KeyOf(newcomer));
      told := asked;
      if !called || |liveAssociations| >= MAX_LIVE {
        var more := TurnNewcomerAway(newcomer.notification, newcomer.recordKey, w);
        told := told + more;
      } else {
        InstallNewcomer(newcomer, n, w.now);
      }
    }

    /** The newcomer has its admission sequence; it still needs a record and a place. */
    method PlaceNewcomer(o: Object, sequence: nat, w: World) returns (told: multiset<Object>)
      requires Inv(Now()) && o.protocolId != 0 && o.protocolId !in liveAssociations
      requires sequence < Limit(Now().liveKeys)
      requires forall id :: id in liveAssociations ==> liveAssociations[id].sequence < sequence
      modifies this
      ensures
        var (s1, key) := AdmitHistory(old(Now()), w.read(o), w.now);
        var newcomer := Newcomer(o, w.read(o), key, sequence);
        Now() == if |s1.live| >= MAX_LIVE then Contend(s1, newcomer, w.read(o), w)
                 else Install(s1, newcomer, w.read(o), w.now)
      ensures
        var (s1, key) := AdmitHistory(old(Now()), w.read(o), w.now);
        var newcomer := Newcomer(o, w.read(o), key, sequence);
        told == if |s1.live| >= MAX_LIVE then ToldByContest(s1, newcomer, w) else multiset{}
    {
      told := multiset{};
      hide Core, TimerFor, Install, Contend, AdmitHistory;
      var n := w.read(o);
      AdmitHistoryKeeps(Now(), n, w.now);
      var recordKey := AdmitHistoryRecord(n, w.now);
      var newcomer := Newcomer(o, n, recordKey, sequence);
      assert Admissible(Now(), newcomer) && Pending(Now(), recordKey);
      if |liveAssociations| >= MAX_LIVE {
        told := ContendForPlace(newcomer, n, w);
      } else {
        InstallNewcomer(newcomer, n, w.now);
      }
    }

    method AdmitFreshNotification(o: Object, w: World)
      returns (posted: multiset<Object>, told: multiset<Object>)
      requires Inv(Now())
      modifies this
      ensures Now() == AdmitFresh(old(Now()), o, w) && posted == PostedByAdmission(old(Now()), o)
      ensures told == ToldByAdmission(old(Now()), o, w)
    {
      posted, told := multiset{}, multiset{};
      ghost var before := Now();
      hide Core, TimerFor, Install, Contend, AfterExpire, AdmitHistory, Queue, ToldByContest;
      var id := o.protocolId;
      if id == 0 {
        var _, asked := ExpireNotification(o, w, {});
        told := asked;
      } else if id in liveAssociations {
        if liveAssociations[id].notification == o {
          posted := QueueReplacement(o);
        }
      } else {
        var sequence := AllocateLiveSequence();
        if sequence.None? {
          var _, asked := ExpireNotification(o, w, {});
          told := asked;
        } else {
          NewSequenceKeeps(before);
          told := PlaceNewcomer(o, sequence.value, w);
        }
      }
    }

    // -------------------------------------------------------------- replacement

    /** Brings the record of `protocolId` in line with the replacement's transience. */
    method RerecordReplaced(protocolId: nat, oldKey: Option<nat>, n: Notification, now: nat)
      requires Inv(Now()) && protocolId in liveAssociations
      requires liveAssociations[protocolId].recordKey in {None, oldKey}
      modifies this
      ensures Now() == Rerecord(old(Now()), protocolId, oldKey, n, now)
    {
      ghost var before := Now();
      var a := liveAssociations[protocolId];
      TrackedFacts(before, protocolId, {});
      hide Core, AdmitHistory, Without, Unlink;
      if a.transient && !n.transient {
        AdmitHistoryKeeps(before, n, now);
        var recordKey := AdmitHistoryRecord(n, now);
        liveAssociations := liveAssociations[protocolId := a.(recordKey := recordKey, transient := false)];
      } else if !a.transient && n.transient {
        if oldKey.Some? {
          var index := SnapshotIndex(oldKey.value);
          if index >= 0 {
            assert historySnapshots[index] in historySnapshots;
            RemoveSnapshot(oldKey.value);
          }
        }
        liveAssociations := liveAssociations[protocolId := a.(recordKey := None, transient := true)];
      } else if !n.transient && a.recordKey.Some? {
        var index := SnapshotIndex(a.recordKey.value);
        if index >= 0 {
          assert historySnapshots[index] in historySnapshots;
          var previous := historySnapshots[index];
          RewrittenAt(historySnapshots, index, n);
          historySnapshots := historySnapshots[index :=
            MakeRecord(n, previous.key, previous.admittedAt).(cutoff := previous.cutoff)];
        } else {
          assert false;  // a linked record exists, so the link never has to be dropped here
        }
      }
    }

    method RefreshReplaced(protocolId: nat, n: Notification, now: nat)
      requires protocolId in liveAssociations
      modifies this`liveAssociations, this`deadlineTimer
      ensures
        var a := old(liveAssociations)[protocolId].(transient := n.transient, urgency := n.content.urgency);
        Now() == Arm(old(Now()).(live := old(liveAssociations)[protocolId := Presented(Scheduled(a, n, now), n)]), now)
    {
      hide TimerFor;
      ghost var before := liveAssociations;
      var a := liveAssociations[protocolId].(transient := n.transient, urgency := n.content.urgency);
      liveAssociations := liveAssociations[protocolId := Scheduled(a, n, now)];
      DispatchPresentation(protocolId, n);
      assert liveAssociations == before[protocolId := Presented(Scheduled(a, n, now), n)];
      ArmScheduler(now);
    }

    method ProcessReplacement(o: Object, w: World)
      requires Inv(Now())
      modifies this
      ensures Now() == Replace(old(Now()), o, w)
    {
      var id := o.protocolId;
      if id !in liveAssociations || liveAssociations[id].notification != o {
        return;
      }
      ghost var before := Now();
      hide Core, Prune, Rerecord, TimerFor, Presented, Scheduled, SameButLinks;
      assert Ordered(before.history) by { TrackedFacts(before, id, {}); }
      var oldKey := liveAssociations[id].recordKey;
      var n := w.read(o);
      PrunedForReplacement(before, id, w.now);
      PruneHistory(w.now);
      ghost var pruned := Now();
      RerecordKeeps(pruned, id, oldKey, n, w.now);
      RerecordReplaced(id, oldKey, n, w.now);
      RefreshReplaced(id, n, w.now);
    }

    method ClearUpdateQueued(id: nat)
      requires id in liveAssociations
      modifies this`liveAssociations
      ensures
        var before := old(Now());
        Now() == before.(live := before.live[id := before.live[id].(updateQueued := false)])
    {
      liveAssociations := liveAssociations[id := liveAssociations[id].(updateQueued := false)];
    }

    /** The queued half of an update, run from the event loop. */
    method RunQueuedReplacement(o: Object, w: World)
      requires Inv(Now()) && TimerExact(Now())
      modifies this
      ensures Now() == RunQueued(old(Now()), o, w)
      ensures Inv(Now()) && TimerExact(Now())
      ensures old(Settled(Now()) && Permitted(Now(), QueuedEvent(o), w)) ==> Valid()
    {
      ghost var before := Now();
      QueuedKeeps(before, o, w);
      hide Inv, Replace, TimerExact, Settled, Permitted;
      var id := o.protocolId;
      if id !in liveAssociations {
        return;
      }
      UnmarkedKeeps(before, id);
      ClearUpdateQueued(id);
      if w.alive(o) {
        ProcessReplacement(o, w);
      }
    }

    method UpdateNotification(o: Object) returns (posted: multiset<Object>)
      requires Valid()
      modifies this
      ensures Now() == Update(old(Now()), o) && Valid()
      ensures posted == if old(reconcilingGeneration) then multiset{} else PostedBy(old(Now()), o)
    {
      posted := multiset{};
      ghost var before := Now();
      QueueKeeps(before, o);
      SameScheduleExact(before, Queue(before, o));
      if o.protocolId !in liveAssociations || liveAssociations[o.protocolId].notification != o
         || reconcilingGeneration {
        return;
      }
      posted := QueueReplacement(o);
    }

    // -------------------------------------------------------------- reload

    method DetachAll()
      modifies this`liveAssociations
      ensures liveAssociations == Detached(old(liveAssociations))
    {
      ghost var before := liveAssociations;
      var rest := liveAssociations.Keys;
      while rest != {}
        invariant rest <= liveAssociations.Keys == before.Keys
        invariant forall id :: id in rest ==> liveAssociations[id] == before[id]
        invariant forall id :: id in liveAssociations && id !in rest ==> liveAssociations[id] == Detached(before)[id]
        decreases rest
      {
        var id :| id in rest;
        liveAssociations := liveAssociations[id :=
          liveAssociations[id].(recordKey := None, seen := false, updateQueued := false)];
        rest := rest - {id};
      }
    }

    method BeginReconciliation(now: nat) returns (generation: nat)
      requires Valid()
      modifies this
      ensures Now() == BeginGeneration(old(Now()), now) && Valid()
      ensures generation == currentGeneration
    {
      hide Inv, Settled, TimerExact, TimerFor, Detached;
      ghost var before := Now();
      BeginGenerationKeeps(before, now);
      BeginExact(before, now);
      if currentGeneration != MAX_SEQUENCE {
        currentGeneration := currentGeneration + 1;
      }
      reconcilingGeneration := true;
      bufferedNotifications := [];
      DetachAll();
      if historySnapshots != [] {
        historySnapshots := [];
      }
      ArmScheduler(now);
      return currentGeneration;
    }

    method AttachNotification(o: Object, generation: nat, lastGeneration: bool, w: World)
      returns (posted: multiset<Object>, told: multiset<Object>)
      requires Valid()
      modifies this
      ensures Now() == Attach(old(Now()), o, generation, lastGeneration, w) && Valid()
      ensures posted == Posted(old(Now()), AttachEvent(o, generation, lastGeneration), w)
      ensures told == ToldBy(old(Now()), AttachEvent(o, generation, lastGeneration), w)
    {
      posted, told := multiset{}, multiset{};
      ghost var before := Now();
      AttachKeeps(before, o, generation, lastGeneration, w);
      StepExact(before, AttachEvent(o, generation, lastGeneration), w);
      hide Core, Settled, TimerExact, AdmitFresh, PostedByAdmission, ToldByAdmission;
      if generation != currentGeneration {
        return;
      }
      if reconcilingGeneration {
        bufferedNotifications := bufferedNotifications + [Buffered(o, lastGeneration)];
        return;
      }
      posted, told := AdmitFreshNotification(o, w);
    }

    method FirstBuffered(w: World) returns (carried: seq<Object>, newcomers: seq<Object>)
      ensures carried == FirstPerId(bufferedNotifications, true, {}, w)
      ensures newcomers == FirstPerId(bufferedNotifications, false, {}, w)
    {
      carried, newcomers := [], [];
      var carriedIds: set<nat>, freshIds: set<nat> := {}, {};
      var index := 0;
      assert bufferedNotifications[0..] == bufferedNotifications;
      while index < |bufferedNotifications|
        invariant 0 <= index <= |bufferedNotifications|
        invariant carried + FirstPerId(bufferedNotifications[index..], true, carriedIds, w)
          == FirstPerId(bufferedNotifications, true, {}, w)
        invariant newcomers + FirstPerId(bufferedNotifications[index..], false, freshIds, w)
          == FirstPerId(bufferedNotifications, false, {}, w)
      {
        var b := bufferedNotifications[index];
        var id := b.notification.protocolId;
        assert bufferedNotifications[index..][1..] == bufferedNotifications[index + 1..];
        if w.alive(b.notification) && id != 0 {
          if b.carried {
            if id !in carriedIds {
              carriedIds := carriedIds + {id};
              carried := carried + [b.notification];
            }
          } else if id !in freshIds {
            freshIds := freshIds + {id};
            newcomers := newcomers + [b.notification];
          }
        }
        index := index + 1;
      }
    }

    method RecogniseCarried(o: Object, w: World) returns (told: multiset<Object>)
      requires Inv(Now()) && LinkedAreSeen(Now())
      requires o.protocolId in liveAssociations ==> liveAssociations[o.protocolId].recordKey.None?
      modifies this
      ensures Now() == Recognise(old(Now()), o, w) && told == ToldByRecognition(old(Now()), o, w)
    {
      told := multiset{};
      ghost var before := Now();
      hide Core, AdmitHistory, AfterExpire, TimerFor, SameButLinks, LinkedAreSeen;
      var id := o.protocolId;
      if id !in liveAssociations || liveAssociations[id].notification != o {
        var _, asked := ExpireNotification(o, w, {});
        return asked;
      }
      var n := w.read(o);
      TrackedFacts(before, id, {});
      var a := liveAssociations[id].(seen := true, transient := n.transient, urgency := n.content.urgency);
      TouchKeeps(before, id, a, {});
      liveAssociations := liveAssociations[id := a];
      if !n.transient {
        AdmissionKeepsTracked(Now(), n, w.now);
        var recordKey := AdmitHistoryRecord(n, w.now);
        liveAssociations := liveAssociations[id := liveAssociations[id].(recordKey := recordKey)];
      }
    }

    method AdmitCarried(descending: seq<Object>, w: World) returns (told: multiset<Object>)
      requires Inv(Now()) && LinkedAreSeen(Now()) && DistinctIds(descending)
      requires forall id :: id in liveAssociations ==> liveAssociations[id].recordKey.None?
      modifies this
      ensures Now() == RecogniseAll(old(Now()), descending, w)
      ensures told == ToldByCarried(old(Now()), descending, w)
    {
      ghost var before := Now();
      hide Inv, LinkedAreSeen, Recognise, ToldByRecognition;
      told := multiset{};
      var index := |descending|;
      assert descending[..index] == descending;
      while index > 0
        invariant 0 <= index <= |descending|
        invariant Inv(Now()) && LinkedAreSeen(Now())
        invariant forall i :: 0 <= i < index && descending[i].protocolId in liveAssociations ==>
          liveAssociations[descending[i].protocolId].recordKey.None?
        invariant RecogniseAll(Now(), descending[..index], w) == RecogniseAll(before, descending, w)
        invariant told + ToldByCarried(Now(), descending[..index], w) == ToldByCarried(before, descending, w)
      {
        var o := descending[index - 1];
        assert descending[..index][..index - 1] == descending[..index - 1];
        RecogniseKeeps(Now(), o, w);
        ghost var s := Now();
        var more := RecogniseCarried(o, w);
        told := told + more;
        forall i | 0 <= i < index - 1 && descending[i].protocolId in liveAssociations
          ensures liveAssociations[descending[i].protocolId].recordKey.None?
        {
          assert descending[i].protocolId != o.protocolId && descending[i].protocolId in s.live;
        }
        index := index - 1;
      }
    }

    method EraseUnseen()
      modifies this`liveAssociations
      ensures liveAssociations == SeenOnly(old(liveAssociations))
    {
      ghost var before := liveAssociations;
      var rest := liveAssociations.Keys;
      var staleIds: set<nat> := {};
      while rest != {}
        invariant rest <= before.Keys
        invariant staleIds == set id | id in before && id !in rest && !before[id].seen
        decreases rest
      {
        var id :| id in rest;
        if !liveAssociations[id].seen {
          staleIds := staleIds + {id};
        }
        rest := rest - {id};
      }
      ghost var erased: set<nat> := {};
      var left := staleIds;
      while left != {}
        invariant left + erased == staleIds
        invariant liveAssociations == before - erased
        decreases left
      {
        var id :| id in left;
        EraseAssociation(id);
        erased := erased + {id};
        left := left - {id};
        assert before - erased == liveAssociations;
      }
      assert erased == staleIds;
      assert before - staleIds == SeenOnly(before);
    }

    method AdmitAllFresh(objects: seq<Object>, w: World)
      returns (posted: multiset<Object>, told: multiset<Object>)
      requires Inv(Now())
      modifies this
      ensures Now() == AdmitAll(old(Now()), objects, w) && Inv(Now())
      ensures posted == PostedByAll(old(Now()), objects, w) && told == ToldByAll(old(Now()), objects, w)
    {
      ghost var before := Now();
      hide Inv, AdmitFresh, PostedByAdmission, ToldByAdmission;
      posted, told := multiset{}, multiset{};
      var index := 0;
      assert objects[0..] == objects;
      while index < |objects|
        invariant 0 <= index <= |objects|
        invariant Inv(Now())
        invariant AdmitAll(Now(), objects[index..], w) == AdmitAll(before, objects, w)
        invariant posted + PostedByAll(Now(), objects[index..], w) == PostedByAll(before, objects, w)
        invariant told + ToldByAll(Now(), objects[index..], w) == ToldByAll(before, objects, w)
      {
        assert objects[index..][1..] == objects[index + 1..];
        AdmitFreshKeeps(Now(), objects[index], w);
        var more, asked := AdmitFreshNotification(objects[index], w);
        posted, told := posted + more, told + asked;
        index := index + 1;
      }
    }

    // Carried survivors are recognised and the rest forgotten; newcomers are left to admit.
    method ReconcileBuffered(w: World) returns (newcomers: seq<Object>, told: multiset<Object>)
      requires Inv(Now()) && Settled(Now()) && Now().reconciling
      modifies this
      ensures Now() == Reconcile(old(Now()), w) && Inv(Now())
      ensures newcomers == FirstPerId(old(bufferedNotifications), false, {}, w)
      ensures
        told == ToldByCarried(old(Now()).(buffered := []),
                              SortDescending(FirstPerId(old(bufferedNotifications), true, {}, w)), w)
    {
      ghost var before := Now();
      ReconcileKeeps(before, w);
      NothingLinked(before.live);
      hide Core, Settled, TimerFor, RecogniseAll, ToldByCarried;
      var carried, later := FirstBuffered(w);
      FirstPerIdDistinct(bufferedNotifications, true, {}, w);
      SortDescendingIs(carried);
      newcomers := later;
      bufferedNotifications := [];
      Frame(before, Now(), {});
      told := AdmitCarried(SortDescending(carried), w);
      EraseUnseen();
      reconcilingGeneration := false;
    }

    method FinishReconciliation(generation: nat, w: World)
      returns (posted: multiset<Object>, told: multiset<Object>)
      requires Valid()
      modifies this
      ensures Now() == FinishGeneration(old(Now()), generation, w) && Valid()
      ensures posted == Posted(old(Now()), FinishEvent(generation), w)
      ensures told == ToldBy(old(Now()), FinishEvent(generation), w)
    {
      posted, told := multiset{}, multiset{};
      ghost var before := Now();
      FinishGenerationKeeps(before, generation, w);
      StepExact(before, FinishEvent(generation), w);
      if !reconcilingGeneration || generation != currentGeneration {
        return;
      }
      hide Core, TimerFor, AdmitAll, Reconcile, PostedByAll, ToldByAll, ToldByCarried;
      var newcomers, strangers := ReconcileBuffered(w);
      var more, asked := AdmitAllFresh(newcomers, w);
      posted, told := more, strangers + asked;
      ArmScheduler(w.now);
    }

    // -------------------------------------------------------------- removal

    method FindAddressee(recordKey: nat, w: World) returns (found: Option<nat>)
      ensures found.Some? ==> Addressed(Now(), found.value, recordKey, w)
      ensures found.None? ==> forall id :: !Addressed(Now(), id, recordKey, w)
    {
      var rest := liveAssociations.Keys;
      while rest != {}
        invariant rest <= liveAssociations.Keys
        invariant forall id :: id in liveAssociations && id !in rest ==> !Addressed(Now(), id, recordKey, w)
        decreases rest
      {
        var id :| id in rest;
        if liveAssociations[id].recordKey == Some(recordKey) && w.alive(liveAssociations[id].notification) {
          return Some(id);
        }
        rest := rest - {id};
      }
      found := None;
    }

    method DismissRecord(recordKey: nat, w: World) returns (done: bool)
      requires Valid()
      modifies this
      ensures (Now(), done) == Dismiss(old(Now()), recordKey, w) && Valid()
    {
      hide Core, Settled, TimerExact, TimerFor, Forget, Close;
      ghost var before := Now();
      DismissKeeps(before, recordKey, w);
      StepExact(before, DismissEvent(recordKey), w);
      if recordKey == 0 {
        return false;
      }
      var found := FindAddressee(recordKey, w);
      assert Now() == before;
      if found.Some? {
        AddresseeUnique(before, recordKey, w, found.value);
        var id := found.value;
        var o := liveAssociations[id].notification;
        OwnsTracked(before, id, {});
        TrackedFacts(before, id, {});
        match w.dismiss(o) {
          case Refuses =>
            RemoveSnapshot(recordKey);
            EraseAssociation(id);
            ArmScheduler(w.now);
          case LeavesOpen =>
          case Closes(reason) =>
            CloseNotification(o, reason, w.now, {});
        }
        return true;
      }
      NobodyAddressed(before, recordKey, w);
      var index := SnapshotIndex(recordKey);
      if index < 0 {
        return false;
      }
      assert historySnapshots[index] in historySnapshots;
      RecordsOrdered(before);
      RemoveSnapshot(recordKey);
      ArmScheduler(w.now);
      return true;
    }

    method UnlinkEverything()
      modifies this`liveAssociations
      ensures liveAssociations == UnlinkAll(old(liveAssociations))
    {
      ghost var before := liveAssociations;
      var rest := liveAssociations.Keys;
      while rest != {}
        invariant rest <= liveAssociations.Keys == before.Keys
        invariant forall id :: id in rest ==> liveAssociations[id] == before[id]
        invariant forall id :: id in liveAssociations && id !in rest ==> liveAssociations[id] == UnlinkAll(before)[id]
        decreases rest
      {
        var id :| id in rest;
        liveAssociations := liveAssociations[id := liveAssociations[id].(recordKey := None)];
        rest := rest - {id};
      }
    }

    method ClearAllHistory(now: nat)
      requires Valid()
      modifies this
      ensures Now() == ClearHistory(old(Now()), now) && Valid()
    {
      hide Inv, Settled, TimerExact, TimerFor, UnlinkAll;
      ghost var before := Now();
      ClearHistoryKeeps(before, now);
      ClearExact(before, now);
      if historySnapshots == [] {
        return;
      }
      UnlinkEverything();
      historySnapshots := [];
      ArmScheduler(now);
    }

    method LinkedRecordKeys() returns (keys: seq<nat>)
      ensures Elements(keys) == LinkedKeys(liveAssociations)
    {
      keys := [];
      var rest := liveAssociations.Keys;
      ghost var visited: set<nat> := {};
      while rest != {}
        invariant rest + visited == liveAssociations.Keys
        invariant Elements(keys) == LinkedKeys(Among(liveAssociations, visited))
        decreases rest
      {
        var id :| id in rest;
        AmongStep(liveAssociations, visited, id);
        if liveAssociations[id].recordKey.Some? {
          keys := keys + [liveAssociations[id].recordKey.value];
        }
        rest, visited := rest - {id}, visited + {id};
      }
      assert Among(liveAssociations, visited) == liveAssociations;
    }

    method RemoveSnapshots(keys: seq<nat>)
      requires Ordered(historySnapshots)
      modifies this`liveAssociations, this`historySnapshots
      ensures historySnapshots == Without(old(historySnapshots), Elements(keys))
    {
      ghost var before := historySnapshots;
      hide Ordered, Keys, Forget, Without, LinkedKeys, Elements;
      var index := 0;
      assert keys[..index] == [];
      WithoutNothing(historySnapshots);
      while index < |keys|
        invariant 0 <= index <= |keys|
        invariant historySnapshots == Without(before, Elements(keys[..index]))
        invariant Ordered(historySnapshots)
      {
        RemoveSnapshot(keys[index]);
        WithoutAgain(before, Elements(keys[..index]), keys[index]);
        ElementsStep(keys, index);
        index := index + 1;
      }
      assert keys[..index] == keys;
    }

    method ClearLiveState(now: nat)
      requires Valid()
      modifies this
      ensures Now() == LoseOwnership(old(Now()), now) && Valid()
    {
      hide Inv, Settled, TimerExact, TimerFor, LinkedKeys, Without, Elements;
      ghost var before := Now();
      LoseOwnershipKeeps(before, now);
      LoseExact(before, now);
      if liveAssociations == map[] {
        return;
      }
      var liveRecordKeys := LinkedRecordKeys();
      RecordsOrdered(before);
      RemoveSnapshots(liveRecordKeys);
      liveAssociations := map[];
      ArmScheduler(now);
    }

    /** What the popup is shown for a presentation request. */
    method ResolveTransient(token: string, tokenGeneration: int, revision: int) returns (payload: Option<Payload>)
      ensures payload.None? <==> !Resolves(Now(), token, tokenGeneration, revision)
      ensures payload.Some? ==> 
        exists id :: ResolvesTo(Now(), token, tokenGeneration, revision, id)
                     && liveAssociations[id].payload == payload.value
    {
      if token == "" || tokenGeneration <= 0 || revision <= 0 {
        return None;
      }
      var rest := liveAssociations.Keys;
      while rest != {}
        invariant rest <= liveAssociations.Keys
        invariant forall id :: id in liveAssociations && id !in rest ==>
          !ResolvesTo(Now(), token, tokenGeneration, revision, id)
        decreases rest
      {
        var id :| id in rest;
        var a := liveAssociations[id];
        if a.presented && a.token == token && a.tokenGeneration == tokenGeneration && a.revision == revision {
          assert ResolvesTo(Now(), token, tokenGeneration, revision, id);
          return Some(a.payload);
        }
        rest := rest - {id};
      }
      payload := None;
    }

    // -------------------------------------------------------------- deadlines

    method CollectDue(now: nat) returns (dueIds: set<nat>)
      ensures dueIds == DueIds(Now(), now)
    {
      dueIds := {};
      var rest := liveAssociations.Keys;
      while rest != {}
        invariant rest <= liveAssociations.Keys
        invariant dueIds == set id | id in liveAssociations.Keys - rest && 0 <= liveAssociations[id].deadline <= now
        decreases rest
      {
        var id :| id in rest;
        var deadline := liveAssociations[id].deadline;
        if deadline >= 0 && deadline <= now {
          dueIds := dueIds + {id};
        }
        rest := rest - {id};
      }
    }

    /** One due notification: it closes itself, is removed when it cannot be told, or stays. */
    method EndOne(protocolId: nat, w: World) returns (told: multiset<Object>)
      requires Inv(Now()) && protocolId in liveAssociations
      modifies this`liveAssociations, this`historySnapshots, this`deadlineTimer
      ensures Inv(Now())
      ensures Now() == EndedOne(old(Now()), protocolId, w).(timer := deadlineTimer)
      ensures told == Told(old(liveAssociations)[protocolId].notification, w)
    {
      hide Core, TimerFor, Without, Expired, Unlink;
      ghost var before := Now();
      OwnsTracked(before, protocolId, {});
      TrackedFacts(before, protocolId, {});
      EndedOneKeeps(before, protocolId, w);
      var o := liveAssociations[protocolId].notification;
      var called, asked := ExpireNotification(o, w, {});
      told := asked;
      if !called {
        if liveAssociations[protocolId].recordKey.Some? {
          RemoveSnapshot(liveAssociations[protocolId].recordKey.value);
        }
        EraseAssociation(protocolId);
      }
      FrameTimer(EndedOne(before, protocolId, w), Now());
    }

    method EndDue(dueIds: set<nat>, w: World) returns (told: multiset<Object>)
      requires Inv(Now()) && dueIds <= liveAssociations.Keys
      modifies this`liveAssociations, this`historySnapshots, this`deadlineTimer
      ensures Inv(Now())
      ensures Now() == EndAll(old(Now()), dueIds, w).(timer := deadlineTimer)
      ensures told == multiset(LivingAmong(old(Now()), dueIds, w))
    {
      hide Inv, EndedOne, EndAll, LivingAmong, Told, Keyed;
      ghost var before := Now();
      ghost var visited: set<nat> := {};
      InvKeyed(before);
      NobodyLives(before, w);
      told := multiset{};
      EndNone(before, w);
      var rest := dueIds;
      while rest != {}
        invariant rest + visited == dueIds && rest !! visited
        invariant Inv(Now())
        invariant Now() == EndAll(before, visited, w).(timer := deadlineTimer)
        invariant told == multiset(LivingAmong(before, visited, w))
        decreases rest
      {
        var id :| id in rest;
        EndLeaves(before, visited, id, w);
        EndStep(before, visited, id, w);
        EndedOneTimer(EndAll(before, visited, w), deadlineTimer, id, w);
        LivingMore(before, visited, id, w);
        StillThere(before, visited, id, deadlineTimer, w);
        var asked := EndOne(id, w);
        told := told + asked;
        rest, visited := rest - {id}, visited + {id};
      }
      assert visited == dueIds;
    }

    method ProcessDueDeadlines(w: World) returns (told: multiset<Object>)
      requires Valid()
      modifies this
      ensures Now() == ProcessDue(old(Now()), w) && Valid() && told == ToldBy(old(Now()), DueEvent, w)
    {
      hide Inv, Settled, TimerExact, TimerFor, EndAll, Prune, DueIds, LivingAmong;
      ghost var before := Now();
      ProcessDueKeeps(before, w);
      DueExact(before, w);
      var dueIds := CollectDue(w.now);
      DueAreTracked(before, w.now);
      told := EndDue(dueIds, w);
      RecordsOrdered(Now());
      ghost var ended := EndAll(before, dueIds, w);
      PruneIgnoresTimer(ended, deadlineTimer, w.now);
      PruneHistory(w.now);
      ArmScheduler(w.now);
    }
  }

  lemma InvKeyed(s: State)
    requires Inv(s)
    ensures Keyed(s.live)
  {}

  lemma NobodyLives(s: State, w: World)
    ensures multiset(LivingAmong(s, {}, w)) == multiset{}
  {}

  lemma StillThere(s: State, ids: set<nat>, id: nat, timer: Option<Timer>, w: World)
    requires id in s.live && id !in ids
    ensures id in EndAll(s, ids, w).(timer := timer).live
    ensures EndAll(s, ids, w).(timer := timer).live[id] == s.live[id]
  {}

  ghost function EndedOne(s: State, id: nat, w: World): State
    requires id in s.live
  {
    match Ending(s.live[id], w)
    case None => s
    case Some(reason) => Erase(Released(s, s.live[id].recordKey, reason), id)
  }

  lemma EndedOneKeeps(s: State, id: nat, w: World)
    requires Inv(s) && id in s.live
    ensures Inv(EndedOne(s, id, w))
  {
    hide Core;
    if Ending(s.live[id], w).Some? {
      ReleaseKeeps(s, id, Ending(s.live[id], w).value, {});
    }
  }

  lemma FrameTimer(s: State, t: State)
    requires Inv(s) && t == s.(timer := t.timer)
    ensures Inv(t)
  {
    hide Core;
    Frame(s, t, {});
  }

  lemma EndedOneTimer(s: State, timer: Option<Timer>, id: nat, w: World)
    requires id in s.live
    ensures EndedOne(s.(timer := timer), id, w) == EndedOne(s, id, w).(timer := timer)
  {
    hide Without, Expired, Unlink;
  }

  lemma PruneIgnoresTimer(s: State, timer: Option<Timer>, now: nat)
    ensures Prune(s.(timer := timer), now) == Prune(s, now).(timer := timer)
  {}

  lemma EndNone(s: State, w: World)
    ensures EndAll(s, {}, w) == s
  {
    assert EndedIds(s, {}, w) == {} && KeysEnding(s, {}, true, w) == {} && KeysEnding(s, {}, false, w) == {};
    assert s.live - {} == s.live;
    assert ExpiredAll(s.history, {}) == s.history;
    WithoutNothing(s.history);
    assert Elements([]) == {};
  }

  lemma EndLeaves(s: State, ids: set<nat>, id: nat, w: World)
    requires id in s.live && id !in ids
    ensures id in EndAll(s, ids, w).live && EndAll(s, ids, w).live[id] == s.live[id]
  {
    hide Without, ExpiredAll, KeysEnding;
  }

  lemma KeysEndingStep(s: State, ids: set<nat>, id: nat, expired: bool, w: World)
    requires id in s.live
    ensures KeysEnding(s, ids + {id}, expired, w)
      == KeysEnding(s, ids, expired, w)
         + (if Ending(s.live[id], w).Some? && (Ending(s.live[id], w).value == 1) == expired
            then KeyOf(s.live[id]) else {})
  {
    hide Ending;
  }

  lemma ExpiredOfAll(history: seq<Record>, keys: set<nat>, key: nat)
    ensures Expired(ExpiredAll(history, keys), key) == ExpiredAll(history, keys + {key})
  {}

  function ExpiredOne(r: Record, key: nat): (t: Record)
    ensures t.key == r.key
  {
    if r.key == key then r.(live := false) else r
  }

  lemma ExpiredHead(history: seq<Record>, key: nat)
    requires history != []
    ensures Expired(history, key) == [ExpiredOne(history[0], key)] + Expired(history[1..], key)
  {}

  lemma WithoutHead(head: Record, tail: seq<Record>, keys: set<nat>)
    ensures Without([head] + tail, keys)
      == if head.key in keys then Without(tail, keys) else [head] + Without(tail, keys)
  {
    assert ([head] + tail)[1..] == tail;
  }

  lemma {:induction false} WithoutOfExpired(history: seq<Record>, keys: set<nat>, key: nat)
    ensures Without(Expired(history, key), keys) == Expired(Without(history, keys), key)
  {
    if history != [] {
      ExpiredHead(history, key);
      var head, tail := history[0], history[1..];
      WithoutOfExpired(tail, keys, key);
      WithoutHead(ExpiredOne(head, key), Expired(tail, key), keys);
      WithoutHead(head, tail, keys);
      ExpiredHead([head] + Without(tail, keys), key);
      assert ([head] + Without(tail, keys))[1..] == Without(tail, keys);
      assert [head] + tail == history;
    }
  }

  lemma EndHistoryStep(s: State, ids: set<nat>, id: nat, w: World)
    requires id in s.live && id !in ids && Ending(s.live[id], w).Some?
    ensures EndAll(s, ids + {id}, w).history
      == Released(EndAll(s, ids, w), s.live[id].recordKey, Ending(s.live[id], w).value).history
  {
    KeysEndingStep(s, ids, id, true, w);
    KeysEndingStep(s, ids, id, false, w);
    hide KeysEnding, Ending, EndedIds;
    var expired, dropped := KeysEnding(s, ids, true, w), KeysEnding(s, ids, false, w);
    var marked := ExpiredAll(s.history, expired);
    match s.live[id].recordKey
    case None =>
      assert expired + {} == expired && dropped + {} == dropped;
    case Some(k) =>
      if Ending(s.live[id], w).value == 1 {
        assert dropped + {} == dropped;
        ExpiredOfAll(s.history, expired, k);
        WithoutOfExpired(marked, dropped, k);
      } else {
        assert expired + {} == expired;
        WithoutAgain(marked, dropped, k);
      }
  }

  lemma EndLiveStep(s: State, ids: set<nat>, id: nat, w: World)
    requires LinksOk(s.live) && id in s.live && id !in ids && Ending(s.live[id], w).Some?
    ensures EndAll(s, ids + {id}, w).live
      == Erase(Released(EndAll(s, ids, w), s.live[id].recordKey, Ending(s.live[id], w).value), id).live
  {
    hide KeysEnding, Without, ExpiredAll, Expired, Ending;
    var live := EndAll(s, ids, w).live;
    EndedIdsStep(s, ids, id, w);
    assert s.live - EndedIds(s, ids + {id}, w) == live - {id};
    assert LinksOk(live) by { EndedLinks(s, ids, w); }
    if s.live[id].recordKey.Some? {
      EndLeaves(s, ids, id, w);
      EraseAfterUnlink(live, id, s.live[id].recordKey.value);
    }
  }

  lemma EndedIdsStep(s: State, ids: set<nat>, id: nat, w: World)
    requires id in s.live && Ending(s.live[id], w).Some?
    ensures EndedIds(s, ids + {id}, w) == EndedIds(s, ids, w) + {id}
  {}

  /** Ending one more notification after others is ending them all together. */
  lemma EndStep(s: State, ids: set<nat>, id: nat, w: World)
    requires Inv(s) && id in s.live && id !in ids
    requires id in EndAll(s, ids, w).live
    ensures EndAll(s, ids + {id}, w) == EndedOne(EndAll(s, ids, w), id, w)
  {
    EndLeaves(s, ids, id, w);
    if Ending(s.live[id], w).Some? {
      EndHistoryStep(s, ids, id, w);
      LinksAreOk(s);
      EndLiveStep(s, ids, id, w);
      hide Ending, KeysEnding, EndedIds, Without, ExpiredAll, Expired, Unlink, Inv;
    } else {
      KeysEndingStep(s, ids, id, true, w);
      KeysEndingStep(s, ids, id, false, w);
      assert EndedIds(s, ids + {id}, w) == EndedIds(s, ids, w);
      assert KeysEnding(s, ids + {id}, true, w) == KeysEnding(s, ids, true, w);
      assert KeysEnding(s, ids + {id}, false, w) == KeysEnding(s, ids, false, w);
    }
  }

  lemma LinksAreOk(s: State)
    requires Inv(s)
    ensures LinksOk(s.live)
  {}

  lemma DueAreTracked(s: State, now: nat)
    ensures DueIds(s, now) <= s.live.Keys
  {}

  function Elements(keys: seq<nat>): set<nat> {
    set k | k in keys
  }

  lemma ElementsStep(keys: seq<nat>, index: nat)
    requires index < |keys|
    ensures Elements(keys[..index + 1]) == Elements(keys[..index]) + {keys[index]}
  {
    assert keys[..index + 1] == keys[..index] + [keys[index]];
  }

  lemma AddresseeUnique(s: State, key: nat, w: World, id: nat)
    requires Inv(s) && Addressed(s, id, key, w)
    ensures Addressee(s, key, w) == Some(id)
  {}

  lemma NobodyAddressed(s: State, key: nat, w: World)
    requires forall id :: !Addressed(s, id, key, w)
    ensures Addressee(s, key, w) == None
  {}

  lemma RecordsOrdered(s: State)
    requires Inv(s)
    ensures Ordered(s.history)
  {}

  lemma AmongStep(live: map<nat, Association>, visited: set<nat>, id: nat)
    requires id in live
    ensures LinkedKeys(Among(live, visited + {id}))
      == LinkedKeys(Among(live, visited)) + (if live[id].recordKey.Some? then {live[id].recordKey.value} else {})
  {
    var before, after := Among(live, visited), Among(live, visited + {id});
    forall k | k in LinkedKeys(before) ensures k in LinkedKeys(after) {
      var other :| other in before && before[other].recordKey == Some(k);
      assert after[other].recordKey == Some(k);
    }
    if live[id].recordKey.Some? {
      assert after[id].recordKey == live[id].recordKey;
    }
  }

  lemma {:induction false} WithoutNothing(history: seq<Record>)
    ensures Without(history, Elements([])) == history
  {
    if history != [] {
      WithoutNothing(history[1..]);
    }
  }

  lemma {:induction false} WithoutAgain(history: seq<Record>, keys: set<nat>, key: nat)
    ensures Without(Without(history, keys), {key}) == Without(history, keys + {key})
  {
    if history != [] {
      WithoutAgain(history[1..], keys, key);
    }
  }

  lemma AdmissionKeepsTracked(s: State, n: Notification, now: nat)
    requires Inv(s)
    ensures AdmitHistory(s, n, now).0.live.Keys == s.live.Keys
  {
    AdmitHistoryKeeps(s, n, now);
  }

  lemma PrunedForReplacement(s: State, id: nat, now: nat)
    requires Inv(s) && id in s.live
    ensures
      var s1 := Prune(s, now);
      && Inv(s1) && id in s1.live && s1.live[id].recordKey in {None, s.live[id].recordKey}
      && (s.live[id].recordKey.Some? && s1.live[id].recordKey.None? ==>
            s.live[id].recordKey.value !in Keys(s1.history))
  {
    hide Core, Prune;
    PruneKeeps(s, now);
    PruneIsLocal(s, now);
    if s.live[id].recordKey.Some? {
      PrunedLink(s, now, id);
    }
  }

  lemma RewrittenAt(history: seq<Record>, index: nat, n: Notification)
    requires Ordered(history) && index < |history|
    ensures Rewritten(history, history[index].key, n)
      == history[index := MakeRecord(n, history[index].key, history[index].admittedAt)
                            .(cutoff := history[index].cutoff)]
  {}

  function Among(live: map<nat, Association>, ids: set<nat>): map<nat, Association> {
    map id | id in live && id in ids :: live[id]
  }

  ghost function Chosen(live: map<nat, Association>, newcomer: Association, victim: Option<nat>): Association {
    if victim.Some? && victim.value in live then live[victim.value] else newcomer
  }

  /** Comparing one more association with the weakest so far. */
  lemma VictimStep(live: map<nat, Association>, history: seq<Record>, newcomer: Association, visited: set<nat>,
                   victim: Option<nat>, id: nat)
    requires SequencesDistinct(live) && id in live && id !in visited
    requires forall other :: other in live ==> live[other].sequence != newcomer.sequence
    requires IsVictim(Among(live, visited), history, newcomer, victim)
    ensures IsVictim(Among(live, visited + {id}), history, newcomer,
                     if WeakerThan(live[id], Chosen(live, newcomer, victim), history) then Some(id) else victim)
  {
    hide CapacityClass;
    var before, after := Among(live, visited), Among(live, visited + {id});
    assert forall other :: other in after <==> other == id || other in before;
  }

  lemma PendingOrdered(s: State, key: Option<nat>)
    requires Pending(s, key)
    ensures Ordered(s.history)
  {}

  lemma SequencesAreDistinct(s: State, pending: set<nat>)
    requires Core(s, pending)
    ensures SequencesDistinct(s.live)
  {}

  lemma PrependOrdered(s: State, n: Notification, now: nat)
    requires Inv(s) && !s.historyKeys.exhausted
    ensures Ordered([MakeRecord(n, s.historyKeys.next, now)] + s.history)
  {
    PrependKeeps(s, n, now);
  }

  /** `earliest` is the least of `times`, or -1 when there are none. */
  ghost predicate Tracks(earliest: int, times: set<int>) {
    && (forall t :: t in times ==> t >= 0)
    && (if times == {} then earliest == -1 else IsLeast(times, earliest))
  }

  function Deadlines(live: map<nat, Association>, ids: set<nat>): set<int> {
    set id | id in ids && id in live && live[id].deadline >= 0 :: live[id].deadline
  }

  function Cutoffs(history: seq<Record>): set<int> {
    set r | r in history :: r.cutoff as int
  }

  lemma DeadlineStep(live: map<nat, Association>, ids: set<nat>, id: nat)
    requires id in live
    ensures live[id].deadline >= 0 ==> Deadlines(live, ids + {id}) == Deadlines(live, ids) + {live[id].deadline}
    ensures live[id].deadline < 0 ==> Deadlines(live, ids + {id}) == Deadlines(live, ids)
  {}

  lemma TracksStep(earliest: int, times: set<int>, t: int)
    requires Tracks(earliest, times)
    ensures t >= 0 ==> Tracks(if earliest < 0 || t < earliest then t else earliest, times + {t})
  {}

  lemma LeastUnique(times: set<int>, a: int, b: int)
    requires IsLeast(times, a) && IsLeast(times, b)
    ensures a == b
  {}

  lemma NoneGone(history: seq<Record>, keys: set<nat>)
    ensures history[|history|..] == [] && Without([], keys) == [] && keys * Keys([]) == {}
  {}

  /** One turn of the age loop, seen from the records already passed. */
  lemma PruneOne(history: seq<Record>, stale: set<nat>, now: nat, index: nat)
    requires Ordered(history) && index < |history| && stale == StaleKeys(history, now)
    ensures
      var passed, rest := history[index..], history[index + 1..];
      && Without(passed, stale) ==
           (if history[index].cutoff <= now then [] else [history[index]]) + Without(rest, stale)
      && stale * Keys(passed)
         == (if history[index].cutoff <= now then {history[index].key} else {}) + stale * Keys(rest)
  {
    StaleIffOld(history, now, index);
    assert history[index..][1..] == history[index + 1..];
    assert history[index..] == [history[index]] + history[index + 1..];
    assert Keys(history[index..]) == {history[index].key} + Keys(history[index + 1..]);
  }

  lemma AllGone(history: seq<Record>, now: nat)
    ensures history[0..] == history && StaleKeys(history, now) * Keys(history) == StaleKeys(history, now)
  {}

  lemma {:induction false} WithoutAbsent(history: seq<Record>, key: nat)
    requires key !in Keys(history)
    ensures Without(history, {key}) == history
  {
    if history != [] {
      assert history[0] in history;
      assert Keys(history[1..]) <= Keys(history);
      WithoutAbsent(history[1..], key);
    }
  }

  lemma UnlinkAbsent(live: map<nat, Association>, key: nat)
    requires key !in LinkedKeys(live)
    ensures Unlink(live, {key}) == live
  {}

  lemma Reattach(history: seq<Record>, index: nat)
    requires 0 < index < |history|
    ensures [history[0]] + (history[1..][..index - 1] + history[1..][index..])
      == history[..index] + history[index + 1..]
  {}

  lemma WithoutFirst(history: seq<Record>)
    requires Ordered(history) && history != []
    ensures Without(history, {history[0].key}) == history[1..]
  {
    assert forall r :: r in history[1..] ==> r.key < history[0].key;
    WithoutAbsent(history[1..], history[0].key);
  }

  lemma WithoutLater(history: seq<Record>, key: nat)
    requires history != [] && history[0].key != key
    ensures Without(history, {key}) == [history[0]] + Without(history[1..], {key})
  {}

  lemma {:induction false} WithoutAt(history: seq<Record>, index: nat)
    requires Ordered(history) && index < |history|
    ensures Without(history, {history[index].key}) == history[..index] + history[index + 1..]
    decreases index
  {
    if index == 0 {
      WithoutFirst(history);
      assert history[..0] + history[1..] == history[1..];
    } else {
      var key := history[index].key;
      WithoutLater(history, key);
      assert history[1..][index - 1].key == key;
      WithoutAt(history[1..], index - 1);
      Reattach(history, index);
    }
  }

  lemma StaleIffOld(history: seq<Record>, now: nat, index: nat)
    requires Ordered(history) && index < |history|
    ensures history[index].key in StaleKeys(history, now) <==> history[index].cutoff <= now
  {
    assert forall r :: r in history && r.key == history[index].key ==> r == history[index];
  }
}
