/** The single timer, the expiry of deadlines and the ageing of history. */
module NotificationSchedule {
  import opened Basics
  import opened NotificationModel
  import opened NotificationSteps
  import opened NotificationInvariant

  // ---------------------------------------------------------------- the timer covers everything

  /** The timer is the one that would be armed for the present tables at the time it was armed. */
  ghost predicate TimerExact(s: State) {
    match s.timer
    case None => DueTimes(s.live, s.history) == {}
    case Some(t) => s.timer == TimerFor(s.live, s.history, t.armedAt)
  }

  /** What that means: active exactly when something is due, and never too late for anything. */
  lemma TimerCoversEverything(s: State)
    requires TimerExact(s)
    ensures s.timer.Some? <==> DueTimes(s.live, s.history) != {}
    ensures s.timer.Some? ==>
              forall t :: t in DueTimes(s.live, s.history) ==> s.timer.value.fireAt <= Max(t, s.timer.value.armedAt)
  {}

  lemma ArmExact(s: State, now: nat)
    ensures TimerExact(Arm(s, now))
  {
    hide DueTimes;
  }

  /** The tables the timer depends on and the timer are as before. */
  ghost predicate SameSchedule(s: State, t: State) {
    t.timer == s.timer && t.history == s.history && t.live.Keys == s.live.Keys
    && forall id :: id in s.live ==> t.live[id].deadline == s.live[id].deadline
  }

  lemma SameScheduleExact(s: State, t: State)
    requires TimerExact(s) && SameSchedule(s, t)
    ensures TimerExact(t)
  {
    assert DueTimes(t.live, t.history) == DueTimes(s.live, s.history);
  }

  lemma CloseExact(s: State, o: Object, reason: int, now: nat)
    requires TimerExact(s)
    ensures TimerExact(Close(s, o, reason, now))
  {
    hide TimerExact, TimerFor;
    if Owns(s, o) {
      ArmExact(Erase(Released(s, s.live[o.protocolId].recordKey, reason), o.protocolId), now);
    }
  }

  lemma ContendExact(s: State, newcomer: Association, n: Notification, w: World)
    ensures TimerExact(Contend(s, newcomer, n, w))
  {
    hide TimerExact, TimerFor, Victim, AfterExpire;
    forall t, now ensures TimerExact(Arm(t, now)) { ArmExact(t, now); }
  }

  lemma AdmitFreshExact(s: State, o: Object, w: World)
    requires TimerExact(s)
    ensures TimerExact(AdmitFresh(s, o, w))
  {
    hide TimerExact, TimerFor, AdmitHistory, Contend;
    if o.protocolId == 0 || (o.protocolId !in s.live && s.liveKeys.exhausted) {
      CloseExact(s, o, if w.expire(o).Closes? then w.expire(o).reason else 0, w.now);
    } else if o.protocolId in s.live {
      SameScheduleExact(s, Queue(s, o));
    } else {
      var n := w.read(o);
      var (sequence, counter) := Allocate(s.liveKeys);
      var (s1, key) := AdmitHistory(s.(liveKeys := counter), n, w.now);
      var newcomer := Newcomer(o, n, key, sequence.value);
      ContendExact(s1, newcomer, n, w);
      forall t, now ensures TimerExact(Arm(t, now)) { ArmExact(t, now); }
    }
  }

  /** Recording anew tracks no other ids. */
  lemma RerecordTracks(s: State, id: nat, oldKey: Option<nat>, n: Notification, now: nat)
    requires id in s.live
    ensures Rerecord(s, id, oldKey, n, now).live.Keys == s.live.Keys
  {
    hide Prune, Without, Rewritten;
    forall t, now ensures Prune(t, now).live.Keys == t.live.Keys { PruneIsLocal(t, now); }
  }

  lemma ReplaceExact(s: State, o: Object, w: World)
    requires TimerExact(s)
    ensures TimerExact(Replace(s, o, w))
  {
    hide TimerExact, TimerFor, Prune, Rerecord;
    if Owns(s, o) {
      var id, n := o.protocolId, w.read(o);
      PruneIsLocal(s, w.now);
      var s1 := Prune(s, w.now);
      RerecordTracks(s1, id, s.live[id].recordKey, n, w.now);
      var s2 := Rerecord(s1, id, s.live[id].recordKey, n, w.now);
      var a := s2.live[id].(transient := n.transient, urgency := n.content.urgency);
      ArmExact(s2.(live := s2.live[id := Presented(Scheduled(a, n, w.now), n)]), w.now);
    }
  }

  lemma BeginExact(s: State, now: nat)
    ensures TimerExact(BeginGeneration(s, now))
  {
    hide TimerExact, TimerFor, Detached;
    ArmExact(s.(generation := BeginGeneration(s, now).generation,
                reconciling := true, buffered := [], live := Detached(s.live), history := []), now);
  }

  lemma ClearExact(s: State, now: nat)
    requires TimerExact(s)
    ensures TimerExact(ClearHistory(s, now))
  {
    hide TimerExact, TimerFor, UnlinkAll;
    ArmExact(s.(live := UnlinkAll(s.live), history := []), now);
  }

  lemma LoseExact(s: State, now: nat)
    requires TimerExact(s)
    ensures TimerExact(LoseOwnership(s, now))
  {
    hide TimerExact, TimerFor, LinkedKeys;
    ArmExact(s.(history := Without(s.history, LinkedKeys(s.live)), live := map[]), now);
  }

  lemma DueExact(s: State, w: World)
    ensures TimerExact(ProcessDue(s, w))
  {
    hide TimerExact, TimerFor, EndAll, Prune;
    ArmExact(Prune(EndAll(s, DueIds(s, w.now), w), w.now), w.now);
  }

  /** No step of any run, permitted or not, leaves the timer wrong. */
  lemma StepExact(s: State, e: Event, w: World)
    requires TimerExact(s)
    ensures TimerExact(Step(s, e, w))
  {
    hide TimerExact, TimerFor, AdmitFresh, Replace, Close, AdmitAll, Reconcile, EndAll, Prune, Forget, Without,
      Detached, UnlinkAll, FirstPerId;
    forall t, now ensures TimerExact(Arm(t, now)) { ArmExact(t, now); }
    match e
    case AttachEvent(o, generation, lastGeneration) =>
      AdmitFreshExact(s, o, w);
      SameScheduleExact(s, s.(buffered := s.buffered + [Buffered(o, lastGeneration)]));
    case UpdateEvent(o) =>
      SameScheduleExact(s, Queue(s, o));
    case QueuedEvent(o) =>
      if o.protocolId in s.live {
        var s1 := s.(live := s.live[o.protocolId := s.live[o.protocolId].(updateQueued := false)]);
        SameScheduleExact(s, s1);
        ReplaceExact(s1, o, w);
      }
    case CloseEvent(o, reason) => CloseExact(s, o, reason, w.now);
    case DismissEvent(key) =>
      match Addressee(s, key, w) {
        case Some(id) =>
          var o := s.live[id].notification;
          CloseExact(s, o, if w.dismiss(o).Closes? then w.dismiss(o).reason else 0, w.now);
        case None =>
      }
    case _ =>
  }

  /** After every public operation of every run, whatever runs in between, the timer covers
      all that is due. */
  lemma {:induction false} RunExact(s: State, events: seq<(Event, World)>)
    requires TimerExact(s)
    ensures TimerExact(Run(s, events))
    decreases |events|
  {
    hide Step, TimerExact;
    if events != [] {
      StepExact(s, events[0].0, events[0].1);
      RunExact(Step(s, events[0].0, events[0].1), events[1..]);
    }
  }

  /** In every reachable state the timer runs exactly when something can fall due, never too late. */
  lemma ReachableTimerCovers(events: seq<(Event, World)>)
    ensures
      var s := Run(INITIAL, events);
      && (s.timer.Some? <==> DueTimes(s.live, s.history) != {})
      && (s.timer.Some? ==>
            forall t :: t in DueTimes(s.live, s.history) ==> s.timer.value.fireAt <= Max(t, s.timer.value.armedAt))
  {
    hide Run, TimerFor;
    NothingTimed();
    RunExact(INITIAL, events);
    TimerCoversEverything(Run(INITIAL, events));
  }

  lemma NothingTimed()
    ensures TimerExact(INITIAL)
  {
    assert DueTimes(map[], []) == {};
  }

  // ---------------------------------------------------------------- due deadlines

  ghost predicate NothingDue(s: State, now: nat) {
    && (forall id :: id in s.live ==> s.live[id].deadline < 0 || s.live[id].deadline > now)
    && forall r :: r in s.history ==> r.cutoff > now
  }

  lemma PruneLeavesNothingStale(s: State, now: nat)
    ensures forall r :: r in Prune(s, now).history ==> r.cutoff > now && r in s.history
  {}

  /** Nothing due is left exactly when every due notification let itself be ended. */
  lemma DueAreEnded(s: State, w: World)
    ensures NothingDue(ProcessDue(s, w), w.now)
      <==> forall id :: id in DueIds(s, w.now) ==> Ending(s.live[id], w).Some?
  {
    var s1 := EndAll(s, DueIds(s, w.now), w);
    hide TimerFor, Prune, Ending, KeysEnding;
    PruneLeavesNothingStale(s1, w.now);
    PruneIsLocal(s1, w.now);
    var s2 := ProcessDue(s, w);
    forall id | id in DueIds(s, w.now) && Ending(s.live[id], w).None? ensures !NothingDue(s2, w.now) {
      assert id in s2.live && s2.live[id].deadline == s.live[id].deadline;
    }
  }

  /** The timer then fires again strictly later, so the runtime does not spin, and only then. */
  lemma TimerAdvances(s: State, w: World)
    ensures
      var timer := ProcessDue(s, w).timer;
      (timer.Some? ==> timer.value.fireAt > w.now)
      <==> forall id :: id in DueIds(s, w.now) ==> Ending(s.live[id], w).Some?
  {
    DueAreEnded(s, w);
    hide DueIds, Ending, Prune, EndAll;
    NothingDueTimer(ProcessDue(s, w), w.now);
  }

  lemma NothingDueTimer(s: State, now: nat)
    requires s.timer == TimerFor(s.live, s.history, now)
    ensures (s.timer.Some? ==> s.timer.value.fireAt > now) <==> NothingDue(s, now)
  {
    var times := DueTimes(s.live, s.history);
    if NothingDue(s, now) {
      assert forall t :: t in times ==> t > now;
    } else if exists id :: id in s.live && 0 <= s.live[id].deadline <= now {
      var id :| id in s.live && 0 <= s.live[id].deadline <= now;
      assert s.live[id].deadline in times;
    } else {
      var r :| r in s.history && r.cutoff <= now;
      assert r.cutoff in times;
    }
  }
}
