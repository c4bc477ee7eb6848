/** Under a clock that never runs backwards, what age removes from history is always its tail. */
module NotificationAgeing {
  import opened Basics
  import opened NotificationModel
  import opened NotificationSteps
  import opened NotificationInvariant

  datatype Stamp = Stamp(key: nat, admittedAt: nat, cutoff: nat)

  /** When each record was admitted and when it has to go. */
  function Stamps(history: seq<Record>): set<Stamp> {
    set r | r in history :: Stamp(r.key, r.admittedAt, r.cutoff)
  }

  /** What ageing needs of the history: keys run down and all come from the counter. */
  ghost predicate Historic(s: State) {
    && CounterOk(s.historyKeys) && Ordered(s.history)
    && forall r :: r in s.history ==> r.key < Limit(s.historyKeys)
  }

  /** Records keep their stamp; only records admitted just now, under unused keys, are new. */
  ghost predicate Derived(s: State, t: State, now: nat) {
    && Limit(s.historyKeys) <= Limit(t.historyKeys)
    && (Historic(s) ==> Historic(t))
    && forall x :: x in Stamps(t.history) ==>
         x in Stamps(s.history) || (x.key >= Limit(s.historyKeys) && x == Stamp(x.key, now, now + HISTORY_LIFETIME_MS))
  }

  ghost predicate Shrunk(s: State, t: State) {
    && t.historyKeys == s.historyKeys && Stamps(t.history) <= Stamps(s.history)
    && (Ordered(s.history) ==> Ordered(t.history))
  }

  lemma ShrunkDerived(s: State, t: State, now: nat)
    requires Shrunk(s, t)
    ensures Derived(s, t, now)
  {
    forall r | r in t.history && Historic(s) ensures r.key < Limit(t.historyKeys) {
      assert Stamp(r.key, r.admittedAt, r.cutoff) in Stamps(s.history);
    }
  }

  lemma DerivedTransitive(s: State, t: State, u: State, now: nat)
    requires Derived(s, t, now) && Derived(t, u, now)
    ensures Derived(s, u, now)
  {
    hide Stamps, Limit, Historic;
  }

  lemma WithoutStamps(history: seq<Record>, keys: set<nat>)
    ensures Stamps(Without(history, keys)) <= Stamps(history)
    ensures Ordered(history) ==> Ordered(Without(history, keys))
  {
    if Ordered(history) {
      WithoutOrdered(history, keys);
    }
  }

  lemma ExpiredStamps(history: seq<Record>, key: nat)
    ensures Stamps(Expired(history, key)) <= Stamps(history)
    ensures Ordered(history) ==> Ordered(Expired(history, key))
  {
    var marked := Expired(history, key);
    forall r | r in marked ensures Stamp(r.key, r.admittedAt, r.cutoff) in Stamps(history) {
      var i :| 0 <= i < |marked| && marked[i] == r;
      assert history[i] in history;
    }
  }

  lemma ExpiredAllStamps(history: seq<Record>, keys: set<nat>)
    ensures Stamps(ExpiredAll(history, keys)) <= Stamps(history)
    ensures Ordered(history) ==> Ordered(ExpiredAll(history, keys))
  {
    var marked := ExpiredAll(history, keys);
    forall r | r in marked ensures Stamp(r.key, r.admittedAt, r.cutoff) in Stamps(history) {
      var i :| 0 <= i < |marked| && marked[i] == r;
      assert history[i] in history;
    }
  }

  lemma RewrittenStamps(history: seq<Record>, key: nat, n: Notification)
    ensures Stamps(Rewritten(history, key, n)) <= Stamps(history)
    ensures Ordered(history) ==> Ordered(Rewritten(history, key, n))
  {
    var written := Rewritten(history, key, n);
    forall r | r in written ensures Stamp(r.key, r.admittedAt, r.cutoff) in Stamps(history) {
      var i :| 0 <= i < |written| && written[i] == r;
      assert history[i] in history;
    }
  }

  lemma PruneShrinks(s: State, now: nat)
    ensures Shrunk(s, Prune(s, now))
  {
    WithoutStamps(s.history, StaleKeys(s.history, now));
    var h := PruneByAge(s, now).history;
    assert |h| > MAX_HISTORY ==> Stamps(h[..MAX_HISTORY]) <= Stamps(h);
  }

  lemma PrependHistoric(s: State, r: Record, counter: Counter)
    requires Historic(s) && r.key == Limit(s.historyKeys) && CounterOk(counter) && Limit(counter) == r.key + 1
    ensures Historic(s.(historyKeys := counter, history := [r] + s.history))
  {
    hide Limit, CounterOk;
  }

  lemma PrependStamps(r: Record, history: seq<Record>)
    ensures Stamps([r] + history) == Stamps(history) + {Stamp(r.key, r.admittedAt, r.cutoff)}
  {
    assert forall q :: q in [r] + history <==> q == r || q in history;
  }

  lemma AdmitHistoryDerived(s: State, n: Notification, now: nat)
    requires CounterOk(s.historyKeys)
    ensures Derived(s, AdmitHistory(s, n, now).0, now)
  {
    hide Prune, Stamps;
    ShrunkDerived(s, s, now);
    var (key, counter) := Allocate(s.historyKeys);
    if !n.transient && key.Some? {
      var r := MakeRecord(n, key.value, now);
      var s1 := s.(historyKeys := counter, history := [r] + s.history);
      assert Derived(s, s1, now) by {
        PrependStamps(r, s.history);
        if Historic(s) {
          PrependHistoric(s, r, counter);
        }
      }
      hide Derived;
      PruneShrinks(s1, now);
      ShrunkDerived(s1, Prune(s1, now), now);
      DerivedTransitive(s, s1, Prune(s1, now), now);
    }
  }

  lemma CloseShrinks(s: State, o: Object, reason: int, now: nat)
    ensures Shrunk(s, Close(s, o, reason, now))
  {
    hide TimerFor, Stamps;
    if Owns(s, o) && s.live[o.protocolId].recordKey.Some? {
      ExpiredStamps(s.history, s.live[o.protocolId].recordKey.value);
      WithoutStamps(s.history, {s.live[o.protocolId].recordKey.value});
    }
  }

  lemma AfterExpireShrinks(s: State, o: Object, w: World)
    ensures Shrunk(s, AfterExpire(s, o, w))
  {
    hide Close;
    CloseShrinks(s, o, if w.expire(o).Closes? then w.expire(o).reason else 0, w.now);
  }

  lemma TurnAwayShrinks(s: State, o: Object, key: Option<nat>, w: World)
    ensures Shrunk(s, TurnAway(s, o, key, w))
  {
    hide TimerFor, AfterExpire, Expired, Stamps;
    var s1 := if key.Some? then s.(history := Expired(s.history, key.value)) else s;
    if key.Some? {
      ExpiredStamps(s.history, key.value);
    }
    AfterExpireShrinks(s1, o, w);
  }

  lemma ContendShrinks(s: State, newcomer: Association, n: Notification, w: World)
    ensures Shrunk(s, Contend(s, newcomer, n, w))
  {
    hide AfterExpire, TurnAway, Victim, Stamps, TimerFor;
    var v := Victim(s.live, s.history, newcomer);
    TurnAwayShrinks(s, newcomer.notification, newcomer.recordKey, w);
    if v.Some? && v.value in s.live {
      var victim := s.live[v.value].notification;
      AfterExpireShrinks(s, victim, w);
      TurnAwayShrinks(AfterExpire(s, victim, w), newcomer.notification, newcomer.recordKey, w);
    }
  }

  lemma AdmitFreshDerived(s: State, o: Object, w: World)
    requires CounterOk(s.historyKeys)
    ensures Derived(s, AdmitFresh(s, o, w), w.now)
  {
    hide AfterExpire, Contend, AdmitHistory, Derived, TimerFor, Stamps, CounterOk;
    AfterExpireShrinks(s, o, w);
    ShrunkDerived(s, AfterExpire(s, o, w), w.now);
    ShrunkDerived(s, Queue(s, o), w.now);
    ShrunkDerived(s, s, w.now);
    if o.protocolId != 0 && o.protocolId !in s.live && !s.liveKeys.exhausted {
      var n := w.read(o);
      var (sequence, counter) := Allocate(s.liveKeys);
      var s0 := s.(liveKeys := counter);
      AdmitHistoryDerived(s0, n, w.now);
      var (s1, key) := AdmitHistory(s0, n, w.now);
      var newcomer := Newcomer(o, n, key, sequence.value);
      ContendShrinks(s1, newcomer, n, w);
      ShrunkDerived(s1, Contend(s1, newcomer, n, w), w.now);
      ShrunkDerived(s1, Install(s1, newcomer, n, w.now), w.now);
      ShrunkDerived(s, s0, w.now);
      DerivedTransitive(s, s0, s1, w.now);
      DerivedTransitive(s, s1, AdmitFresh(s, o, w), w.now);
    }
  }

  lemma RerecordDerived(s: State, id: nat, oldKey: Option<nat>, n: Notification, now: nat)
    requires id in s.live && CounterOk(s.historyKeys)
    ensures Derived(s, Rerecord(s, id, oldKey, n, now), now)
  {
    hide AdmitHistory, Stamps;
    AdmitHistoryDerived(s, n, now);
    if oldKey.Some? {
      WithoutStamps(s.history, {oldKey.value});
    }
    if s.live[id].recordKey.Some? {
      RewrittenStamps(s.history, s.live[id].recordKey.value, n);
    }
  }

  lemma ReplaceDerived(s: State, o: Object, w: World)
    requires CounterOk(s.historyKeys)
    ensures Derived(s, Replace(s, o, w), w.now)
  {
    hide Prune, Rerecord, TimerFor, Stamps, Derived, CounterOk;
    ShrunkDerived(s, s, w.now);
    if Owns(s, o) {
      var id, n := o.protocolId, w.read(o);
      PruneShrinks(s, w.now);
      var s1 := Prune(s, w.now);
      ShrunkDerived(s, s1, w.now);
      if id in s1.live {
        RerecordDerived(s1, id, s.live[id].recordKey, n, w.now);
        var s2 := Rerecord(s1, id, s.live[id].recordKey, n, w.now);
        DerivedTransitive(s, s1, s2, w.now);
        ShrunkDerived(s2, Replace(s, o, w), w.now);
        DerivedTransitive(s, s2, Replace(s, o, w), w.now);
      }
    }
  }

  lemma RunQueuedDerived(s: State, o: Object, w: World)
    requires CounterOk(s.historyKeys)
    ensures Derived(s, RunQueued(s, o, w), w.now)
  {
    hide Replace, Stamps;
    if o.protocolId in s.live {
      ReplaceDerived(s.(live := s.live[o.protocolId := s.live[o.protocolId].(updateQueued := false)]), o, w);
    }
  }

  lemma RecogniseDerived(s: State, o: Object, w: World)
    requires CounterOk(s.historyKeys)
    ensures Derived(s, Recognise(s, o, w), w.now)
  {
    hide AfterExpire, AdmitHistory, Stamps, Derived, Historic;
    AfterExpireShrinks(s, o, w);
    ShrunkDerived(s, AfterExpire(s, o, w), w.now);
    if Owns(s, o) {
      var id, n := o.protocolId, w.read(o);
      var a := s.live[id].(seen := true, transient := n.transient, urgency := n.content.urgency);
      var s1 := s.(live := s.live[id := a]);
      ShrunkDerived(s, s1, w.now);
      AdmitHistoryDerived(s1, n, w.now);
      var s2 := AdmitHistory(s1, n, w.now).0;
      ShrunkDerived(s2, if n.transient then s2 else Recognise(s, o, w), w.now);
      DerivedTransitive(s, s1, s2, w.now);
      DerivedTransitive(s, s2, if n.transient then s2 else Recognise(s, o, w), w.now);
    }
  }

  lemma RecogniseCounter(s: State, o: Object, w: World)
    requires CounterOk(s.historyKeys)
    ensures CounterOk(Recognise(s, o, w).historyKeys)
  {
    hide AfterExpire, Prune;
    AfterExpireShrinks(s, o, w);
    assert forall t, now :: Prune(t, now).historyKeys == t.historyKeys by {
      forall t, now ensures Prune(t, now).historyKeys == t.historyKeys { PruneShrinks(t, now); }
    }
  }

  lemma {:induction false} RecogniseAllDerived(s: State, objects: seq<Object>, w: World)
    requires CounterOk(s.historyKeys)
    ensures Derived(s, RecogniseAll(s, objects, w), w.now)
    decreases |objects|
  {
    hide Recognise, Derived, CounterOk, Stamps;
    ShrunkDerived(s, s, w.now);
    if objects != [] {
      var last := |objects| - 1;
      var s1 := Recognise(s, objects[last], w);
      RecogniseDerived(s, objects[last], w);
      RecogniseCounter(s, objects[last], w);
      RecogniseAllDerived(s1, objects[..last], w);
      DerivedTransitive(s, s1, RecogniseAll(s, objects, w), w.now);
    }
  }

  lemma HistoryCounterOk(s: State)
    requires Historic(s)
    ensures CounterOk(s.historyKeys)
  {}

  lemma DerivedHistoric(s: State, t: State, now: nat)
    requires Historic(s) && Derived(s, t, now)
    ensures Historic(t)
  {}

  lemma {:induction false} AdmitAllDerived(s: State, objects: seq<Object>, w: World)
    requires Historic(s)
    ensures Derived(s, AdmitAll(s, objects, w), w.now)
    decreases |objects|
  {
    hide Historic, AdmitFresh, Derived, CounterOk;
    ShrunkDerived(s, s, w.now);
    HistoryCounterOk(s);
    if objects != [] {
      var s1 := AdmitFresh(s, objects[0], w);
      AdmitFreshDerived(s, objects[0], w);
      DerivedHistoric(s, s1, w.now);
      AdmitAllDerived(s1, objects[1..], w);
      DerivedTransitive(s, s1, AdmitAll(s, objects, w), w.now);
    }
  }

  lemma FinishDerived(s: State, generation: nat, w: World)
    requires Historic(s)
    ensures Derived(s, FinishGeneration(s, generation, w), w.now)
  {
    hide Historic, Derived, AdmitAll, RecogniseAll, TimerFor, CounterOk, Stamps;
    HistoryCounterOk(s);
    ShrunkDerived(s, s, w.now);
    if s.reconciling && generation == s.generation {
      var carried := SortDescending(FirstPerId(s.buffered, true, {}, w));
      var s0 := s.(buffered := []);
      var s1 := RecogniseAll(s0, carried, w);
      var s2 := Reconcile(s, w);
      ShrunkDerived(s, s0, w.now);
      RecogniseAllDerived(s0, carried, w);
      DerivedTransitive(s, s0, s1, w.now);
      ShrunkDerived(s1, s2, w.now);
      DerivedTransitive(s, s1, s2, w.now);
      DerivedHistoric(s, s2, w.now);
      var objects := FirstPerId(s.buffered, false, {}, w);
      AdmitAllDerived(s2, objects, w);
      var s3 := AdmitAll(s2, objects, w);
      DerivedTransitive(s, s2, s3, w.now);
      ShrunkDerived(s3, Arm(s3, w.now), w.now);
      DerivedTransitive(s, s3, Arm(s3, w.now), w.now);
    }
  }

  lemma RemovalShrinks(s: State, e: Event, w: World)
    requires e.BeginEvent? || e.DismissEvent? || e.ClearEvent? || e.OwnershipLostEvent? || e.DueEvent?
    ensures Shrunk(s, Step(s, e, w))
  {
    hide TimerFor, Prune, Close, LinkedKeys, KeysEnding, Keys, Stamps;
    assert Stamps([]) == {} by { NoStamps(); }
    match e
    case DismissEvent(key) =>
      WithoutStamps(s.history, {key});
      match Addressee(s, key, w) {
        case Some(id) =>
          var o := s.live[id].notification;
          CloseShrinks(s, o, if w.dismiss(o).Closes? then w.dismiss(o).reason else 0, w.now);
        case None =>
      }
    case OwnershipLostEvent =>
      WithoutStamps(s.history, LinkedKeys(s.live));
    case DueEvent =>
      var ids := DueIds(s, w.now);
      ExpiredAllStamps(s.history, KeysEnding(s, ids, true, w));
      WithoutStamps(ExpiredAll(s.history, KeysEnding(s, ids, true, w)), KeysEnding(s, ids, false, w));
      PruneShrinks(EndAll(s, ids, w), w.now);
    case _ =>
  }

  lemma NoStamps()
    ensures Stamps([]) == {}
  {}

  /** No step changes when a record was admitted or has to go, nor reuses a key. */
  lemma StepDerived(s: State, e: Event, w: World)
    requires Historic(s)
    ensures Derived(s, Step(s, e, w), w.now)
  {
    hide Historic, Derived, BeginGeneration, AdmitFresh, RunQueued, Close, FinishGeneration, Dismiss, ClearHistory,
      LoseOwnership, ProcessDue, CounterOk, Stamps;
    HistoryCounterOk(s);
    ShrunkDerived(s, s, w.now);
    match e
    case AttachEvent(o, generation, lastGeneration) =>
      AdmitFreshDerived(s, o, w);
      ShrunkDerived(s, s.(buffered := s.buffered + [Buffered(o, lastGeneration)]), w.now);
    case UpdateEvent(o) => ShrunkDerived(s, Queue(s, o), w.now);
    case QueuedEvent(o) => RunQueuedDerived(s, o, w);
    case CloseEvent(o, reason) =>
      CloseShrinks(s, o, reason, w.now);
      ShrunkDerived(s, Close(s, o, reason, w.now), w.now);
    case FinishEvent(generation) => FinishDerived(s, generation, w);
    case _ =>
      RemovalShrinks(s, e, w);
      ShrunkDerived(s, Step(s, e, w), w.now);
  }

  // ---------------------------------------------------------------- runs under a monotone clock

  /** Younger keys go later, and nothing is older than the clock allows. */
  ghost predicate Aged(s: State, clock: nat) {
    && (forall x :: x in Stamps(s.history) ==> x.key < Limit(s.historyKeys) && x.cutoff <= clock + HISTORY_LIFETIME_MS)
    && forall x, y :: x in Stamps(s.history) && y in Stamps(s.history) && x.key > y.key ==> x.cutoff >= y.cutoff
  }

  lemma DerivedAged(s: State, t: State, clock: nat, now: nat)
    requires Aged(s, clock) && clock <= now && Derived(s, t, now)
    requires forall x :: x in Stamps(t.history) ==> x.key < Limit(t.historyKeys)
    ensures Aged(t, now)
  {
    hide Stamps, Limit;
  }

  lemma StampsBelowLimit(s: State)
    requires Historic(s)
    ensures forall x :: x in Stamps(s.history) ==> x.key < Limit(s.historyKeys)
  {}

  ghost predicate Monotone(events: seq<(Event, World)>, clock: nat)
    decreases |events|
  {
    events == [] || (clock <= events[0].1.now && Monotone(events[1..], events[0].1.now))
  }

  function FinalClock(events: seq<(Event, World)>, clock: nat): nat {
    if events == [] then clock else events[|events| - 1].1.now
  }

  lemma {:induction false} RunAged(s: State, events: seq<(Event, World)>, clock: nat)
    requires Historic(s) && Aged(s, clock) && Monotone(events, clock)
    ensures Aged(Run(s, events), FinalClock(events, clock)) && Historic(Run(s, events))
    decreases |events|
  {
    hide Historic, Step, Aged, Derived, Stamps;
    if events != [] {
      var (e, w) := events[0];
      var s1 := Step(s, e, w);
      StepDerived(s, e, w);
      DerivedHistoric(s, s1, w.now);
      StampsBelowLimit(s1);
      DerivedAged(s, s1, clock, w.now);
      RunAged(s1, events[1..], w.now);
    }
  }

  /** What age removes is the tail of the history. */
  lemma {:induction false} AgeRemovesATail(history: seq<Record>, now: nat)
    requires Ordered(history)
    requires forall i, j :: 0 <= i < j < |history| ==> history[i].cutoff >= history[j].cutoff
    ensures Without(history, StaleKeys(history, now)) <= history
  {
    if history != [] {
      var stale := StaleKeys(history, now);
      var rest := history[1..];
      AgeRemovesATail(rest, now);
      assert forall r :: r in history && r.key == history[0].key ==> r == history[0];
      if history[0].key in stale {
        assert forall r :: r in rest ==> r.key in stale;
        WithoutAll(history, stale);
      } else {
        WithoutSame(rest, stale, StaleKeys(rest, now));
      }
    }
  }

  lemma {:induction false} WithoutAll(history: seq<Record>, keys: set<nat>)
    requires forall r :: r in history ==> r.key in keys
    ensures Without(history, keys) == []
  {
    if history != [] {
      WithoutAll(history[1..], keys);
    }
  }

  lemma {:induction false} WithoutSame(history: seq<Record>, a: set<nat>, b: set<nat>)
    requires forall r :: r in history ==> (r.key in a <==> r.key in b)
    ensures Without(history, a) == Without(history, b)
  {
    if history != [] {
      WithoutSame(history[1..], a, b);
    }
  }

  lemma AgedPositions(s: State, clock: nat)
    requires Historic(s) && Aged(s, clock)
    ensures Ordered(s.history)
    ensures forall i, j :: 0 <= i < j < |s.history| ==> s.history[i].cutoff >= s.history[j].cutoff
  {
    forall i, j | 0 <= i < j < |s.history| ensures s.history[i].cutoff >= s.history[j].cutoff {
      assert Stamp(s.history[i].key, s.history[i].admittedAt, s.history[i].cutoff) in Stamps(s.history);
      assert Stamp(s.history[j].key, s.history[j].admittedAt, s.history[j].cutoff) in Stamps(s.history);
    }
  }

  /** In every run under a clock that never runs backwards, ageing only ever cuts off a tail. */
  lemma ReachableAgesFromTheBack(events: seq<(Event, World)>, now: nat)
    requires Monotone(events, 0)
    ensures PruneByAge(Run(INITIAL, events), now).history <= Run(INITIAL, events).history
  {
    hide Historic, Run, Aged;
    InitialAged();
    RunAged(INITIAL, events, 0);
    AgedPositions(Run(INITIAL, events), FinalClock(events, 0));
    AgeRemovesATail(Run(INITIAL, events).history, now);
  }

  lemma InitialAged()
    ensures Aged(INITIAL, 0) && Historic(INITIAL)
  {
    NoStamps();
  }
}
