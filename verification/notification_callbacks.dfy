/** Replacements are posted to the event loop and run later. Which callbacks are on their way, and
    why an update that was accepted is never forgotten. */
module NotificationCallbacks {
  import opened NotificationModel
  import opened NotificationSteps
  import opened NotificationSafety
  import opened NotificationTracking
  import opened NotificationReload

  // ---------------------------------------------------------------- what is posted and delivered

  /** An update of `o` is accepted: its replacement is posted unless one is already marked. */
  ghost function PostedBy(s: State, o: Object): multiset<Object> {
    if Owns(s, o) && !s.live[o.protocolId].updateQueued then multiset{o} else multiset{}
  }

  ghost function PostedByAdmission(s: State, o: Object): multiset<Object> {
    if o.protocolId == 0 then multiset{} else PostedBy(s, o)
  }

  ghost function PostedByAll(s: State, objects: seq<Object>, w: World): multiset<Object>
    decreases |objects|
  {
    if objects == [] then multiset{}
    else PostedByAdmission(s, objects[0]) + PostedByAll(AdmitFresh(s, objects[0], w), objects[1..], w)
  }

  /** The replacements one event posts. */
  ghost function Posted(s: State, e: Event, w: World): multiset<Object> {
    match e
    case UpdateEvent(o) => if s.reconciling then multiset{} else PostedBy(s, o)
    case AttachEvent(o, generation, _) =>
      if generation == s.generation && !s.reconciling then PostedByAdmission(s, o) else multiset{}
    case FinishEvent(generation) =>
      if s.reconciling && generation == s.generation
      then PostedByAll(Reconcile(s, w), FirstPerId(s.buffered, false, {}, w), w) else multiset{}
    case _ => multiset{}
  }

  ghost function Taken(e: Event): multiset<Object> {
    if e.QueuedEvent? then multiset{e.o} else multiset{}
  }

  ghost function OnTheWay(s: State, posted: multiset<Object>, e: Event, w: World): multiset<Object> {
    posted - Taken(e) + Posted(s, e, w)
  }

  /** Only replacements that were posted run, each once. */
  ghost predicate Delivered(s: State, posted: multiset<Object>, events: seq<(Event, World)>)
    decreases |events|
  {
    events == [] ||
    (var (e, w) := events[0];
     Taken(e) <= posted && Delivered(Step(s, e, w), OnTheWay(s, posted, e, w), events[1..]))
  }

  ghost function AllOnTheWay(s: State, posted: multiset<Object>, events: seq<(Event, World)>): multiset<Object>
    decreases |events|
  {
    if events == [] then posted
    else
      var (e, w) := events[0];
      AllOnTheWay(Step(s, e, w), OnTheWay(s, posted, e, w), events[1..])
  }

  /** Whatever is marked as having an update to run has its replacement on the way. */
  ghost predicate Backed(s: State, posted: multiset<Object>) {
    forall id :: id in s.live && s.live[id].updateQueued ==>
      s.live[id].notification in posted && s.live[id].notification.protocolId == id
  }

  // ---------------------------------------------------------------- every mark is backed

  lemma ArrivesBacked(s: State, t: State, posted: multiset<Object>)
    requires Backed(s, posted) && Arrives(s, t)
    ensures Backed(t, posted)
  {}

  lemma StaysBacked(s: State, t: State, posted: multiset<Object>)
    requires Backed(s, posted) && Stays(s, t)
    ensures Backed(t, posted)
  {}

  lemma QueueBacked(s: State, o: Object, posted: multiset<Object>)
    requires Backed(s, posted)
    ensures Backed(Queue(s, o), posted + PostedBy(s, o))
  {}

  lemma AdmitFreshBacked(s: State, o: Object, posted: multiset<Object>, w: World)
    requires Backed(s, posted)
    ensures Backed(AdmitFresh(s, o, w), posted + PostedByAdmission(s, o))
  {
    hide AdmitFresh, Arrives;
    AdmitFreshArrives(s, o, w);
    if o.protocolId != 0 && o.protocolId in s.live {
      QueueBacked(s, o, posted);
    } else {
      ArrivesBacked(s, AdmitFresh(s, o, w), posted);
    }
  }

  lemma {:induction false} AdmitAllBacked(s: State, objects: seq<Object>, posted: multiset<Object>, w: World)
    requires Backed(s, posted)
    ensures Backed(AdmitAll(s, objects, w), posted + PostedByAll(s, objects, w))
    decreases |objects|
  {
    hide AdmitFresh, Backed, PostedByAdmission;
    if objects == [] {
      assert posted + multiset{} == posted;
    } else {
      var more := PostedByAdmission(s, objects[0]);
      AdmitFreshBacked(s, objects[0], posted, w);
      AdmitAllBacked(AdmitFresh(s, objects[0], w), objects[1..], posted + more, w);
      assert posted + more + PostedByAll(AdmitFresh(s, objects[0], w), objects[1..], w)
          == posted + PostedByAll(s, objects, w);
    }
  }

  /** Running a replacement takes it off the way and clears the mark it belongs to. */
  lemma RunQueuedBacked(s: State, o: Object, posted: multiset<Object>, w: World)
    requires Backed(s, posted)
    ensures Backed(RunQueued(s, o, w), posted - multiset{o})
  {
    hide Replace;
    if o.protocolId in s.live {
      ReplaceStays(s.(live := s.live[o.protocolId := s.live[o.protocolId].(updateQueued := false)]), o, w);
    }
  }

  lemma BeginBacked(s: State, posted: multiset<Object>, w: World)
    ensures Backed(Step(s, BeginEvent, w), posted)
  {
    hide TimerFor;
  }

  lemma RecognisedBacked(s: State, v: State, done: set<nat>, posted: multiset<Object>, w: World)
    requires Backed(s, posted) && Recognised(s, v, done, w)
    ensures Backed(v.(live := SeenOnly(v.live), reconciling := false), posted)
  {}

  lemma ReconcileBacked(s: State, posted: multiset<Object>, w: World)
    requires Backed(s, posted)
    ensures Backed(Reconcile(s, w), posted)
  {
    hide RecogniseAll, Backed, Recognised, OwnedIds;
    var s0 := s.(buffered := []);
    var found := FirstPerId(s.buffered, true, {}, w);
    FirstPerIdDistinct(s.buffered, true, {}, w);
    SortDescendingIs(found);
    DescendingDistinct(SortDescending(found));
    NothingRecognised(s, s0, w);
    RecogniseAllIs(s, s0, {}, SortDescending(found), w);
    RecognisedBacked(s, RecogniseAll(s0, SortDescending(found), w), {} + OwnedIds(s, SortDescending(found)), posted, w);
  }

  lemma ArmBacked(s: State, posted: multiset<Object>, now: nat)
    requires Backed(s, posted)
    ensures Backed(Arm(s, now), posted)
  {}

  lemma FinishBacked(s: State, generation: nat, posted: multiset<Object>, w: World)
    requires Backed(s, posted)
    ensures Backed(FinishGeneration(s, generation, w), posted + Posted(s, FinishEvent(generation), w))
  {
    hide Reconcile, AdmitAll, Arm, Backed, PostedByAll;
    if s.reconciling && generation == s.generation {
      var s1 := Reconcile(s, w);
      var newcomers := FirstPerId(s.buffered, false, {}, w);
      ReconcileBacked(s, posted, w);
      AdmitAllBacked(s1, newcomers, posted, w);
      ArmBacked(AdmitAll(s1, newcomers, w), posted + PostedByAll(s1, newcomers, w), w.now);
    } else {
      assert posted + multiset{} == posted;
    }
  }

  /** The events after which nothing new is on the way. */
  lemma NothingPosted(s: State, posted: multiset<Object>, e: Event, w: World)
    requires !e.UpdateEvent? && !e.AttachEvent? && !e.FinishEvent?
    ensures Posted(s, e, w) == multiset{} && OnTheWay(s, posted, e, w) == posted - Taken(e)
  {}

  lemma NothingTaken(s: State, posted: multiset<Object>, e: Event, w: World)
    requires !e.QueuedEvent?
    ensures OnTheWay(s, posted, e, w) == posted + Posted(s, e, w)
  {
    hide Posted;
    assert posted - multiset{} == posted;
  }

  lemma AttachBacked(s: State, o: Object, generation: nat, last: bool, posted: multiset<Object>, w: World)
    requires Backed(s, posted)
    ensures
      var e := AttachEvent(o, generation, last);
      Backed(Step(s, e, w), posted + Posted(s, e, w))
  {
    hide AdmitFresh, PostedByAdmission;
    AdmitFreshBacked(s, o, posted, w);
  }

  lemma UpdateBacked(s: State, o: Object, posted: multiset<Object>, w: World)
    requires Backed(s, posted)
    ensures Backed(Step(s, UpdateEvent(o), w), posted + Posted(s, UpdateEvent(o), w))
  {
    QueueBacked(s, o, posted);
  }

  lemma StepBacked(s: State, e: Event, posted: multiset<Object>, w: World)
    requires Backed(s, posted)
    ensures Backed(Step(s, e, w), OnTheWay(s, posted, e, w))
  {
    hide RunQueued, FinishGeneration, Close, Dismiss, ProcessDue, BeginGeneration, Attach, Queue, ClearHistory,
      LoseOwnership, Stays, Posted, OnTheWay, Backed;
    match e
    case UpdateEvent(o) =>
      NothingTaken(s, posted, e, w);
      UpdateBacked(s, o, posted, w);
    case AttachEvent(o, generation, lastGeneration) =>
      NothingTaken(s, posted, e, w);
      AttachBacked(s, o, generation, lastGeneration, posted, w);
    case QueuedEvent(o) =>
      NothingPosted(s, posted, e, w);
      RunQueuedBacked(s, o, posted, w);
    case FinishEvent(generation) =>
      NothingTaken(s, posted, e, w);
      FinishBacked(s, generation, posted, w);
    case BeginEvent =>
      NothingPosted(s, posted, e, w);
      assert posted - multiset{} == posted;
      BeginBacked(s, posted, w);
    case _ =>
      NothingPosted(s, posted, e, w);
      assert posted - multiset{} == posted;
      KeepingStays(s, e, w);
      StaysBacked(s, Step(s, e, w), posted);
  }

  /** No accepted update is forgotten: in every run in which the event loop delivers what was posted, a
      marked association has its replacement on the way, so a second one need not be posted. */
  lemma {:induction false} RunBacked(s: State, posted: multiset<Object>, events: seq<(Event, World)>)
    requires Backed(s, posted) && Delivered(s, posted, events)
    ensures Backed(Run(s, events), AllOnTheWay(s, posted, events))
    decreases |events|
  {
    hide Backed, Step, OnTheWay;
    if events != [] {
      var (e, w) := events[0];
      StepBacked(s, e, posted, w);
      RunBacked(Step(s, e, w), OnTheWay(s, posted, e, w), events[1..]);
    }
  }

  lemma ReachableBacked(events: seq<(Event, World)>)
    requires Delivered(INITIAL, multiset{}, events)
    ensures
      var s := Run(INITIAL, events);
      forall id :: id in s.live && s.live[id].updateQueued ==>
        s.live[id].notification in AllOnTheWay(INITIAL, multiset{}, events)
  {
    hide Run, AllOnTheWay, Delivered;
    RunBacked(INITIAL, multiset{}, events);
  }
}
