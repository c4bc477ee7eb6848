/** What a reload keeps, in every run. */
module NotificationReload {
  import opened Basics
  import opened NotificationModel
  import opened NotificationSteps
  import opened NotificationInvariant
  import opened NotificationSafety
  import opened NotificationTracking

  // ---------------------------------------------------------------- which objects count

  /** The first living object buffered as carried under `id`. */
  function FirstCarried(buffered: seq<Buffered>, id: nat, w: World): Option<Object> {
    if buffered == [] then None
    else
      var b := buffered[0];
      if b.carried && w.alive(b.notification) && b.notification.protocolId == id then Some(b.notification)
      else FirstCarried(buffered[1..], id, w)
  }

  /** The tracked notifications whose own object came back first under its id. */
  function Survivors(s: State, w: World): set<nat> {
    set id | id in s.live && FirstCarried(s.buffered, id, w) == Some(s.live[id].notification)
  }

  lemma {:induction false} FirstPerIdIsFirstCarried(buffered: seq<Buffered>, ids: set<nat>, w: World, o: Object)
    ensures o in FirstPerId(buffered, true, ids, w)
      <==> o.protocolId != 0 && o.protocolId !in ids && FirstCarried(buffered, o.protocolId, w) == Some(o)
  {
    if buffered != [] {
      var id := buffered[0].notification.protocolId;
      FirstPerIdIsFirstCarried(buffered[1..], ids + {id}, w, o);
      FirstPerIdIsFirstCarried(buffered[1..], ids, w, o);
    }
  }

  /** The ids among `objects` that belong to the object tracked under them. */
  function OwnedIds(s: State, objects: seq<Object>): set<nat> {
    set o | o in objects && o.protocolId in s.live && s.live[o.protocolId].notification == o :: o.protocolId
  }

  ghost predicate Keyed(live: map<nat, Association>) {
    forall id :: id in live ==> id == live[id].notification.protocolId != 0
  }

  lemma CarriedAreSurvivors(s: State, w: World)
    requires Keyed(s.live)
    ensures OwnedIds(s, SortDescending(FirstPerId(s.buffered, true, {}, w))) == Survivors(s, w)
  {
    var found := FirstPerId(s.buffered, true, {}, w);
    FirstPerIdDistinct(s.buffered, true, {}, w);
    SortDescendingIs(found);
    forall id | id in s.live ensures id in Survivors(s, w) <==> s.live[id].notification in found {
      FirstPerIdIsFirstCarried(s.buffered, {}, w, s.live[id].notification);
    }
    forall id | id in Survivors(s, w) ensures id in OwnedIds(s, SortDescending(found)) {
      assert s.live[id].notification in SortDescending(found);
    }
  }

  lemma UnownedIsLeft(s: State, o: Object, w: World)
    requires !Owns(s, o)
    ensures Recognise(s, o, w) == s
  {}

  lemma OwnedSplit(s: State, objects: seq<Object>)
    requires objects != [] && DistinctIds(objects)
    ensures
      var last := |objects| - 1;
      var o := objects[last];
      && OwnedIds(s, objects) == OwnedIds(s, objects[..last]) + (if Owns(s, o) then {o.protocolId} else {})
      && o.protocolId !in OwnedIds(s, objects[..last])
  {
    var last := |objects| - 1;
    assert objects == objects[..last] + [objects[last]];
    assert forall p :: p in objects[..last] ==> p in objects && p.protocolId != objects[last].protocolId;
  }

  lemma NoneOwned(s: State)
    ensures OwnedIds(s, []) == {}
  {}

  // ---------------------------------------------------------------- who survives

  lemma RecognisedOwners(s: State, v: State, done: set<nat>, w: World, o: Object)
    requires Recognised(s, v, done, w)
    ensures Owns(v, o) <==> Owns(s, o)
  {}

  lemma {:induction false} RecogniseAllIs(s: State, v: State, done: set<nat>, objects: seq<Object>, w: World)
    requires Recognised(s, v, done, w) && DistinctIds(objects)
    ensures Recognised(s, RecogniseAll(v, objects, w), done + OwnedIds(s, objects), w)
    decreases |objects|
  {
    hide Recognised, Recognise, OwnedIds, Owns;
    if objects == [] {
      NoneOwned(s);
      assert done + {} == done;
    } else {
      var last := |objects| - 1;
      var o := objects[last];
      OwnedSplit(s, objects);
      RecogniseOne(s, v, done, o, w);
      RecognisedOwners(s, v, done, w, o);
      var more := if Owns(v, o) then done + {o.protocolId} else done;
      RecogniseAllIs(s, Recognise(v, o, w), more, objects[..last], w);
      assert more + OwnedIds(s, objects[..last]) == done + OwnedIds(s, objects);
    }
  }

  lemma NothingRecognised(s: State, v: State, w: World)
    requires v == s.(buffered := v.buffered)
    ensures Recognised(s, v, {}, w)
  {}

  /** Exactly the survivors were recognised when everything carried has been gone through. */
  lemma SurvivorsRecognised(s: State, w: World)
    requires Keyed(s.live)
    ensures
      var carried := SortDescending(FirstPerId(s.buffered, true, {}, w));
      Recognised(s, RecogniseAll(s.(buffered := []), carried, w), Survivors(s, w), w)
  {
    hide Recognised, RecogniseAll, OwnedIds, Survivors;
    var s0 := s.(buffered := []);
    var found := FirstPerId(s.buffered, true, {}, w);
    FirstPerIdDistinct(s.buffered, true, {}, w);
    SortDescendingIs(found);
    DescendingDistinct(SortDescending(found));
    CarriedAreSurvivors(s, w);
    NothingRecognised(s, s0, w);
    RecogniseAllIs(s, s0, {}, SortDescending(found), w);
    assert {} + Survivors(s, w) == Survivors(s, w);
  }

  lemma DescendingDistinct(objects: seq<Object>)
    requires Descending(objects)
    ensures DistinctIds(objects)
  {}

  /** A survivor is what it was, with its properties read anew; only its link may be another. */
  ghost predicate Survived(s: State, t: State, id: nat, w: World) {
    && id in s.live && id in t.live
    && t.live[id] == Reread(s.live[id], w.read(s.live[id].notification)).(recordKey := t.live[id].recordKey)
  }

  lemma SeenSurvive(s: State, v: State, ids: set<nat>, w: World)
    requires Recognised(s, v, ids, w) && NoneSeen(s.live) && ids <= s.live.Keys
    ensures SeenOnly(v.live).Keys == ids
    ensures forall id :: id in ids ==> Survived(s, v.(live := SeenOnly(v.live)), id, w)
  {
    forall id | id in v.live ensures v.live[id].seen <==> id in ids {
      assert id in s.live;
    }
  }

  /** A reload keeps exactly the survivors: each keeps its sequence, deadline, token, revision and payload,
      whatever was recorded or linked meanwhile. */
  lemma ReloadKeepsSurvivors(s: State, w: World)
    requires Keyed(s.live) && NoneSeen(s.live)
    ensures
      var t := Reconcile(s, w);
      t.live.Keys == Survivors(s, w) && forall id :: id in t.live ==> Survived(s, t, id, w)
  {
    hide Recognised, RecogniseAll, Survived;
    SurvivorsRecognised(s, w);
    var v := RecogniseAll(s.(buffered := []), SortDescending(FirstPerId(s.buffered, true, {}, w)), w);
    SeenSurvive(s, v, Survivors(s, w), w);
    forall id | id in Survivors(s, w) ensures Survived(s, Reconcile(s, w), id, w) {
      SameSurvived(s, v.(live := SeenOnly(v.live)), Reconcile(s, w), id, w);
    }
  }

  lemma SameSurvived(s: State, t: State, u: State, id: nat, w: World)
    requires Survived(s, t, id, w) && u.live == t.live
    ensures Survived(s, u, id, w)
  {}

  // ---------------------------------------------------------------- every run comes with what that needs

  /** Associations are filed under their object's id, and while reconciling none is recognised yet. */
  ghost predicate Tracked(s: State) {
    && Keyed(s.live) && (s.reconciling ==> NoneSeen(s.live))
    && forall id :: id in s.live ==> Formed(s.live[id])
  }

  lemma StaysTracked(s: State, t: State)
    requires Tracked(s) && Stays(s, t)
    ensures Tracked(t)
  {}

  lemma AdmittedTracked(s: State, o: Object, w: World)
    requires Tracked(s) && !s.reconciling
    ensures Tracked(AdmitFresh(s, o, w)) && !AdmitFresh(s, o, w).reconciling
  {
    hide AdmitFresh;
    AdmitFreshArrives(s, o, w);
  }

  lemma {:induction false} AdmitAllTracked(s: State, objects: seq<Object>, w: World)
    requires Tracked(s) && !s.reconciling
    ensures Tracked(AdmitAll(s, objects, w)) && !AdmitAll(s, objects, w).reconciling
    decreases |objects|
  {
    hide Tracked, AdmitFresh;
    if objects != [] {
      AdmittedTracked(s, objects[0], w);
      AdmitAllTracked(AdmitFresh(s, objects[0], w), objects[1..], w);
    }
  }

  lemma FinishTracked(s: State, generation: nat, w: World)
    requires Tracked(s)
    ensures Tracked(FinishGeneration(s, generation, w))
    ensures s.reconciling && generation == s.generation ==> !FinishGeneration(s, generation, w).reconciling
  {
    hide TimerFor, Reconcile, AdmitAll;
    if s.reconciling && generation == s.generation {
      var t := Reconcile(s, w);
      ReloadKeepsSurvivors(s, w);
      assert !t.reconciling by { ReconcileEnds(s, w); }
      assert Keyed(t.live) by { SurvivorsKeyed(s, t, w); }
      AdmitAllTracked(t, FirstPerId(s.buffered, false, {}, w), w);
    }
  }

  lemma ReconcileEnds(s: State, w: World)
    ensures !Reconcile(s, w).reconciling
  {
    hide RecogniseAll;
  }

  lemma SurvivorsKeyed(s: State, t: State, w: World)
    requires Keyed(s.live) && forall id :: id in t.live ==> Survived(s, t, id, w)
    ensures Keyed(t.live)
  {}

  lemma StepTracked(s: State, e: Event, w: World)
    requires Tracked(s)
    ensures Tracked(Step(s, e, w))
  {
    hide AdmitFresh, RunQueued, FinishGeneration, Close, Dismiss, ProcessDue, ClearHistory, LoseOwnership, TimerFor,
      Stays;
    if Keeping(e) {
      KeepingStays(s, e, w);
      StaysTracked(s, Step(s, e, w));
    } else {
      match e
      case AttachEvent(o, generation, lastGeneration) =>
        if !s.reconciling {
          AdmittedTracked(s, o, w);
        }
      case FinishEvent(generation) => FinishTracked(s, generation, w);
      case _ =>
    }
  }

  lemma {:induction false} RunTracked(s: State, events: seq<(Event, World)>)
    requires Tracked(s)
    ensures Tracked(Run(s, events))
    decreases |events|
  {
    hide Tracked, Step;
    if events != [] {
      StepTracked(s, events[0].0, events[0].1);
      RunTracked(Step(s, events[0].0, events[0].1), events[1..]);
    }
  }

  /** In every run whatsoever a reload keeps exactly the survivors, each as it was. */
  lemma EveryReloadKeepsSurvivors(events: seq<(Event, World)>, w: World)
    requires Run(INITIAL, events).reconciling
    ensures
      var s := Run(INITIAL, events);
      var t := Reconcile(s, w);
      t.live.Keys == Survivors(s, w) && forall id :: id in t.live ==> Survived(s, t, id, w)
  {
    hide Run, Reconcile, Survived;
    RunTracked(INITIAL, events);
    ReloadKeepsSurvivors(Run(INITIAL, events), w);
  }
}
