/** Which objects the runtime tells to expire: who is turned away, who has to make room, who came back
    without being tracked, and who is due. */
module NotificationTelling {
  import opened NotificationModel
  import opened NotificationSteps
  import opened NotificationInvariant
  import opened NotificationSafety
  import opened NotificationTracking
  import opened NotificationReload
  import opened NotificationPresentation
  import opened NotificationAgeing
  import opened NotificationBounds
  import opened NotificationRuns
  import opened NotificationCapacity
  import opened NotificationRanking

  // ---------------------------------------------------------------- what is told

  /** An object that is gone cannot be told anything. */
  function Told(o: Object, w: World): multiset<Object> {
    if w.alive(o) then multiset{o} else multiset{}
  }

  ghost function ToldByContest(s: State, newcomer: Association, w: World): multiset<Object> {
    var v := Victim(s.live, s.history, newcomer);
    if v.None? || v.value !in s.live then Told(newcomer.notification, w)
    else
      var victim := s.live[v.value].notification;
      Told(victim, w)
      + if !ExpireCalled(victim, w) || |AfterExpire(s, victim, w).live| >= MAX_LIVE
        then Told(newcomer.notification, w) else multiset{}
  }

  ghost function ToldByAdmission(s: State, o: Object, w: World): multiset<Object> {
    if o.protocolId == 0 then Told(o, w)
    else if o.protocolId in s.live then multiset{}
    else if s.liveKeys.exhausted then Told(o, w)
    else
      var (s1, newcomer) := Contest(s, o, w);
      if |s1.live| >= MAX_LIVE then ToldByContest(s1, newcomer, w) else multiset{}
  }

  ghost function ToldByAll(s: State, objects: seq<Object>, w: World): multiset<Object>
    decreases |objects|
  {
    if objects == [] then multiset{}
    else ToldByAdmission(s, objects[0], w) + ToldByAll(AdmitFresh(s, objects[0], w), objects[1..], w)
  }

  ghost function ToldByRecognition(s: State, o: Object, w: World): multiset<Object> {
    if Owns(s, o) then multiset{} else Told(o, w)
  }

  ghost function ToldByCarried(s: State, descending: seq<Object>, w: World): multiset<Object>
    decreases |descending|
  {
    if descending == [] then multiset{}
    else
      var last := |descending| - 1;
      ToldByRecognition(s, descending[last], w)
      + ToldByCarried(Recognise(s, descending[last], w), descending[..last], w)
  }

  ghost function ToldByReload(s: State, w: World): multiset<Object> {
    ToldByCarried(s.(buffered := []), SortDescending(FirstPerId(s.buffered, true, {}, w)), w)
    + ToldByAll(Reconcile(s, w), FirstPerId(s.buffered, false, {}, w), w)
  }

  /** The objects of these associations that are still there. */
  function LivingAmong(s: State, ids: set<nat>, w: World): set<Object> {
    set id | id in ids && id in s.live && w.alive(s.live[id].notification) :: s.live[id].notification
  }

  /** Whom one event tells to expire. */
  ghost function ToldBy(s: State, e: Event, w: World): multiset<Object> {
    match e
    case AttachEvent(o, generation, _) =>
      if generation == s.generation && !s.reconciling then ToldByAdmission(s, o, w) else multiset{}
    case FinishEvent(generation) =>
      if s.reconciling && generation == s.generation then ToldByReload(s, w) else multiset{}
    case DueEvent => multiset(LivingAmong(s, DueIds(s, w.now), w))
    case _ => multiset{}
  }

  // ---------------------------------------------------------------- admission

  ghost predicate NewTo(s: State, o: Object) {
    o.protocolId == 0 || o.protocolId !in s.live
  }

  lemma ContestTells(s: State, newcomer: Association, n: Notification, w: World)
    requires Meets(s, newcomer) && w.alive(newcomer.notification)
    ensures
      var t, told, o := Contend(s, newcomer, n, w), ToldByContest(s, newcomer, w), newcomer.notification;
      && told[o] == (if o.protocolId in t.live then 0 else 1)
      && forall p :: p != o ==>
           told[p] == if exists id :: id in s.live && GoesFirst(s.live, s.history, newcomer, id)
                                      && s.live[id].notification == p && w.alive(p) then 1 else 0
  {
    var v := Victim(s.live, s.history, newcomer);
    VictimIsLeast(s, newcomer);
    VictimFacts(s, newcomer, v);
    ContestPlaces(s, newcomer, n, w);
    hide Victim, GoesFirst, Contend, AfterExpire, SequencesDistinct, OneHolder;
  }

  /** The newcomer gets a place exactly when the victim could be told and room was made. */
  lemma ContestPlaces(s: State, newcomer: Association, n: Notification, w: World)
    requires Meets(s, newcomer)
    ensures
      var v := Victim(s.live, s.history, newcomer);
      newcomer.notification.protocolId in Contend(s, newcomer, n, w).live
      <==> v.Some? && v.value in s.live && ExpireCalled(s.live[v.value].notification, w)
           && |AfterExpire(s, s.live[v.value].notification, w).live| < MAX_LIVE
  {
    hide Victim, AfterExpire, TurnAway, Presented, Scheduled, TimerFor, SequencesDistinct, OneHolder;
    var v := Victim(s.live, s.history, newcomer);
    TurnAwayStays(s, newcomer.notification, newcomer.recordKey, w);
    if v.Some? && v.value in s.live {
      var victim := s.live[v.value].notification;
      AfterExpireStays(s, victim, w);
      TurnAwayStays(AfterExpire(s, victim, w), newcomer.notification, newcomer.recordKey, w);
    }
  }

  /** A new object that is there is told to expire exactly when it gets no place; beside it only the one is
      told that goes before all others at a full table. */
  lemma TurnedAwayAreTold(s: State, o: Object, w: World, p: Object)
    requires Numbered(s) && Keyed(s.live) && OneHolder(s.live) && |s.live| <= MAX_LIVE
    requires NewTo(s, o) && w.alive(o)
    ensures
      var told := ToldByAdmission(s, o, w);
      && told[o] == (if o.protocolId in AdmitFresh(s, o, w).live then 0 else 1)
      && (p != o && !(o.protocolId != 0 && !s.liveKeys.exhausted && |s.live| == MAX_LIVE) ==> told[p] == 0)
      && (p != o && o.protocolId != 0 && !s.liveKeys.exhausted && |s.live| == MAX_LIVE ==>
            var (s1, newcomer) := Contest(s, o, w);
            told[p] == if exists id :: id in s1.live && GoesFirst(s1.live, s1.history, newcomer, id)
                                       && s1.live[id].notification == p && w.alive(p) then 1 else 0)
  {
    if o.protocolId != 0 && !s.liveKeys.exhausted && |s.live| == MAX_LIVE {
      var (s1, newcomer) := Contest(s, o, w);
      ContestFacts(s, o, w);
      hide Contest, AdmitFresh, Contend, ToldByContest, Numbered, Keyed, OneHolder, GoesFirst;
      ContestTells(s1, newcomer, w.read(o), w);
      FullStays(s1, newcomer);
    } else {
      hide Contend, ToldByContest, OneHolder, Numbered;
      Unchallenged(s, o, w);
    }
  }

  lemma FullStays(s: State, newcomer: Association)
    requires Meets(s, newcomer)
    ensures |s.live| == MAX_LIVE
  {}

  lemma Unchallenged(s: State, o: Object, w: World)
    requires Keyed(s.live) && NewTo(s, o) && (o.protocolId == 0 || s.liveKeys.exhausted || |s.live| < MAX_LIVE)
    ensures
      ToldByAdmission(s, o, w)
      == if o.protocolId == 0 || s.liveKeys.exhausted then Told(o, w) else multiset{}
    ensures o.protocolId in AdmitFresh(s, o, w).live <==> o.protocolId != 0 && !s.liveKeys.exhausted
  {
    hide AdmitHistory, Contend, ToldByContest, TimerFor, Presented, Scheduled, SourceToken;
    if o.protocolId != 0 && !s.liveKeys.exhausted {
      var s0 := s.(liveKeys := Allocate(s.liveKeys).1);
      AdmitHistoryLinks(s0, w.read(o), w.now);
      SameSize(AdmitHistory(s0, w.read(o), w.now).0.live, s.live);
    }
  }

  // ---------------------------------------------------------------- recognition

  lemma RecogniseOwners(s: State, o: Object, w: World, p: Object)
    ensures Owns(Recognise(s, o, w), p) <==> Owns(s, p)
  {
    hide AdmitHistory;
    if Owns(s, o) {
      var n := w.read(o);
      var a := s.live[o.protocolId].(seen := true, transient := n.transient, urgency := n.content.urgency);
      AdmitHistoryLinks(s.(live := s.live[o.protocolId := a]), n, w.now);
    } else {
      UnownedIsLeft(s, o, w);
    }
  }

  /** Of the objects that came back exactly those are told to expire that are not tracked. */
  lemma {:induction false} StrangersAreTold(s: State, descending: seq<Object>, w: World, p: Object)
    requires DistinctIds(descending)
    ensures
      ToldByCarried(s, descending, w)[p] == if p in descending && !Owns(s, p) && w.alive(p) then 1 else 0
    decreases |descending|
  {
    hide Recognise, Owns;
    if descending != [] {
      var last := |descending| - 1;
      var o, rest := descending[last], descending[..last];
      assert descending == rest + [o];
      RecogniseOwners(s, o, w, p);
      NotAmongOthers(descending);
      StrangersAreTold(Recognise(s, o, w), rest, w, p);
    }
  }

  lemma NotAmongOthers(objects: seq<Object>)
    requires objects != [] && DistinctIds(objects)
    ensures DistinctIds(objects[..|objects| - 1]) && objects[|objects| - 1] !in objects[..|objects| - 1]
  {}

  // ---------------------------------------------------------------- what falls due

  lemma LivingMore(s: State, ids: set<nat>, id: nat, w: World)
    requires Keyed(s.live) && id in s.live && id !in ids
    ensures
      multiset(LivingAmong(s, ids + {id}, w)) == multiset(LivingAmong(s, ids, w)) + Told(s.live[id].notification, w)
  {
    var o := s.live[id].notification;
    assert o !in LivingAmong(s, ids, w);
    assert LivingAmong(s, ids + {id}, w) == LivingAmong(s, ids, w) + if w.alive(o) then {o} else {};
  }

  // ---------------------------------------------------------------- every run

  /** In every run, too, whoever gets no place is told to expire, and whoever gets one is not. */
  lemma EveryRunTellsTurnedAway(events: seq<(Event, World)>, o: Object, w: World)
    requires NewTo(Run(INITIAL, events), o) && w.alive(o)
    ensures
      var s := Run(INITIAL, events);
      ToldByAdmission(s, o, w)[o] == if o.protocolId in AdmitFresh(s, o, w).live then 0 else 1
  {
    EveryRunIsSound(events);
    hide Run, AdmitFresh, ToldByAdmission, Numbered, OneHolder, Inv, Historic, NewTo;
    TurnedAwayAreTold(Run(INITIAL, events), o, w, o);
  }
}
