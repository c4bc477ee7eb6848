/** Who loses its place at a full table, told from urgencies, records and ages alone. */
module NotificationRanking {
  import opened Basics
  import opened NotificationModel
  import opened NotificationSteps
  import opened NotificationInvariant
  import opened NotificationReload
  import opened NotificationPresentation
  import opened NotificationAgeing
  import opened NotificationBounds
  import opened NotificationRuns
  import opened NotificationCapacity

  /** Something of `a` would remain in history. */
  ghost predicate Recorded(a: Association, history: seq<Record>) {
    !a.transient && exists r :: r in history && a.recordKey == Some(r.key)
  }

  predicate LessUrgent(a: Urgency, b: Urgency) {
    (a == Low && b != Low) || (a == Normal && b == Critical)
  }

  /** The unrecorded go first, then the less urgent, then the older. */
  ghost predicate GoesBefore(a: Association, b: Association, history: seq<Record>) {
    || (!Recorded(a, history) && Recorded(b, history))
    || (!Recorded(a, history) && !Recorded(b, history) && a.sequence < b.sequence)
    || (Recorded(a, history) && Recorded(b, history)
        && (LessUrgent(a.urgency, b.urgency) || (a.urgency == b.urgency && a.sequence < b.sequence)))
  }

  lemma RecordedIs(a: Association, history: seq<Record>)
    ensures Recorded(a, history) <==> !a.transient && a.recordKey.Some? && a.recordKey.value in Keys(history)
  {}

  lemma WeakerIs(a: Association, b: Association, history: seq<Record>)
    ensures WeakerThan(a, b, history) <==> GoesBefore(a, b, history)
  {
    RecordedIs(a, history);
    RecordedIs(b, history);
    hide Keys, Recorded;
  }

  ghost predicate GoesFirst(live: map<nat, Association>, history: seq<Record>, newcomer: Association, id: nat)
    requires id in live
  {
    && GoesBefore(live[id], newcomer, history)
    && forall other :: other in live && other != id ==> GoesBefore(live[id], live[other], history)
  }

  ghost predicate Yields(o: Object, w: World) {
    w.alive(o) && w.expire(o).Closes?
  }

  /** Exactly the contender that goes before all others loses its place, if it closes when told to expire;
      and exactly then the newcomer gets a place. */
  ghost predicate FirstYields(s: State, newcomer: Association, after: map<nat, Association>, w: World) {
    && (forall id :: id in s.live ==>
          (id !in after <==> GoesFirst(s.live, s.history, newcomer, id) && Yields(s.live[id].notification, w)))
    && (newcomer.notification.protocolId in after
        <==> exists id :: id in s.live && GoesFirst(s.live, s.history, newcomer, id)
                          && Yields(s.live[id].notification, w))
    && forall id :: id in after && id != newcomer.notification.protocolId ==> id in s.live && after[id] == s.live[id]
  }

  lemma VictimGoesFirst(live: map<nat, Association>, history: seq<Record>, newcomer: Association, v: Option<nat>)
    requires IsVictim(live, history, newcomer, v)
    ensures forall id :: id in live ==> (v == Some(id) <==> GoesFirst(live, history, newcomer, id))
  {
    forall a, b | a in live && b in live
      ensures WeakerThan(live[a], live[b], history) <==> GoesBefore(live[a], live[b], history)
    {
      WeakerIs(live[a], live[b], history);
    }
    forall a | a in live
      ensures WeakerThan(live[a], newcomer, history) <==> GoesBefore(live[a], newcomer, history)
    {
      WeakerIs(live[a], newcomer, history);
    }
    hide GoesBefore;
    forall id | id in live ensures v == Some(id) <==> GoesFirst(live, history, newcomer, id) {
      OnlyOneWeakest(live, history, newcomer, v, id);
    }
  }

  lemma OnlyOneWeakest(live: map<nat, Association>, history: seq<Record>, newcomer: Association, v: Option<nat>,
                       id: nat)
    requires IsVictim(live, history, newcomer, v) && id in live
    ensures
      v == Some(id) <==>
      (WeakerThan(live[id], newcomer, history)
       && forall other :: other in live && other != id ==> WeakerThan(live[id], live[other], history))
  {
    hide CapacityClass;
    if WeakerThan(live[id], newcomer, history)
       && forall other :: other in live && other != id ==> WeakerThan(live[id], live[other], history)
    {
      VictimUnique(live, history, newcomer, v, Some(id));
    }
  }

  lemma ResultIs(s: State, newcomer: Association, v: Option<nat>, after: map<nat, Association>, w: World)
    requires newcomer.notification.protocolId !in s.live && (v.Some? ==> v.value in s.live)
    requires forall id :: id in s.live ==> (v == Some(id) <==> GoesFirst(s.live, s.history, newcomer, id))
    requires Keyed(s.live) && ContestResult(s, newcomer, v, after, w)
    ensures FirstYields(s, newcomer, after, w)
  {
    hide GoesFirst;
    if v.Some? {
      assert GoesFirst(s.live, s.history, newcomer, v.value);
    }
  }

  lemma VictimFacts(s: State, newcomer: Association, v: Option<nat>)
    requires Meets(s, newcomer) && IsVictim(s.live, s.history, newcomer, v)
    ensures newcomer.notification.protocolId !in s.live && Keyed(s.live) && (v.Some? ==> v.value in s.live)
    ensures forall id :: id in s.live ==> (v == Some(id) <==> GoesFirst(s.live, s.history, newcomer, id))
  {
    VictimGoesFirst(s.live, s.history, newcomer, v);
    hide GoesFirst, WeakerThan, SequencesDistinct, OneHolder;
  }

  lemma NewcomerIs(s: State, o: Object, w: World)
    requires !s.liveKeys.exhausted
    ensures
      var newcomer := Contest(s, o, w).1;
      newcomer.urgency == w.read(o).content.urgency && newcomer.transient == w.read(o).transient
  {
    hide AdmitHistory, SourceToken;
  }

  /** At a full table, in any state: who loses its place, and whether the newcomer gets one. */
  lemma FirstToGoYields(s: State, o: Object, w: World)
    requires NewAndFull(s, o)
    ensures
      var (s1, newcomer) := Contest(s, o, w);
      && FirstYields(s1, newcomer, AdmitFresh(s, o, w).live, w) && SameButLinks(s1.live, s.live)
      && newcomer.notification == o && newcomer.sequence == s.liveKeys.next
      && newcomer.urgency == w.read(o).content.urgency && newcomer.transient == w.read(o).transient
  {
    NewcomerIs(s, o, w);
    var (s1, newcomer) := Contest(s, o, w);
    ContestFacts(s, o, w);
    VictimIsLeast(s1, newcomer);
    var v := Victim(s1.live, s1.history, newcomer);
    hide Contest, AdmitFresh, Meets, FirstYields, Victim, IsVictim, NewAndFull, ContestResult, Contend;
    EvictsTheWeakest(s, o, w, v);
    VictimFacts(s1, newcomer, v);
    ResultIs(s1, newcomer, v, AdmitFresh(s, o, w).live, w);
  }

  /** What an association that loses its place is, compared with one that contended and stays. */
  ghost predicate Loses(loser: Association, a: Association, history: seq<Record>) {
    && (Recorded(loser, history) ==> Recorded(a, history))
    && (Recorded(loser, history) && loser.urgency == Critical ==> a.urgency == Critical)
    && (Recorded(loser, history) && loser.urgency == Normal ==> a.urgency != Low)
    && (Recorded(loser, history) == Recorded(a, history) && loser.urgency == a.urgency ==>
          loser.sequence < a.sequence)
    && (!Recorded(loser, history) && !Recorded(a, history) ==> loser.sequence < a.sequence)
  }

  lemma GoesBeforeLoses(loser: Association, a: Association, history: seq<Record>)
    requires GoesBefore(loser, a, history)
    ensures Loses(loser, a, history)
  {
    hide Recorded;
  }

  /** A recorded critical notification goes only when everyone, the newcomer included, is recorded and
      critical; a recorded normal one only when nobody is unrecorded or low; a recorded low one only when
      nobody is unrecorded. Within one rank the oldest goes. */
  lemma LosersAreRankedLowest(s: State, o: Object, w: World, id: nat)
    requires NewAndFull(s, o) && id in s.live && id !in AdmitFresh(s, o, w).live
    ensures
      var (s1, newcomer) := Contest(s, o, w);
      && id in s1.live && Loses(s1.live[id], newcomer, s1.history)
      && forall other :: other in s1.live && other != id ==> Loses(s1.live[id], s1.live[other], s1.history)
  {
    var (s1, newcomer) := Contest(s, o, w);
    assert id in s1.live && GoesFirst(s1.live, s1.history, newcomer, id) by {
      hide Contest, AdmitFresh, GoesFirst, NewAndFull;
      FirstToGoYields(s, o, w);
    }
    hide Contest, AdmitFresh, NewAndFull, Loses, GoesBefore;
    GoesBeforeLoses(s1.live[id], newcomer, s1.history);
    forall other | other in s1.live && other != id ensures Loses(s1.live[id], s1.live[other], s1.history) {
      GoesBeforeLoses(s1.live[id], s1.live[other], s1.history);
    }
  }

  /** The same in every state of every run. */
  lemma EveryRunFirstToGoYields(events: seq<(Event, World)>, o: Object, w: World)
    requires
      var s := Run(INITIAL, events);
      |s.live| == MAX_LIVE && !s.liveKeys.exhausted && o.protocolId != 0 && o.protocolId !in s.live
    ensures
      var s := Run(INITIAL, events);
      var (s1, newcomer) := Contest(s, o, w);
      FirstYields(s1, newcomer, AdmitFresh(s, o, w).live, w) && SameButLinks(s1.live, s.live)
  {
    EveryRunIsSound(events);
    hide Run, AdmitFresh, Contest, FirstYields, Numbered, OneHolder, Inv, Bounded, Historic;
    FirstToGoYields(Run(INITIAL, events), o, w);
  }
}
