/**
  * What each event makes of the state, told without the steps it takes: who is answered
  * and how, what stays pending, what is shown and what is shown as failed.
  */
module BrightnessExact {
  import opened Basics
  import opened BrightnessModel
  import opened BrightnessSafety
  import opened BrightnessRequests

  // ---- Requests ----

  ghost predicate IsShown(s: State, key: Key) {
    s.owner.Some? && exists n :: n in s.displays && s.displays[n].key == key
  }

  ghost predicate IdPending(s: State, id: int) {
    exists n :: n in s.pending && s.pending[n].id == id
  }

  // Answered at once, and otherwise untouched but for the failure shown for the display.
  ghost predicate AnsweredOnly(s: State, t: State, id: int, outcome: Outcome, cleared: set<Name>) {
    t == s.(received := s.received + multiset{id}, answers := s.answers + multiset{Answer(id, outcome)},
            failures := s.failures - cleared)
  }

  // Pending at the level nearest to the ratio, a tie going up, for the display as shown.
  ghost predicate Asks(p: Pending, d: Display, id: int, ratio: real, now: int) {
    && p.id == id && p.key == d.key && p.generation == d.key.generation && p.maximum == d.maximum
    && IsNearest(p.requested, ratio, d.maximum) && p.deadline == now + 2500
  }

  // Stale when its key is not shown, busy when its id or its display is taken, pointless
  // within half a step of the level shown, and pending otherwise.
  ghost predicate Requested(s: State, t: State, id: int, key: Key, ratio: real, now: int) {
    if !IsShown(s, key) then AnsweredOnly(s, t, id, Stale, {})
    else if IdPending(s, id) || key.name in s.pending then AnsweredOnly(s, t, id, Busy, {})
    else
      && key.name in s.displays
      && var d := s.displays[key.name];
         if IsNearest(d.brightness, ratio, d.maximum) then AnsweredOnly(s, t, id, Noop, {key.name})
         else
           && key.name in t.pending && Asks(t.pending[key.name], d, id, ratio, now)
           && t == s.(received := s.received + multiset{id}, failures := s.failures - {key.name},
                      pending := s.pending[key.name := t.pending[key.name]], timer := t.timer)
  }

  // What becomes of every request.
  lemma RequestExactly(s: State, id: int, key: Key, ratio: real, now: int)
    requires Inv(s) && 0.0 <= ratio <= 1.0
    ensures Requested(s, Request(s, id, key, ratio, now), id, key, ratio, now)
  {
    hide Armed, Rounded, IsNearest;
    assert Known(s, key) <==> IsShown(s, key);
    assert id in IdsOf(s.pending) <==> IdPending(s, id);
    assert s.failures - {} == s.failures;
    if IsShown(s, key) {
      var d := s.displays[key.name];
      RoundedExactly(ratio, d.maximum, d.brightness);
      RoundedNearest(ratio, d.maximum);
    }
  }

  // The reply to the call made for a request ends it only when it is an error, about the
  // request still pending, under the same owner and generation.
  lemma FinishedExactly(s: State, owner: nat, generation: nat, name: Name, id: int, error: Option<Outcome>, now: int)
    ensures var t := CallFinished(s, owner, generation, name, id, error, now);
      if error.Some? && s.owner == Some(owner) && s.generation == generation && name in s.pending
         && s.pending[name].id == id
      then t == s.(pending := s.pending - {name}, failures := s.failures[name := error.value],
                   answers := s.answers + multiset{Answer(id, error.value)}, timer := t.timer)
      else t == s
  {
    hide Armed;
    OneAnswer(s.pending, name, if error.Some? then error.value else Stale);
  }

  lemma OneAnswer(pending: map<Name, Pending>, name: Name, outcome: Outcome)
    ensures AnswersFor(pending, {name}, outcome)
            == if name in pending then {Answer(pending[name].id, outcome)} else {}
    ensures multiset(AnswersFor(pending, {name}, outcome))
            == if name in pending then multiset{Answer(pending[name].id, outcome)} else multiset{}
  {
  }

  // A change of range answers the request pending for the display, and asks for a snapshot.
  lemma RangedExactly(s: State, name: Name, now: int)
    ensures var t := RangeChanged(s, name, now);
      t == s.(pending := s.pending - {name}, timer := t.timer, scheduled := s.scheduled || s.owner.Some?,
              answers := s.answers
                + if name in s.pending then multiset{Answer(s.pending[name].id, Stale)} else multiset{})
      && (name !in s.pending ==> t.timer == s.timer)
  {
    hide Armed;
    OneAnswer(s.pending, name, Stale);
  }

  // Exactly what is due is answered, and shown as failed.
  lemma ExpiredExactly(s: State, now: int)
    ensures var t := Expire(s, now);
      && (forall n :: n in t.pending <==> n in s.pending && s.pending[n].deadline > now)
      && (forall n :: n in t.pending ==> t.pending[n] == s.pending[n])
      && (forall n :: n in t.failures <==> n in s.failures || (n in s.pending && s.pending[n].deadline <= now))
      && (forall n :: n in t.failures ==>
            t.failures[n] == if n in s.pending && s.pending[n].deadline <= now then TimedOut else s.failures[n])
      && t.answers == s.answers + multiset(set n | n in s.pending && s.pending[n].deadline <= now
                                                 :: Answer(s.pending[n].id, TimedOut))
      && t == s.(pending := t.pending, failures := t.failures, answers := t.answers, timer := t.timer)
  {
    hide Armed;
    var due := Due(s.pending, now);
    assert AnswersFor(s.pending, due, TimedOut)
        == set n | n in s.pending && s.pending[n].deadline <= now :: Answer(s.pending[n].id, TimedOut);
  }

  // A display that comes or goes asks for a snapshot, if there is anybody to ask.
  lemma HotpluggedExactly(s: State)
    ensures Apply(s, Hotplugged) == s.(scheduled := s.scheduled || s.owner.Some?)
  {
  }

  // ---- Owners ----

  // Whenever the owner changes, every request is abandoned and nothing of the old owner is
  // left; a new owner begins the next generation, as long as there is one.
  lemma OwnerChangedExactly(s: State, owner: Option<nat>)
    requires Inv(s)
    ensures var t := OwnerChanged(s, owner);
      if owner == s.owner then t == s
      else
        && t.pending == map[] && t.displays == map[] && t.failures == map[] && t.observed == [] && t.timer == Off
        && t.received == s.received && t.answers == s.answers
        && t.abandoned == s.abandoned + multiset(set n | n in s.pending :: s.pending[n].id)
        && (owner.Some? && s.generation < MAX_INT ==>
              t.owner == owner && t.generation == s.generation + 1 && t.scheduled)
        && (owner.None? || s.generation == MAX_INT ==>
              t.owner == None && t.generation == s.generation && !t.scheduled)
  {
    assert IdsOf(s.pending) == set n | n in s.pending :: s.pending[n].id;
  }

  // ---- Signals ----

  // A change is the request's own exactly when the service itself made it in the context of
  // the request pending for that display.
  ghost predicate Comes(s: State, name: Name, source: Source, context: Context, origin: Origin) {
    && (origin.Self? <==>
          name in s.pending && source == Ours && context == OurContext(s.pending[name].id))
    && (origin.Self? ==> origin.id == s.pending[name].id)
    && (source == NoSource && context == NoContext ==> origin == Unknown)
    && (origin == Unknown ==> source == NoSource && context == NoContext)
  }

  // `after` is `before` with the change in the place of an older one of its display, or in
  // the last place, for which the oldest gives way when there are 32.
  ghost predicate Joins(after: seq<Observed>, before: seq<Observed>, change: Observed) {
    && (forall i :: 0 <= i < |before| && before[i].name == change.name ==> after == before[i := change])
    && ((forall i :: 0 <= i < |before| ==> before[i].name != change.name) ==>
          after == (if |before| >= 32 then before[1..] else before) + [change])
  }

  lemma QueuedJoins(observed: seq<Observed>, change: Observed)
    requires DistinctNames(observed)
    ensures Joins(QueueObserved(observed, change), observed, change)
  {
    forall i | 0 <= i < |observed| && observed[i].name == change.name
      ensures QueueObserved(observed, change) == observed[i := change]
    {
      ReplacedAt(observed, change, i);
    }
  }

  // The change is queued under the origin it has, and a snapshot is asked for.
  lemma ChangedExactly(s: State, name: Name, brightness: int, source: Source, context: Context)
    requires DistinctNames(s.observed)
    ensures var t := BrightnessChanged(s, name, brightness, source, context);
      && t == s.(observed := t.observed, scheduled := s.scheduled || s.owner.Some?)
      && exists origin ::
           Comes(s, name, source, context, origin)
           && Joins(t.observed, s.observed, Observed(name, brightness, origin))
  {
    hide OriginOf, Joins, QueueObserved, Comes;
    OriginComes(s, name, source, context);
    QueuedJoins(s.observed, Observed(name, brightness, OriginOf(s, name, source, context)));
  }

  lemma OriginComes(s: State, name: Name, source: Source, context: Context)
    ensures Comes(s, name, source, context, OriginOf(s, name, source, context))
  {
  }

  lemma {:induction false} ReplacedAt(observed: seq<Observed>, change: Observed, i: nat)
    requires DistinctNames(observed) && i < |observed| && observed[i].name == change.name
    ensures Replaced(observed, change) == observed[i := change]
  {
    if i > 0 {
      assert DistinctNames(observed[1..]);
      ReplacedAt(observed[1..], change, i - 1);
    }
  }

  // ---- Snapshots ----

  // A level from none up to a maximum that is more than none.
  predicate InBounds(r: Reading) {
    r.maximum >= 1 && r.brightness >= 0 && r.brightness <= r.maximum
  }

  // The snapshot repeats the level of the change.
  ghost predicate Repeats(found: map<Name, Reading>, o: Observed) {
    o.name in found && InBounds(found[o.name]) && found[o.name].brightness == o.brightness
  }

  // The request pending for the display is still about the same range.
  ghost predicate Stands(s: State, found: map<Name, Reading>, name: Name) {
    && name in s.pending && name in found && InBounds(found[name])
    && found[name].maximum == s.pending[name].maximum
  }

  ghost predicate Proves(s: State, found: map<Name, Reading>, o: Observed) {
    Repeats(found, o) && Stands(s, found, o.name) && o.origin == Self(s.pending[o.name].id)
  }

  ghost function ProvenNames(s: State, found: map<Name, Reading>): set<Name> {
    set o | o in s.observed && Proves(s, found, o) :: o.name
  }

  // Failures are no longer shown where a request is confirmed or somebody else's change is.
  ghost function SettledNames(s: State, found: map<Name, Reading>): set<Name> {
    set o | o in s.observed && Repeats(found, o) && (o.origin.Self? ==> Proves(s, found, o)) :: o.name
  }

  // The names in `observed` that are confirmed, and those whose failures go.
  function ConfirmedNames(s: State, observed: seq<Observed>): set<Name> {
    set o | o in observed && Confirms(s, o) :: o.name
  }

  function ClearedNames(s: State, observed: seq<Observed>): set<Name> {
    set o | o in observed && Shows(s, o) && (o.origin.Self? ==> Confirms(s, o)) :: o.name
  }

  function AfterAll(s: State, observed: seq<Observed>): State {
    ReplyAll(s, ConfirmedNames(s, observed), Confirmed).(failures := s.failures - ClearedNames(s, observed))
  }

  lemma AnswersApart(pending: map<Name, Pending>, a: set<Name>, b: set<Name>, outcome: Outcome)
    requires DistinctIds(pending) && a !! b
    ensures AnswersFor(pending - a, b, outcome) == AnswersFor(pending, b, outcome)
    ensures multiset(AnswersFor(pending, a + b, outcome))
            == multiset(AnswersFor(pending, a, outcome)) + multiset(AnswersFor(pending, b, outcome))
  {
    var x, y := AnswersFor(pending, a, outcome), AnswersFor(pending, b, outcome);
    assert AnswersFor(pending, a + b, outcome) == x + y;
    assert x !! y;
  }

  lemma ReplyTwice(s: State, a: set<Name>, b: set<Name>, outcome: Outcome)
    requires DistinctIds(s.pending) && a !! b
    ensures ReplyAll(ReplyAll(s, a, outcome), b, outcome) == ReplyAll(s, a + b, outcome)
  {
    AnswersApart(s.pending, a, b, outcome);
    assert s.pending - a - b == s.pending - (a + b);
  }

  lemma OneConfirmed(s: State, o: Observed)
    ensures Confirm(s, o) == AfterAll(s, [o])
  {
    assert [o][0] == o;
    assert forall p :: p in [o] <==> p == o;
    assert ConfirmedNames(s, [o]) == if Confirms(s, o) then {o.name} else {};
    assert ClearedNames(s, [o]) == if Shows(s, o) && (o.origin.Self? ==> Confirms(s, o)) then {o.name} else {};
    assert s.failures - {} == s.failures && s.pending - {} == s.pending;
    assert AnswersFor(s.pending, {}, Confirmed) == {};
  }

  // Later changes, being of other displays, are not touched by an earlier one.
  lemma RestConfirmed(s: State, observed: seq<Observed>)
    requires observed != [] && DistinctNames(observed)
    ensures
      var t, rest := Confirm(s, observed[0]), observed[1..];
      && ConfirmedNames(s, observed) == ConfirmedNames(s, [observed[0]]) + ConfirmedNames(t, rest)
      && ConfirmedNames(s, [observed[0]]) !! ConfirmedNames(t, rest)
      && ClearedNames(s, observed) == ClearedNames(s, [observed[0]]) + ClearedNames(t, rest)
  {
    var o, rest := observed[0], observed[1..];
    assert observed == [o] + rest;
    assert forall p :: p in rest ==> p.name != o.name;
    forall p | p in rest
      ensures Confirms(Confirm(s, o), p) == Confirms(s, p) && Shows(Confirm(s, o), p) == Shows(s, p)
    {
      UntouchedByOther(s, o, p);
    }
    hide Confirm, Confirms, Shows;
    assert forall p :: p in [o] <==> p == o;
    assert forall p :: p in observed <==> p == o || p in rest;
  }

  lemma UntouchedByOther(s: State, o: Observed, p: Observed)
    requires p.name != o.name
    ensures Confirms(Confirm(s, o), p) == Confirms(s, p) && Shows(Confirm(s, o), p) == Shows(s, p)
  {
  }

  lemma AfterBoth(s: State, o: Observed, a: set<Name>, b: set<Name>, c: set<Name>, d: set<Name>)
    requires DistinctIds(s.pending) && a !! b
    ensures
      var t := ReplyAll(s, a, Confirmed).(failures := s.failures - c);
      ReplyAll(t, b, Confirmed).(failures := t.failures - d)
      == ReplyAll(s, a + b, Confirmed).(failures := s.failures - (c + d))
  {
    ReplyTwice(s, a, b, Confirmed);
    assert s.failures - c - d == s.failures - (c + d);
  }

  lemma {:induction false} ConfirmAllIs(s: State, observed: seq<Observed>)
    requires DistinctIds(s.pending) && DistinctNames(observed)
    ensures ConfirmAll(s, observed) == AfterAll(s, observed)
    decreases |observed|
  {
    if observed == [] {
      NothingConfirmed(s);
    } else {
      var o, rest := observed[0], observed[1..];
      var t := Confirm(s, o);
      OneConfirmed(s, o);
      RestConfirmed(s, observed);
      ConfirmIds(s, o);
      ConfirmAllIs(t, rest);
      hide Confirm, ConfirmedNames, ClearedNames, ReplyAll, DistinctIds;
      AfterBoth(s, o, ConfirmedNames(s, [o]), ConfirmedNames(t, rest), ClearedNames(s, [o]), ClearedNames(t, rest));
    }
  }

  lemma NothingConfirmed(s: State)
    ensures AfterAll(s, []) == s
  {
    assert s.failures - {} == s.failures && s.pending - {} == s.pending;
    assert AnswersFor(s.pending, {}, Confirmed) == {};
  }

  // A failed snapshot, or one of another owner, changes nothing.
  lemma NoSnapshotExactly(s: State, found: Option<map<Name, Reading>>, sameOwner: bool, now: int)
    requires s.owner.None? || found.None? || !sameOwner
    ensures Refresh(s, found, sameOwner, now) == s.(scheduled := false)
  {
  }

  ghost predicate Displayed(displays: map<Name, Display>, generation: nat, found: map<Name, Reading>) {
    && (forall n :: n in displays <==> n in found && InBounds(found[n]))
    && forall n :: n in displays ==>
         && displays[n].key == Key(generation, n) && displays[n].maximum == found[n].maximum
         && displays[n].brightness == found[n].brightness
  }

  // The state before the changes are gone through.
  ghost function Kept(s: State, found: map<Name, Reading>): State {
    ReplyAll(s.(scheduled := false), Outdated(s.pending, Refreshed(s.generation, found)), Stale)
      .(displays := Refreshed(s.generation, found))
  }

  lemma KeptIs(s: State, found: map<Name, Reading>)
    ensures
      var k := Kept(s, found);
      && Displayed(k.displays, s.generation, found)
      && (forall n :: n in k.pending <==> Stands(s, found, n))
      && (forall n :: n in k.pending ==> k.pending[n] == s.pending[n])
      && k.answers == s.answers + multiset(set n | n in s.pending && !Stands(s, found, n)
                                                 :: Answer(s.pending[n].id, Stale))
      && k == s.(scheduled := false, displays := k.displays, pending := k.pending, answers := k.answers)
  {
    var names := Outdated(s.pending, Refreshed(s.generation, found));
    assert forall n :: n in names <==> n in s.pending && !Stands(s, found, n);
    assert AnswersFor(s.pending, names, Stale)
        == set n | n in s.pending && !Stands(s, found, n) :: Answer(s.pending[n].id, Stale);
  }

  lemma KeptNames(s: State, found: map<Name, Reading>)
    ensures ConfirmedNames(Kept(s, found), s.observed) == ProvenNames(s, found)
    ensures ClearedNames(Kept(s, found), s.observed) == SettledNames(s, found)
  {
    KeptIs(s, found);
    hide Kept;
    forall o
      ensures Confirms(Kept(s, found), o) <==> Proves(s, found, o)
      ensures Shows(Kept(s, found), o) <==> Repeats(found, o)
    {
    }
    hide Confirms, Shows, Proves, Repeats, Displayed, Stands;
  }

  // A snapshot shows what it found; requests about displays that are gone or changed range
  // are answered as stale, those whose own change it repeats as confirmed, and the others
  // stay; failures go where a change it repeats was confirmed or came from elsewhere.
  lemma RefreshExactly(s: State, found: map<Name, Reading>, now: int)
    requires Inv(s) && s.owner.Some?
    ensures var t := Refresh(s, Some(found), true, now);
      && Displayed(t.displays, s.generation, found)
      && (forall n :: n in t.pending <==> Stands(s, found, n) && n !in ProvenNames(s, found))
      && (forall n :: n in t.pending ==> t.pending[n] == s.pending[n])
      && t.failures == s.failures - SettledNames(s, found)
      && t.answers == s.answers
           + multiset(set n | n in s.pending && !Stands(s, found, n) :: Answer(s.pending[n].id, Stale))
           + multiset(set n | n in ProvenNames(s, found) && n in s.pending :: Answer(s.pending[n].id, Confirmed))
      && t == s.(scheduled := false, displays := t.displays, pending := t.pending, failures := t.failures,
                 answers := t.answers, observed := [], timer := t.timer)
  {
    var k := Kept(s, found);
    KeptIs(s, found);
    KeptNames(s, found);
    assert DistinctIds(k.pending);
    ConfirmAllIs(k, s.observed);
    assert Refresh(s, Some(found), true, now) == Rearm(AfterAll(k, s.observed).(observed := []), now) by {
      hide ConfirmAll, AfterAll, Armed;
    }
    ProvenStand(s, found);
    hide Refresh, Kept, ConfirmAll, Armed, ConfirmedNames, ClearedNames, ProvenNames, SettledNames, Displayed, Stands;
    ProvenAnswers(s, k, ProvenNames(s, found));
  }

  lemma ProvenStand(s: State, found: map<Name, Reading>)
    ensures forall n :: n in ProvenNames(s, found) ==> Stands(s, found, n)
  {
  }

  lemma ProvenAnswers(s: State, k: State, names: set<Name>)
    requires forall n :: n in k.pending ==> n in s.pending && k.pending[n] == s.pending[n]
    requires forall n :: n in names ==> n in k.pending
    ensures AnswersFor(k.pending, names, Confirmed)
            == set n | n in names && n in s.pending :: Answer(s.pending[n].id, Confirmed)
  {
  }
}
