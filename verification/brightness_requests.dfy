/**
  * What one request can count on: the level it asks for, when it changes nothing, what a
  * confirmation proves, that its time runs out, and that keys die with their owner.
  */
module BrightnessRequests {
  import opened Basics
  import opened BrightnessModel
  import opened BrightnessSafety

  ghost predicate Free(s: State, id: int, key: Key) {
    Known(s, key) && id !in IdsOf(s.pending) && key.name !in s.pending
  }

  // ---- The level ----

  // The level is within half a step of the ratio, a tie going up.
  ghost predicate IsNearest(level: int, ratio: real, maximum: int) {
    0 <= level <= maximum && level as real - 0.5 <= ratio * maximum as real < level as real + 0.5
  }

  // A request asks for the nearest level, and there is only one.
  lemma RoundedExactly(ratio: real, maximum: int, level: int)
    requires maximum > 0 && 0.0 <= ratio <= 1.0 && 0 <= level <= maximum
    ensures Rounded(ratio, maximum) == level <==> IsNearest(level, ratio, maximum)
  {
    var wanted := ratio * maximum as real;
    Share(ratio, maximum as real);
    assert 0.0 <= wanted <= maximum as real;
    var floor := (wanted + 0.5).Floor;
    assert floor as real <= wanted + 0.5 < floor as real + 1.0;
    assert 0 <= floor <= maximum;
  }

  lemma Share(ratio: real, whole: real)
    requires 0.0 <= ratio <= 1.0 && whole > 0.0
    ensures 0.0 <= ratio * whole <= whole
  {
  }

  // A free request for a known display is refused as pointless exactly when the ratio is
  // within half a step of the level shown; otherwise the nearest level to the ratio, a tie
  // going up, becomes pending for the display as it is shown.
  lemma NoopExactly(s: State, id: int, key: Key, ratio: real, now: int)
    requires Inv(s) && Free(s, id, key) && 0.0 <= ratio <= 1.0
    ensures var t := Request(s, id, key, ratio, now);
      var d := s.displays[key.name];
      if IsNearest(d.brightness, ratio, d.maximum) then
        t.pending == s.pending && t.answers == s.answers + multiset{Answer(id, Noop)}
      else
        && t.answers == s.answers && key.name in t.pending && t.pending - {key.name} == s.pending
        && t.pending[key.name].id == id && t.pending[key.name].requested != d.brightness
        && IsNearest(t.pending[key.name].requested, ratio, d.maximum)
        && t.pending[key.name].generation == d.key.generation && t.pending[key.name].key == d.key
        && t.pending[key.name].maximum == d.maximum
        && t.pending[key.name].deadline == now + REQUEST_TIMEOUT_MS
        && t.timer.On? && now < t.timer.fireAt <= now + REQUEST_TIMEOUT_MS
  {
    var d := s.displays[key.name];
    RoundedExactly(ratio, d.maximum, d.brightness);
    RoundedNearest(ratio, d.maximum);
    hide Rounded, Armed, IsNearest;
    var t := Request(s, id, key, ratio, now);
    if Rounded(ratio, d.maximum) != d.brightness {
      assert t.pending == s.pending[key.name := t.pending[key.name]];
      ArmedSoon(t.pending, key.name, now);
    }
  }

  lemma RoundedNearest(ratio: real, maximum: int)
    requires maximum > 0 && 0.0 <= ratio <= 1.0
    ensures IsNearest(Rounded(ratio, maximum), ratio, maximum)
  {
    RoundedExactly(ratio, maximum, Rounded(ratio, maximum));
  }

  lemma ArmedSoon(pending: map<Name, Pending>, name: Name, now: int)
    requires name in pending && pending[name].deadline == now + REQUEST_TIMEOUT_MS
    ensures var timer := Armed(pending, now); timer.On? && now < timer.fireAt <= now + REQUEST_TIMEOUT_MS
  {
    var timer := Armed(pending, now);
    assert pending[name].deadline in Deadlines(pending);
    var nearest :| IsLeast(Deadlines(pending), nearest) && timer == On(now, now + Min(Max(1, nearest - now), MAX_INT));
    assert nearest <= now + REQUEST_TIMEOUT_MS;
  }

  // Asking for the ratio just published is always pointless.
  lemma PublishedIsNoop(s: State, id: int, key: Key, now: int)
    requires Inv(s) && Free(s, id, key)
    ensures var d := s.displays[key.name];
      d.maximum > 0
      && Request(s, id, key, d.brightness as real / d.maximum as real, now).answers
         == s.answers + multiset{Answer(id, Noop)}
  {
    var d := s.displays[key.name];
    PublishedRatio(d.brightness as real, d.maximum as real);
    NoopExactly(s, id, key, d.brightness as real / d.maximum as real, now);
  }

  lemma PublishedRatio(level: real, maximum: real)
    requires maximum > 0.0 && 0.0 <= level <= maximum
    ensures 0.0 <= level / maximum <= 1.0 && level / maximum * maximum == level
  {
  }

  // ---- Keys ----

  // The generation is over, or about to be, and no display of it is shown.
  ghost predicate Dead(s: State, generation: nat) {
    && s.generation >= generation && (s.owner.Some? ==> s.generation > generation)
    && forall n :: n in s.displays ==> s.displays[n].key.generation > generation
  }

  lemma OwnerChangeKills(s: State, owner: Option<nat>)
    requires Inv(s) && owner != s.owner
    ensures Dead(OwnerChanged(s, owner), s.generation)
  {
  }

  lemma {:induction false} ConfirmAllFrame(s: State, observed: seq<Observed>)
    ensures var t := ConfirmAll(s, observed);
            t.owner == s.owner && t.generation == s.generation && t.displays == s.displays
    decreases |observed|
  {
    if observed != [] {
      ConfirmAllFrame(Confirm(s, observed[0]), observed[1..]);
    }
  }

  ghost predicate SameDisplays(s: State, t: State) {
    t.owner == s.owner && t.generation == s.generation && t.displays == s.displays
  }

  lemma RefreshedDead(s: State, found: map<Name, Reading>, sameOwner: bool, now: int, generation: nat)
    requires Dead(s, generation)
    ensures Dead(Refresh(s, Some(found), sameOwner, now), generation)
  {
    hide ConfirmAll, ReplyAll;
    var displays := Refreshed(s.generation, found);
    var kept := ReplyAll(s.(scheduled := false), Outdated(s.pending, displays), Stale).(displays := displays);
    ReplyAllFrame(s.(scheduled := false), Outdated(s.pending, displays), Stale);
    ConfirmAllFrame(kept, s.observed);
  }

  // Every event but a snapshot or a change of owner leaves the displays alone.
  lemma DisplaysStay(s: State, event: Event)
    requires !event.Snapshot? && !event.Owner? && !event.Attached?
    ensures SameDisplays(s, Apply(s, event))
  {
    hide Request, CallFinished, Expire, BrightnessChanged, RangeChanged;
    match event {
      case Asked(id, key, ratio, now) => RequestStays(s, id, key, ratio, now);
      case Finished(owner, generation, name, id, error, now) =>
        FinishedStays(s, owner, generation, name, id, error, now);
      case TimerFired(now) => ExpireStays(s, now);
      case Changed(name, brightness, source, context) => ChangedStays(s, name, brightness, source, context);
      case Ranged(name, now) => RangedStays(s, name, now);
      case Hotplugged =>
    }
  }

  lemma RequestStays(s: State, id: int, key: Key, ratio: real, now: int)
    ensures SameDisplays(s, Request(s, id, key, ratio, now))
  {
    hide Armed, Rounded, IdsOf;
  }

  lemma FinishedStays(s: State, owner: nat, generation: nat, name: Name, id: int, error: Option<Outcome>, now: int)
    ensures SameDisplays(s, CallFinished(s, owner, generation, name, id, error, now))
  {
    hide Armed, ReplyAll;
    if error.Some? {
      ReplyAllFrame(s.(failures := s.failures[name := error.value]), {name}, error.value);
    }
  }

  lemma ExpireStays(s: State, now: int)
    ensures SameDisplays(s, Expire(s, now))
  {
    hide Armed, ReplyAll, FailAll;
    var due := Due(s.pending, now);
    ReplyAllFrame(s.(failures := FailAll(s.failures, due, TimedOut)), due, TimedOut);
  }

  lemma ChangedStays(s: State, name: Name, brightness: int, source: Source, context: Context)
    ensures SameDisplays(s, BrightnessChanged(s, name, brightness, source, context))
  {
    hide QueueObserved;
  }

  lemma RangedStays(s: State, name: Name, now: int)
    ensures SameDisplays(s, RangeChanged(s, name, now))
  {
    hide Armed, ReplyAll;
    ReplyAllFrame(s, {name}, Stale);
  }

  lemma DeadStays(s: State, event: Event, generation: nat)
    requires Dead(s, generation)
    ensures Dead(Apply(s, event), generation)
  {
    hide Refresh;
    if event.Snapshot? && event.found.Some? {
      RefreshedDead(s, event.found.value, event.sameOwner, event.now, generation);
    } else if event.Snapshot? {
      NoSnapshot(s, event.sameOwner, event.now);
    } else if !event.Owner? && !event.Attached? {
      hide Apply;
      DisplaysStay(s, event);
    }
  }

  lemma NoSnapshot(s: State, sameOwner: bool, now: int)
    ensures SameDisplays(s, Refresh(s, None, sameOwner, now))
  {
  }

  lemma {:induction false} DeadForEver(s: State, events: seq<Event>, generation: nat)
    requires Dead(s, generation)
    ensures Dead(Run(s, events), generation)
    decreases |events|
  {
    if events != [] {
      hide Apply, Dead;
      DeadStays(s, events[0], generation);
      DeadForEver(Apply(s, events[0]), events[1..], generation);
    }
  }

  // Once the owner changed, whatever follows, a request by a key of its generation is only
  // ever answered as stale.
  lemma KeysDieWithTheirOwner(s: State, owner: Option<nat>, events: seq<Event>, id: int, name: Name, ratio: real,
                              now: int)
    requires Inv(s) && owner != s.owner
    ensures var t := Run(OwnerChanged(s, owner), events);
      var u := Request(t, id, Key(s.generation, name), ratio, now);
      u.pending == t.pending && u.answers == t.answers + multiset{Answer(id, Stale)}
  {
    hide OwnerChanged, Run, Rounded;
    OwnerChangeKills(s, owner);
    var first := OwnerChanged(s, owner);
    DeadForEver(first, events, s.generation);
  }

  // ---- Time ----

  // Exactly the requests whose time has come are answered and shown as failed.
  lemma ExpireExactly(s: State, now: int, name: Name)
    requires Inv(s)
    ensures var t := Expire(s, now);
      && (name in t.pending <==> name in s.pending && s.pending[name].deadline > now)
      && (name in t.pending ==> t.pending[name] == s.pending[name])
      && (name in s.pending && s.pending[name].deadline <= now ==>
            name in t.failures && t.failures[name] == TimedOut
            && t.answers[Answer(s.pending[name].id, TimedOut)] == s.answers[Answer(s.pending[name].id, TimedOut)] + 1)
  {
    if name in s.pending && s.pending[name].deadline <= now {
      var due := Due(s.pending, now);
      assert Answer(s.pending[name].id, TimedOut) in AnswersFor(s.pending, due, TimedOut);
    }
  }

  // The timer is set exactly while something is pending, for the nearest deadline or its
  // least delay; when it fires on time the request it was set for is answered.
  lemma TimerExactly(s: State)
    requires Inv(s)
    ensures s.timer.Off? <==> s.pending == map[]
    ensures s.timer.On? ==>
              exists n :: n in s.pending
                && (forall m :: m in s.pending ==> s.pending[n].deadline <= s.pending[m].deadline)
                && s.timer.fireAt <= Max(s.pending[n].deadline, s.timer.armedAt + 1)
                && (s.pending[n].deadline - s.timer.armedAt <= MAX_INT ==>
                      n !in Expire(s, s.timer.fireAt).pending)
  {
    hide Core, Expire;
    if s.timer.On? {
      var nearest :| IsLeast(Deadlines(s.pending), nearest)
                     && s.timer == On(s.timer.armedAt,
                                      s.timer.armedAt + Min(Max(1, nearest - s.timer.armedAt), MAX_INT));
      var n := Nearest(s.pending, nearest);
      if nearest - s.timer.armedAt <= MAX_INT {
        ExpireExactly(s, s.timer.fireAt, n);
      }
    }
  }

  lemma Nearest(pending: map<Name, Pending>, nearest: int) returns (n: Name)
    requires IsLeast(Deadlines(pending), nearest)
    ensures n in pending && pending[n].deadline == nearest
    ensures forall m :: m in pending ==> nearest <= pending[m].deadline
  {
    n :| n in pending && pending[n].deadline == nearest;
    forall m | m in pending
      ensures nearest <= pending[m].deadline
    {
      assert pending[m].deadline in Deadlines(pending);
    }
  }

  // ---- Confirmations ----

  ghost predicate SomeConfirms(s: State, observed: seq<Observed>, id: int) {
    exists i :: 0 <= i < |observed| && Confirms(s, observed[i]) && observed[i].origin.id == id
  }

  lemma ConfirmOne(s: State, o: Observed, id: int)
    ensures Confirm(s, o).answers[Answer(id, Confirmed)]
            == s.answers[Answer(id, Confirmed)] + if Confirms(s, o) && o.origin.id == id then 1 else 0
    ensures forall p: Observed :: p.name != o.name ==> (Confirms(Confirm(s, o), p) <==> Confirms(s, p))
  {
    if Confirms(s, o) {
      var t := s.(failures := s.failures - {o.name});
      assert AnswersFor(t.pending, {o.name}, Confirmed) == {Answer(s.pending[o.name].id, Confirmed)};
    }
  }

  lemma {:induction false} ConfirmAllExactly(s: State, observed: seq<Observed>, id: int)
    requires DistinctIds(s.pending) && DistinctNames(observed)
    ensures ConfirmAll(s, observed).answers[Answer(id, Confirmed)]
            == s.answers[Answer(id, Confirmed)] + if SomeConfirms(s, observed, id) then 1 else 0
    decreases |observed|
  {
    if observed != [] {
      hide Confirm, Confirms;
      var o, rest := observed[0], observed[1..];
      var t := Confirm(s, o);
      ConfirmOne(s, o, id);
      ConfirmIds(s, o);
      assert DistinctNames(rest);
      ConfirmAllExactly(t, rest, id);
      FirstOrLater(s, t, observed, id);
      if i :| 0 <= i < |rest| && Confirms(t, rest[i]) && rest[i].origin.id == id {
        NotTwice(s, o, observed[i + 1], id);
      }
    }
  }

  lemma FirstOrLater(s: State, t: State, observed: seq<Observed>, id: int)
    requires observed != [] && DistinctNames(observed)
    requires forall p: Observed :: p.name != observed[0].name ==> (Confirms(t, p) <==> Confirms(s, p))
    ensures SomeConfirms(s, observed, id)
            <==> (Confirms(s, observed[0]) && observed[0].origin.id == id) || SomeConfirms(t, observed[1..], id)
  {
    var rest := observed[1..];
    if i :| 0 <= i < |observed| && Confirms(s, observed[i]) && observed[i].origin.id == id {
      assert i == 0 || (rest[i - 1] == observed[i] && Confirms(t, rest[i - 1]));
    }
    if i :| 0 <= i < |rest| && Confirms(t, rest[i]) && rest[i].origin.id == id {
      assert Confirms(s, observed[i + 1]);
    }
  }

  lemma ConfirmIds(s: State, o: Observed)
    requires DistinctIds(s.pending)
    ensures DistinctIds(Confirm(s, o).pending)
  {
  }

  lemma NotTwice(s: State, o: Observed, p: Observed, id: int)
    requires DistinctIds(s.pending) && o.name != p.name
    requires Confirms(s, p) && p.origin.id == id
    ensures !(Confirms(s, o) && o.origin.id == id)
  {
  }

  // A change signalled with the request's own context, whose level the snapshot repeats,
  // for a display that is still there with the same maximum.
  ghost predicate Evidence(s: State, found: map<Name, Reading>, id: int) {
    exists i :: 0 <= i < |s.observed|
      && s.observed[i].origin == Self(id) && s.observed[i].name in s.pending
      && s.pending[s.observed[i].name].id == id
      && s.observed[i].name in found && ValidReading(found[s.observed[i].name])
      && found[s.observed[i].name]
         == Reading(s.pending[s.observed[i].name].maximum, s.observed[i].brightness)
  }

  // A snapshot confirms a request exactly on that evidence.
  lemma ConfirmedExactly(s: State, found: map<Name, Reading>, now: int, id: int)
    requires Inv(s) && s.owner.Some?
    ensures Refresh(s, Some(found), true, now).answers[Answer(id, Confirmed)]
            == s.answers[Answer(id, Confirmed)] + if Evidence(s, found, id) then 1 else 0
  {
    hide ConfirmAll, PendingInv, DisplayInv, TimerInv;
    var displays := Refreshed(s.generation, found);
    var names := Outdated(s.pending, displays);
    var kept := ReplyAll(s.(scheduled := false), names, Stale).(displays := displays);
    assert DistinctIds(kept.pending);
    ConfirmAllExactly(kept, s.observed, id);
    assert Answer(id, Confirmed) !in AnswersFor(s.pending, names, Stale);
    forall i | 0 <= i < |s.observed|
      ensures Confirms(kept, s.observed[i]) && s.observed[i].origin.id == id
              <==> s.observed[i].origin == Self(id) && s.observed[i].name in s.pending
                   && s.pending[s.observed[i].name].id == id
                   && s.observed[i].name in found && ValidReading(found[s.observed[i].name])
                   && found[s.observed[i].name]
                      == Reading(s.pending[s.observed[i].name].maximum, s.observed[i].brightness)
    {
      ConfirmsKept(s, found, kept, s.observed[i], id);
    }
  }

  lemma ConfirmsKept(s: State, found: map<Name, Reading>, kept: State, o: Observed, id: int)
    requires var displays := Refreshed(s.generation, found);
      kept == ReplyAll(s.(scheduled := false), Outdated(s.pending, displays), Stale).(displays := displays)
    ensures Confirms(kept, o) && o.origin.id == id
            <==> o.origin == Self(id) && o.name in s.pending && s.pending[o.name].id == id
                 && o.name in found && ValidReading(found[o.name])
                 && found[o.name] == Reading(s.pending[o.name].maximum, o.brightness)
  {
  }
}
