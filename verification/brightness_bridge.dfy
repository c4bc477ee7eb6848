/** The brightness bridge itself: its fields change in place, each event as specified. */
module BrightnessBridges {
  import opened Basics
  import opened BrightnessModel
  import opened BrightnessSafety
  import BrightnessExact

  // Consistent, and no request answered twice or forgotten.
  ghost predicate Kept(s: State) {
    Inv(s) && forall id :: Ledger(s, id)
  }

  lemma EventKeeps(s: State, event: Event)
    ensures Kept(s) && Permitted(event) ==> Kept(Apply(s, event))
  {
    hide Inv, Ledger, Permitted, Apply;
    if Kept(s) && Permitted(event) {
      StepGood(s, event, 0);
      forall id
        ensures Ledger(Apply(s, event), id)
      {
        StepGood(s, event, id);
      }
    }
  }

  lemma RequestKeeps(s: State, id: int, key: Key, ratio: real, now: int)
    ensures Kept(s) ==> Kept(Request(s, id, key, ratio, now))
  {
    hide Kept;
    EventKeeps(s, Asked(id, key, ratio, now));
  }

  lemma RefreshKeeps(s: State, found: Option<map<Name, Reading>>, sameOwner: bool, now: int)
    ensures Kept(s) && (found.Some? ==> |found.value| <= MAX_DISPLAYS) ==> Kept(Refresh(s, found, sameOwner, now))
  {
    hide Kept;
    EventKeeps(s, BrightnessModel.Event.Snapshot(found, sameOwner, now));
  }

  class BrightnessBridge {
    var owner: Option<nat>
    var generation: nat
    var scheduled: bool
    var displays: map<Name, Display>
    var failures: map<Name, Outcome>
    var pending: map<Name, Pending>
    var observed: seq<Observed>
    var timer: Timer
    var answers: multiset<Answer>
    ghost var received: multiset<int>
    ghost var abandoned: multiset<int>

    // Every event keeps this, by what is proved of the specification.
    ghost predicate Valid()
      reads this
    {
      Kept(Now())
    }

    constructor ()
      ensures Now() == IDLE && Valid()
    {
      owner, generation, scheduled := None, 0, false;
      displays, failures, pending, observed, timer := map[], map[], map[], [], Off;
      answers, received, abandoned := multiset{}, multiset{}, multiset{};
    }

    ghost function Now(): State
      reads this
    {
      State(owner, generation, scheduled, displays, failures, pending, observed, timer, received, answers, abandoned)
    }

    method Publish(id: int, outcome: Outcome)
      modifies this`answers
      ensures Now() == Reply(old(Now()), id, outcome)
    {
      answers := answers + multiset{Answer(id, outcome)};
    }

    method ArmRequestTimer(now: int)
      modifies this`timer
      ensures Now() == Rearm(old(Now()), now)
    {
      if pending == map[] {
        timer := Off;
        return;
      }
      DeadlinesExist(pending);
      ghost var some := HasElement(pending.Keys);
      var first :| first in pending;
      var nearest := pending[first].deadline;
      var names := pending.Keys - {first};
      while names != {}
        invariant names <= pending.Keys
        invariant exists n :: n in pending && pending[n].deadline == nearest
        invariant forall n :: n in pending && n !in names ==> nearest <= pending[n].deadline
        decreases |names|
      {
        ghost var some := HasElement(names);
        var name :| name in names;
        nearest := Min(nearest, pending[name].deadline);
        names := names - {name};
      }
      assert IsLeast(Deadlines(pending), nearest);
      timer := On(now, now + Min(Max(1, nearest - now), MAX_INT));
    }

    // ---- Fields that change together ----

    ghost method Receive(id: int)
      modifies this`received
      ensures Now() == old(Now()).(received := old(received) + multiset{id})
    {
      received := received + multiset{id};
    }

    method SetFailures(failures: map<Name, Outcome>)
      modifies this`failures
      ensures Now() == old(Now()).(failures := failures)
    {
      this.failures := failures;
    }

    method SetPending(pending: map<Name, Pending>)
      modifies this`pending
      ensures Now() == old(Now()).(pending := pending)
    {
      this.pending := pending;
    }

    method SetDisplays(displays: map<Name, Display>)
      modifies this`displays
      ensures Now() == old(Now()).(displays := displays)
    {
      this.displays := displays;
    }

    method ClearObserved()
      modifies this`observed
      ensures Now() == old(Now()).(observed := [])
    {
      observed := [];
    }

    method Unschedule()
      modifies this`scheduled
      ensures Now() == old(Now()).(scheduled := false)
    {
      scheduled := false;
    }

    // ---- Owners ----

    method ClearAllPending()
      modifies this`pending, this`timer, this`abandoned
      ensures pending == map[] && timer == Off && abandoned == old(abandoned) + multiset(IdsOf(old(pending)))
    {
      abandoned := abandoned + multiset(IdsOf(pending));
      pending := map[];
      timer := Off;
    }

    method DetachOwner()
      modifies this
      ensures Now() == Detach(old(Now()))
    {
      hide Detach, IdsOf;
      ghost var s := Now();
      Unschedule();
      ClearObserved();
      ClearAllPending();
      SetDisplays(map[]);
      SetFailures(map[]);
      owner := None;
      DetachIs(s, IdsOf(s.pending));
    }

    method ScheduleSnapshot()
      modifies this`scheduled
      ensures Now() == Schedule(old(Now()))
      ensures old(Valid()) && Permitted(Hotplugged) ==> Valid()
    {
      EventKeeps(Now(), Hotplugged);
      hide Kept, Permitted;
      if scheduled || owner.None? { return; }
      scheduled := true;
    }

    method AttachOwner(newOwner: nat)
      modifies this
      ensures Now() == Attach(old(Now()), newOwner)
      ensures old(Valid()) && Permitted(Attached(newOwner)) ==> Valid()
    {
      EventKeeps(Now(), Attached(newOwner));
      hide Kept, Permitted;
      if owner == Some(newOwner) { return; }
      if owner.Some? {
        DetachOwner();
      }
      if generation == MAX_INT { return; }
      generation := generation + 1;
      owner := Some(newOwner);
      ScheduleSnapshot();
    }

    method OnServiceOwnerChanged(newOwner: Option<nat>)
      modifies this
      ensures Now() == OwnerChanged(old(Now()), newOwner)
      ensures old(Valid()) && Permitted(Owner(newOwner)) ==> Valid()
    {
      EventKeeps(Now(), Owner(newOwner));
      hide Kept, Permitted;
      if newOwner == owner { return; }
      DetachOwner();
      if newOwner.Some? {
        AttachOwner(newOwner.value);
      }
    }

    // ---- Snapshots ----

    method EraseOutdated(refreshed: map<Name, Display>)
      requires DistinctIds(pending)
      modifies this`pending, this`answers
      ensures Now() == ReplyAll(old(Now()), Outdated(old(pending), refreshed), Stale)
    {
      hide Outdated, AnswersFor;
      var kept, replies := WithoutOutdated(pending, refreshed);
      pending, answers := kept, answers + replies;
    }

    method ConfirmObserved(o: Observed)
      modifies this
      ensures Now() == Confirm(old(Now()), o)
    {
      if !(o.name in displays && displays[o.name].brightness == o.brightness) { return; }
      if o.origin.Self? {
        if o.name !in pending || pending[o.name].id != o.origin.id { return; }
        OneAnswer(pending, o.name, Confirmed);
        pending := pending - {o.name};
        failures := failures - {o.name};
        Publish(o.origin.id, Confirmed);
      } else {
        failures := failures - {o.name};
      }
    }

    method RefreshSnapshot(found: Option<map<Name, Reading>>, sameOwner: bool, now: int)
      requires DistinctIds(pending)
      modifies this
      ensures Now() == Refresh(old(Now()), found, sameOwner, now)
      ensures old(Valid()) && (found.Some? ==> |found.value| <= MAX_DISPLAYS) ==> Valid()
    {
      RefreshKeeps(Now(), found, sameOwner, now);
      hide Kept, ReplyAll, Outdated, Refreshed, Confirm, Armed, AnswersFor;
      Unschedule();
      if owner.None? || found.None? || !sameOwner { return; }
      var refreshed := Refreshed(generation, found.value);
      EraseOutdated(refreshed);
      SetDisplays(refreshed);
      ghost var kept := Now();
      assert kept.observed == old(observed) by { OutdatedFrame(old(Now()).(scheduled := false), refreshed); }
      var k := 0;
      while k < |observed|
        invariant 0 <= k <= |observed| && observed == old(observed)
        invariant ConfirmAll(Now(), observed[k..]) == ConfirmAll(kept, old(observed))
      {
        assert observed[k..][0] == observed[k] && observed[k..][1..] == observed[k + 1..];
        ConfirmFrame(Now(), observed[k]);
        ConfirmObserved(observed[k]);
        k := k + 1;
      }
      assert observed[k..] == [];
      ClearObserved();
      ArmRequestTimer(now);
    }

    // ---- Requests ----

    method RequestBrightness(id: int, key: Key, ratio: real, now: int)
      modifies this
      ensures Now() == Request(old(Now()), id, key, ratio, now)
      ensures old(Valid()) ==> Valid()
      ensures old(Valid()) && 0.0 <= ratio <= 1.0 ==>
                BrightnessExact.Requested(old(Now()), Now(), id, key, ratio, now)
    {
      if Valid() && 0.0 <= ratio <= 1.0 {
        BrightnessExact.RequestExactly(Now(), id, key, ratio, now);
      }
      hide BrightnessExact.Requested;
      RequestKeeps(Now(), id, key, ratio, now);
      hide Kept, Armed, Rounded, IdsOf;
      Receive(id);
      if owner.None? || key.name !in displays || displays[key.name].key != key {
        Publish(id, Stale);
        return;
      }
      var used := IdPending(id);
      if used || key.name in pending {
        Publish(id, Busy);
        return;
      }
      var display := displays[key.name];
      var requested := Rounded(ratio, display.maximum);
      SetFailures(failures - {key.name});
      if requested == display.brightness {
        Publish(id, Noop);
        return;
      }
      var added := Pending(id, generation, key, requested, display.maximum, now + REQUEST_TIMEOUT_MS);
      SetPending(pending[key.name := added]);
      ArmRequestTimer(now);
    }

    method IdPending(id: int) returns (used: bool)
      ensures used <==> id in IdsOf(pending)
    {
      var names := pending.Keys;
      while names != {}
        invariant names <= pending.Keys
        invariant forall n :: n in pending && n !in names ==> pending[n].id != id
        decreases |names|
      {
        ghost var some := HasElement(names);
        var name :| name in names;
        if pending[name].id == id { return true; }
        names := names - {name};
      }
      return false;
    }

    method OnCallFinished(caller: nat, callGeneration: nat, name: Name, id: int, error: Option<Outcome>, now: int)
      modifies this
      ensures Now() == CallFinished(old(Now()), caller, callGeneration, name, id, error, now)
      ensures old(Valid()) && Permitted(Finished(caller, callGeneration, name, id, error, now)) ==> Valid()
    {
      EventKeeps(Now(), Finished(caller, callGeneration, name, id, error, now));
      hide Kept, Permitted;
      hide Armed;
      if owner != Some(caller) || generation != callGeneration || name !in pending || pending[name].id != id
         || error.None? { return; }
      OneAnswer(pending, name, error.value);
      pending := pending - {name};
      failures := failures[name := error.value];
      Publish(id, error.value);
      ArmRequestTimer(now);
    }

    method EraseDue(now: int)
      requires DistinctIds(pending)
      modifies this
      ensures var due := Due(old(pending), now);
              Now() == ReplyAll(old(Now()).(failures := FailAll(old(failures), due, TimedOut)), due, TimedOut)
    {
      hide Due, AnswersFor, FailAll;
      var kept, replies, failed := WithoutDue(pending, failures, now);
      pending, answers, failures := kept, answers + replies, failed;
    }

    method ExpireRequests(now: int)
      requires DistinctIds(pending)
      modifies this
      ensures Now() == Expire(old(Now()), now)
      ensures old(Valid()) && Permitted(TimerFired(now)) ==> Valid()
    {
      EventKeeps(Now(), TimerFired(now));
      hide Kept, Permitted;
      hide Armed, ReplyAll, Due, FailAll;
      EraseDue(now);
      ArmRequestTimer(now);
    }

    // ---- Signals ----

    method QueueObservedChange(change: Observed)
      modifies this`observed
      ensures Now() == old(Now()).(observed := QueueObserved(old(observed), change))
    {
      var k := 0;
      while k < |observed|
        invariant 0 <= k <= |observed| && observed == old(observed)
        invariant forall i :: 0 <= i < k ==> observed[i].name != change.name
      {
        if observed[k].name == change.name {
          ReplacedAt(observed, change, k);
          observed := observed[k := change];
          return;
        }
        k := k + 1;
      }
      if |observed| >= MAX_DISPLAYS {
        observed := observed[1..];
      }
      observed := observed + [change];
    }

    method OnBrightnessChanged(name: Name, brightness: int, source: Source, context: Context)
      modifies this
      ensures Now() == BrightnessChanged(old(Now()), name, brightness, source, context)
      ensures old(Valid()) && Permitted(Changed(name, brightness, source, context)) ==> Valid()
    {
      EventKeeps(Now(), Changed(name, brightness, source, context));
      hide Kept, Permitted;
      hide QueueObserved;
      var origin := Unknown;
      if name in pending && source == Ours && context == OurContext(pending[name].id) {
        origin := Self(pending[name].id);
      } else if source != NoSource || context != NoContext {
        origin := External;
      }
      QueueObservedChange(Observed(name, brightness, origin));
      ScheduleSnapshot();
    }

    method ClearPending(name: Name, outcome: Outcome, now: int)
      modifies this`pending, this`timer, this`answers
      ensures Now() == BrightnessModel.ClearPending(old(Now()), name, outcome, now)
    {
      hide Armed, AnswersFor;
      if name !in pending { return; }
      var id := pending[name].id;
      OneAnswer(pending, name, outcome);
      pending := pending - {name};
      ArmRequestTimer(now);
      Publish(id, outcome);
    }

    method OnRangeChanged(name: Name, now: int)
      modifies this
      ensures Now() == RangeChanged(old(Now()), name, now)
      ensures old(Valid()) && Permitted(Ranged(name, now)) ==> Valid()
    {
      EventKeeps(Now(), Ranged(name, now));
      hide Kept, Permitted;
      hide BrightnessModel.ClearPending;
      ClearPending(name, Stale, now);
      ScheduleSnapshot();
    }
  }

  // Erases, while iterating, every pending request whose display vanished or changed range.
  method WithoutOutdated(pending: map<Name, Pending>, refreshed: map<Name, Display>)
    returns (kept: map<Name, Pending>, replies: multiset<Answer>)
    requires DistinctIds(pending)
    ensures kept == pending - Outdated(pending, refreshed)
    ensures replies == multiset(AnswersFor(pending, Outdated(pending, refreshed), Stale))
  {
    hide Outdated, DistinctIds, AnswersFor;
    kept, replies := pending, multiset{};
    var names := pending.Keys;
    ghost var erased: set<Name> := {};
    OutdatedWithin(pending, refreshed);
    NoAnswers(pending, Stale);
    while names != {}
      invariant names <= pending.Keys && erased == Outdated(pending, refreshed) - names && names !! erased
      invariant kept == pending - erased && replies == multiset(AnswersFor(pending, erased, Stale))
      decreases |names|
    {
      ghost var some := HasElement(names);
      var name :| name in names;
      IsOutdated(pending, refreshed, name);
      if name !in refreshed || refreshed[name].maximum != kept[name].maximum {
        AnswersMore(pending, erased, name, Stale);
        Insert(AnswersFor(pending, erased, Stale), Answer(kept[name].id, Stale));
        replies := replies + multiset{Answer(kept[name].id, Stale)};
        kept := kept - {name};
        erased := erased + {name};
      }
      names := names - {name};
    }
  }

  // Erases, while iterating, every pending request whose deadline has come.
  method WithoutDue(pending: map<Name, Pending>, failures: map<Name, Outcome>, now: int)
    returns (kept: map<Name, Pending>, replies: multiset<Answer>, failed: map<Name, Outcome>)
    requires DistinctIds(pending)
    ensures kept == pending - Due(pending, now)
    ensures replies == multiset(AnswersFor(pending, Due(pending, now), TimedOut))
    ensures failed == FailAll(failures, Due(pending, now), TimedOut)
  {
    hide Due, DistinctIds, AnswersFor, FailAll;
    kept, replies, failed := pending, multiset{}, failures;
    var names := pending.Keys;
    ghost var erased: set<Name> := {};
    DueWithin(pending, now);
    NoAnswers(pending, TimedOut);
    FailNone(failures, TimedOut);
    while names != {}
      invariant names <= pending.Keys && erased == Due(pending, now) - names && names !! erased
      invariant kept == pending - erased && replies == multiset(AnswersFor(pending, erased, TimedOut))
      invariant failed == FailAll(failures, erased, TimedOut)
      decreases |names|
    {
      ghost var some := HasElement(names);
      var name :| name in names;
      IsDue(pending, now, name);
      if kept[name].deadline <= now {
        AnswersMore(pending, erased, name, TimedOut);
        FailMore(failures, erased, name, TimedOut);
        Insert(AnswersFor(pending, erased, TimedOut), Answer(kept[name].id, TimedOut));
        replies := replies + multiset{Answer(kept[name].id, TimedOut)};
        failed := failed[name := TimedOut];
        kept := kept - {name};
        erased := erased + {name};
      }
      names := names - {name};
    }
  }

  lemma DetachIs(s: State, ids: set<int>)
    requires ids == IdsOf(s.pending)
    ensures Detach(s) == State(None, s.generation, false, map[], map[], map[], [], Off, s.received, s.answers,
                               s.abandoned + multiset(ids))
  {
  }

  lemma OneAnswer(pending: map<Name, Pending>, name: Name, outcome: Outcome)
    requires name in pending
    ensures AnswersFor(pending, {name}, outcome) == {Answer(pending[name].id, outcome)}
  {
  }

  lemma NoAnswers(pending: map<Name, Pending>, outcome: Outcome)
    ensures AnswersFor(pending, {}, outcome) == {}
  {
  }

  // Distinct ids give distinct answers.
  lemma AnswersMore(pending: map<Name, Pending>, names: set<Name>, name: Name, outcome: Outcome)
    requires DistinctIds(pending) && name in pending && name !in names && names <= pending.Keys
    ensures AnswersFor(pending, names + {name}, outcome)
            == AnswersFor(pending, names, outcome) + {Answer(pending[name].id, outcome)}
    ensures Answer(pending[name].id, outcome) !in AnswersFor(pending, names, outcome)
  {
  }

  lemma Insert(answers: set<Answer>, answer: Answer)
    requires answer !in answers
    ensures multiset(answers + {answer}) == multiset(answers) + multiset{answer}
  {
  }

  lemma OutdatedWithin(pending: map<Name, Pending>, displays: map<Name, Display>)
    ensures Outdated(pending, displays) <= pending.Keys
  {
  }

  lemma DueWithin(pending: map<Name, Pending>, now: int)
    ensures Due(pending, now) <= pending.Keys
  {
  }

  lemma IsOutdated(pending: map<Name, Pending>, displays: map<Name, Display>, name: Name)
    requires name in pending
    ensures name in Outdated(pending, displays)
            <==> name !in displays || displays[name].maximum != pending[name].maximum
  {
  }

  lemma IsDue(pending: map<Name, Pending>, now: int, name: Name)
    requires name in pending
    ensures name in Due(pending, now) <==> pending[name].deadline <= now
  {
  }

  lemma FailNone(failures: map<Name, Outcome>, outcome: Outcome)
    ensures FailAll(failures, {}, outcome) == failures
  {
  }

  lemma FailMore(failures: map<Name, Outcome>, names: set<Name>, name: Name, outcome: Outcome)
    ensures FailAll(failures, names + {name}, outcome) == FailAll(failures, names, outcome)[name := outcome]
  {
  }

  lemma OutdatedFrame(s: State, refreshed: map<Name, Display>)
    ensures ReplyAll(s, Outdated(s.pending, refreshed), Stale).observed == s.observed
  {
  }

  lemma ConfirmFrame(s: State, o: Observed)
    ensures Confirm(s, o).observed == s.observed
  {
  }

  lemma {:induction false} ReplacedAt(observed: seq<Observed>, change: Observed, k: nat)
    requires k < |observed| && observed[k].name == change.name
    requires forall i :: 0 <= i < k ==> observed[i].name != change.name
    ensures Replaced(observed, change) == observed[k := change]
    decreases k
  {
    if k > 0 {
      ReplacedAt(observed[1..], change, k - 1);
    }
  }
}
