/**
  * What every event keeps: each pending request is about a display that is known now, under
  * the current owner; the timer covers exactly the pending requests; and every request
  * received is answered once, abandoned to a change of owner, or still pending.
  */
module BrightnessSafety {
  import opened Basics
  import opened BrightnessModel

  ghost predicate PendingInv(s: State) {
    forall n :: n in s.pending ==>
      && n in s.displays && s.displays[n].maximum == s.pending[n].maximum
      && s.pending[n].generation == s.generation && s.pending[n].key == s.displays[n].key
      && 0 <= s.pending[n].requested <= s.pending[n].maximum
      && n !in s.failures
  }

  ghost predicate DistinctIds(pending: map<Name, Pending>) {
    forall n, m :: n in pending && m in pending && pending[n].id == pending[m].id ==> n == m
  }

  ghost predicate DisplayInv(s: State) {
    && |s.displays| <= MAX_DISPLAYS
    && forall n :: n in s.displays ==>
         && s.displays[n].key == Key(s.generation, n)
         && ValidReading(Reading(s.displays[n].maximum, s.displays[n].brightness))
  }

  ghost predicate DistinctNames(observed: seq<Observed>) {
    forall i, j :: 0 <= i < j < |observed| ==> observed[i].name != observed[j].name
  }

  ghost predicate Core(s: State) {
    && PendingInv(s) && DistinctIds(s.pending) && DisplayInv(s)
    && (s.owner.None? ==> s.pending == map[] && s.displays == map[])
    && |s.observed| <= MAX_DISPLAYS && DistinctNames(s.observed)
    && s.generation <= MAX_INT
  }

  // Armed for exactly what is pending, when it was last armed.
  ghost predicate TimerInv(s: State) {
    if s.pending == map[] then s.timer == Off else s.timer.On? && IsTimer(s.pending, s.timer.armedAt, s.timer)
  }

  ghost predicate Inv(s: State) {
    Core(s) && TimerInv(s)
  }

  // ---- Counting answers ----

  function AnswersTo(answers: multiset<Answer>, id: int): nat {
    answers[Answer(id, Stale)] + answers[Answer(id, Busy)] + answers[Answer(id, Noop)] + answers[Answer(id, TimedOut)]
    + answers[Answer(id, Unavailable)] + answers[Answer(id, Backend)] + answers[Answer(id, Confirmed)]
  }

  function Held(s: State, id: int): nat {
    if id in IdsOf(s.pending) then 1 else 0
  }

  ghost predicate Ledger(s: State, id: int) {
    s.received[id] == AnswersTo(s.answers, id) + s.abandoned[id] + Held(s, id)
  }

  lemma Replied(s: State, to: int, outcome: Outcome, id: int)
    ensures AnswersTo(Reply(s, to, outcome).answers, id) == AnswersTo(s.answers, id) + if to == id then 1 else 0
  {
    match outcome {
      case _ =>
    }
  }

  lemma AnswersSet(answers: multiset<Answer>, more: set<Answer>, outcome: Outcome, id: int)
    requires forall a :: a in more ==> a.outcome == outcome
    ensures AnswersTo(answers + multiset(more), id)
            == AnswersTo(answers, id) + if Answer(id, outcome) in more then 1 else 0
  {
    match outcome {
      case _ =>
    }
  }

  lemma RepliedAll(s: State, names: set<Name>, outcome: Outcome, id: int)
    requires DistinctIds(s.pending) && Ledger(s, id)
    ensures Ledger(ReplyAll(s, names, outcome), id)
    ensures DistinctIds(ReplyAll(s, names, outcome).pending)
  {
    hide AnswersTo;
    var t := ReplyAll(s, names, outcome);
    var more := AnswersFor(s.pending, names, outcome);
    AnswersSet(s.answers, more, outcome, id);
    if id in IdsOf(s.pending) {
      var n :| n in s.pending && s.pending[n].id == id;
      if n in names {
        assert Answer(id, outcome) in more;
        assert id !in IdsOf(t.pending);
      } else {
        assert t.pending[n].id == id;
        assert id in IdsOf(t.pending);
        assert Answer(id, outcome) !in more;
      }
    } else {
      assert Answer(id, outcome) !in more;
      assert id !in IdsOf(t.pending);
    }
  }

  ghost predicate Good(s: State, id: int) {
    Core(s) && Ledger(s, id)
  }

  lemma ReplyAllCore(s: State, names: set<Name>, outcome: Outcome)
    requires Core(s)
    ensures Core(ReplyAll(s, names, outcome))
  {
  }

  lemma ReplyAllGood(s: State, names: set<Name>, outcome: Outcome, id: int)
    requires Good(s, id)
    ensures Good(ReplyAll(s, names, outcome), id)
  {
    hide Ledger, ReplyAll;
    ReplyAllCore(s, names, outcome);
    RepliedAll(s, names, outcome, id);
  }

  lemma RearmGood(s: State, now: int, id: int)
    requires Good(s, id)
    ensures Good(Rearm(s, now), id) && TimerInv(Rearm(s, now))
  {
  }

  // ---- Owners ----

  lemma DetachGood(s: State, id: int)
    requires Good(s, id)
    ensures Good(Detach(s), id) && TimerInv(Detach(s))
  {
    assert IdsOf(map[]) == {};
  }

  // Only the owner and its generation change, and nothing is pending or shown.
  lemma AttachGood(s: State, owner: nat, id: int)
    requires Good(s, id) && TimerInv(s)
    ensures Good(Attach(s, owner), id) && TimerInv(Attach(s, owner))
  {
    if s.owner != Some(owner) {
      DetachGood(s, id);
      var detached := if s.owner.Some? then Detach(s) else s;
      assert detached.pending == map[] && detached.displays == map[];
    }
  }

  lemma OwnerChangedGood(s: State, owner: Option<nat>, id: int)
    requires Good(s, id) && TimerInv(s)
    ensures Good(OwnerChanged(s, owner), id) && TimerInv(OwnerChanged(s, owner))
  {
    hide Attach, Detach, Good, TimerInv;
    DetachGood(s, id);
    if owner.Some? {
      AttachGood(Detach(s), owner.value, id);
    }
  }

  // ---- Snapshots ----

  lemma ConfirmGood(s: State, o: Observed, id: int)
    requires Good(s, id)
    ensures Good(Confirm(s, o), id) && Confirm(s, o).owner == s.owner && Confirm(s, o).observed == s.observed
  {
    hide Ledger, ReplyAll;
    var cleared := s.(failures := s.failures - {o.name});
    assert Good(cleared, id) by { ClearedGood(s, {o.name}, id); }
    ReplyAllGood(cleared, {o.name}, Confirmed, id);
    ReplyAllFrame(cleared, {o.name}, Confirmed);
  }

  lemma ReplyAllFrame(s: State, names: set<Name>, outcome: Outcome)
    ensures ReplyAll(s, names, outcome).(pending := s.pending, answers := s.answers) == s
  {
  }

  lemma ClearedGood(s: State, names: set<Name>, id: int)
    requires Good(s, id)
    ensures Good(s.(failures := s.failures - names), id)
  {
  }

  lemma {:induction false} ConfirmAllGood(s: State, observed: seq<Observed>, id: int)
    requires Good(s, id)
    ensures Good(ConfirmAll(s, observed), id) && ConfirmAll(s, observed).owner == s.owner
    ensures ConfirmAll(s, observed).observed == s.observed
    decreases |observed|
  {
    if observed != [] {
      hide Good, Confirm;
      ConfirmGood(s, observed[0], id);
      ConfirmAllGood(Confirm(s, observed[0]), observed[1..], id);
    }
  }

  lemma RefreshedSize(generation: nat, found: map<Name, Reading>)
    ensures |Refreshed(generation, found)| <= |found|
  {
    var shown := Refreshed(generation, found).Keys;
    assert shown <= found.Keys;
    assert |found| == |found.Keys| && |Refreshed(generation, found)| == |shown|;
    hide Refreshed;
    var hidden := found.Keys - shown;
    assert found.Keys == shown + hidden;
  }

  // Requests about displays that vanished or changed range are answered before the
  // displays are replaced.
  lemma ReplaceDisplays(s: State, found: map<Name, Reading>, id: int)
    requires Good(s, id) && s.owner.Some? && |found| <= MAX_DISPLAYS
    ensures var displays := Refreshed(s.generation, found);
            Good(ReplyAll(s, Outdated(s.pending, displays), Stale).(displays := displays), id)
  {
    hide Ledger;
    var displays := Refreshed(s.generation, found);
    RefreshedSize(s.generation, found);
    RepliedAll(s, Outdated(s.pending, displays), Stale, id);
    var replied := ReplyAll(s, Outdated(s.pending, displays), Stale);
    var t := replied.(displays := displays);
    assert Core(t);
    LedgerSame(replied, t, id);
  }

  lemma LedgerSame(s: State, t: State, id: int)
    requires Ledger(s, id) && t.received == s.received && t.answers == s.answers && t.abandoned == s.abandoned
    requires t.pending == s.pending
    ensures Ledger(t, id)
  {
  }

  lemma RefreshGood(s: State, found: Option<map<Name, Reading>>, sameOwner: bool, now: int, id: int)
    requires Good(s, id) && TimerInv(s) && (found.Some? ==> |found.value| <= MAX_DISPLAYS)
    ensures Good(Refresh(s, found, sameOwner, now), id) && TimerInv(Refresh(s, found, sameOwner, now))
  {
    var begun := s.(scheduled := false);
    assert Good(begun, id) && TimerInv(begun);
    hide ReplyAll, Refreshed, Outdated, Good, ConfirmAll, TimerInv, Rearm;
    if s.owner.Some? && found.Some? && sameOwner {
      var displays := Refreshed(s.generation, found.value);
      var kept := ReplyAll(begun, Outdated(s.pending, displays), Stale).(displays := displays);
      ReplaceDisplays(begun, found.value, id);
      ConfirmAllGood(kept, s.observed, id);
      EmptiedGood(ConfirmAll(kept, s.observed), id);
      RearmGood(ConfirmAll(kept, s.observed).(observed := []), now, id);
    }
  }

  lemma EmptiedGood(s: State, id: int)
    requires Good(s, id)
    ensures Good(s.(observed := []), id)
  {
  }

  // ---- Requests ----

  lemma RequestGood(s: State, id: int, key: Key, ratio: real, now: int, x: int)
    requires Good(s, x) && TimerInv(s)
    ensures Good(Request(s, id, key, ratio, now), x) && TimerInv(Request(s, id, key, ratio, now))
  {
    hide AnswersTo, Rounded, Armed, IdsOf;
    Replied(s, id, Stale, x);
    Replied(s, id, Busy, x);
    Replied(s, id, Noop, x);
    var received := s.(received := s.received + multiset{id});
    if Known(s, key) && !(id in IdsOf(s.pending) || key.name in s.pending) {
      var display := s.displays[key.name];
      var requested := Rounded(ratio, display.maximum);
      if requested != display.brightness {
        RoundedRange(ratio, display.maximum);
        var pending := Pending(id, s.generation, key, requested, display.maximum, now + REQUEST_TIMEOUT_MS);
        AcceptedGood(s, id, key, pending, x);
        RearmGood(received.(failures := s.failures - {key.name}, pending := s.pending[key.name := pending]), now, x);
      }
    }
  }

  lemma RoundedRange(ratio: real, maximum: int)
    requires maximum > 0
    ensures 0 <= Rounded(ratio, maximum) <= maximum
  {
  }

  lemma AcceptedGood(s: State, id: int, key: Key, pending: Pending, x: int)
    requires Good(s, x) && Known(s, key) && id !in IdsOf(s.pending) && key.name !in s.pending
    requires pending.id == id && pending.generation == s.generation && pending.key == key
    requires pending.maximum == s.displays[key.name].maximum && 0 <= pending.requested <= pending.maximum
    ensures Good(s.(received := s.received + multiset{id}, failures := s.failures - {key.name},
                    pending := s.pending[key.name := pending]), x)
  {
    hide AnswersTo;
    var t := s.(received := s.received + multiset{id}, failures := s.failures - {key.name},
                pending := s.pending[key.name := pending]);
    forall n | n in s.pending
      ensures s.pending[n].id != id
    {
      assert s.pending[n].id in IdsOf(s.pending);
    }
    assert Core(t);
    IdsMore(s.pending, key.name, pending);
  }

  lemma IdsMore(pending: map<Name, Pending>, name: Name, p: Pending)
    requires name !in pending
    ensures IdsOf(pending[name := p]) == IdsOf(pending) + {p.id}
  {
    var more := pending[name := p];
    forall i | i in IdsOf(pending) + {p.id}
      ensures i in IdsOf(more)
    {
      if i == p.id {
        assert more[name].id == i;
      } else {
        var n :| n in pending && pending[n].id == i;
        assert more[n].id == i;
      }
    }
  }

  lemma FailedGood(s: State, failures: map<Name, Outcome>, names: set<Name>, outcome: Outcome, id: int)
    requires Good(s, id) && failures.Keys <= s.failures.Keys + names
    ensures Good(ReplyAll(s.(failures := failures), names, outcome), id)
  {
    hide Ledger, ReplyAll, PendingInv, DisplayInv;
    var t := s.(failures := failures);
    LedgerSame(s, t, id);
    RepliedAll(t, names, outcome, id);
    FailedCore(s, failures, names, outcome);
  }

  lemma FailedCore(s: State, failures: map<Name, Outcome>, names: set<Name>, outcome: Outcome)
    requires Core(s) && failures.Keys <= s.failures.Keys + names
    ensures Core(ReplyAll(s.(failures := failures), names, outcome))
  {
  }

  lemma StepGood(s: State, event: Event, id: int)
    requires Inv(s) && Ledger(s, id) && Permitted(event)
    ensures Inv(Apply(s, event)) && Ledger(Apply(s, event), id)
  {
    hide Core, Ledger, TimerInv, OwnerChanged, Attach, Refresh, Request, Rearm, QueueObserved, Schedule, ReplyAll;
    match event {
      case Owner(owner) => OwnerChangedGood(s, owner, id);
      case Attached(owner) => AttachGood(s, owner, id);
      case Snapshot(found, sameOwner, now) => RefreshGood(s, found, sameOwner, now, id);
      case Asked(who, key, ratio, now) => RequestGood(s, who, key, ratio, now, id);
      case Finished(owner, generation, name, who, error, now) =>
        if error.Some? && name in s.pending {
          FailedGood(s, s.failures[name := error.value], {name}, error.value, id);
          RearmGood(ReplyAll(s.(failures := s.failures[name := error.value]), {name}, error.value), now, id);
        }
      case TimerFired(now) =>
        var due := Due(s.pending, now);
        FailedGood(s, FailAll(s.failures, due, TimedOut), due, TimedOut, id);
        RearmGood(ReplyAll(s.(failures := FailAll(s.failures, due, TimedOut)), due, TimedOut), now, id);
      case Changed(name, brightness, source, context) =>
        ChangedGood(s, Observed(name, brightness, OriginOf(s, name, source, context)), id);
      case Ranged(name, now) =>
        ReplyAllGood(s, {name}, Stale, id);
        RearmGood(ReplyAll(s, {name}, Stale), now, id);
        ScheduledKeeps(ClearPending(s, name, Stale, now), id);
      case Hotplugged => ScheduledKeeps(s, id);
    }
  }

  lemma ScheduledKeeps(s: State, id: int)
    requires Good(s, id) && TimerInv(s)
    ensures Good(Schedule(s), id) && TimerInv(Schedule(s))
  {
  }

  lemma {:induction false} ReplacedKeeps(observed: seq<Observed>, change: Observed)
    requires DistinctNames(observed)
    ensures DistinctNames(Replaced(observed, change))
    ensures forall i :: 0 <= i < |observed| ==> Replaced(observed, change)[i].name == observed[i].name
    decreases |observed|
  {
    if observed != [] && observed[0].name != change.name {
      ReplacedKeeps(observed[1..], change);
    }
  }

  lemma QueuedKeeps(observed: seq<Observed>, change: Observed)
    requires DistinctNames(observed) && |observed| <= MAX_DISPLAYS
    ensures DistinctNames(QueueObserved(observed, change)) && |QueueObserved(observed, change)| <= MAX_DISPLAYS
  {
    if exists i :: 0 <= i < |observed| && observed[i].name == change.name {
      ReplacedKeeps(observed, change);
    }
  }

  lemma ChangedGood(s: State, change: Observed, id: int)
    requires Good(s, id) && TimerInv(s)
    ensures var t := Schedule(s.(observed := QueueObserved(s.observed, change))); Good(t, id) && TimerInv(t)
  {
    hide QueueObserved;
    QueuedKeeps(s.observed, change);
    ScheduledKeeps(s.(observed := QueueObserved(s.observed, change)), id);
  }

  // ---- Runs ----

  lemma {:induction false} RunGood(s: State, events: seq<Event>, id: int)
    requires Inv(s) && Ledger(s, id) && forall e :: e in events ==> Permitted(e)
    ensures Inv(Run(s, events)) && Ledger(Run(s, events), id)
    decreases |events|
  {
    if events != [] {
      hide Inv, Ledger, Permitted, Apply;
      assert events[0] in events;
      StepGood(s, events[0], id);
      RunGood(Apply(s, events[0]), events[1..], id);
    }
  }

  // Every request received over a run is answered exactly once, abandoned to a change of
  // owner, or pending; a fresh id therefore gets exactly one of the three.
  lemma ReceivedExactlyOnce(events: seq<Event>, id: int)
    requires forall e :: e in events ==> Permitted(e)
    ensures var s := Run(IDLE, events);
      && s.received[id] == AnswersTo(s.answers, id) + s.abandoned[id] + Held(s, id)
      && (id in IdsOf(s.pending) ==> s.received[id] > AnswersTo(s.answers, id))
  {
    assert Inv(IDLE) && Ledger(IDLE, id);
    RunGood(IDLE, events, id);
  }

  // In every reachable state each pending request names a display that is shown now, with
  // the same maximum, under the current owner, and no failure is shown for it.
  lemma ReachableIsConsistent(events: seq<Event>)
    requires forall e :: e in events ==> Permitted(e)
    ensures Inv(Run(IDLE, events))
  {
    assert Inv(IDLE) && Ledger(IDLE, 0);
    RunGood(IDLE, events, 0);
  }
}
