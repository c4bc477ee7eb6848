/**
  * What holds in every run whatever generations and replies come: prompts only while pairing,
  * discovery only while idle or discovering, and every prompt answered at most once. Only what
  * is said about the calls under way needs fresh generations.
  */
module BluetoothPrompts {
  import opened Basics
  import opened BluetoothList
  import opened BluetoothModel
  import opened BluetoothSafety

  ghost predicate Sane(s: State) {
    PromptInv(s) && DiscoveryInv(s) && Balanced(s)
  }

  // The agent asks with something to show, which is what its two kinds of callback are.
  ghost predicate Asking(event: Event) {
    && (event.Prompted? ==> event.prompt != NoPrompt)
    && (event.Displayed? ==> event.prompt != NoPrompt)
  }

  lemma RestingSane(s: State, t: State)
    requires Resting(s, t) && Balanced(t) && RestInv(s)
    ensures Sane(t)
  {
    hide Balanced;
  }

  lemma FinishSane(s: State, failure: Failure, result: Outcome)
    requires Balanced(s) && RestInv(s)
    ensures Sane(Finish(s, failure, result)) && Sane(Schedule(Finish(s, failure, result)))
  {
    hide Balanced, RestInv, Resting, Finish, Sane, Schedule;
    FinishRests(s, failure, result);
    FinishBalanced(s, failure, result);
    RestingSane(s, Finish(s, failure, result));
    ScheduleSane(Finish(s, failure, result));
  }

  lemma ScheduleSane(s: State)
    requires Sane(s)
    ensures Sane(Schedule(s))
  {
    hide Balanced;
    BalancedSame(s, Schedule(s));
  }

  // Flags the three parts do not look at.
  lemma FlagsSane(s: State, t: State)
    requires Sane(s) && t == s.(scheduled := t.scheduled, interest := t.interest, expiryTimer := t.expiryTimer,
                                available := t.available, enabled := t.enabled, adapters := t.adapters,
                                devices := t.devices, calls := t.calls)
    requires s.owner.None? ==> t.devices == []
    ensures Sane(t)
  {
    hide Balanced;
    BalancedSame(s, t);
  }

  lemma SaneRests(s: State)
    requires Sane(s)
    ensures Balanced(s) && RestInv(s)
  {
  }

  // ---- Discovery and pairing ----

  lemma StopSane(s: State, generation: int, result: Outcome)
    requires Sane(s)
    ensures Sane(StopDiscovery(s, generation, result))
  {
    hide Balanced;
    BalancedSame(s, StopDiscovery(s, generation, result));
  }

  lemma CancelSane(s: State, generation: int)
    requires Sane(s)
    ensures Sane(CancelPairing(s, generation))
  {
    hide Balanced, Finish;
    var t := s.(operation := s.operation.(generation := generation));
    BalancedSame(s, t);
    FinishSane(t, Cancelled, WasCancelled);
  }

  lemma SetInterestSane(s: State, interested: bool, generation: int)
    requires Sane(s)
    ensures Sane(SetInterest(s, interested, generation))
  {
    var t := s.(interest := interested);
    FlagsSane(s, t);
    hide Sane, CancelPairing, StopDiscovery;
    CancelSane(t, generation);
    StopSane(CancelPairing(t, generation), generation, WasCancelled);
  }

  lemma TurnOffSane(s: State, generation: int)
    requires Sane(s)
    ensures Sane(TurnOff(s, generation))
  {
    hide Sane, CancelPairing, StopDiscovery;
    CancelSane(s, generation);
    StopSane(CancelPairing(s, generation), generation, WasCancelled);
  }

  lemma StartSane(s: State, generation: int, started: nat)
    requires Sane(s)
    ensures Sane(StartDiscovery(s, generation, started))
  {
    hide Balanced, Powered;
    BalancedSame(s, StartDiscovery(s, generation, started));
  }

  lemma BeginSane(s: State, kind: OperationKind, generation: int, token: int, calls: set<Call>)
    requires Sane(s) && s.operation.kind == Idle && !s.active && s.owner.Some?
    requires kind in {Pairing, Connecting, Disconnecting, Unpairing}
    ensures Sane(Begin(s, kind, generation, token).(calls := calls))
  {
    hide Balanced;
    BalancedSame(s, Begin(s, kind, generation, token).(calls := calls));
  }

  lemma PairSane(s: State, token: int, generation: int)
    requires Sane(s)
    ensures Sane(Pair(s, token, generation))
  {
    hide Sane, StopDiscovery, DeviceFor, Begin;
    StopSane(s, generation, Replaced);
    StoppedCalls(s, generation, Replaced);
    var ready := Prepared(s, generation);
    if s.owner.Some? && ready.operation.kind == Idle {
      BeginSane(ready, Pairing, generation, token, Pair(s, token, generation).calls);
    }
  }

  lemma ActSane(s: State, kind: OperationKind, token: int, generation: int)
    requires Sane(s)
    ensures Sane(Act(s, kind, token, generation))
  {
    hide Sane, StopDiscovery, DeviceFor, Begin;
    StopSane(s, generation, Replaced);
    StoppedCalls(s, generation, Replaced);
    var ready := Prepared(s, generation);
    if s.owner.Some? && ready.operation.kind == Idle && kind in {Pairing, Connecting, Disconnecting, Unpairing} {
      BeginSane(ready, kind, generation, token, Act(s, kind, token, generation).calls);
    }
  }

  // ---- Replies and the agent ----

  lemma ClearSane(s: State, reject: bool)
    requires Sane(s)
    ensures Sane(ClearReply(s, reject))
  {
    hide Balanced;
    ClearReplyBalanced(s, reject);
  }

  // Whatever the call was made for, even if it is taken for one of the operation under way.
  lemma FinishedSane(s: State, c: Call, reply: Reply, trusted: bool)
    requires Sane(s)
    ensures Sane(Finished(s, c, reply, trusted))
  {
    var done := s.(calls := s.calls - {c});
    FlagsSane(s, done);
    hide Sane, Balanced, RestInv, Finish, ClearReply, Schedule, Relevant;
    var cleared := ClearReply(done, false);
    ClearSane(done, false);
    SaneRests(done);
    SaneRests(cleared);
    ScheduleSane(done);
    FinishSane(done, ConnectionFailed, Paired);
    FinishSane(done, NoFailure, PairedConnected);
    FinishSane(cleared, TrustFailed, Paired);
    if reply.Refused? {
      FinishSane(done, reply.failure, NoResult);
      FinishSane(cleared, reply.failure, NoResult);
    }
    CallsSane(cleared, cleared.calls + {c.(connecting := true)});
  }

  lemma CallsSane(s: State, calls: set<Call>)
    requires Sane(s)
    ensures Sane(s.(calls := calls))
  {
    hide Balanced;
    BalancedSame(s, s.(calls := calls));
  }

  lemma MachineSane(s: State, t: State)
    requires Sane(s) && SameMachine(s, t) && PromptInv(t) && Balanced(t)
    ensures Sane(t)
  {
    hide Balanced, PromptInv;
  }

  lemma PromptSane(s: State, prompt: Prompt, path: Path, value: string, entered: nat, message: nat)
    requires Sane(s) && prompt != NoPrompt
    ensures Sane(AgentPrompt(s, prompt, path, value, entered, message))
  {
    hide AgentPrompt, Balanced, PromptInv, DiscoveryInv;
    PromptShape(s, prompt, path, value, entered, message);
    PromptBalanced(s, prompt, path, value, entered, message);
    MachineSane(s, AgentPrompt(s, prompt, path, value, entered, message));
  }

  lemma DisplaySane(s: State, prompt: Prompt, path: Path, value: string, entered: nat)
    requires Sane(s) && prompt != NoPrompt
    ensures Sane(AgentDisplay(s, prompt, path, value, entered))
  {
    hide AgentDisplay, Balanced, PromptInv, DiscoveryInv;
    DisplayShape(s, prompt, path, value, entered);
    BalancedSame(s, AgentDisplay(s, prompt, path, value, entered));
    MachineSane(s, AgentDisplay(s, prompt, path, value, entered));
  }

  lemma RespondSane(s: State, generation: int, accepted: bool, response: Response)
    requires Sane(s)
    ensures Sane(Respond(s, generation, accepted, response))
  {
    hide Answers, Balanced;
    if Answers(s, generation, accepted, response) && s.held.Some? {
      ClearReplyBalanced(s, true);
      BalancedSame(ClearReply(s, true), Respond(s, generation, accepted, response));
    }
    assert Answers(s, generation, accepted, response) ==> s.held.Some? by {
      AnswersHeld(s, generation, accepted, response);
    }
  }

  lemma AnswersHeld(s: State, generation: int, accepted: bool, response: Response)
    ensures Answers(s, generation, accepted, response) ==> s.held.Some?
  {
  }

  lemma GoneSane(s: State)
    requires Sane(s)
    ensures Sane(AgentReleased(s))
  {
    hide Balanced, ClearReply, Finish;
    ClearReplyBalanced(s, true);
    ClearShape(s, true);
    var t := ClearReply(s, true).(agent := false);
    BalancedSame(ClearReply(s, true), t);
    FinishSane(t, Backend, NoResult);
  }

  // ---- Refreshes and owners ----

  lemma ClearedSane(s: State, failure: Failure)
    requires Balanced(s) && (s.owner.None? ==> !s.agent)
    ensures Sane(ManagerCleared(s, failure)) && ManagerCleared(s, failure).operation.kind == Idle
  {
    hide Balanced, ClearReply;
    var t := s.(discoveryTimer := false, expiryTimer := false, active := false, discoveryAdapters := [],
                devices := [], adapters := []);
    BalancedSame(s, t);
    ClearReplyBalanced(t, true);
    ClearShape(t, true);
    BalancedSame(ClearReply(t, true), ManagerCleared(s, failure));
  }

  lemma ResetSane(s: State, failure: Failure, shown: Failure)
    requires Balanced(s) && (s.owner.None? ==> !s.agent)
    ensures Sane(Reset(s, failure, shown)) && Reset(s, failure, shown).operation.kind == Idle
  {
    hide Balanced, ManagerCleared;
    ClearedSane(s, failure);
    BalancedSame(ManagerCleared(s, failure), Reset(s, failure, shown));
  }

  lemma SettleSane(s: State, radioPending: bool)
    requires Sane(s)
    ensures Sane(Settle(s, radioPending))
  {
    hide Sane, Balanced, RestInv, Finish, DeviceFor, Schedule;
    SaneRests(s);
    FinishSane(s, NoFailure, Connected);
    FinishSane(s, NoFailure, Disconnected);
    FinishSane(s, NoFailure, Unpaired);
  }

  lemma RefreshSane(s: State, snapshot: Option<Snapshot>, sameOwner: bool, radioPending: bool)
    requires Sane(s)
    ensures Sane(Refresh(s, snapshot, sameOwner, radioPending))
  {
    var begun := s.(scheduled := false);
    FlagsSane(s, begun);
    SaneRests(begun);
    if s.owner.Some? && snapshot.Some? {
      FlagsSane(begun, Take(begun, snapshot.value));
      hide Sane, Settle, Reset, Balanced, Take;
      SettleSane(Take(begun, snapshot.value), radioPending);
    } else {
      hide Sane, Reset, Balanced;
      ResetSane(begun, Backend, Backend);
    }
  }

  lemma ExpireSane(s: State, now: int)
    requires Sane(s)
    ensures Sane(Expire(s, now))
  {
    hide Remaining;
    assert s.devices == [] ==> Remaining(s.devices, now) == [] by { RemainingNone(now); }
    FlagsSane(s, Expire(s, now));
  }

  lemma DetachedBalanced(s: State)
    requires Balanced(s) && (s.owner.None? ==> !s.agent)
    ensures Balanced(DetachOwner(s)) && DetachOwner(s).owner.None? && !DetachOwner(s).agent
  {
    hide Balanced, ClearReply;
    var quiet := s.(scheduled := false, discoveryTimer := false, expiryTimer := false);
    var gone := quiet.(agent := false, owner := None);
    BalancedSame(s, quiet);
    BalancedSame(s, gone);
    ClearReplyBalanced(gone, true);
    ClearShape(gone, true);
  }

  lemma OwnerChangedSane(s: State, owner: Option<nat>, registered: bool)
    requires Sane(s)
    ensures Sane(OwnerChanged(s, owner, registered))
  {
    SaneRests(s);
    DetachedBalanced(s);
    hide Sane, Balanced, DetachOwner;
    var shown := if owner.None? then Unavailable else NoFailure;
    ResetSane(DetachOwner(s), OwnerReplaced, shown);
    var failed := Reset(DetachOwner(s), OwnerReplaced, shown);
    assert failed.owner.None? by { ResetOwner(DetachOwner(s), OwnerReplaced, shown); }
    hide Reset;
    if owner.Some? {
      OwnedSane(failed, owner, registered);
    }
  }

  lemma ResetOwner(s: State, failure: Failure, shown: Failure)
    ensures Reset(s, failure, shown).owner == s.owner
  {
  }

  lemma OwnedSane(s: State, owner: Option<nat>, registered: bool)
    requires Sane(s) && s.owner.None? && s.operation.kind == Idle && owner.Some?
    ensures Sane(Schedule(s.(owner := owner, agent := registered)))
  {
    hide Balanced;
    BalancedSame(s, Schedule(s.(owner := owner, agent := registered)));
  }

  // ---- Every event and every run ----

  lemma StepSane(s: State, event: Event)
    requires Sane(s) && Asking(event)
    ensures Sane(Apply(s, event))
  {
    hide Sane, SetInterest, StartDiscovery, StopDiscovery, CancelPairing, TurnOff, Pair, Act, Respond, Finished,
      AgentPrompt, AgentDisplay, Finish, AgentReleased, Expire, Refresh, OwnerChanged, Balanced, RestInv;
    match event {
      case Interest(interested, generation) => SetInterestSane(s, interested, generation);
      case Scan(generation, started) => StartSane(s, generation, started);
      case StopScan(generation) => StopSane(s, generation, Stopped);
      case Cancel(generation) => CancelSane(s, generation);
      case RadioOff(generation) => TurnOffSane(s, generation);
      case PairWith(token, generation) => PairSane(s, token, generation);
      case ActOn(kind, token, generation) => ActSane(s, kind, token, generation);
      case Responded(generation, accepted, response) => RespondSane(s, generation, accepted, response);
      case CallFinished(call, reply, trusted) => FinishedSane(s, call, reply, trusted);
      case Prompted(prompt, path, value, entered, message) => PromptSane(s, prompt, path, value, entered, message);
      case Displayed(prompt, path, value, entered) => DisplaySane(s, prompt, path, value, entered);
      case AgentCancelled =>
        SaneRests(s);
        FinishSane(s, Cancelled, WasCancelled);
      case AgentGone => GoneSane(s);
      case DiscoveryTimeout(generation) => StopSane(s, generation, Expired);
      case ExpiryTimeout(now) => ExpireSane(s, now);
      case Refreshed(snapshot, sameOwner, radioPending) => RefreshSane(s, snapshot, sameOwner, radioPending);
      case NewOwner(owner, registered) => OwnerChangedSane(s, owner, registered);
    }
  }

  lemma {:induction false} RunSane(s: State, events: seq<Event>)
    requires Sane(s) && forall i :: 0 <= i < |events| ==> Asking(events[i])
    ensures Sane(Run(s, events))
    decreases |events|
  {
    hide Sane, Apply, Asking;
    if events != [] {
      StepSane(s, events[0]);
      RunSane(Apply(s, events[0]), events[1..]);
    }
  }

  // Whatever the generations and replies: every prompt of the agent is answered once, dropped with the
  // pairing call that ended, or still held while the pairing goes on.
  lemma PromptsAnsweredAtMostOnce(events: seq<Event>, message: nat)
    requires forall i :: 0 <= i < |events| ==> Asking(events[i])
    ensures var s := Run(INITIAL, events);
      && s.answered[message] + s.dropped[message] + (if s.held == Some(message) then 1 else 0) == s.received[message]
      && (s.held.Some? ==> s.operation.kind == Pairing && s.operation.prompt != NoPrompt)
  {
    assert Sane(INITIAL);
    RunSane(INITIAL, events);
  }
}
