/**
  * What holds over all interleavings: prompts live only while pairing, discovery only while
  * idle or discovering, a pairing always has its call outstanding, replies act only on the
  * operation they were made for, and every prompt is answered at most once.
  */
module BluetoothSafety {
  import opened Basics
  import opened BluetoothList
  import opened BluetoothModel

  ghost predicate PromptInv(s: State) {
    && (s.operation.kind != Pairing ==>
          s.held.None? && s.operation.prompt == NoPrompt && s.operation.value == "" && s.operation.entered == 0)
    && (s.held.Some? ==> s.operation.prompt != NoPrompt)
    && |s.operation.value| <= MAX_VALUE && 0 <= s.operation.entered <= MAX_VALUE
    && (s.owner.None? ==> s.held.None?)
  }

  ghost predicate DiscoveryInv(s: State) {
    && (s.active ==> s.operation.kind == Idle || s.operation.kind == Discovering)
    && (s.operation.kind == Discovering ==> s.active)
    && (s.discoveryTimer <==> s.active)
    && (!s.active ==> s.discoveryAdapters == [])
    && (s.operation.kind == Idle || s.operation.kind == Discovering ==> s.operation.token == 0)
    && (s.owner.None? ==> s.operation.kind == Idle && !s.active && !s.agent && s.devices == [])
  }

  // The call made for the operation under way.
  ghost predicate Own(s: State, c: Call) {
    c.serial == s.serial
  }

  ghost predicate CallsInv(s: State) {
    && (forall c :: c in s.calls ==> c.serial <= s.serial)
    && (forall c, d :: c in s.calls && d in s.calls && c.serial == d.serial ==> c == d)
    && (forall c :: c in s.calls && Relevant(s, c) && s.operation.kind != Idle ==> Own(s, c))
    && (forall c :: c in s.calls ==> c.kind != Idle && c.kind != Discovering)
    && (s.operation.kind == Pairing ==> exists c :: c in s.calls && Own(s, c) && Relevant(s, c))
  }

  ghost predicate Balanced(s: State) {
    forall m :: s.received[m] == s.answered[m] + s.dropped[m] + (if s.held == Some(m) then 1 else 0)
  }

  ghost predicate Inv(s: State) {
    PromptInv(s) && DiscoveryInv(s) && CallsInv(s) && Balanced(s)
  }

  // ---- Steps that end things ----

  lemma ClearReplyBalanced(s: State, reject: bool)
    requires Balanced(s)
    ensures Balanced(ClearReply(s, reject)) && ClearReply(s, reject).held.None?
  {
    var t := ClearReply(s, reject);
    forall m
      ensures t.received[m] == t.answered[m] + t.dropped[m] + (if t.held == Some(m) then 1 else 0)
    {
      assert s.received[m] == s.answered[m] + s.dropped[m] + (if s.held == Some(m) then 1 else 0);
    }
  }

  lemma IdleCalls(s: State, t: State)
    requires CallsInv(s) && t.operation.kind == Idle && t.calls <= s.calls && t.serial == s.serial
    ensures CallsInv(t)
  {
  }

  // t is s with its operation over; s may already be inconsistent about the operation.
  ghost predicate Resting(s: State, t: State) {
    && t.operation.kind == Idle && t.operation.prompt == NoPrompt && t.operation.value == ""
    && t.operation.entered == 0 && t.operation.token == 0 && t.held.None?
    && t.calls == s.calls && t.serial == s.serial && t.owner == s.owner && t.agent == s.agent
    && t.active == s.active && t.discoveryTimer == s.discoveryTimer && t.discoveryAdapters == s.discoveryAdapters
    && t.devices == s.devices
  }

  ghost predicate RestInv(s: State) {
    && (s.active <==> s.discoveryTimer) && (!s.active ==> s.discoveryAdapters == [])
    && (s.owner.None? ==> !s.active && !s.agent && s.devices == [])
  }

  lemma FinishRests(s: State, failure: Failure, result: Outcome)
    ensures Resting(s, Finish(s, failure, result))
  {
  }

  lemma FinishBalanced(s: State, failure: Failure, result: Outcome)
    requires Balanced(s)
    ensures Balanced(Finish(s, failure, result))
  {
    hide Balanced;
    ClearReplyBalanced(s, failure != NoFailure);
    BalancedSame(ClearReply(s, failure != NoFailure), Finish(s, failure, result));
  }

  lemma RestingKeeps(s: State, t: State)
    requires Resting(s, t) && Balanced(t) && CallsInv(s) && RestInv(s)
    ensures Inv(t)
  {
    hide Balanced;
    assert CallsInv(t) by { IdleCalls(s, t); }
    hide CallsInv;
  }

  lemma FinishKeeps(s: State, failure: Failure, result: Outcome)
    requires Balanced(s) && CallsInv(s) && RestInv(s)
    ensures Inv(Finish(s, failure, result))
  {
    hide Balanced, CallsInv, RestInv, Resting, Inv, Finish;
    FinishRests(s, failure, result);
    FinishBalanced(s, failure, result);
    RestingKeeps(s, Finish(s, failure, result));
  }

  lemma BalancedSame(s: State, t: State)
    requires Balanced(s) && t.held == s.held && t.received == s.received && t.answered == s.answered
    requires t.dropped == s.dropped
    ensures Balanced(t)
  {
  }

  lemma ScheduleKeeps(s: State)
    requires Inv(s)
    ensures Inv(Schedule(s))
  {
    hide Balanced, CallsInv;
    var t := Schedule(s);
    BalancedSame(s, t);
    SameOperation(s, t);
  }

  lemma StopKeeps(s: State, generation: int, result: Outcome)
    requires PromptInv(s) && Balanced(s) && CallsInv(s) && (s.active ==> s.discoveryTimer || s.operation.kind == Idle)
    requires s.active ==> s.operation.kind == Idle || s.operation.kind == Discovering
    requires s.active ==> s.operation.token == 0 && s.owner.Some?
    requires !s.active ==> DiscoveryInv(s)
    ensures Inv(StopDiscovery(s, generation, result))
  {
    hide Balanced;
    if s.active {
      var t := StopDiscovery(s, generation, result);
      BalancedSame(s, t);
      IdleCalls(s, t);
    }
  }

  lemma StopFromInv(s: State, generation: int, result: Outcome)
    requires Inv(s)
    ensures Inv(StopDiscovery(s, generation, result))
  {
    hide Balanced, CallsInv, PromptInv;
    StopKeeps(s, generation, result);
  }

  lemma CancelKeeps(s: State, generation: int)
    requires Inv(s)
    ensures Inv(CancelPairing(s, generation))
  {
    hide Balanced;
    if s.operation.kind == Pairing {
      var t := s.(operation := s.operation.(generation := generation));
      BalancedSame(s, t);
      FinishRenumbered(s, generation);
    }
  }

  lemma FinishRenumbered(s: State, generation: int)
    requires Inv(s) && s.operation.kind == Pairing
    ensures Inv(Finish(s.(operation := s.operation.(generation := generation)), Cancelled, WasCancelled))
  {
    hide Balanced, Finish, CallsInv;
    var t := s.(operation := s.operation.(generation := generation));
    BalancedSame(s, t);
    FinishBalanced(t, Cancelled, WasCancelled);
    FinishRests(t, Cancelled, WasCancelled);
    RestingKeeps(s, Finish(t, Cancelled, WasCancelled));
  }

  lemma SetInterestKeeps(s: State, interested: bool, generation: int)
    requires Inv(s)
    ensures Inv(SetInterest(s, interested, generation))
  {
    var t := s.(interest := interested);
    assert Inv(t);
    hide Inv, CancelPairing, StopDiscovery;
    if !interested {
      CancelKeeps(t, generation);
      StopFromInv(CancelPairing(t, generation), generation, WasCancelled);
    }
  }

  lemma TurnOffKeeps(s: State, generation: int)
    requires Inv(s)
    ensures Inv(TurnOff(s, generation))
  {
    hide Inv, CancelPairing, StopDiscovery;
    CancelKeeps(s, generation);
    StopFromInv(CancelPairing(s, generation), generation, WasCancelled);
  }

  lemma StartKeeps(s: State, generation: int, started: nat)
    requires Inv(s)
    ensures Inv(StartDiscovery(s, generation, started))
  {
    hide Balanced, Powered;
    if !(!s.interest || !s.available || !s.enabled || s.owner.None? || s.operation.kind != Idle) {
      var powered := Powered(s.adapters);
      var took := powered[..Min(started, |powered|)];
      if |took| != |powered| || took == [] {
        var t := s.(discoveryAdapters := took, active := true);
        BalancedSame(s, t);
        IdleCalls(s, t);
        StopKeeps(t, generation, Broken);
      } else {
        BalancedSame(s, StartDiscovery(s, generation, started));
      }
    }
  }

  // ---- Steps that begin things ----

  lemma BeginKeeps(s: State, kind: OperationKind, generation: int, token: int, path: Path)
    requires Inv(s) && s.operation.kind == Idle && !s.active && s.owner.Some?
    requires kind in {Pairing, Connecting, Disconnecting, Unpairing}
    requires forall c :: c in s.calls ==> c.generation != generation
    ensures var begun := Begin(s, kind, generation, token);
      Inv(begun.(calls := begun.calls
                          + {Call(s.owner.value, kind, false, path, generation, token, begun.serial)}))
  {
    hide Balanced;
    var begun := Begin(s, kind, generation, token);
    var call := Call(s.owner.value, kind, false, path, generation, token, begun.serial);
    var t := begun.(calls := begun.calls + {call});
    BalancedSame(s, t);
    assert Own(t, call) && Relevant(t, call);
  }

  lemma StoppedCalls(s: State, generation: int, result: Outcome)
    ensures var t := StopDiscovery(s, generation, result);
      t.calls == s.calls && t.owner == s.owner && t.devices == s.devices && !t.active
      && (s.operation.kind == Idle ==> t.operation.kind == Idle)
  {
  }

  lemma PairKeeps(s: State, token: int, generation: int)
    requires Inv(s) && forall c :: c in s.calls ==> c.generation != generation
    ensures Inv(Pair(s, token, generation))
  {
    hide Inv, StopDiscovery, DeviceFor, Begin;
    StopFromInv(s, generation, Replaced);
    StoppedCalls(s, generation, Replaced);
    var ready := Prepared(s, generation);
    var device := DeviceFor(ready.devices, token);
    if s.owner.Some? && device.Some? && ready.operation.kind == Idle {
      BeginKeeps(ready, Pairing, generation, token, device.value.path);
    }
  }

  lemma ActKeeps(s: State, kind: OperationKind, token: int, generation: int)
    requires Inv(s) && forall c :: c in s.calls ==> c.generation != generation
    ensures Inv(Act(s, kind, token, generation))
  {
    hide Inv, StopDiscovery, DeviceFor, Begin;
    StopFromInv(s, generation, Replaced);
    StoppedCalls(s, generation, Replaced);
    var ready := Prepared(s, generation);
    var device := DeviceFor(ready.devices, token);
    if s.owner.Some? && device.Some? && ready.operation.kind == Idle && ActionFor(ready, kind, device.value) {
      var path := if kind == Unpairing then device.value.adapterPath else device.value.path;
      BeginKeeps(ready, kind, generation, token, path);
    }
  }

  // ---- Replies ----

  lemma DroppedCall(s: State, c: Call)
    requires Inv(s) && c in s.calls && !(s.operation.kind == Pairing && Relevant(s, c))
    ensures Inv(s.(calls := s.calls - {c}))
  {
    hide Balanced;
    var t := s.(calls := s.calls - {c});
    BalancedSame(s, t);
    if s.operation.kind == Pairing {
      var d :| d in s.calls && Own(s, d) && Relevant(s, d);
      assert d != c && d in t.calls && Own(t, d) && Relevant(t, d);
    }
  }

  lemma FinishedKeeps(s: State, c: Call, reply: Reply, trusted: bool)
    requires Inv(s) && c in s.calls
    ensures Inv(Finished(s, c, reply, trusted))
  {
    hide Balanced, Finish, ClearReply;
    var done := s.(calls := s.calls - {c});
    if !Relevant(s, c) || c.kind != Pairing {
      DroppedCall(s, c);
      if Relevant(s, c) {
        FinishAny(done, reply);
        ScheduleKeeps(done);
      }
    } else {
      BalancedSame(s, done);
      PairingReply(s, c, done, reply, trusted);
    }
  }

  lemma FinishAny(s: State, reply: Reply)
    requires Inv(s)
    ensures reply.Refused? ==> Inv(Finish(s, reply.failure, NoResult))
  {
    hide Balanced, Finish, CallsInv;
    if reply.Refused? {
      FinishKeeps(s, reply.failure, NoResult);
    }
  }

  // What is left once the call of a pairing is taken out.
  ghost predicate Unowned(s: State) {
    && Balanced(s) && PromptInv(s) && DiscoveryInv(s) && s.operation.kind == Pairing
    && (forall c :: c in s.calls ==> c.serial < s.serial && c.kind != Idle && c.kind != Discovering)
    && (forall c, d :: c in s.calls && d in s.calls && c.serial == d.serial ==> c == d)
    && (forall c :: c in s.calls ==> !Relevant(s, c))
  }

  lemma TakenOut(s: State, c: Call)
    requires Inv(s) && c in s.calls && Relevant(s, c) && s.operation.kind == Pairing
    ensures Unowned(s.(calls := s.calls - {c}))
  {
    var t := s.(calls := s.calls - {c});
    forall d | d in t.calls
      ensures d.serial < s.serial && !Relevant(t, d)
    {
      assert Own(s, c) && d != c;
    }
  }

  lemma UnownedCalls(s: State, t: State)
    requires Unowned(s) && Resting(s, t) && Balanced(t)
    ensures Inv(t)
  {
    hide Balanced;
    var u := s.(operation := s.operation.(kind := Idle));
    assert CallsInv(u);
    assert Resting(u, t) && RestInv(u);
    RestingKeeps(u, t);
  }

  lemma FinishUnowned(s: State, failure: Failure, result: Outcome)
    requires Unowned(s)
    ensures Inv(Finish(s, failure, result)) && Inv(Schedule(Finish(s, failure, result)))
  {
    assert Balanced(s);
    hide Balanced, Unowned, Finish, Inv, Schedule, Resting;
    FinishRests(s, failure, result);
    FinishBalanced(s, failure, result);
    UnownedCalls(s, Finish(s, failure, result));
    ScheduleKeeps(Finish(s, failure, result));
  }

  ghost predicate SameButPrompt(s: State, t: State) {
    && t == s.(operation := t.operation, held := t.held, received := t.received, answered := t.answered,
               dropped := t.dropped)
    && t.operation == s.operation.(prompt := t.operation.prompt, value := t.operation.value,
                                   entered := t.operation.entered)
  }

  lemma ClearShape(s: State, reject: bool)
    ensures var t := ClearReply(s, reject);
      SameButPrompt(s, t) && t.held.None? && t.operation.prompt == NoPrompt && t.operation.value == ""
      && t.operation.entered == 0
  {
  }

  lemma ClearUnowned(s: State)
    requires Unowned(s)
    ensures Unowned(ClearReply(s, false))
  {
    hide Balanced, ClearReply;
    ClearReplyBalanced(s, false);
    ClearShape(s, false);
  }

  lemma ConnectNext(s: State, c: Call)
    requires Unowned(s) && Relevant(s, c) && c.serial == s.serial && c.kind == Pairing
    ensures Inv(s.(calls := s.calls + {c.(connecting := true)}))
  {
    hide Balanced;
    var next := c.(connecting := true);
    var t := s.(calls := s.calls + {next});
    BalancedSame(s, t);
    assert next in t.calls && Own(t, next) && Relevant(t, next);
  }

  lemma PairingReply(s: State, c: Call, done: State, reply: Reply, trusted: bool)
    requires Inv(s) && c in s.calls && Relevant(s, c) && c.kind == Pairing && done == s.(calls := s.calls - {c})
    ensures Inv(Finished(s, c, reply, trusted))
  {
    TakenOut(s, c);
    ClearUnowned(done);
    assert c.serial == s.serial;
    hide Inv, Unowned, Finish, ClearReply, Schedule;
    var cleared := ClearReply(done, false);
    if c.connecting {
      if reply.Refused? {
        FinishUnowned(done, ConnectionFailed, Paired);
      } else {
        FinishUnowned(done, NoFailure, PairedConnected);
      }
    } else if reply.Refused? {
      FinishUnowned(cleared, reply.failure, NoResult);
    } else if !trusted {
      FinishUnowned(cleared, TrustFailed, Paired);
    } else {
      assert Relevant(cleared, c) && c.serial == cleared.serial by { ClearFrame(done, false, c); }
      ConnectNext(cleared, c);
    }
  }

  lemma ClearFrame(s: State, reject: bool, c: Call)
    ensures Relevant(ClearReply(s, reject), c) <==> Relevant(s, c)
    ensures ClearReply(s, reject).serial == s.serial && ClearReply(s, reject).calls == s.calls
  {
  }

  // ---- The agent ----

  lemma PromptKeeps(s: State, prompt: Prompt, path: Path, value: string, entered: nat, message: nat)
    requires Inv(s) && prompt != NoPrompt
    ensures Inv(AgentPrompt(s, prompt, path, value, entered, message))
  {
    var t := AgentPrompt(s, prompt, path, value, entered, message);
    PromptShape(s, prompt, path, value, entered, message);
    PromptBalanced(s, prompt, path, value, entered, message);
    SameOperation(s, t);
    hide AgentPrompt, CallsInv, Balanced;
  }

  lemma ShownShape(s: State, prompt: Prompt, value: string, entered: nat)
    ensures var t := Shown(s, prompt, value, entered);
      && t.(operation := s.operation) == s
      && t.operation.kind == s.operation.kind && t.operation.generation == s.operation.generation
      && t.operation.token == s.operation.token && t.operation.prompt == prompt
      && |t.operation.value| <= MAX_VALUE && 0 <= t.operation.entered <= MAX_VALUE
  {
  }

  ghost predicate SameMachine(s: State, t: State) {
    && t.operation.kind == s.operation.kind && t.operation.generation == s.operation.generation
    && t.operation.token == s.operation.token && t.owner == s.owner && t.agent == s.agent && t.calls == s.calls
    && t.serial == s.serial && t.active == s.active && t.discoveryTimer == s.discoveryTimer
    && t.discoveryAdapters == s.discoveryAdapters && t.devices == s.devices
  }

  lemma PromptShape(s: State, prompt: Prompt, path: Path, value: string, entered: nat, message: nat)
    requires PromptInv(s) && DiscoveryInv(s) && prompt != NoPrompt
    ensures var t := AgentPrompt(s, prompt, path, value, entered, message); SameMachine(s, t) && PromptInv(t)
  {
    hide DeviceFor, Shown;
    ShownShape(s.(received := s.received + multiset{message}), prompt, value, entered);
  }

  lemma PromptBalanced(s: State, prompt: Prompt, path: Path, value: string, entered: nat, message: nat)
    requires Balanced(s)
    ensures Balanced(AgentPrompt(s, prompt, path, value, entered, message))
  {
    hide ForTarget, Balanced, Shown;
    var asked := s.(received := s.received + multiset{message});
    ShownShape(asked, prompt, value, entered);
    if s.held.None? {
      HeldBalanced(s, asked.(held := Some(message)), message);
      BalancedSame(asked.(held := Some(message)), Shown(asked, prompt, value, entered).(held := Some(message)));
    }
    RejectedBalanced(s, asked.(answered := s.answered + multiset{message}), message);
  }

  lemma HeldBalanced(s: State, t: State, message: nat)
    requires Balanced(s) && s.held.None? && t.held == Some(message)
    requires t.received == s.received + multiset{message} && t.answered == s.answered && t.dropped == s.dropped
    ensures Balanced(t)
  {
  }

  lemma RejectedBalanced(s: State, t: State, message: nat)
    requires Balanced(s) && t.held == s.held
    requires t.received == s.received + multiset{message} && t.answered == s.answered + multiset{message}
    requires t.dropped == s.dropped
    ensures Balanced(t)
  {
    forall m
      ensures t.received[m] == t.answered[m] + t.dropped[m] + (if t.held == Some(m) then 1 else 0)
    {
      assert s.received[m] == s.answered[m] + s.dropped[m] + (if s.held == Some(m) then 1 else 0);
    }
  }

  // Prompts and displays do not touch the calls.
  lemma SameOperation(s: State, t: State)
    requires CallsInv(s) && t.calls == s.calls && t.serial == s.serial && t.owner == s.owner
    requires t.operation.kind == s.operation.kind && t.operation.generation == s.operation.generation
    requires t.operation.token == s.operation.token
    ensures CallsInv(t)
  {
    if s.operation.kind == Pairing {
      var c :| c in s.calls && Own(s, c) && Relevant(s, c);
      assert c in t.calls && Own(t, c) && Relevant(t, c);
    }
  }

  lemma DisplayShape(s: State, prompt: Prompt, path: Path, value: string, entered: nat)
    requires PromptInv(s) && DiscoveryInv(s) && prompt != NoPrompt
    ensures var t := AgentDisplay(s, prompt, path, value, entered);
      SameMachine(s, t) && PromptInv(t) && t.held == s.held && t.received == s.received
      && t.answered == s.answered && t.dropped == s.dropped
  {
    hide DeviceFor, Shown;
    ShownShape(s, prompt, value, entered);
  }

  lemma DisplayKeeps(s: State, prompt: Prompt, path: Path, value: string, entered: nat)
    requires Inv(s) && prompt != NoPrompt
    ensures Inv(AgentDisplay(s, prompt, path, value, entered))
  {
    var t := AgentDisplay(s, prompt, path, value, entered);
    DisplayShape(s, prompt, path, value, entered);
    hide Balanced, AgentDisplay;
    BalancedSame(s, t);
    SameOperation(s, t);
    hide CallsInv;
  }

  lemma RespondKeeps(s: State, generation: int, accepted: bool, response: Response)
    requires Inv(s)
    ensures Inv(Respond(s, generation, accepted, response))
  {
    var t := Respond(s, generation, accepted, response);
    forall m
      ensures t.received[m] == t.answered[m] + t.dropped[m] + (if t.held == Some(m) then 1 else 0)
    {
      assert s.received[m] == s.answered[m] + s.dropped[m] + (if s.held == Some(m) then 1 else 0);
    }
    SameOperation(s, t);
  }

  lemma GoneKeeps(s: State)
    requires Inv(s)
    ensures Inv(AgentReleased(s))
  {
    hide Balanced, CallsInv, ClearReply, Finish;
    ClearReplyBalanced(s, true);
    ClearShape(s, true);
    var t := ClearReply(s, true).(agent := false);
    BalancedSame(ClearReply(s, true), t);
    SameOperation(s, t);
    FinishKeeps(t, Backend, NoResult);
  }

  // ---- Refreshes and owners ----

  lemma ClearedKeeps(s: State, failure: Failure)
    requires Balanced(s) && CallsInv(s) && (s.owner.None? ==> !s.agent)
    ensures Inv(ManagerCleared(s, failure))
  {
    hide Balanced, CallsInv, ClearReply;
    var t := s.(discoveryTimer := false, expiryTimer := false, active := false, discoveryAdapters := [],
                devices := [], adapters := []);
    BalancedSame(s, t);
    ClearReplyBalanced(t, true);
    ClearShape(t, true);
    var cleared := ManagerCleared(s, failure);
    BalancedSame(ClearReply(t, true), cleared);
    SameOperation(s, t);
    RestingKeeps(t, cleared);
  }

  lemma FlagsKeep(s: State, t: State)
    requires Inv(s) && t.operation == s.operation && t.calls == s.calls && t.serial == s.serial && t.owner == s.owner
    requires t.held == s.held && t.received == s.received && t.answered == s.answered && t.dropped == s.dropped
    requires t.active == s.active && t.discoveryTimer == s.discoveryTimer
    requires t.discoveryAdapters == s.discoveryAdapters && t.agent == s.agent
    requires s.owner.Some? || t.devices == []
    ensures Inv(t)
  {
    hide Balanced;
    BalancedSame(s, t);
    SameOperation(s, t);
  }

  lemma RefreshKeeps(s: State, snapshot: Option<Snapshot>, sameOwner: bool, radioPending: bool)
    requires Inv(s)
    ensures Inv(Refresh(s, snapshot, sameOwner, radioPending))
  {
    hide ManagerCleared, Settle, Take, Balanced, CallsInv, PromptInv;
    var begun := s.(scheduled := false);
    FlagsKeep(s, begun);
    if s.owner.Some? && snapshot.None? {
      FailedRefresh(begun);
    } else if s.owner.Some? && sameOwner {
      TakeKeeps(begun, snapshot.value);
      SettleKeeps(Take(begun, snapshot.value), radioPending);
    }
  }

  lemma TakeKeeps(s: State, snapshot: Snapshot)
    requires Inv(s) && s.owner.Some?
    ensures Inv(Take(s, snapshot))
  {
    hide Inv;
    FlagsKeep(s, Take(s, snapshot));
  }

  lemma SettleKeeps(s: State, radioPending: bool)
    requires Inv(s)
    ensures Inv(Settle(s, radioPending))
  {
    hide Inv, Finish, DeviceFor;
    SettledKeeps(s);
  }

  lemma FailedRefresh(s: State)
    requires Inv(s)
    ensures Inv(Reset(s, Backend, Backend))
  {
    hide ManagerCleared, Balanced, CallsInv;
    ClearedKeeps(s, Backend);
    var cleared := ManagerCleared(s, Backend);
    assert cleared.operation.kind == Idle by { ClearedIdle(s, Backend); }
    RenamedFailure(cleared, Reset(s, Backend, Backend));
  }

  lemma ClearedIdle(s: State, failure: Failure)
    ensures ManagerCleared(s, failure).operation.kind == Idle
  {
  }

  lemma SettledKeeps(s: State)
    requires Inv(s)
    ensures Inv(Finish(s, NoFailure, Connected)) && Inv(Finish(s, NoFailure, Disconnected))
    ensures Inv(Finish(s, NoFailure, Unpaired))
  {
    hide Finish, Balanced, CallsInv;
    FinishKeeps(s, NoFailure, Connected);
    FinishKeeps(s, NoFailure, Disconnected);
    FinishKeeps(s, NoFailure, Unpaired);
  }

  lemma ExpireKeeps(s: State, now: int)
    requires Inv(s)
    ensures Inv(Expire(s, now))
  {
    hide Remaining;
    assert s.devices == [] ==> Remaining(s.devices, now) == [] by { RemainingNone(now); }
    FlagsKeep(s, Expire(s, now));
  }

  lemma RemainingNone(now: int)
    ensures Remaining([], now) == []
  {
  }

  // Detached: nothing is left of the owner, but the operation is not reset yet.
  lemma DetachedIs(s: State)
    requires Inv(s)
    ensures var t := DetachOwner(s);
      Balanced(t) && t.calls == s.calls && t.serial == s.serial && t.owner.None? && !t.agent
      && t.operation.kind == s.operation.kind
  {
    hide Balanced, ClearReply;
    var quiet := s.(scheduled := false, discoveryTimer := false, expiryTimer := false);
    var gone := quiet.(agent := false, owner := None);
    BalancedSame(s, quiet);
    BalancedSame(s, gone);
    ClearReplyBalanced(gone, true);
    ClearShape(gone, true);
  }

  lemma ResetInv(s: State, t: State, failure: Failure)
    requires CallsInv(s) && Balanced(t) && t.calls == s.calls && t.serial == s.serial && t.owner.None? && !t.agent
    ensures var u := ManagerCleared(t, failure); Inv(u) && u.owner.None? && u.operation.kind == Idle
  {
    hide Balanced, ClearReply;
    var rest := t.(operation := NO_OPERATION, discoveryTimer := false, expiryTimer := false, active := false,
                   discoveryAdapters := [], devices := [], adapters := []);
    var v := t.(discoveryTimer := false, expiryTimer := false, active := false, discoveryAdapters := [],
                devices := [], adapters := []);
    BalancedSame(t, v);
    ClearReplyBalanced(v, true);
    ClearShape(v, true);
    var u := ManagerCleared(t, failure);
    BalancedSame(ClearReply(v, true), u);
    IdleCalls(s, rest);
    hide CallsInv;
    RestingKeeps(rest, u);
  }

  lemma OwnerChangedKeeps(s: State, owner: Option<nat>, registered: bool)
    requires Inv(s)
    ensures Inv(OwnerChanged(s, owner, registered))
  {
    hide Balanced, CallsInv, DetachOwner, ManagerCleared, PromptInv, DiscoveryInv;
    DetachedIs(s);
    var cleared := ManagerCleared(DetachOwner(s), OwnerReplaced);
    ResetInv(s, DetachOwner(s), OwnerReplaced);
    var failed := Reset(DetachOwner(s), OwnerReplaced, if owner.None? then Unavailable else NoFailure);
    RenamedFailure(cleared, failed);
    if owner.Some? {
      OwnedKeeps(failed, owner, registered);
    }
  }

  lemma OwnedKeeps(s: State, owner: Option<nat>, registered: bool)
    requires Inv(s) && s.owner.None? && s.operation.kind == Idle && owner.Some?
    ensures Inv(Schedule(s.(owner := owner, agent := registered)))
  {
    hide Balanced;
    var t := Schedule(s.(owner := owner, agent := registered));
    BalancedSame(s, t);
    IdleCalls(s, t);
    hide CallsInv;
  }

  lemma RenamedFailure(s: State, t: State)
    requires Inv(s) && s.operation.kind == Idle
    requires t == s.(available := t.available, enabled := t.enabled,
                     operation := s.operation.(failure := t.operation.failure))
    ensures Inv(t)
  {
    hide Balanced;
    BalancedSame(s, t);
    IdleCalls(s, t);
  }

  // ---- Every event and every run ----

  lemma StepKeeps(s: State, event: Event)
    requires Inv(s) && Permitted(s, event)
    ensures Inv(Apply(s, event))
  {
    hide Inv, SetInterest, StartDiscovery, StopDiscovery, CancelPairing, TurnOff, Pair, Act, Respond, Finished,
      AgentPrompt, AgentDisplay, Finish, AgentReleased, Expire, Refresh, OwnerChanged;
    match event {
      case Interest(interested, generation) => SetInterestKeeps(s, interested, generation);
      case Scan(generation, started) => StartKeeps(s, generation, started);
      case StopScan(generation) => StopFromInv(s, generation, Stopped);
      case Cancel(generation) => CancelKeeps(s, generation);
      case RadioOff(generation) => TurnOffKeeps(s, generation);
      case PairWith(token, generation) => PairKeeps(s, token, generation);
      case ActOn(kind, token, generation) => ActKeeps(s, kind, token, generation);
      case Responded(generation, accepted, response) => RespondKeeps(s, generation, accepted, response);
      case CallFinished(call, reply, trusted) =>
        if call in s.calls {
          FinishedKeeps(s, call, reply, trusted);
        }
      case Prompted(prompt, path, value, entered, message) => PromptKeeps(s, prompt, path, value, entered, message);
      case Displayed(prompt, path, value, entered) => DisplayKeeps(s, prompt, path, value, entered);
      case AgentCancelled => CancelledKeeps(s);
      case AgentGone => GoneKeeps(s);
      case DiscoveryTimeout(generation) => StopFromInv(s, generation, Expired);
      case ExpiryTimeout(now) => ExpireKeeps(s, now);
      case Refreshed(snapshot, sameOwner, radioPending) => RefreshKeeps(s, snapshot, sameOwner, radioPending);
      case NewOwner(owner, registered) => OwnerChangedKeeps(s, owner, registered);
    }
  }

  lemma CancelledKeeps(s: State)
    requires Inv(s)
    ensures Inv(Finish(s, Cancelled, WasCancelled))
  {
    hide Balanced, CallsInv, Finish;
    FinishKeeps(s, Cancelled, WasCancelled);
  }

  lemma {:induction false} RunKeeps(s: State, events: seq<Event>)
    requires Inv(s) && AllPermitted(s, events)
    ensures Inv(Run(s, events))
    decreases |events|
  {
    if events != [] {
      hide Inv, Permitted, Apply;
      StepKeeps(s, events[0]);
      RunKeeps(Apply(s, events[0]), events[1..]);
    }
  }

  // Every reachable state keeps all of it.
  lemma ReachableIsSafe(events: seq<Event>)
    requires AllPermitted(INITIAL, events)
    ensures Inv(Run(INITIAL, events))
  {
    assert Inv(INITIAL);
    RunKeeps(INITIAL, events);
  }

  // A reply to a call of another operation, or of another owner, changes nothing at all.
  lemma SupersededReply(s: State, c: Call, reply: Reply, trusted: bool)
    requires Inv(s) && c in s.calls && (c.serial != s.serial || s.owner != Some(c.owner))
    ensures Finished(s, c, reply, trusted) == s.(calls := s.calls - {c})
  {
    if s.operation.kind == Idle {
      assert c.kind != Idle;
    }
  }

  // A pairing always has exactly one call outstanding that can still act on it, and at most
  // two replies to it end the operation.
  lemma PairingEnds(s: State, c: Call, reply: Reply, trusted: bool)
    requires Inv(s) && s.operation.kind == Pairing && c in s.calls
    ensures exists d :: d in s.calls && Own(s, d)
    ensures var t := Finished(s, c, reply, trusted);
      if !Own(s, c) then t == s.(calls := s.calls - {c})
      else if c.connecting || reply.Refused? || !trusted then t.operation.kind == Idle && t.held.None?
      else c.(connecting := true) in t.calls && t.operation.kind == Pairing && t.held.None?
  {
    var d :| d in s.calls && Own(s, d) && Relevant(s, d);
    if Own(s, c) {
      assert c == d;
      hide Inv;
      OwnReply(s, c, reply, trusted);
    } else {
      hide Finished;
      SupersededReply(s, c, reply, trusted);
    }
  }

  lemma OwnReply(s: State, c: Call, reply: Reply, trusted: bool)
    requires s.operation.kind == Pairing && c in s.calls && Relevant(s, c)
    ensures var t := Finished(s, c, reply, trusted);
      if c.connecting || reply.Refused? || !trusted then t.operation.kind == Idle && t.held.None?
      else c.(connecting := true) in t.calls && t.operation.kind == Pairing && t.held.None?
  {
    assert c.kind == Pairing;
    hide Finish, ClearReply, Relevant, Resting;
    var done := s.(calls := s.calls - {c});
    if c.connecting {
      RestedEnds(done, ConnectionFailed, Paired);
      RestedEnds(done, NoFailure, PairedConnected);
    } else {
      var cleared := ClearReply(done, false);
      ClearedStill(done);
      if reply.Refused? {
        RestedEnds(cleared, reply.failure, NoResult);
      } else {
        RestedEnds(cleared, TrustFailed, Paired);
      }
    }
  }

  lemma RestedEnds(s: State, failure: Failure, result: Outcome)
    ensures var t := Finish(s, failure, result);
      t.operation.kind == Idle && t.held.None?
      && Schedule(t).operation.kind == Idle && Schedule(t).held.None?
  {
    hide Finish;
    FinishRests(s, failure, result);
  }

  lemma ClearedStill(s: State)
    ensures var t := ClearReply(s, false); t.held.None? && t.operation.kind == s.operation.kind
  {
    hide ClearReply;
    ClearShape(s, false);
  }

  // The held prompt is answered exactly by a rejection, or by a valid acceptance while it is
  // still the prompt shown; a display that came meanwhile leaves only the rejection.
  lemma ResponseExactly(s: State, generation: int, accepted: bool, response: Response, message: nat)
    requires Inv(s) && s.held == Some(message) && s.operation.generation == generation
    ensures var t := Respond(s, generation, accepted, response);
      t.held.None? <==> !accepted || Valid(s.operation.prompt, response)
    ensures accepted && s.operation.prompt in {DisplayPin, DisplayPasskey} ==>
              Respond(s, generation, accepted, response) == s
  {
  }
}
