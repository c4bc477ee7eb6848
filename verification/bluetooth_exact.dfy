/**
  * What each event makes of the operation, the calls and the prompts, told from the device
  * list, without the steps the machine takes.
  */
module BluetoothExact {
  import opened Basics
  import opened BluetoothList
  import opened BluetoothModel

  // ---- The target ----

  // `d` is the first device of the list with this token.
  ghost predicate IsFirst(devices: seq<Device>, token: int, d: Device) {
    exists i :: 0 <= i < |devices| && devices[i] == d && d.token == token
                && forall j :: 0 <= j < i ==> devices[j].token != token
  }

  ghost predicate IsListed(devices: seq<Device>, token: int) {
    exists i :: 0 <= i < |devices| && devices[i].token == token
  }

  ghost predicate IsConnected(devices: seq<Device>, token: int) {
    exists d :: IsFirst(devices, token, d) && d.connected
  }

  lemma {:induction false} DeviceForFirst(devices: seq<Device>, token: int, d: Device)
    ensures DeviceFor(devices, token) == Some(d) <==> IsFirst(devices, token, d)
    ensures DeviceFor(devices, token).Some? <==> IsListed(devices, token)
  {
    if devices != [] {
      var rest := devices[1..];
      DeviceForFirst(rest, token, d);
      if devices[0].token == token {
        assert IsFirst(devices, token, d) ==> d == devices[0];
        assert d == devices[0] ==> IsFirst(devices, token, d);
      } else {
        if i :| 0 <= i < |rest| && rest[i] == d && d.token == token
                && forall j :: 0 <= j < i ==> rest[j].token != token {
          assert devices[i + 1] == d;
          assert IsFirst(devices, token, d);
        }
        if i :| 0 <= i < |devices| && devices[i] == d && d.token == token
                && forall j :: 0 <= j < i ==> devices[j].token != token {
          assert rest[i - 1] == d;
          assert forall j :: 0 <= j < i - 1 ==> rest[j] == devices[j + 1];
          assert IsFirst(rest, token, d);
        }
        assert IsListed(devices, token) <==> IsListed(rest, token) by {
          assert forall i :: 0 <= i < |rest| ==> rest[i] == devices[i + 1];
        }
      }
    }
  }

  // ---- How an operation ends ----

  // The held prompt is answered when the operation failed, and dropped with its call
  // otherwise.
  ghost predicate Releases(s: State, t: State, answered: bool) {
    && t.held == None && t.received == s.received
    && (s.held.None? ==> t.answered == s.answered && t.dropped == s.dropped)
    && (s.held.Some? && answered ==> t.answered == s.answered + multiset{s.held.value} && t.dropped == s.dropped)
    && (s.held.Some? && !answered ==> t.answered == s.answered && t.dropped == s.dropped + multiset{s.held.value})
  }

  ghost predicate SameWorld(s: State, t: State) {
    && t.owner == s.owner && t.agent == s.agent && t.interest == s.interest && t.available == s.available
    && t.enabled == s.enabled && t.devices == s.devices && t.adapters == s.adapters
  }

  ghost predicate SameDiscovery(s: State, t: State) {
    && t.active == s.active && t.discoveryAdapters == s.discoveryAdapters && t.discoveryTimer == s.discoveryTimer
    && t.expiryTimer == s.expiryTimer
  }

  ghost predicate SameCalls(s: State, t: State) {
    t.serial == s.serial && t.calls == s.calls
  }

  ghost predicate SamePrompts(s: State, t: State) {
    t.held == s.held && t.received == s.received && t.answered == s.answered && t.dropped == s.dropped
  }

  // Nothing but the operation and its prompt is touched.
  ghost predicate Ends(s: State, t: State, generation: int, failure: Failure, result: Outcome) {
    && t.operation == Operation(Idle, failure, result, NoPrompt, "", 0, generation, 0)
    && Releases(s, t, failure != NoFailure)
    && SameButPrompt(s, t)
  }

  ghost predicate SameButPrompt(s: State, t: State) {
    SameWorld(s, t) && SameDiscovery(s, t) && SameCalls(s, t) && t.scheduled == s.scheduled
  }

  lemma ClearReplyReleases(s: State, reject: bool)
    ensures Releases(s, ClearReply(s, reject), reject)
    ensures ClearReply(s, reject).operation == s.operation.(prompt := NoPrompt, value := "", entered := 0)
  {
  }

  lemma ClearReplySame(s: State, reject: bool)
    ensures SameButPrompt(s, ClearReply(s, reject))
  {
  }

  lemma FinishSame(s: State, failure: Failure, result: Outcome)
    ensures var c, t := ClearReply(s, failure != NoFailure), Finish(s, failure, result);
      && SameButPrompt(c, t) && SamePrompts(c, t)
      && t.operation == c.operation.(kind := Idle, failure := failure, result := result, token := 0)
  {
    hide ClearReply;
  }

  lemma FinishEnds(s: State, failure: Failure, result: Outcome)
    ensures Ends(s, Finish(s, failure, result), s.operation.generation, failure, result)
  {
    ClearReplyReleases(s, failure != NoFailure);
    ClearReplySame(s, failure != NoFailure);
    FinishSame(s, failure, result);
    hide ClearReply, Finish;
  }

  // ---- Refreshes ----

  // The result an operation has come to, when these devices are there.
  ghost predicate Achieved(kind: OperationKind, devices: seq<Device>, token: int, result: Outcome) {
    || (kind == Connecting && IsConnected(devices, token) && result == Connected)
    || (kind == Disconnecting && !IsConnected(devices, token) && result == Disconnected)
    || (kind == Unpairing && !IsListed(devices, token) && result == Unpaired)
  }

  ghost predicate Takes(s: State, t: State, snapshot: Snapshot) {
    && t.devices == snapshot.devices && t.adapters == snapshot.adapters && !t.scheduled
    && (t.available <==> |snapshot.adapters| > 0)
    && (t.enabled <==> exists i :: 0 <= i < |snapshot.adapters| && snapshot.adapters[i].powered)
    && t.owner == s.owner && t.agent == s.agent && t.interest == s.interest
    && SameDiscovery(s, t) && SameCalls(s, t)
  }

  lemma TakeTakes(s: State, snapshot: Snapshot)
    ensures var t := Take(s.(scheduled := false), snapshot);
      Takes(s, t, snapshot) && t.operation == s.operation && SamePrompts(s, t)
  {
  }

  lemma SettleIs(s: State, radioPending: bool, result: Outcome)
    ensures var t := Settle(s, radioPending);
      var waits := radioPending && !s.available;
      var token := s.operation.token;
      && (!waits && Achieved(s.operation.kind, s.devices, token, result) ==>
            Ends(s, t, s.operation.generation, NoFailure, result))
      && (waits || (forall r :: !Achieved(s.operation.kind, s.devices, token, r)) ==> t == s)
  {
    var token := s.operation.token;
    TargetIs(s.devices, token);
    hide DeviceFor, IsConnected, IsListed, Ends, Finish;
    FinishEnds(s, NoFailure, result);
    var target := DeviceFor(s.devices, token);
    assert target.Some? && target.value.connected ==> Achieved(Connecting, s.devices, token, Connected);
    assert target.None? || !target.value.connected ==> Achieved(Disconnecting, s.devices, token, Disconnected);
    assert target.None? ==> Achieved(Unpairing, s.devices, token, Unpaired);
  }

  // An operation ends exactly with the result the devices show, unless a radio request waits
  // with no adapter left.
  ghost predicate SettlesTo(s: State, t: State, radioPending: bool) {
    var waits := radioPending && !s.available;
    && (forall result :: !waits && Achieved(s.operation.kind, s.devices, s.operation.token, result) ==>
          Ends(s, t, s.operation.generation, NoFailure, result))
    && (waits || (forall r :: !Achieved(s.operation.kind, s.devices, s.operation.token, r)) ==> t == s)
  }

  lemma SettlesExactly(s: State, radioPending: bool)
    ensures SettlesTo(s, Settle(s, radioPending), radioPending)
  {
    hide Settle, Achieved, Ends;
    SettleIs(s, radioPending, Connected);
    forall result | Achieved(s.operation.kind, s.devices, s.operation.token, result)
      ensures !(radioPending && !s.available) ==>
                Ends(s, Settle(s, radioPending), s.operation.generation, NoFailure, result)
    {
      SettleIs(s, radioPending, result);
    }
  }

  // A refresh ends the operation exactly when the devices it found show its result, unless
  // a radio request waits and no adapter is left.
  lemma RefreshSettles(s: State, snapshot: Snapshot, radioPending: bool, result: Outcome)
    requires s.owner.Some?
    ensures var t := Apply(s, Refreshed(Some(snapshot), true, radioPending));
      var kind, token := s.operation.kind, s.operation.token;
      var waits := radioPending && |snapshot.adapters| == 0;
      && Takes(s, t, snapshot)
      && (!waits && Achieved(kind, snapshot.devices, token, result) ==>
            && t.operation == Operation(Idle, NoFailure, result, NoPrompt, "", 0, s.operation.generation, 0)
            && Releases(s, t, false))
      && (waits || (forall r :: !Achieved(kind, snapshot.devices, token, r)) ==>
            t.operation == s.operation && SamePrompts(s, t))
  {
    hide Take, Settle, Achieved, Takes, Ends, Releases, SamePrompts;
    var kind, token := s.operation.kind, s.operation.token;
    var u := Take(s.(scheduled := false), snapshot);
    TakeTakes(s, snapshot);
    TakenIs(s, u, snapshot);
    AchievedOnce(kind, snapshot.devices, token);
    SettleIs(u, radioPending, result);
    if r :| Achieved(kind, snapshot.devices, token, r) {
      SettleIs(u, radioPending, r);
      if !(radioPending && |snapshot.adapters| == 0) {
        EndedTakes(s, u, Settle(u, radioPending), snapshot, r);
      }
    }
  }

  lemma AchievedOnce(kind: OperationKind, devices: seq<Device>, token: int)
    ensures forall r, q :: Achieved(kind, devices, token, r) && Achieved(kind, devices, token, q) ==> r == q
  {
  }

  lemma TakenIs(s: State, u: State, snapshot: Snapshot)
    requires Takes(s, u, snapshot)
    ensures u.devices == snapshot.devices && (u.available <==> |snapshot.adapters| > 0)
  {
  }

  lemma EndedTakes(s: State, u: State, t: State, snapshot: Snapshot, result: Outcome)
    requires Takes(s, u, snapshot) && SamePrompts(s, u) && u.operation == s.operation
    requires Ends(u, t, s.operation.generation, NoFailure, result)
    ensures Takes(s, t, snapshot) && Releases(s, t, false)
    ensures t.operation == Operation(Idle, NoFailure, result, NoPrompt, "", 0, s.operation.generation, 0)
  {
  }

  lemma TargetIs(devices: seq<Device>, token: int)
    ensures var target := DeviceFor(devices, token);
      && (target.Some? <==> IsListed(devices, token))
      && (target.Some? && target.value.connected <==> IsConnected(devices, token))
  {
    hide IsFirst, IsListed, DeviceFor;
    forall d
      ensures DeviceFor(devices, token) == Some(d) <==> IsFirst(devices, token, d)
      ensures DeviceFor(devices, token).Some? <==> IsListed(devices, token)
    {
      DeviceForFirst(devices, token, d);
    }
    var any: Device :| true;
    DeviceForFirst(devices, token, any);
  }

  // ---- Discovery ----

  ghost predicate SoonRefreshed(s: State, t: State) {
    t.scheduled <==> s.scheduled || s.owner.Some?
  }

  // No discovery is left, and devices not seen again will be forgotten.
  ghost predicate DiscoveryOver(s: State, t: State) {
    !t.active && t.discoveryAdapters == [] && !t.discoveryTimer && t.expiryTimer && SoonRefreshed(s, t)
  }

  ghost predicate Stops(s: State, t: State, generation: int, result: Outcome) {
    && DiscoveryOver(s, t) && SameWorld(s, t) && SameCalls(s, t) && SamePrompts(s, t)
    && t.operation.kind == Idle && t.operation.generation == generation && t.operation.result == result
    && t.operation.failure == (if result == Broken then Backend else NoFailure)
    && t.operation.token == s.operation.token && t.operation.prompt == s.operation.prompt
    && t.operation.value == s.operation.value && t.operation.entered == s.operation.entered
  }

  lemma StopExactly(s: State, generation: int, result: Outcome)
    ensures var t := StopDiscovery(s, generation, result);
      if s.active then Stops(s, t, generation, result) else t == s
  {
  }

  function HowManyPowered(adapters: seq<Adapter>, n: nat): nat
    requires n <= |adapters|
  {
    if n == 0 then 0 else HowManyPowered(adapters, n - 1) + if adapters[n - 1].powered then 1 else 0
  }

  lemma {:induction false} PoweredBefore(adapters: seq<Adapter>, n: nat)
    requires 0 < n <= |adapters|
    ensures HowManyPowered(adapters, n)
            == HowManyPowered(adapters[1..], n - 1) + if adapters[0].powered then 1 else 0
    decreases n
  {
    if n > 1 {
      PoweredBefore(adapters, n - 1);
    }
  }

  // The paths of the powered adapters, and of no others, in order.
  lemma {:induction false} PoweredExactly(adapters: seq<Adapter>, i: nat)
    requires i < |adapters| && adapters[i].powered
    ensures |Powered(adapters)| == HowManyPowered(adapters, |adapters|)
    ensures HowManyPowered(adapters, i) < |Powered(adapters)|
    ensures Powered(adapters)[HowManyPowered(adapters, i)] == adapters[i].path
    decreases |adapters|
  {
    PoweredCount(adapters);
    PoweredBefore(adapters, |adapters|);
    if i > 0 {
      PoweredBefore(adapters, i);
      PoweredExactly(adapters[1..], i - 1);
    }
  }

  lemma {:induction false} PoweredCount(adapters: seq<Adapter>)
    ensures |Powered(adapters)| == HowManyPowered(adapters, |adapters|)
    decreases |adapters|
  {
    if adapters != [] {
      PoweredBefore(adapters, |adapters|);
      PoweredCount(adapters[1..]);
    }
  }

  // Discovery begins on every powered adapter, or stops again when one of them fails or
  // there is none.
  lemma StartExactly(s: State, generation: int, started: nat)
    ensures var t := StartDiscovery(s, generation, started);
      var powered := Powered(s.adapters);
      if !(s.interest && s.available && s.enabled && s.owner.Some? && s.operation.kind == Idle) then t == s
      else if powered == [] || started < |powered| then Stops(s, t, generation, Broken)
      else
        && t.active && t.discoveryTimer && t.discoveryAdapters == powered && t.scheduled
        && t.expiryTimer == s.expiryTimer && SameWorld(s, t) && SameCalls(s, t) && SamePrompts(s, t)
        && t.operation == s.operation.(kind := Discovering, failure := NoFailure, result := NoResult,
                                       generation := generation, token := 0)
  {
    hide Powered;
    var powered := Powered(s.adapters);
    var took := powered[..Min(started, |powered|)];
    var begun := s.(discoveryAdapters := took, active := true);
    StopExactly(begun, generation, Broken);
    BegunSame(s, begun, took);
    if s.interest && s.available && s.enabled && s.owner.Some? && s.operation.kind == Idle {
      if powered == [] || started < |powered| {
        hide StopDiscovery, Stops;
        StopsToo(s, begun, StopDiscovery(begun, generation, Broken), generation);
      } else {
        assert took == powered;
      }
    }
  }

  lemma BegunSame(s: State, begun: State, took: seq<Path>)
    requires begun == s.(discoveryAdapters := took, active := true)
    ensures SameWorld(s, begun) && SameCalls(s, begun) && SamePrompts(s, begun)
    ensures begun.operation == s.operation && begun.scheduled == s.scheduled
  {
  }

  lemma StopsToo(s: State, u: State, t: State, generation: int)
    requires SameWorld(s, u) && SameCalls(s, u) && SamePrompts(s, u)
    requires u.operation == s.operation && u.scheduled == s.scheduled && Stops(u, t, generation, Broken)
    ensures Stops(s, t, generation, Broken)
  {
  }

  // ---- Beginning ----

  ghost predicate May(s: State) {
    s.interest && s.enabled && s.owner.Some?
  }

  // A discovery gives way to an operation; any other operation does not.
  ghost predicate CanBegin(s: State) {
    s.active || s.operation.kind == Idle
  }

  ghost predicate Begins(s: State, t: State, kind: OperationKind, path: Path, generation: int, token: int) {
    && t.operation == Operation(kind, NoFailure, NoResult, NoPrompt, "", 0, generation, token)
    && t.serial == s.serial + 1 && SameWorld(s, t) && SamePrompts(s, t)
    && (s.owner.Some? ==>
          t.calls == s.calls + {Call(s.owner.value, kind, false, path, generation, token, s.serial + 1)})
    && (if s.active then DiscoveryOver(s, t) else SameDiscovery(s, t) && t.scheduled == s.scheduled)
  }

  lemma PreparedIs(s: State, generation: int)
    ensures var u := Prepared(s, generation);
      && u.devices == s.devices && u.adapters == s.adapters && u.owner == s.owner && u.serial == s.serial
      && u.calls == s.calls && SameWorld(s, u) && SamePrompts(s, u)
      && (u.operation.kind == Idle <==> CanBegin(s))
      && if s.active then Stops(s, u, generation, Replaced) else u == s
  {
    StopExactly(s, generation, Replaced);
    hide StopDiscovery;
  }

  lemma BegunIs(s: State, u: State, kind: OperationKind, path: Path, generation: int, token: int)
    requires s.owner.Some? && u.owner == s.owner
    requires SameWorld(s, u) && SamePrompts(s, u) && SameCalls(s, u)
    requires if s.active then DiscoveryOver(s, u) else SameDiscovery(s, u) && u.scheduled == s.scheduled
    ensures var b := Begin(u, kind, generation, token);
      var t := b.(calls := b.calls + {Call(s.owner.value, kind, false, path, generation, token, b.serial)});
      Begins(s, t, kind, path, generation, token)
  {
  }

  // Pairing begins with the first device of that token, if it is not paired yet.
  lemma PairExactly(s: State, token: int, generation: int, d: Device)
    ensures var t := Apply(s, PairWith(token, generation));
      && (!(May(s) && s.agent) ==> t == s)
      && (May(s) && s.agent && CanBegin(s) && IsFirst(s.devices, token, d) && !d.paired ==>
            Begins(s, t, Pairing, d.path, generation, token))
      && (May(s) && s.agent && (!CanBegin(s) || !IsListed(s.devices, token)
                                || (IsFirst(s.devices, token, d) && d.paired)) ==>
            if s.active then Stops(s, t, generation, Replaced) else t == s)
  {
    hide Prepared, DeviceFor, Begin, Begins, IsFirst, IsListed, CanBegin;
    PreparedIs(s, generation);
    DeviceForFirst(s.devices, token, d);
    if May(s) {
      BegunIs(s, Prepared(s, generation), Pairing, d.path, generation, token);
    }
  }

  // A device is connected when it is paired and not connected; disconnected when it is
  // connected; and removed, through its adapter, when it is paired and that adapter known.
  ghost predicate Allowed(s: State, kind: OperationKind, d: Device, path: Path) {
    || (kind == Connecting && d.paired && !d.connected && path == d.path)
    || (kind == Disconnecting && d.connected && path == d.path)
    || (kind == Unpairing && d.paired && path == d.adapterPath
        && exists i :: 0 <= i < |s.adapters| && s.adapters[i].path == d.adapterPath)
  }

  lemma AllowedIs(s: State, u: State, kind: OperationKind, d: Device)
    requires u.adapters == s.adapters
    ensures ActionFor(u, kind, d)
            <==> Allowed(s, kind, d, if kind == Unpairing then d.adapterPath else d.path)
    ensures forall path :: Allowed(s, kind, d, path) ==> path == if kind == Unpairing then d.adapterPath else d.path
  {
    assert forall i :: 0 <= i < |s.adapters| ==> s.adapters[i] in s.adapters;
  }

  // The other operations likewise, when the device allows them.
  lemma ActExactly(s: State, kind: OperationKind, token: int, generation: int, d: Device, path: Path)
    ensures var t := Apply(s, ActOn(kind, token, generation));
      && (!May(s) ==> t == s)
      && (May(s) && CanBegin(s) && IsFirst(s.devices, token, d) && Allowed(s, kind, d, path) ==>
            Begins(s, t, kind, path, generation, token))
      && (May(s) && (!CanBegin(s) || !IsListed(s.devices, token)
                     || (IsFirst(s.devices, token, d) && forall p :: !Allowed(s, kind, d, p))) ==>
            if s.active then Stops(s, t, generation, Replaced) else t == s)
  {
    hide Prepared, DeviceFor, Begin, Begins, IsFirst, IsListed, CanBegin, ActionFor, Allowed;
    PreparedIs(s, generation);
    DeviceForFirst(s.devices, token, d);
    AllowedIs(s, Prepared(s, generation), kind, d);
    if May(s) {
      BegunIs(s, Prepared(s, generation), kind, if kind == Unpairing then d.adapterPath else d.path, generation, token);
    }
  }

  // ---- Cancelling ----

  lemma EndsRenumbered(s: State, generation: int)
    ensures var u := s.(operation := s.operation.(generation := generation));
      Ends(s, Finish(u, Cancelled, WasCancelled), generation, Cancelled, WasCancelled)
  {
    var u := s.(operation := s.operation.(generation := generation));
    FinishEnds(u, Cancelled, WasCancelled);
    hide Finish;
  }

  // Cancelling ends a pairing under the generation of the command, and nothing else.
  lemma CancelExactly(s: State, generation: int)
    ensures var t := Apply(s, Cancel(generation));
      if s.operation.kind == Pairing then Ends(s, t, generation, Cancelled, WasCancelled) else t == s
  {
    EndsRenumbered(s, generation);
    hide Finish, Ends;
  }

  // Losing interest, or turning the radio off, ends a pairing and a discovery.
  lemma InterestExactly(s: State, interested: bool, generation: int)
    requires s.active ==> s.operation.kind != Pairing
    ensures var t, set1 := Apply(s, Interest(interested, generation)), s.(interest := interested);
      if interested then t == set1
      else if s.operation.kind == Pairing then Ends(set1, t, generation, Cancelled, WasCancelled)
      else if s.active then Stops(set1, t, generation, WasCancelled)
      else t == set1
  {
    var set1 := s.(interest := interested);
    EndsRenumbered(set1, generation);
    StopExactly(set1, generation, WasCancelled);
    StopExactly(CancelPairing(set1, generation), generation, WasCancelled);
    hide Finish, StopDiscovery, Stops;
  }

  lemma RadioOffExactly(s: State, generation: int)
    requires s.active ==> s.operation.kind != Pairing
    ensures var t := Apply(s, RadioOff(generation));
      if !s.available || s.owner.None? || !s.enabled then t == s
      else if s.operation.kind == Pairing then Ends(s, t, generation, Cancelled, WasCancelled)
      else if s.active then Stops(s, t, generation, WasCancelled)
      else t == s
  {
    EndsRenumbered(s, generation);
    StopExactly(s, generation, WasCancelled);
    StopExactly(CancelPairing(s, generation), generation, WasCancelled);
    hide Finish, StopDiscovery, Stops;
  }

  // ---- Replies ----

  // As far as the bridge can tell, the call was made for the operation under way.
  ghost predicate IsFor(s: State, c: Call) {
    && s.owner == Some(c.owner) && s.operation.kind == c.kind && s.operation.generation == c.generation
    && (c.kind != Pairing || s.operation.token == c.token)
  }

  // The operation ends with this; a pairing, whose reply is no answer to its prompt, drops it.
  ghost predicate EndsBy(s: State, t: State, failure: Failure, result: Outcome, dropping: bool) {
    && t.operation == Operation(Idle, failure, result, NoPrompt, "", 0, s.operation.generation, 0)
    && SameWorld(s, t) && SameDiscovery(s, t) && t.serial == s.serial
    && Releases(s, t, failure != NoFailure && !dropping)
  }

  lemma DoneEnds(s: State, c: Call, failure: Failure, result: Outcome)
    ensures var t := Finish(s.(calls := s.calls - {c}), failure, result);
      EndsBy(s, t, failure, result, false) && t.calls == s.calls - {c} && t.scheduled == s.scheduled
  {
    FinishEnds(s.(calls := s.calls - {c}), failure, result);
    hide Finish;
  }

  lemma DroppedEnds(s: State, c: Call, failure: Failure, result: Outcome)
    ensures var t := Finish(ClearReply(s.(calls := s.calls - {c}), false), failure, result);
      EndsBy(s, t, failure, result, true) && t.calls == s.calls - {c} && t.scheduled == s.scheduled
  {
    var done := s.(calls := s.calls - {c});
    var u := ClearReply(done, false);
    ClearReplyReleases(done, false);
    ClearReplySame(done, false);
    hide Finish, ClearReply;
    FinishEnds(u, failure, result);
    ReleasesTwice(done, u, Finish(u, failure, result), failure != NoFailure);
  }

  lemma ReleasesTwice(s: State, u: State, t: State, answered: bool)
    requires Releases(s, u, false) && Releases(u, t, answered)
    ensures Releases(s, t, false)
  {
  }

  lemma ScheduledIs(s: State)
    ensures var t := Schedule(s);
      && SameWorld(s, t) && SameDiscovery(s, t) && SameCalls(s, t) && SamePrompts(s, t)
      && t.operation == s.operation && SoonRefreshed(s, t)
  {
    var t := Schedule(s);
    if s.owner.Some? {
      assert t == s.(scheduled := true);
    }
    hide Schedule;
  }

  lemma ScheduledEnds(s: State, u: State, failure: Failure, result: Outcome, dropping: bool)
    requires EndsBy(s, u, failure, result, dropping) && u.scheduled == s.scheduled
    ensures EndsBy(s, Schedule(u), failure, result, dropping) && SoonRefreshed(s, Schedule(u))
    ensures Schedule(u).calls == u.calls
  {
    ScheduledIs(u);
    hide Schedule;
  }

  // A refused call ends its operation with the service's failure; an answered one leaves it
  // to the refresh that is asked for.
  lemma ActionReplyExactly(s: State, c: Call, reply: Reply, trusted: bool)
    requires c in s.calls && IsFor(s, c) && c.kind != Pairing
    ensures var t := Apply(s, CallFinished(c, reply, trusted));
      && t.calls == s.calls - {c}
      && (reply.Refused? ==> EndsBy(s, t, reply.failure, NoResult, false) && t.scheduled == s.scheduled)
      && (reply.Answered? ==>
            && t.operation == s.operation && SameWorld(s, t) && SameDiscovery(s, t) && SamePrompts(s, t)
            && t.serial == s.serial && SoonRefreshed(s, t))
  {
    hide Finish, EndsBy, Schedule, SameWorld, SameDiscovery, SamePrompts, SoonRefreshed;
    assert Relevant(s, c);
    if reply.Refused? {
      DoneEnds(s, c, reply.failure, NoResult);
    } else {
      AnsweredWaits(s, c);
    }
  }

  lemma AnsweredWaits(s: State, c: Call)
    ensures var t := Schedule(s.(calls := s.calls - {c}));
      && t.calls == s.calls - {c} && t.operation == s.operation && t.serial == s.serial
      && SameWorld(s, t) && SameDiscovery(s, t) && SamePrompts(s, t) && SoonRefreshed(s, t)
  {
    ScheduledIs(s.(calls := s.calls - {c}));
    hide Schedule;
  }

  // A pairing that is answered goes on, if the device is trusted, to connect it under the same
  // operation; otherwise it ends, paired only when it was answered.
  lemma PairReplyExactly(s: State, c: Call, reply: Reply, trusted: bool)
    requires c in s.calls && IsFor(s, c) && c.kind == Pairing && !c.connecting
    ensures var t := Apply(s, CallFinished(c, reply, trusted));
      && (reply.Refused? ==>
            EndsBy(s, t, reply.failure, NoResult, true) && t.calls == s.calls - {c} && SoonRefreshed(s, t))
      && (reply.Answered? && !trusted ==>
            EndsBy(s, t, TrustFailed, Paired, true) && t.calls == s.calls - {c} && SoonRefreshed(s, t))
      && (reply.Answered? && trusted ==>
            && t.calls == s.calls - {c} + {c.(connecting := true)} && Releases(s, t, false)
            && t.operation == s.operation.(prompt := NoPrompt, value := "", entered := 0)
            && SameWorld(s, t) && SameDiscovery(s, t) && t.serial == s.serial && t.scheduled == s.scheduled)
  {
    hide Finish, ClearReply, EndsBy, Schedule;
    assert Relevant(s, c);
    var done := s.(calls := s.calls - {c});
    var cleared := ClearReply(done, false);
    ClearReplyReleases(done, false);
    ClearReplySame(done, false);
    if reply.Refused? {
      DroppedEnds(s, c, reply.failure, NoResult);
      ScheduledEnds(s, Finish(cleared, reply.failure, NoResult), reply.failure, NoResult, true);
    } else if !trusted {
      DroppedEnds(s, c, TrustFailed, Paired);
      ScheduledEnds(s, Finish(cleared, TrustFailed, Paired), TrustFailed, Paired, true);
    }
  }

  // The reply to that connection ends the pairing, as paired or as connected too.
  lemma ConnectReplyExactly(s: State, c: Call, reply: Reply, trusted: bool)
    requires c in s.calls && IsFor(s, c) && c.kind == Pairing && c.connecting
    ensures var t := Apply(s, CallFinished(c, reply, trusted));
      && t.calls == s.calls - {c} && SoonRefreshed(s, t)
      && (reply.Refused? ==> EndsBy(s, t, ConnectionFailed, Paired, false))
      && (reply.Answered? ==> EndsBy(s, t, NoFailure, PairedConnected, false))
  {
    hide Finish, EndsBy, Schedule;
    assert Relevant(s, c);
    var done := s.(calls := s.calls - {c});
    DoneEnds(s, c, ConnectionFailed, Paired);
    DoneEnds(s, c, NoFailure, PairedConnected);
    ScheduledEnds(s, Finish(done, ConnectionFailed, Paired), ConnectionFailed, Paired, false);
    ScheduledEnds(s, Finish(done, NoFailure, PairedConnected), NoFailure, PairedConnected, false);
  }

  // Any other reply, also to a call that is not known, changes nothing but the calls.
  lemma OtherReplyExactly(s: State, c: Call, reply: Reply, trusted: bool)
    requires !IsFor(s, c) || c !in s.calls
    ensures Apply(s, CallFinished(c, reply, trusted)) == s.(calls := s.calls - {c})
  {
    assert c !in s.calls ==> s.calls - {c} == s.calls;
    assert Relevant(s, c) <==> IsFor(s, c);
  }

  // ---- The agent ----

  ghost predicate IsTarget(s: State, path: Path) {
    s.operation.kind == Pairing && exists d :: IsFirst(s.devices, s.operation.token, d) && d.path == path
  }

  lemma ForTargetIs(s: State, path: Path)
    ensures ForTarget(s, path) <==> IsTarget(s, path)
  {
    hide DeviceFor, IsFirst, IsListed;
    var target := DeviceFor(s.devices, s.operation.token);
    if target.Some? {
      DeviceForFirst(s.devices, s.operation.token, target.value);
    }
    if d :| IsFirst(s.devices, s.operation.token, d) && d.path == path {
      DeviceForFirst(s.devices, s.operation.token, d);
    }
  }

  // What is shown: the prompt, at most 16 characters of its value, and at most 16 as entered.
  ghost predicate ShowsPrompt(s: State, t: State, prompt: Prompt, value: string, entered: nat) {
    && t.operation == s.operation.(prompt := prompt, value := t.operation.value, entered := t.operation.entered)
    && t.operation.value <= value && |t.operation.value| == Min(|value|, 16)
    && t.operation.entered == Min(entered, 16)
  }

  lemma ShownIs(s: State, prompt: Prompt, value: string, entered: nat)
    ensures var t := Shown(s, prompt, value, entered);
      SameButPrompt(s, t) && SamePrompts(s, t) && ShowsPrompt(s, t, prompt, value, entered)
  {
  }

  lemma HeldIs(s: State, message: nat)
    ensures SameButPrompt(s, s.(held := Some(message)))
  {
  }

  lemma AskedIs(s: State, message: nat)
    ensures SameButPrompt(s, s.(received := s.received + multiset{message}))
    ensures SameButPrompt(s, s.(received := s.received + multiset{message}, answered := s.answered + multiset{message}))
  {
  }

  lemma SameChain(s: State, t: State, u: State)
    requires SameButPrompt(s, t) && SameButPrompt(t, u)
    ensures SameButPrompt(s, u)
  {
  }

  // A prompt about the device being paired is held and shown, if none is held yet.
  lemma PromptHeld(s: State, prompt: Prompt, path: Path, value: string, entered: nat, message: nat)
    requires IsTarget(s, path) && s.held == None
    ensures var t := Apply(s, Prompted(prompt, path, value, entered, message));
      && SameButPrompt(s, t) && ShowsPrompt(s, t, prompt, value, entered)
      && t.held == Some(message) && t.answered == s.answered && t.dropped == s.dropped
      && t.received == s.received + multiset{message}
  {
    ForTargetIs(s, path);
    AskedIs(s, message);
    var asked := s.(received := s.received + multiset{message});
    ShownIs(asked, prompt, value, entered);
    var shown := Shown(asked, prompt, value, entered);
    HeldIs(shown, message);
    SameChain(s, asked, shown);
    SameChain(s, shown, shown.(held := Some(message)));
    assert asked.operation == s.operation && asked.answered == s.answered && asked.dropped == s.dropped;
    hide ForTarget, IsTarget, Shown, SameButPrompt;
  }

  // Any other prompt is answered with a rejection at once.
  lemma PromptRejected(s: State, prompt: Prompt, path: Path, value: string, entered: nat, message: nat)
    requires !IsTarget(s, path) || s.held != None
    ensures Apply(s, Prompted(prompt, path, value, entered, message))
            == s.(received := s.received + multiset{message}, answered := s.answered + multiset{message})
  {
    ForTargetIs(s, path);
    hide ForTarget, IsTarget, Shown;
  }

  lemma DisplayExactly(s: State, prompt: Prompt, path: Path, value: string, entered: nat)
    ensures var t := Apply(s, Displayed(prompt, path, value, entered));
      && SameButPrompt(s, t) && SamePrompts(s, t)
      && if IsTarget(s, path) then ShowsPrompt(s, t, prompt, value, entered) else t == s
  {
    ForTargetIs(s, path);
    hide ForTarget, IsTarget;
  }

  // A PIN has 1 to 16 characters, a passkey is a number of at most six digits; nothing answers
  // what is only displayed.
  ghost predicate IsAnswer(prompt: Prompt, response: Response) {
    || (prompt == EnterPin && 1 <= response.length <= 16)
    || (prompt == EnterPasskey && response.length <= 6 && response.number.Some? && response.number.value <= 999_999)
    || prompt == ConfirmPasskey || prompt == AuthorizePairing
  }

  lemma RespondExactly(s: State, generation: int, accepted: bool, response: Response)
    ensures var t := Apply(s, Responded(generation, accepted, response));
      if s.operation.kind == Pairing && s.operation.generation == generation && s.held.Some?
         && (!accepted || IsAnswer(s.operation.prompt, response))
      then
        && SameButPrompt(s, t) && Releases(s, t, true)
        && t.operation == s.operation.(prompt := NoPrompt, value := "", entered := 0)
      else t == s
  {
    assert Valid(s.operation.prompt, response) <==> IsAnswer(s.operation.prompt, response);
    hide Valid, IsAnswer, SameButPrompt, Releases;
    if s.held.Some? {
      RespondedIs(s, s.held.value);
    }
  }

  lemma RespondedIs(s: State, message: nat)
    requires s.held == Some(message)
    ensures var t := s.(answered := s.answered + multiset{message}, held := None, operation := Quiet(s.operation));
      && SameButPrompt(s, t) && Releases(s, t, true)
      && t.operation == s.operation.(prompt := NoPrompt, value := "", entered := 0)
  {
  }

  // The agent's own end, and the service's cancellation, end the operation.
  lemma AgentEndExactly(s: State)
    ensures Ends(s, Apply(s, AgentCancelled), s.operation.generation, Cancelled, WasCancelled)
    ensures var t := Apply(s, AgentGone);
      && !t.agent
      && t.operation == Operation(Idle, Backend, NoResult, NoPrompt, "", 0, s.operation.generation, 0)
      && Releases(s, t, true) && t.devices == s.devices && SameDiscovery(s, t) && SameCalls(s, t)
  {
    FinishEnds(s, Cancelled, WasCancelled);
    var u := ClearReply(s, true);
    ClearReplyReleases(s, true);
    ClearReplySame(s, true);
    hide Finish, ClearReply;
    FinishEnds(u.(agent := false), Backend, NoResult);
  }

  // ---- Forgetting devices ----

  ghost predicate Lingers(d: Device, now: int) {
    d.paired || d.connected || (d.lastSeen != 0 && now - d.lastSeen < 60_000)
  }

  // What stays of a list cut in two stays of each part.
  lemma {:induction false} RemainingParts(a: seq<Device>, b: seq<Device>, now: int)
    ensures Remaining(a + b, now) == Remaining(a, now) + Remaining(b, now)
  {
    if a == [] {
      assert a + b == b;
    } else {
      assert (a + b)[1..] == a[1..] + b;
      RemainingParts(a[1..], b, now);
    }
  }

  lemma {:induction false} RemainingIn(devices: seq<Device>, now: int)
    ensures forall d :: d in Remaining(devices, now) <==> d in devices && Lingers(d, now)
  {
    if devices != [] {
      RemainingIn(devices[1..], now);
    }
  }

  lemma RemainingOne(before: seq<Device>, d: Device, after: seq<Device>, now: int)
    ensures Remaining(before + [d] + after, now)
            == Remaining(before, now) + (if Lingers(d, now) then [d] else []) + Remaining(after, now)
  {
    RemainingParts(before + [d], after, now);
    RemainingParts(before, [d], now);
    RemainingAlone(d, now);
  }

  lemma RemainingAlone(d: Device, now: int)
    ensures Remaining([d], now) == if Lingers(d, now) then [d] else []
  {
    assert [d][1..] == [];
  }

  // A device is forgotten exactly when it is neither paired nor connected and was not seen
  // for a minute, wherever it stands; the others keep their order.
  lemma ExpiredExactly(s: State, now: int, before: seq<Device>, d: Device, after: seq<Device>)
    requires s.devices == before + [d] + after
    ensures var t := Apply(s, ExpiryTimeout(now));
      && t.devices == Remaining(before, now) + (if Lingers(d, now) then [d] else []) + Remaining(after, now)
      && (forall e :: e in t.devices <==> e in s.devices && Lingers(e, now))
      && !t.expiryTimer
  {
    RemainingOne(before, d, after, now);
    RemainingIn(s.devices, now);
    hide Remaining, Lingers;
  }

  // ---- Owners ----

  ghost predicate ManagerGone(s: State, t: State, shown: Failure) {
    && t.devices == [] && t.adapters == [] && !t.available && !t.enabled
    && !t.active && t.discoveryAdapters == [] && !t.discoveryTimer && !t.expiryTimer
    && t.operation == Operation(Idle, shown, NoResult, NoPrompt, "", 0, 0, 0)
    && Releases(s, t, true) && SameCalls(s, t) && t.interest == s.interest
  }

  lemma ResetIs(s: State, failure: Failure, shown: Failure)
    ensures var t := Reset(s, failure, shown);
      ManagerGone(s, t, shown) && t.owner == s.owner && t.agent == s.agent && t.scheduled == s.scheduled
  {
    var quiet := s.(discoveryTimer := false, expiryTimer := false, active := false, discoveryAdapters := [],
                    devices := [], adapters := []);
    ClearReplyReleases(quiet, true);
    ClearReplySame(quiet, true);
    hide ClearReply;
    ResetShape(s, quiet, ClearReply(quiet, true), failure, shown);
  }

  lemma ResetShape(s: State, quiet: State, cleared: State, failure: Failure, shown: Failure)
    requires quiet == s.(discoveryTimer := false, expiryTimer := false, active := false, discoveryAdapters := [],
                         devices := [], adapters := [])
    requires cleared == ClearReply(quiet, true) && Releases(quiet, cleared, true) && SameButPrompt(quiet, cleared)
    ensures var t := Reset(s, failure, shown);
      ManagerGone(s, t, shown) && t.owner == s.owner && t.agent == s.agent && t.scheduled == s.scheduled
  {
    hide ClearReply;
  }

  // A refresh that fails leaves nothing of the manager, shown as a failure; one that comes too
  // late changes nothing.
  lemma FailedRefreshExactly(s: State, radioPending: bool)
    requires s.owner.Some?
    ensures var t := Apply(s, Refreshed(None, true, radioPending));
      ManagerGone(s, t, Backend) && t.owner == s.owner && t.agent == s.agent && !t.scheduled
  {
    ResetIs(s.(scheduled := false), Backend, Backend);
    hide Reset;
  }

  lemma LateRefreshExactly(s: State, snapshot: Option<Snapshot>, sameOwner: bool, radioPending: bool)
    requires s.owner.None? || (snapshot.Some? && !sameOwner)
    ensures Apply(s, Refreshed(snapshot, sameOwner, radioPending)) == s.(scheduled := false)
  {
  }

  lemma DetachReleases(s: State)
    requires s.owner.None? ==> !s.agent && s.held.None?
    ensures var u := DetachOwner(s);
      && Releases(s, u, true) && SameCalls(s, u) && u.interest == s.interest
      && u.owner == None && !u.agent && !u.scheduled
  {
    var quiet := s.(scheduled := false, discoveryTimer := false, expiryTimer := false);
    if s.owner.Some? {
      var gone := quiet.(agent := false, owner := None);
      ClearReplyReleases(gone, true);
      ClearReplySame(gone, true);
      hide ClearReply;
    }
  }

  lemma GoneTwice(s: State, u: State, t: State, shown: Failure)
    requires Releases(s, u, true) && SameCalls(s, u) && u.interest == s.interest && ManagerGone(u, t, shown)
    ensures ManagerGone(s, t, shown)
  {
  }

  lemma AttachedIs(s: State, owner: nat, registered: bool)
    requires s.owner.None?
    ensures var t := AttachOwner(s, owner, registered);
      t == s.(owner := Some(owner), agent := registered, scheduled := true)
  {
  }

  lemma OwnerChangedIs(s: State, owner: Option<nat>, registered: bool)
    ensures
      var v := Reset(DetachOwner(s), OwnerReplaced, if owner.None? then Unavailable else NoFailure);
      Apply(s, NewOwner(owner, registered)) == if owner.Some? then AttachOwner(v, owner.value, registered) else v
  {
    hide DetachOwner, Reset, AttachOwner;
  }

  // Whenever the owner changes nothing of the old one is left, and its held prompt is
  // rejected; a new one is asked for its state at once.
  lemma OwnerChangedExactly(s: State, owner: Option<nat>, registered: bool)
    requires s.owner.None? ==> !s.agent && s.held.None?
    ensures var t := Apply(s, NewOwner(owner, registered));
      && ManagerGone(s, t, if owner.None? then Unavailable else NoFailure)
      && t.owner == owner && (t.agent <==> owner.Some? && registered) && (t.scheduled <==> owner.Some?)
  {
    var shown := if owner.None? then Unavailable else NoFailure;
    var u := DetachOwner(s);
    DetachReleases(s);
    OwnerChangedIs(s, owner, registered);
    hide Apply, DetachOwner, Reset, ManagerGone, Releases, SameCalls, AttachOwner;
    ResetIs(u, OwnerReplaced, shown);
    var v := Reset(u, OwnerReplaced, shown);
    GoneTwice(s, u, v, shown);
    if owner.Some? {
      AttachedIs(v, owner.value, registered);
      StillGone(s, v, v.(owner := owner, agent := registered, scheduled := true), shown);
    }
  }

  lemma StillGone(s: State, u: State, t: State, shown: Failure)
    requires ManagerGone(s, u, shown) && t == u.(owner := t.owner, agent := t.agent, scheduled := t.scheduled)
    ensures ManagerGone(s, t, shown)
  {
  }
}
