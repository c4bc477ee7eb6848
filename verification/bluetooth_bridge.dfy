/** The Bluetooth half of the connectivity bridge: its fields change in place, as specified. */
module BluetoothBridges {
  import opened Basics
  import opened BluetoothList
  import opened BluetoothTokens
  import opened BluetoothModel
  import BluetoothExact
  import BluetoothSafety

  datatype Listing = Listing(found: seq<Found>, adapters: seq<Adapter>)

  lemma Kept(s: State, event: Event)
    ensures BluetoothSafety.Inv(s) && Permitted(s, event) ==> BluetoothSafety.Inv(Apply(s, event))
  {
    hide BluetoothSafety.Inv, Permitted, Apply;
    if BluetoothSafety.Inv(s) && Permitted(s, event) {
      BluetoothSafety.StepKeeps(s, event);
    }
  }

  lemma RefreshKeeps(s: State, sameOwner: bool, radioPending: bool)
    ensures BluetoothSafety.Inv(s) ==>
              forall snapshot :: BluetoothSafety.Inv(Refresh(s, snapshot, sameOwner, radioPending))
  {
    hide BluetoothSafety.Inv, Refresh;
    if BluetoothSafety.Inv(s) {
      forall snapshot
        ensures BluetoothSafety.Inv(Refresh(s, snapshot, sameOwner, radioPending))
      {
        BluetoothSafety.RefreshKeeps(s, snapshot, sameOwner, radioPending);
      }
    }
  }

  // No two devices share a token, and the next token is unused.
  ghost predicate TokensApart(tokens: map<Path, int>, devices: seq<Device>, next: int) {
    && Injective(tokens) && (forall p :: p in tokens ==> tokens[p] < next)
    && DistinctTokens(devices) && (forall d :: d in devices ==> d.token < next)
  }

  lemma RemainingApart(tokens: map<Path, int>, devices: seq<Device>, next: int, remaining: seq<Device>)
    requires forall d :: d in remaining ==> d in devices
    requires DistinctTokens(devices) ==> DistinctTokens(remaining)
    ensures TokensApart(tokens, devices, next) ==> TokensApart(TokensOf(remaining), remaining, next)
  {
    if TokensApart(tokens, devices, next) {
      TokensFromList(Collection([], map[], next, remaining), remaining);
    }
  }

  class BluetoothBridge {
    var owner: Option<nat>
    var agent: bool
    var interest: bool
    var available: bool
    var enabled: bool
    var devices: seq<Device>
    var adapters: seq<Adapter>
    var operation: Operation
    var held: Option<nat>
    var active: bool
    var discoveryAdapters: seq<Path>
    var discoveryTimer: bool
    var expiryTimer: bool
    var scheduled: bool
    var serial: nat
    var calls: set<Call>
    var answered: multiset<nat>
    var tokens: map<Path, int>
    var nextToken: int
    ghost var received: multiset<nat>
    ghost var dropped: multiset<nat>

    // Every event keeps this, by what is proved of the specification.
    ghost predicate Valid()
      reads this
    {
      BluetoothSafety.Inv(Now())
    }

    constructor ()
      ensures Now() == INITIAL && Valid() && TokensValid()
    {
      owner, agent, interest, available, enabled := None, false, false, false, false;
      devices, adapters, operation, held := [], [], NO_OPERATION, None;
      active, discoveryAdapters, discoveryTimer, expiryTimer, scheduled := false, [], false, false, false;
      calls, answered, tokens, nextToken := {}, multiset{}, map[], 1;
      serial, received, dropped := 0, multiset{}, multiset{};
    }

    ghost function Now(): State
      reads this
    {
      State(owner, agent, interest, available, enabled, devices, adapters, operation, held, active, discoveryAdapters,
            discoveryTimer, expiryTimer, scheduled, serial, calls, received, answered, dropped)
    }

    ghost predicate TokensValid()
      reads this`devices, this`tokens, this`nextToken
    {
      TokensApart(tokens, devices, nextToken)
    }

    // ---- Fields that change together ----

    method SetDiscovery(active: bool, adapters: seq<Path>, timer: bool, expiry: bool)
      modifies this`active, this`discoveryAdapters, this`discoveryTimer, this`expiryTimer
      ensures Now() == old(Now()).(active := active, discoveryAdapters := adapters, discoveryTimer := timer,
                                   expiryTimer := expiry)
    {
      this.active, discoveryAdapters, discoveryTimer, expiryTimer := active, adapters, timer, expiry;
    }

    method SetLists(devices: seq<Device>, adapters: seq<Adapter>)
      modifies this`devices, this`adapters
      ensures Now() == old(Now()).(devices := devices, adapters := adapters)
    {
      this.devices, this.adapters := devices, adapters;
    }

    method SetRadio(available: bool, enabled: bool)
      modifies this`available, this`enabled
      ensures Now() == old(Now()).(available := available, enabled := enabled)
    {
      this.available, this.enabled := available, enabled;
    }

    method SetOwner(owner: Option<nat>, agent: bool)
      modifies this`owner, this`agent
      ensures Now() == old(Now()).(owner := owner, agent := agent)
    {
      this.owner, this.agent := owner, agent;
    }

    method SetOperation(operation: Operation)
      modifies this`operation
      ensures Now() == old(Now()).(operation := operation)
    {
      this.operation := operation;
    }

    ghost method Receive(message: nat)
      modifies this`received
      ensures Now() == old(Now()).(received := old(received) + multiset{message})
    {
      received := received + multiset{message};
    }

    method Hold(message: nat)
      modifies this`held
      ensures Now() == old(Now()).(held := Some(message))
    {
      held := Some(message);
    }

    // A prompt gets its answer at once.
    method Refuse(message: nat)
      modifies this`answered
      ensures Now() == old(Now()).(answered := old(answered) + multiset{message})
    {
      answered := answered + multiset{message};
    }

    // The held prompt gets its answer.
    method Answer()
      requires held.Some?
      modifies this`held, this`answered
      ensures Now() == old(Now()).(held := None, answered := old(answered) + multiset{old(held).value})
    {
      answered, held := answered + multiset{held.value}, None;
    }

    // ---- Operations ----

    method ClearPairingReply(reject: bool)
      modifies this`operation, this`held, this`answered, this`dropped
      ensures Now() == ClearReply(old(Now()), reject)
    {
      if held.Some? {
        if reject {
          Answer();
        } else {
          dropped, held := dropped + multiset{held.value}, None;
        }
      }
      SetOperation(Quiet(operation));
    }

    method FinishOperation(failure: Failure, result: Outcome)
      modifies this`operation, this`held, this`answered, this`dropped
      ensures Now() == Finish(old(Now()), failure, result)
    {
      hide ClearReply;
      ClearPairingReply(failure != NoFailure);
      operation := operation.(kind := Idle, failure := failure, result := result, token := 0);
    }

    method BeginOperation(kind: OperationKind, generation: int, token: int) returns (begun: bool)
      modifies this`operation, this`serial
      ensures begun <==> old(operation).kind == Idle
      ensures Now() == if begun then Begin(old(Now()), kind, generation, token) else old(Now())
    {
      if operation.kind != Idle { return false; }
      operation := Operation(kind, NoFailure, NoResult, NoPrompt, "", 0, generation, token);
      serial := serial + 1;
      return true;
    }

    method ScheduleRefresh()
      modifies this`scheduled
      ensures Now() == Schedule(old(Now()))
    {
      if scheduled || owner.None? { return; }
      scheduled := true;
    }

    method ClearManagerState(failure: Failure)
      modifies this`active, this`discoveryAdapters, this`discoveryTimer, this`expiryTimer, this`devices, this`adapters,
        this`tokens, this`nextToken, this`operation, this`held, this`answered, this`dropped
      ensures Now() == ManagerCleared(old(Now()), failure) && TokensValid()
      ensures tokens == map[] && nextToken == 1 && devices == []
    {
      hide ClearReply;
      SetDiscovery(false, [], false, false);
      SetLists([], []);
      tokens, nextToken := map[], 1;
      ClearPairingReply(true);
      SetOperation(NO_OPERATION.(failure := failure));
    }

    method DeviceForToken(token: int) returns (device: Option<Device>)
      ensures device == DeviceFor(devices, token)
    {
      var k := 0;
      while k < |devices|
        invariant 0 <= k <= |devices|
        invariant DeviceFor(devices, token) == DeviceFor(devices[k..], token)
      {
        if devices[k].token == token { return Some(devices[k]); }
        assert devices[k..][1..] == devices[k + 1..];
        k := k + 1;
      }
      return None;
    }

    // ---- Discovery ----

    method StopBluetoothDiscovery(generation: int, result: Outcome)
      modifies this`discoveryTimer, this`active, this`discoveryAdapters, this`expiryTimer, this`operation,
        this`scheduled
      ensures Now() == StopDiscovery(old(Now()), generation, result)
      ensures old(Valid()) ==> Valid()
    {
      hide BluetoothSafety.Inv, Schedule;
      if BluetoothSafety.Inv(Now()) {
        BluetoothSafety.StopFromInv(Now(), generation, result);
      }
      if !active { return; }
      SetDiscovery(false, [], false, true);
      SetOperation(operation.(kind := Idle, generation := generation, result := result,
                              failure := if result == Broken then Backend else NoFailure));
      ScheduleRefresh();
    }

    // Starts adapters one after another until one fails.
    method StartAdapters(started: nat) returns (took: seq<Path>, powered: nat)
      ensures powered == |Powered(adapters)| && took == Powered(adapters)[..Min(started, powered)]
    {
      took, powered := [], 0;
      var k := 0;
      while k < |adapters|
        invariant 0 <= k <= |adapters|
        invariant powered == |Powered(adapters[..k])| && took == Powered(adapters[..k])[..Min(started, powered)]
      {
        PoweredMore(adapters, k);
        if adapters[k].powered {
          if powered < started {
            took := took + [adapters[k].path];
          }
          powered := powered + 1;
        }
        k := k + 1;
      }
      assert adapters[..k] == adapters;
    }

    method StartBluetoothDiscovery(generation: int, started: nat)
      modifies this`discoveryTimer, this`active, this`discoveryAdapters, this`expiryTimer, this`operation,
        this`scheduled
      ensures Now() == StartDiscovery(old(Now()), generation, started)
      ensures old(Valid()) ==> Valid()
    {
      hide BluetoothSafety.Inv, Powered, StopDiscovery, Schedule;
      if BluetoothSafety.Inv(Now()) {
        BluetoothSafety.StartKeeps(Now(), generation, started);
      }
      if !interest || !available || !enabled || owner.None? || operation.kind != Idle { return; }
      var took, powered := StartAdapters(started);
      if |took| != powered || took == [] {
        SetDiscovery(true, took, discoveryTimer, expiryTimer);
        StopBluetoothDiscovery(generation, Broken);
        return;
      }
      SetDiscovery(true, took, true, expiryTimer);
      SetOperation(operation.(kind := Discovering, failure := NoFailure, result := NoResult,
                              generation := generation, token := 0));
      ScheduleRefresh();
    }

    // ---- Commands ----

    method CancelBluetoothPairing(generation: int)
      modifies this`operation, this`held, this`answered, this`dropped
      ensures Now() == CancelPairing(old(Now()), generation)
      ensures old(Valid()) ==> Valid()
    {
      hide BluetoothSafety.Inv, Finish;
      if BluetoothSafety.Inv(Now()) {
        BluetoothSafety.CancelKeeps(Now(), generation);
      }
      if operation.kind != Pairing { return; }
      operation := operation.(generation := generation);
      FinishOperation(Cancelled, WasCancelled);
    }

    method SetBluetoothInterest(interested: bool, generation: int)
      modifies this`interest, this`operation, this`held, this`answered, this`dropped, this`discoveryTimer, this`active,
        this`discoveryAdapters, this`expiryTimer, this`scheduled
      ensures Now() == SetInterest(old(Now()), interested, generation)
      ensures old(Valid()) ==> Valid()
    {
      hide BluetoothSafety.Inv, CancelPairing, StopDiscovery;
      if BluetoothSafety.Inv(Now()) {
        BluetoothSafety.SetInterestKeeps(Now(), interested, generation);
      }
      interest := interested;
      if !interested {
        CancelBluetoothPairing(generation);
        StopBluetoothDiscovery(generation, WasCancelled);
      }
    }

    method RequestPair(token: int, generation: int)
      modifies this`operation, this`serial, this`calls, this`discoveryTimer, this`active, this`discoveryAdapters,
        this`expiryTimer, this`scheduled
      ensures Now() == Pair(old(Now()), token, generation)
      ensures old(Valid() && Permitted(Now(), PairWith(token, generation))) ==> Valid()
    {
      hide BluetoothSafety.Inv, Permitted, StopDiscovery, DeviceFor;
      Kept(Now(), PairWith(token, generation));
      if !interest || !agent || !enabled || owner.None? { return; }
      StopBluetoothDiscovery(generation, Replaced);
      var device := DeviceForToken(token);
      if device.None? || device.value.paired { return; }
      BluetoothSafety.StoppedCalls(old(Now()), generation, Replaced);
      StartCall(Pairing, device.value.path, generation, token);
    }

    method RequestAction(kind: OperationKind, token: int, generation: int)
      modifies this`operation, this`serial, this`calls, this`discoveryTimer, this`active, this`discoveryAdapters,
        this`expiryTimer, this`scheduled
      ensures Now() == Act(old(Now()), kind, token, generation)
      ensures old(Valid() && Permitted(Now(), ActOn(kind, token, generation))) ==> Valid()
    {
      hide BluetoothSafety.Inv, Permitted, StopDiscovery, DeviceFor, ActionFor;
      Kept(Now(), ActOn(kind, token, generation));
      if !interest || !enabled || owner.None? { return; }
      StopBluetoothDiscovery(generation, Replaced);
      var device := DeviceForToken(token);
      if device.None? || operation.kind != Idle { return; }
      var allowed := Allowed(kind, device.value);
      if !allowed { return; }
      BluetoothSafety.StoppedCalls(old(Now()), generation, Replaced);
      StartCall(kind, if kind == Unpairing then device.value.adapterPath else device.value.path, generation, token);
    }

    method Allowed(kind: OperationKind, device: Device) returns (allowed: bool)
      ensures allowed == ActionFor(Now(), kind, device)
    {
      match kind {
        case Connecting => return device.paired && !device.connected;
        case Disconnecting => return device.connected;
        case Unpairing =>
          if !device.paired { return false; }
          var k := 0;
          while k < |adapters|
            invariant 0 <= k <= |adapters|
            invariant forall i :: 0 <= i < k ==> adapters[i].path != device.adapterPath
          {
            if adapters[k].path == device.adapterPath { return true; }
            k := k + 1;
          }
          return false;
        case _ => return false;
      }
    }

    // Begins the operation, if none is under way, and makes its call.
    method StartCall(kind: OperationKind, path: Path, generation: int, token: int)
      requires owner.Some?
      modifies this`operation, this`serial, this`calls
      ensures var begun := Begin(old(Now()), kind, generation, token);
        Now() == if old(operation).kind != Idle then old(Now())
                 else begun.(calls := begun.calls
                                      + {Call(owner.value, kind, false, path, generation, token, begun.serial)})
    {
      var begun := BeginOperation(kind, generation, token);
      if begun {
        calls := calls + {Call(owner.value, kind, false, path, generation, token, serial)};
      }
    }

    // ---- Replies ----

    method IsRelevant(c: Call) returns (yes: bool)
      ensures yes == Relevant(Now(), c)
    {
      if owner != Some(c.owner) || operation.kind != c.kind || operation.generation != c.generation { return false; }
      return c.kind != Pairing || operation.token == c.token;
    }

    method OnCallFinished(c: Call, reply: Reply, trusted: bool)
      modifies this`calls, this`operation, this`held, this`answered, this`dropped, this`scheduled
      ensures Now() == Finished(old(Now()), c, reply, trusted)
      ensures old(Valid() && c in calls && Permitted(Now(), CallFinished(c, reply, trusted))) ==> Valid()
    {
      hide BluetoothSafety.Inv, Permitted, Finish, ClearReply, Relevant, Schedule;
      Kept(Now(), CallFinished(c, reply, trusted));
      var relevant := IsRelevant(c);
      DropCall(c);
      if !relevant { return; }
      if c.kind == Pairing {
        if c.connecting {
          OnConnected(reply);
        } else {
          OnPaired(c, reply, trusted);
        }
      } else if reply.Refused? {
        FinishOperation(reply.failure, NoResult);
      } else {
        ScheduleRefresh();
      }
    }

    method DropCall(c: Call)
      modifies this`calls
      ensures Now() == old(Now()).(calls := old(calls) - {c})
    {
      calls := calls - {c};
    }

    method OnConnected(reply: Reply)
      modifies this`operation, this`held, this`answered, this`dropped, this`scheduled
      ensures Now() == Schedule(if reply.Refused? then Finish(old(Now()), ConnectionFailed, Paired)
                                else Finish(old(Now()), NoFailure, PairedConnected))
    {
      hide Finish;
      if reply.Refused? {
        FinishOperation(ConnectionFailed, Paired);
      } else {
        FinishOperation(NoFailure, PairedConnected);
      }
      ScheduleRefresh();
    }

    method OnPaired(c: Call, reply: Reply, trusted: bool)
      modifies this`operation, this`held, this`answered, this`dropped, this`scheduled, this`calls
      ensures var cleared := ClearReply(old(Now()), false);
        Now() == if reply.Refused? then Schedule(Finish(cleared, reply.failure, NoResult))
                 else if !trusted then Schedule(Finish(cleared, TrustFailed, Paired))
                 else cleared.(calls := cleared.calls + {c.(connecting := true)})
    {
      hide Finish, ClearReply;
      ClearPairingReply(false);
      if reply.Refused? {
        FinishOperation(reply.failure, NoResult);
        ScheduleRefresh();
      } else if !trusted {
        FinishOperation(TrustFailed, Paired);
        ScheduleRefresh();
      } else {
        calls := calls + {c.(connecting := true)};
      }
    }

    // ---- The agent ----

    method IsTarget(path: Path) returns (yes: bool)
      ensures yes == ForTarget(Now(), path)
    {
      hide DeviceFor;
      var target := DeviceForToken(operation.token);
      return operation.kind == Pairing && target.Some? && target.value.path == path;
    }

    method Show(prompt: Prompt, value: string, entered: nat)
      modifies this`operation
      ensures Now() == Shown(old(Now()), prompt, value, entered)
    {
      hide Left;
      SetOperation(operation.(prompt := prompt, value := Left(value), entered := Min(entered, MAX_VALUE)));
    }

    method HandleAgentPrompt(prompt: Prompt, path: Path, value: string, entered: nat, message: nat)
      modifies this`operation, this`held, this`answered, this`received
      ensures Now() == AgentPrompt(old(Now()), prompt, path, value, entered, message)
      ensures old(Valid()) && prompt != NoPrompt ==> Valid()
    {
      hide BluetoothSafety.Inv, ForTarget, Shown;
      if BluetoothSafety.Inv(Now()) && prompt != NoPrompt {
        BluetoothSafety.PromptKeeps(Now(), prompt, path, value, entered, message);
      }
      var wanted := IsTarget(path);
      Receive(message);
      if !wanted || held.Some? {
        Refuse(message);
      } else {
        Show(prompt, value, entered);
        Hold(message);
      }
    }

    method HandleAgentDisplay(prompt: Prompt, path: Path, value: string, entered: nat)
      modifies this`operation
      ensures Now() == AgentDisplay(old(Now()), prompt, path, value, entered)
      ensures old(Valid()) && prompt != NoPrompt ==> Valid()
    {
      hide BluetoothSafety.Inv, ForTarget, Shown;
      if BluetoothSafety.Inv(Now()) && prompt != NoPrompt {
        BluetoothSafety.DisplayKeeps(Now(), prompt, path, value, entered);
      }
      var wanted := IsTarget(path);
      if wanted {
        Show(prompt, value, entered);
      }
    }

    method Acceptable(response: Response) returns (ok: bool)
      ensures ok == BluetoothModel.Valid(operation.prompt, response)
    {
      match operation.prompt {
        case EnterPin => return response.length > 0 && response.length <= 16;
        case EnterPasskey =>
          if response.number.None? || response.length > 6 { return false; }
          return response.number.value <= 999999;
        case ConfirmPasskey => return true;
        case AuthorizePairing => return true;
        case _ => return false;
      }
    }

    method RespondToPrompt(generation: int, accepted: bool, response: Response)
      modifies this`operation, this`held, this`answered
      ensures Now() == Respond(old(Now()), generation, accepted, response)
      ensures old(Valid()) ==> Valid()
    {
      hide BluetoothSafety.Inv, Answers;
      if BluetoothSafety.Inv(Now()) {
        BluetoothSafety.RespondKeeps(Now(), generation, accepted, response);
      }
      var answers := WouldAnswer(generation, accepted, response);
      if answers {
        Answer();
        SetOperation(Quiet(operation));
      }
    }

    method WouldAnswer(generation: int, accepted: bool, response: Response) returns (yes: bool)
      ensures yes == Answers(Now(), generation, accepted, response)
      ensures yes ==> held.Some?
    {
      hide BluetoothModel.Valid;
      if operation.kind != Pairing || operation.generation != generation || held.None? { return false; }
      if !accepted { return true; }
      yes := Acceptable(response);
    }

    method OnAgentReleased()
      modifies this`operation, this`held, this`answered, this`dropped, this`agent, this`owner
      ensures Now() == AgentReleased(old(Now()))
      ensures old(Valid()) ==> Valid()
    {
      hide BluetoothSafety.Inv, Finish, ClearReply;
      if BluetoothSafety.Inv(Now()) {
        BluetoothSafety.GoneKeeps(Now());
      }
      ClearPairingReply(true);
      SetOwner(owner, false);
      FinishOperation(Backend, NoResult);
    }

    // ---- Owners ----

    method StopTimers()
      modifies this`scheduled, this`discoveryTimer, this`expiryTimer
      ensures Now() == old(Now()).(scheduled := false, discoveryTimer := false, expiryTimer := false)
    {
      scheduled, discoveryTimer, expiryTimer := false, false, false;
    }

    method DetachBluezOwner()
      modifies this`scheduled, this`discoveryTimer, this`expiryTimer, this`agent, this`owner, this`operation, this`held,
        this`answered, this`dropped
      ensures Now() == DetachOwner(old(Now()))
    {
      hide ClearReply;
      StopTimers();
      if owner.None? { return; }
      SetOwner(None, false);
      ClearPairingReply(true);
    }

    method AttachBluezOwner(newOwner: nat, registered: bool)
      modifies this`scheduled, this`discoveryTimer, this`expiryTimer, this`agent, this`owner, this`operation, this`held,
        this`answered, this`dropped
      ensures Now() == AttachOwner(old(Now()), newOwner, registered)
    {
      hide DetachOwner;
      if owner == Some(newOwner) { return; }
      if owner.Some? {
        DetachBluezOwner();
      }
      SetOwner(Some(newOwner), registered);
      ScheduleRefresh();
    }

    method Reset(failure: Failure, shown: Failure)
      modifies this`active, this`discoveryAdapters, this`discoveryTimer, this`expiryTimer, this`devices, this`adapters,
        this`tokens, this`nextToken, this`operation, this`held, this`answered, this`dropped, this`available,
        this`enabled
      ensures Now() == BluetoothModel.Reset(old(Now()), failure, shown) && TokensValid()
    {
      hide ManagerCleared;
      ClearManagerState(failure);
      SetRadio(false, false);
      SetOperation(operation.(failure := shown));
    }

    method OnBluezOwnerChanged(newOwner: Option<nat>, registered: bool)
      modifies this`active, this`discoveryAdapters, this`discoveryTimer, this`expiryTimer, this`devices, this`adapters,
        this`tokens, this`nextToken, this`operation, this`held, this`answered, this`dropped, this`available,
        this`enabled, this`owner, this`agent, this`scheduled
      ensures Now() == OwnerChanged(old(Now()), newOwner, registered) && TokensValid()
      ensures old(Valid()) ==> Valid()
    {
      hide BluetoothSafety.Inv, DetachOwner, BluetoothModel.Reset, AttachOwner, TokensApart;
      if BluetoothSafety.Inv(Now()) {
        BluetoothSafety.OwnerChangedKeeps(Now(), newOwner, registered);
      }
      DetachBluezOwner();
      Reset(OwnerReplaced, if newOwner.None? then Unavailable else NoFailure);
      if newOwner.Some? {
        AttachBluezOwner(newOwner.value, registered);
      }
    }

    // ---- Refreshes ----

    method SettleOperation(radioPending: bool)
      modifies this`operation, this`held, this`answered, this`dropped
      ensures Now() == Settle(old(Now()), radioPending)
      ensures BluetoothExact.SettlesTo(old(Now()), Now(), radioPending)
    {
      BluetoothExact.SettlesExactly(Now(), radioPending);
      hide BluetoothExact.SettlesTo;
      hide Finish, DeviceFor;
      if radioPending && !available { return; }
      var target := DeviceForToken(operation.token);
      if operation.kind == Connecting && target.Some? && target.value.connected {
        FinishOperation(NoFailure, Connected);
      } else if operation.kind == Disconnecting && (target.None? || !target.value.connected) {
        FinishOperation(NoFailure, Disconnected);
      } else if operation.kind == Unpairing && target.None? {
        FinishOperation(NoFailure, Unpaired);
      }
    }

    // Devices are named by their paths, and the counter does not come to its wrap.
    ghost predicate Fresh(found: seq<Found>)
      reads this`nextToken
    {
      DistinctPaths(found) && nextToken + |found| <= MAX_INT
    }

    ghost function Streamed(found: seq<Found>, now: int): Collection
      reads this`devices, this`operation, this`active, this`tokens, this`nextToken
    {
      var context := BluetoothTokens.Context(devices, operation.token, active, now);
      BluetoothTokens.Refreshed(tokens, nextToken, context, found)
    }

    // The devices are replaced by the streamed, bounded, sorted list.
    method TakeListing(listing: Listing, now: int)
      modifies this`devices, this`adapters, this`available, this`enabled, this`tokens, this`nextToken
      ensures Now() == Take(old(Now()), Snapshot(devices, listing.adapters))
      ensures |devices| <= MAX_DEVICES && Unreversed(devices, operation.token) && tokens == TokensOf(devices)
      ensures DistinctTokens(old(Streamed(listing.found, now)).appended) ==>
                devices == old(Streamed(listing.found, now)).kept
      ensures old(TokensValid() && Fresh(listing.found)) ==> TokensValid()
    {
      hide BluetoothTokens.Refreshed, Streamed, TokensApart, Unreversed, DistinctTokens, TokensOf, Take;
      var kept := StreamDevices(listing.found, now);
      Adopt(kept, listing.adapters);
    }

    method StreamDevices(found: seq<Found>, now: int) returns (kept: seq<Device>)
      modifies this`tokens, this`nextToken
      ensures Now() == old(Now())
      ensures |kept| <= MAX_DEVICES && Unreversed(kept, operation.token) && tokens == TokensOf(kept)
      ensures DistinctTokens(old(Streamed(found, now)).appended) ==> kept == old(Streamed(found, now)).kept
      ensures old(TokensValid() && Fresh(found)) ==> TokensApart(tokens, kept, nextToken)
    {
      hide BluetoothTokens.Refreshed, Injective, Unreversed, DistinctTokens, DistinctPaths, TokensOf;
      var context := BluetoothTokens.Context(devices, operation.token, active, now);
      if TokensValid() && Fresh(found) {
        UnwrappedIsSeparate(tokens, nextToken, context, found);
      }
      var collected := CollectDevices(tokens, nextToken, context, found);
      kept, tokens, nextToken := collected.kept, collected.tokens, collected.next;
    }

    method Adopt(devices: seq<Device>, adapters: seq<Adapter>)
      modifies this`devices, this`adapters, this`available, this`enabled
      ensures Now() == Take(old(Now()), Snapshot(devices, adapters)) && this.devices == devices
    {
      SetLists(devices, adapters);
      SetRadio(adapters != [], adapters != [] && exists a :: a in adapters && a.powered);
    }

    method BeginRefresh()
      modifies this`scheduled
      ensures Now() == old(Now()).(scheduled := false)
    {
      scheduled := false;
    }

    method RefreshBluez(listing: Option<Listing>, sameOwner: bool, radioPending: bool, now: int)
      modifies this
      ensures var snapshot := if listing.None? then None else Some(Snapshot(devices, listing.value.adapters));
              Now() == Refresh(old(Now()), snapshot, sameOwner, radioPending)
      ensures listing.Some? && sameOwner && old(owner).Some? ==>
                && |devices| <= MAX_DEVICES && tokens == TokensOf(devices)
                && (DistinctTokens(old(Streamed(listing.value.found, now)).appended) ==>
                      devices == old(Streamed(listing.value.found, now)).kept)
      ensures old(TokensValid()) && (listing.Some? ==> old(Fresh(listing.value.found))) ==> TokensValid()
      ensures old(Valid()) ==> Valid()
    {
      hide BluetoothSafety.Inv, Streamed, Settle, BluetoothModel.Reset, Take, TokensApart, DistinctTokens,
        Unreversed, TokensOf;
      RefreshKeeps(Now(), sameOwner, radioPending);
      BeginRefresh();
      if owner.None? { return; }
      if listing.None? {
        Reset(Backend, Backend);
      } else if sameOwner {
        ListAndSettle(listing.value, radioPending, now);
      }
    }

    method ListAndSettle(listing: Listing, radioPending: bool, now: int)
      modifies this`devices, this`adapters, this`available, this`enabled, this`tokens, this`nextToken, this`operation,
        this`held, this`answered, this`dropped
      ensures Now() == Settle(Take(old(Now()), Snapshot(devices, listing.adapters)), radioPending)
      ensures |devices| <= MAX_DEVICES && tokens == TokensOf(devices)
      ensures DistinctTokens(old(Streamed(listing.found, now)).appended) ==>
                devices == old(Streamed(listing.found, now)).kept
      ensures old(TokensValid() && Fresh(listing.found)) ==> TokensValid()
    {
      hide Streamed, Settle, Take, TokensApart, DistinctTokens, Unreversed, TokensOf;
      TakeListing(listing, now);
      SettleOperation(radioPending);
    }

    method SetRemaining(devices: seq<Device>, tokens: map<Path, int>)
      modifies this`devices, this`tokens, this`expiryTimer
      ensures Now() == old(Now()).(devices := devices, expiryTimer := false) && this.tokens == tokens
    {
      this.devices, this.tokens, expiryTimer := devices, tokens, false;
    }

    method ExpireDevices(now: int)
      modifies this`devices, this`tokens, this`expiryTimer
      ensures Now() == Expire(old(Now()), now) && tokens == TokensOf(devices)
      ensures old(TokensValid()) ==> TokensValid()
      ensures old(Valid()) ==> Valid()
    {
      hide BluetoothSafety.Inv, TokensApart, DistinctTokens, Remaining;
      if BluetoothSafety.Inv(Now()) {
        BluetoothSafety.ExpireKeeps(Now(), now);
      }
      var remaining := DropForgotten(devices, now);
      RemainingApart(tokens, devices, nextToken, remaining);
      var rebuilt := BuildTokens(remaining);
      SetRemaining(remaining, rebuilt);
    }
  }

  lemma {:induction false} PoweredMore(adapters: seq<Adapter>, k: nat)
    requires k < |adapters|
    ensures Powered(adapters[..k + 1])
            == Powered(adapters[..k]) + if adapters[k].powered then [adapters[k].path] else []
    decreases k
  {
    assert adapters[..k + 1][1..] == adapters[1..][..k];
    if k > 0 {
      PoweredMore(adapters[1..], k - 1);
      assert adapters[..k][1..] == adapters[1..][..k - 1];
    }
  }

  method DropForgotten(devices: seq<Device>, now: int) returns (remaining: seq<Device>)
    ensures remaining == Remaining(devices, now)
    ensures forall d :: d in remaining ==> d in devices
    ensures DistinctTokens(devices) ==> DistinctTokens(remaining)
  {
    remaining := [];
    var k := 0;
    while k < |devices|
      invariant 0 <= k <= |devices|
      invariant remaining + Remaining(devices[k..], now) == Remaining(devices, now)
      invariant forall d :: d in remaining ==> d in devices[..k]
      invariant DistinctTokens(devices) ==> DistinctTokens(remaining)
    {
      var d := devices[k];
      assert devices[..k + 1] == devices[..k] + [d];
      if DistinctTokens(devices) {
        EarlierApart(devices, k);
      }
      assert devices[k..][1..] == devices[k + 1..];
      if d.paired || d.connected || !(d.lastSeen == 0 || now - d.lastSeen >= DISCOVERED_RETENTION_MS) {
        remaining := remaining + [d];
      }
      k := k + 1;
    }
    assert devices[k..] == [];
  }

  // ---- One refresh of the list ----

  method SortDevices(devices: seq<Device>, target: int) returns (sorted: seq<Device>)
    ensures Unreversed(sorted, target) && multiset(sorted) == multiset(devices)
    ensures DistinctTokens(devices) ==> IsSorted(sorted, target)
  {
    hide Before, Insert;
    sorted := [];
    var k := 0;
    while k < |devices|
      invariant 0 <= k <= |devices| && sorted == Sorted(devices[..k], target)
    {
      assert devices[..k + 1][..k] == devices[..k];
      sorted := Insert(devices[k], sorted, target);
      k := k + 1;
    }
    assert devices[..k] == devices;
    SortedUnreversed(devices, target);
    SortedMultiset(devices, target);
    if DistinctTokens(devices) {
      SortedSorted(devices, target);
    }
  }

  method BuildTokens(devices: seq<Device>) returns (tokens: map<Path, int>)
    ensures tokens == TokensOf(devices)
  {
    tokens := map[];
    var k := 0;
    while k < |devices|
      invariant 0 <= k <= |devices| && tokens == TokensOf(devices[..k])
    {
      assert devices[..k + 1][..k] == devices[..k];
      tokens := tokens[devices[k].path := devices[k].token];
      k := k + 1;
    }
    assert devices[..k] == devices;
  }

  method FindSeen(previous: seq<Device>, path: Path) returns (seen: int)
    ensures seen == PreviousSeen(previous, path)
  {
    var k := 0;
    while k < |previous|
      invariant 0 <= k <= |previous|
      invariant PreviousSeen(previous, path) == PreviousSeen(previous[k..], path)
    {
      if previous[k].path == path { return previous[k].lastSeen; }
      assert previous[k..][1..] == previous[k + 1..];
      k := k + 1;
    }
    return 0;
  }

  // Appends one device and, when there are too many, sorts and cuts.
  method CollectOne(c: Collection, context: Context, f: Found) returns (d: Collection)
    ensures |c.kept| <= MAX_DEVICES ==> |d.kept| <= MAX_DEVICES
    ensures d.appended == Collect(c, context, f).appended && d.next == Collect(c, context, f).next
    ensures Forgotten(context, f) || DistinctTokens(c.kept + [Record(c, context, f)]) ==> d == Collect(c, context, f)
  {
    hide Before, Sorted;
    var seen := context.now;
    if !context.active {
      seen := FindSeen(context.previous, f.path);
    }
    if !f.paired && !f.connected && !context.active
       && (seen == 0 || context.now - seen >= DISCOVERED_RETENTION_MS) {
      return c;
    }
    var token := c.next;
    d := c;
    if f.path in c.tokens {
      token := c.tokens[f.path];
    } else {
      d := d.(tokens := d.tokens[f.path := token], next := NextToken(d.next));
    }
    var device := Device(token, f.path, f.adapterPath, f.folded, f.paired, f.connected, seen);
    d := d.(kept := d.kept + [device], appended := d.appended + [device]);
    if |d.kept| > MAX_DEVICES {
      var sorted := SortDevices(d.kept, context.target);
      if DistinctTokens(d.kept) {
        SortedIs(d.kept, sorted, context.target);
      }
      var rebuilt := BuildTokens(Cut(sorted));
      d := d.(kept := Cut(sorted), tokens := rebuilt);
    }
  }

  lemma SortedIs(devices: seq<Device>, sorted: seq<Device>, target: int)
    requires DistinctTokens(devices) && IsSorted(sorted, target) && multiset(sorted) == multiset(devices)
    ensures sorted == Sorted(devices, target)
  {
    hide Before, Insert;
    SortedSorted(devices, target);
    SortedMultiset(devices, target);
    SortedUnique(sorted, Sorted(devices, target), target);
  }

  // The streamed list; which of the records with a repeated token stay is up to the sort.
  method CollectDevices(tokens: map<Path, int>, next: int, context: Context, found: seq<Found>)
    returns (c: Collection)
    ensures |c.kept| <= MAX_DEVICES && Unreversed(c.kept, context.target) && c.tokens == TokensOf(c.kept)
    ensures var all := BluetoothTokens.Refreshed(tokens, next, context, found);
      DistinctTokens(all.appended) ==> c == all
  {
    hide Collect, Before, Insert, StandsFor, Sorted, TokensOf;
    var start := Collection([], tokens, next, []);
    ghost var all := CollectAll(start, context, found);
    c := start;
    var k := 0;
    assert StandsFor(c.kept, c.appended, context.target) by { NoneStands(context.target); }
    while k < |found|
      invariant 0 <= k <= |found| && |c.kept| <= MAX_DEVICES
      invariant DistinctTokens(all.appended) ==>
                  Streams(c, context.target) && CollectAll(c, context, found[k..]) == all
    {
      assert found[k..][0] == found[k] && found[k..][1..] == found[k + 1..];
      if DistinctTokens(all.appended) {
        Next(c, context, found, k);
      }
      c := CollectOne(c, context, found[k]);
      k := k + 1;
    }
    assert found[k..] == [];
    var sorted := SortDevices(c.kept, context.target);
    if DistinctTokens(all.appended) {
      SortedIs(c.kept, sorted, context.target);
    }
    assert |sorted| == |c.kept| by { assert |multiset(sorted)| == |sorted| && |multiset(c.kept)| == |c.kept|; }
    var rebuilt := BuildTokens(sorted);
    c := c.(kept := sorted, tokens := rebuilt);
  }

  lemma NoneStands(target: int)
    ensures StandsFor([], [], target)
  {
  }

  lemma Next(c: Collection, context: Context, found: seq<Found>, k: nat)
    requires k < |found| && Streams(c, context.target)
    requires DistinctTokens(CollectAll(c, context, found[k..]).appended)
    ensures CollectAll(c, context, found[k..]) == CollectAll(Collect(c, context, found[k]), context, found[k + 1..])
    ensures Streams(Collect(c, context, found[k]), context.target)
    ensures Forgotten(context, found[k]) || DistinctTokens(c.kept + [Record(c, context, found[k])])
  {
    hide StandsFor;
    assert found[k..][0] == found[k] && found[k..][1..] == found[k + 1..];
    var d := Collect(c, context, found[k]);
    AllAppendedGrows(d, context, found[k + 1..]);
    PrefixDistinct(d.appended, CollectAll(d, context, found[k + 1..]).appended);
    CollectStreams(c, context, found[k]);
    if !Forgotten(context, found[k]) {
      AppendDistinct(c, Record(c, context, found[k]));
    }
  }

  lemma EarlierApart(devices: seq<Device>, k: nat)
    requires DistinctTokens(devices) && k < |devices|
    ensures forall d :: d in devices[..k] ==> d.token != devices[k].token
  {
  }
}
