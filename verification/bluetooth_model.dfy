/**
  * The Bluetooth operation machine: one operation at a time, driven by commands, replies to
  * outstanding calls, the pairing agent's callbacks, timers, refreshes and owner changes.
  */
module BluetoothModel {
  import opened Basics
  import opened BluetoothList

  datatype OperationKind = Idle | Discovering | Pairing | Connecting | Disconnecting | Unpairing

  datatype Prompt =
    NoPrompt | EnterPin | EnterPasskey | ConfirmPasskey | AuthorizePairing | DisplayPin | DisplayPasskey

  // Service is a failure reported by the service itself, by its normalised name.
  datatype Failure =
    | NoFailure | Cancelled | Backend | OwnerReplaced | Unavailable | TrustFailed | ConnectionFailed
    | Service(name: string)

  datatype Outcome =
    | NoResult | WasCancelled | Broken | Replaced | Stopped | Expired
    | Paired | PairedConnected | Connected | Disconnected | Unpaired

  datatype Operation = Operation(kind: OperationKind, failure: Failure, result: Outcome, prompt: Prompt,
                                 value: string, entered: int, generation: int, token: int)

  datatype Adapter = Adapter(path: Path, powered: bool)

  // A call made to the service; `connecting` is the call that follows a pairing.
  // The serial records which operation made it.
  datatype Call = Call(owner: nat, kind: OperationKind, connecting: bool, path: Path, generation: int, token: int,
                       serial: nat)

  // received, answered and dropped record what became of the agent's prompts, by message.
  datatype State = State(owner: Option<nat>, agent: bool, interest: bool, available: bool, enabled: bool,
                         devices: seq<Device>, adapters: seq<Adapter>, operation: Operation, held: Option<nat>,
                         active: bool, discoveryAdapters: seq<Path>, discoveryTimer: bool, expiryTimer: bool,
                         scheduled: bool, serial: nat, calls: set<Call>, received: multiset<nat>,
                         answered: multiset<nat>, dropped: multiset<nat>)

  const NO_OPERATION := Operation(Idle, NoFailure, NoResult, NoPrompt, "", 0, 0, 0)

  const INITIAL := State(None, false, false, false, false, [], [], NO_OPERATION, None, false, [], false, false,
                         false, 0, {}, multiset{}, multiset{}, multiset{})

  const MAX_VALUE: nat := 16

  function Left(value: string): string {
    if |value| <= MAX_VALUE then value else value[..MAX_VALUE]
  }

  function DeviceFor(devices: seq<Device>, token: int): Option<Device> {
    if devices == [] then None
    else if devices[0].token == token then Some(devices[0])
    else DeviceFor(devices[1..], token)
  }

  function Quiet(operation: Operation): Operation {
    operation.(prompt := NoPrompt, value := "", entered := 0)
  }

  // ---- Operations ----

  function ClearReply(s: State, reject: bool): State {
    var cleared := s.(operation := Quiet(s.operation));
    if s.held.None? then cleared
    else if reject then cleared.(held := None, answered := s.answered + multiset{s.held.value})
    else cleared.(held := None, dropped := s.dropped + multiset{s.held.value})
  }

  function Finish(s: State, failure: Failure, result: Outcome): State {
    var cleared := ClearReply(s, failure != NoFailure);
    cleared.(operation := cleared.operation.(kind := Idle, failure := failure, result := result, token := 0))
  }

  function Begin(s: State, kind: OperationKind, generation: int, token: int): State {
    s.(operation := Operation(kind, NoFailure, NoResult, NoPrompt, "", 0, generation, token), serial := s.serial + 1)
  }

  function Schedule(s: State): State {
    if s.owner.None? then s else s.(scheduled := true)
  }

  function ManagerCleared(s: State, failure: Failure): State {
    ClearReply(s.(discoveryTimer := false, expiryTimer := false, active := false, discoveryAdapters := [],
                  devices := [], adapters := []), true)
      .(operation := NO_OPERATION.(failure := failure))
  }

  // ---- Discovery ----

  function Powered(adapters: seq<Adapter>): seq<Path> {
    if adapters == [] then []
    else if adapters[0].powered then [adapters[0].path] + Powered(adapters[1..])
    else Powered(adapters[1..])
  }

  function StopDiscovery(s: State, generation: int, result: Outcome): State {
    if !s.active then s else
    Schedule(s.(discoveryTimer := false, active := false, discoveryAdapters := [], expiryTimer := true,
                operation := s.operation.(kind := Idle, generation := generation, result := result,
                                          failure := if result == Broken then Backend else NoFailure)))
  }

  // `started` of the powered adapters took the discovery before one failed.
  function StartDiscovery(s: State, generation: int, started: nat): State {
    if !s.interest || !s.available || !s.enabled || s.owner.None? || s.operation.kind != Idle then s else
    var powered := Powered(s.adapters);
    var took := powered[..Min(started, |powered|)];
    if |took| != |powered| || took == [] then
      StopDiscovery(s.(discoveryAdapters := took, active := true), generation, Broken)
    else
      Schedule(s.(discoveryAdapters := took, active := true, discoveryTimer := true,
                  operation := s.operation.(kind := Discovering, failure := NoFailure, result := NoResult,
                                            generation := generation, token := 0)))
  }

  // ---- Pairing ----

  function CancelPairing(s: State, generation: int): State {
    if s.operation.kind != Pairing then s
    else Finish(s.(operation := s.operation.(generation := generation)), Cancelled, WasCancelled)
  }

  function SetInterest(s: State, interested: bool, generation: int): State {
    var set1 := s.(interest := interested);
    if interested then set1
    else StopDiscovery(CancelPairing(set1, generation), generation, WasCancelled)
  }

  // Turning the radio off ends a pairing and a discovery first.
  function TurnOff(s: State, generation: int): State {
    if !s.available || s.owner.None? || !s.enabled then s
    else StopDiscovery(CancelPairing(s, generation), generation, WasCancelled)
  }

  function Prepared(s: State, generation: int): State {
    StopDiscovery(s, generation, Replaced)
  }

  function Pair(s: State, token: int, generation: int): State {
    if !s.interest || !s.agent || !s.enabled || s.owner.None? then s else
    var ready := Prepared(s, generation);
    var device := DeviceFor(ready.devices, token);
    if device.None? || device.value.paired || ready.operation.kind != Idle then ready else
    var begun := Begin(ready, Pairing, generation, token);
    begun.(calls := begun.calls
                    + {Call(s.owner.value, Pairing, false, device.value.path, generation, token, begun.serial)})
  }

  function ActionFor(s: State, kind: OperationKind, device: Device): bool {
    match kind
    case Connecting => device.paired && !device.connected
    case Disconnecting => device.connected
    case Unpairing => device.paired && exists a :: a in s.adapters && a.path == device.adapterPath
    case _ => false
  }

  function Act(s: State, kind: OperationKind, token: int, generation: int): State {
    if !s.interest || !s.enabled || s.owner.None? then s else
    var ready := Prepared(s, generation);
    var device := DeviceFor(ready.devices, token);
    if device.None? || ready.operation.kind != Idle || !ActionFor(ready, kind, device.value) then ready else
    var begun := Begin(ready, kind, generation, token);
    var path := if kind == Unpairing then device.value.adapterPath else device.value.path;
    begun.(calls := begun.calls + {Call(s.owner.value, kind, false, path, generation, token, begun.serial)})
  }

  // ---- Replies ----

  datatype Reply = Answered | Refused(failure: Failure)

  // The reply is for the operation under way, as far as the bridge can tell.
  predicate Relevant(s: State, c: Call) {
    && s.owner == Some(c.owner) && s.operation.kind == c.kind && s.operation.generation == c.generation
    && (c.kind == Pairing ==> s.operation.token == c.token)
  }

  // `trusted` is the answer to the call that trusts the device before connecting.
  function Finished(s: State, c: Call, reply: Reply, trusted: bool): State {
    var done := s.(calls := s.calls - {c});
    if !Relevant(s, c) then done
    else if c.kind != Pairing then
      (if reply.Refused? then Finish(done, reply.failure, NoResult) else Schedule(done))
    else if c.connecting then
      Schedule(if reply.Refused? then Finish(done, ConnectionFailed, Paired)
               else Finish(done, NoFailure, PairedConnected))
    else
      var cleared := ClearReply(done, false);
      if reply.Refused? then Schedule(Finish(cleared, reply.failure, NoResult))
      else if !trusted then Schedule(Finish(cleared, TrustFailed, Paired))
      else cleared.(calls := cleared.calls + {c.(connecting := true)})
  }

  // ---- The agent ----

  predicate ForTarget(s: State, path: Path) {
    && s.operation.kind == Pairing
    && var target := DeviceFor(s.devices, s.operation.token);
       target.Some? && target.value.path == path
  }

  function Shown(s: State, prompt: Prompt, value: string, entered: nat): State {
    s.(operation := s.operation.(prompt := prompt, value := Left(value), entered := Min(entered, MAX_VALUE)))
  }

  function AgentPrompt(s: State, prompt: Prompt, path: Path, value: string, entered: nat, message: nat): State {
    var asked := s.(received := s.received + multiset{message});
    if !ForTarget(s, path) || s.held.Some? then asked.(answered := s.answered + multiset{message})
    else Shown(asked, prompt, value, entered).(held := Some(message))
  }

  function AgentDisplay(s: State, prompt: Prompt, path: Path, value: string, entered: nat): State {
    if ForTarget(s, path) then Shown(s, prompt, value, entered) else s
  }

  // A response with its length and, when it reads as a number, that number.
  datatype Response = Response(length: nat, number: Option<nat>)

  predicate Valid(prompt: Prompt, response: Response) {
    match prompt
    case EnterPin => 0 < response.length <= 16
    case EnterPasskey => response.number.Some? && response.length <= 6 && response.number.value <= 999999
    case ConfirmPasskey => true
    case AuthorizePairing => true
    case _ => false
  }

  predicate Answers(s: State, generation: int, accepted: bool, response: Response) {
    && s.operation.kind == Pairing && s.operation.generation == generation && s.held.Some?
    && (accepted ==> Valid(s.operation.prompt, response))
  }

  function Respond(s: State, generation: int, accepted: bool, response: Response): State {
    if !Answers(s, generation, accepted, response) then s
    else s.(answered := s.answered + multiset{s.held.value}, held := None, operation := Quiet(s.operation))
  }

  function AgentReleased(s: State): State {
    Finish(ClearReply(s, true).(agent := false), Backend, NoResult)
  }

  // ---- Refreshes and owners ----

  datatype Snapshot = Snapshot(devices: seq<Device>, adapters: seq<Adapter>)

  function Take(s: State, snapshot: Snapshot): State {
    var available := snapshot.adapters != [];
    s.(devices := snapshot.devices, adapters := snapshot.adapters, available := available,
       enabled := available && exists a :: a in snapshot.adapters && a.powered)
  }

  // An operation ends once its target shows its result. A radio request that waits for
  // adapters which are gone ends the refresh early.
  function Settle(s: State, radioPending: bool): State {
    var target := DeviceFor(s.devices, s.operation.token);
    if radioPending && !s.available then s
    else if s.operation.kind == Connecting && target.Some? && target.value.connected
    then Finish(s, NoFailure, Connected)
    else if s.operation.kind == Disconnecting && (target.None? || !target.value.connected)
    then Finish(s, NoFailure, Disconnected)
    else if s.operation.kind == Unpairing && target.None? then Finish(s, NoFailure, Unpaired)
    else s
  }

  function Refresh(s: State, snapshot: Option<Snapshot>, sameOwner: bool, radioPending: bool): State {
    var begun := s.(scheduled := false);
    if s.owner.None? then begun
    else if snapshot.None? then Reset(begun, Backend, Backend)
    else if !sameOwner then begun
    else Settle(Take(begun, snapshot.value), radioPending)
  }

  function Expire(s: State, now: int): State {
    s.(devices := Remaining(s.devices, now), expiryTimer := false)
  }

  function Remaining(devices: seq<Device>, now: int): seq<Device> {
    if devices == [] then []
    else if !devices[0].paired && !devices[0].connected
            && (devices[0].lastSeen == 0 || now - devices[0].lastSeen >= DISCOVERED_RETENTION_MS)
    then Remaining(devices[1..], now)
    else [devices[0]] + Remaining(devices[1..], now)
  }

  function DetachOwner(s: State): State {
    var quiet := s.(scheduled := false, discoveryTimer := false, expiryTimer := false);
    if s.owner.None? then quiet else ClearReply(quiet.(agent := false, owner := None), true)
  }

  function AttachOwner(s: State, owner: nat, registered: bool): State {
    if s.owner == Some(owner) then s else
    var detached := if s.owner.Some? then DetachOwner(s) else s;
    Schedule(detached.(owner := Some(owner), agent := registered))
  }

  function Reset(s: State, failure: Failure, shown: Failure): State {
    var cleared := ManagerCleared(s, failure).(available := false, enabled := false);
    cleared.(operation := cleared.operation.(failure := shown))
  }

  function OwnerChanged(s: State, owner: Option<nat>, registered: bool): State {
    var failed := Reset(DetachOwner(s), OwnerReplaced, if owner.None? then Unavailable else NoFailure);
    if owner.Some? then AttachOwner(failed, owner.value, registered) else failed
  }

  // ---- Runs ----

  datatype Event =
    | Interest(interested: bool, generation: int)
    | Scan(generation: int, started: nat)
    | StopScan(generation: int)
    | Cancel(generation: int)
    | RadioOff(generation: int)
    | PairWith(token: int, generation: int)
    | ActOn(kind: OperationKind, token: int, generation: int)
    | Responded(generation: int, accepted: bool, response: Response)
    | CallFinished(call: Call, reply: Reply, trusted: bool)
    | Prompted(prompt: Prompt, path: Path, value: string, entered: nat, message: nat)
    | Displayed(prompt: Prompt, path: Path, value: string, entered: nat)
    | AgentCancelled
    | AgentGone
    | DiscoveryTimeout(generation: int)
    | ExpiryTimeout(now: int)
    | Refreshed(snapshot: Option<Snapshot>, sameOwner: bool, radioPending: bool)
    | NewOwner(owner: Option<nat>, registered: bool)

  function Apply(s: State, event: Event): State {
    match event
    case Interest(interested, generation) => SetInterest(s, interested, generation)
    case Scan(generation, started) => StartDiscovery(s, generation, started)
    case StopScan(generation) => StopDiscovery(s, generation, Stopped)
    case Cancel(generation) => CancelPairing(s, generation)
    case RadioOff(generation) => TurnOff(s, generation)
    case PairWith(token, generation) => Pair(s, token, generation)
    case ActOn(kind, token, generation) => Act(s, kind, token, generation)
    case Responded(generation, accepted, response) => Respond(s, generation, accepted, response)
    case CallFinished(call, reply, trusted) => if call in s.calls then Finished(s, call, reply, trusted) else s
    case Prompted(prompt, path, value, entered, message) => AgentPrompt(s, prompt, path, value, entered, message)
    case Displayed(prompt, path, value, entered) => AgentDisplay(s, prompt, path, value, entered)
    case AgentCancelled => Finish(s, Cancelled, WasCancelled)
    case AgentGone => AgentReleased(s)
    case DiscoveryTimeout(generation) => StopDiscovery(s, generation, Expired)
    case ExpiryTimeout(now) => Expire(s, now)
    case Refreshed(snapshot, sameOwner, radioPending) => Refresh(s, snapshot, sameOwner, radioPending)
    case NewOwner(owner, registered) => OwnerChanged(s, owner, registered)
  }

  function Run(s: State, events: seq<Event>): State
    decreases |events|
  {
    if events == [] then s else Run(Apply(s, events[0]), events[1..])
  }

  // Generations of new operations are not those of outstanding calls; the agent prompts
  // with prompts, displays with displays; refused calls carry a failure.
  ghost predicate Permitted(s: State, event: Event) {
    match event
    case PairWith(_, generation) => forall c :: c in s.calls ==> c.generation != generation
    case ActOn(_, _, generation) => forall c :: c in s.calls ==> c.generation != generation
    case Prompted(prompt, _, _, _, _) => prompt in {EnterPin, EnterPasskey, ConfirmPasskey, AuthorizePairing}
    case Displayed(prompt, _, _, _) => prompt in {DisplayPin, DisplayPasskey}
    case CallFinished(_, reply, _) => reply.Refused? ==> reply.failure != NoFailure
    case _ => true
  }

  ghost predicate AllPermitted(s: State, events: seq<Event>)
    decreases |events|
  {
    events == [] || (Permitted(s, events[0]) && AllPermitted(Apply(s, events[0]), events[1..]))
  }
}
