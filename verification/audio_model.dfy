/**
  * The audio bridge: for each of two roles, at most one volume or mute write is under way
  * at the sound server; it is acknowledged by a synchronisation, then confirmed by reading
  * the node back. Whatever the server does is a parameter of the step.
  */
module AudioModel {
  import opened Basics
  import opened Volume

  datatype Role = Output | Input
  datatype Kind = SetVolume | SetMute

  datatype Request = Request(kind: Kind, role: Role, node: nat, generation: nat, id: nat, volume: real,
                             muted: bool, final: bool)

  // The binding is the object made for the tracked node, named by the node's id.
  datatype RoleState = RoleState(node: Option<nat>, generation: nat, binding: Option<nat>, volumeInFlight: bool,
                                 muteInFlight: bool, queuedVolume: Option<Request>, queuedMute: Option<Request>)

  datatype Binding = Binding(hasVolumes: bool, hasMute: bool, volumes: seq<real>, muted: bool)

  datatype Reason = Stale | NotReady | InvalidState | Refused | SyncFailed | ReadbackFailed

  // What the bridge says, and for the record what it was asked and what it sent: for a volume the
  // cubic level written to each channel.
  datatype Message =
    | Tracked(role: Role)
    | Received(request: Request)
    | Accepted(request: Request)
    | Dispatched(request: Request, written: seq<real>)
    | Confirmed(request: Request, average: real, muted: bool)
    | Failed(request: Request, reason: Reason)
    | External(role: Role, node: nat, generation: nat, average: real, muted: bool)
    | Unavailable(role: Role, generation: nat)

  datatype State = State(ready: bool, initialSync: int, nextReadback: int, output: RoleState, input: RoleState,
                         known: set<nat>, bindings: map<nat, Binding>, syncs: map<int, Request>,
                         readbacks: map<int, Request>, log: seq<Message>)

  // What the server answers to the calls one step makes.
  datatype Server = Server(unbindable: set<nat>, refusesWrite: bool, sync: int, refusesReadback: bool)

  const UNTRACKED := RoleState(None, 0, None, false, false, None, None)

  const FIRST_READBACK: int := 1000

  function RoleOf(s: State, role: Role): RoleState {
    if role == Output then s.output else s.input
  }

  function PutRole(s: State, role: Role, r: RoleState): State {
    if role == Output then s.(output := r) else s.(input := r)
  }

  function Post(s: State, message: Message): State {
    s.(log := s.log + [message])
  }

  predicate Busy(r: RoleState) {
    r.volumeInFlight || r.muteInFlight
  }

  // The request is about what the role tracks now.
  predicate Current(r: RoleState, q: Request) {
    r.node == Some(q.node) && r.generation == q.generation
  }

  // ---- State messages ----

  predicate Complete(b: Binding) {
    b.hasVolumes && b.hasMute && b.volumes != []
  }

  function PostExternal(s: State, role: Role): State {
    var r := RoleOf(s, role);
    if r.binding.None? || r.binding.value !in s.bindings || !Complete(s.bindings[r.binding.value]) then s else
    var b := s.bindings[r.binding.value];
    Post(s, External(role, r.binding.value, r.generation, Average(b.volumes), b.muted))
  }

  function PostConfirmed(s: State, q: Request, node: nat): State {
    if node !in s.bindings || !Complete(s.bindings[node]) then s else
    Post(s, Confirmed(q, Average(s.bindings[node].volumes), s.bindings[node].muted))
  }

  // ---- Bindings ----

  function EnsureBinding(s: State, server: Server, node: nat): (State, Option<nat>) {
    if node in s.bindings then (s, Some(node))
    else if node !in s.known || node in server.unbindable then (s, None)
    else (s.(bindings := s.bindings[node := Binding(false, false, [], false)]), Some(node))
  }

  function EnsureRole(s: State, server: Server, role: Role): State {
    var r := RoleOf(s, role);
    if r.node.None? || r.binding.Some? || r.node.value !in s.known then s else
    var (bound, binding) := EnsureBinding(s, server, r.node.value);
    PostExternal(PutRole(bound, role, r.(binding := binding)), role)
  }

  function EnsureTracked(s: State, server: Server): State {
    if !s.ready then s else EnsureRole(EnsureRole(s, server, Output), server, Input)
  }

  function DropRole(s: State, role: Role, node: nat): State {
    var r := RoleOf(s, role);
    if r.binding != Some(node) then s else
    Post(PutRole(s, role, r.(binding := None, volumeInFlight := false, muteInFlight := false,
                             queuedVolume := None, queuedMute := None)),
         Unavailable(role, r.generation))
  }

  function WithoutNode(requests: map<int, Request>, node: nat): map<int, Request> {
    map k | k in requests && requests[k].node != node :: requests[k]
  }

  function RemoveBinding(s: State, node: nat): State {
    if node !in s.bindings then s else
    var dropped := DropRole(DropRole(s, Output, node), Input, node);
    dropped.(syncs := WithoutNode(dropped.syncs, node), readbacks := WithoutNode(dropped.readbacks, node),
             bindings := dropped.bindings - {node})
  }

  function ReleaseIfUnused(s: State, node: Option<nat>): State {
    if node.None? || s.output.node == node || s.input.node == node then s else RemoveBinding(s, node.value)
  }

  // ---- Commands ----

  function Track(s: State, server: Server, role: Role, node: nat, generation: nat): State {
    var replaced := Post(PutRole(s, role, UNTRACKED.(node := Some(node), generation := generation)), Tracked(role));
    var released := ReleaseIfUnused(replaced, RoleOf(s, role).node);
    var tracked := EnsureTracked(released, server);
    if RoleOf(tracked, role).binding.None? && s.ready && node !in s.known
    then Post(tracked, Unavailable(role, generation)) else tracked
  }

  function Untrack(s: State, role: Role, generation: nat): State {
    if RoleOf(s, role).generation != generation then s else
    ReleaseIfUnused(PutRole(s, role, UNTRACKED), RoleOf(s, role).node)
  }

  function Fly(r: RoleState, kind: Kind, flying: bool): RoleState {
    if kind == SetVolume then r.(volumeInFlight := flying) else r.(muteInFlight := flying)
  }

  function ClearInFlight(s: State, q: Request): State {
    var r := RoleOf(s, q.role);
    if Current(r, q) then PutRole(s, q.role, Fly(r, q.kind, false)) else s
  }

  function Sendable(s: State, q: Request): Option<Reason> {
    var r := RoleOf(s, q.role);
    if r.binding != Some(q.node) || q.node !in s.bindings then Some(Stale) else
    var b := s.bindings[q.node];
    if q.kind == SetVolume && (!b.hasVolumes || b.volumes == []) then Some(NotReady)
    else if q.kind == SetVolume && Scaled(b.volumes, q.volume).None? then Some(InvalidState)
    else None
  }

  // The levels sent to the node's channels; muting sends none.
  function Written(s: State, q: Request): seq<real> {
    if q.kind == SetMute || q.node !in s.bindings then [] else
    match Scaled(s.bindings[q.node].volumes, q.volume)
    case Some(levels) => levels
    case None => []
  }

  function Dispatch(s: State, server: Server, q: Request): State {
    var fault := Sendable(s, q);
    if fault.Some? then Post(s, Failed(q, fault.value))
    else if server.refusesWrite then Post(s, Failed(q, Refused)) else
    var sent := Post(PutRole(s, q.role, Fly(RoleOf(s, q.role), q.kind, true)), Dispatched(q, Written(s, q)));
    if server.sync < 0 then Post(ClearInFlight(sent, q), Failed(q, SyncFailed))
    else sent.(syncs := sent.syncs[server.sync := q])
  }

  function Enqueue(r: RoleState, q: Request): RoleState {
    if q.kind == SetVolume then r.(queuedVolume := Some(q)) else r.(queuedMute := Some(q))
  }

  function Ask(s: State, server: Server, q: Request): State {
    var received := Post(s, Received(q));
    var r := RoleOf(s, q.role);
    if !Current(r, q) || r.binding.None? then Post(received, Failed(q, Stale)) else
    var accepted := Post(received, Accepted(q));
    if Busy(r) then PutRole(accepted, q.role, Enqueue(r, q)) else Dispatch(accepted, server, q)
  }

  function DispatchQueued(s: State, server: Server, role: Role): State {
    var r := RoleOf(s, role);
    if Busy(r) then s
    else if r.queuedMute.Some? then Dispatch(PutRole(s, role, r.(queuedMute := None)), server, r.queuedMute.value)
    else if r.queuedVolume.Some? then Dispatch(PutRole(s, role, r.(queuedVolume := None)), server, r.queuedVolume.value)
    else s
  }

  // ---- Server events ----

  function BeginReadback(s: State, server: Server, q: Request): State {
    var r := RoleOf(s, q.role);
    if !Current(r, q) || r.binding.None? then ClearInFlight(s, q) else
    var key := s.nextReadback + 1;
    var asked := s.(nextReadback := key, readbacks := s.readbacks[key := q]);
    if server.refusesReadback
    then Post(ClearInFlight(asked.(readbacks := asked.readbacks - {key}), q), Failed(q, ReadbackFailed))
    else asked
  }

  function CompleteRequest(s: State, server: Server, q: Request, node: nat): State {
    var r := RoleOf(s, q.role);
    if !Current(r, q) || r.binding != Some(node) then s
    else DispatchQueued(ClearInFlight(PostConfirmed(s, q, node), q), server, q.role)
  }

  function CoreDone(s: State, server: Server, sequence: int): State {
    if sequence == s.initialSync then EnsureTracked(s.(ready := true), server)
    else if sequence !in s.syncs then s
    else BeginReadback(s.(syncs := s.syncs - {sequence}), server, s.syncs[sequence])
  }

  ghost predicate IsSole(s: State, node: nat, key: int) {
    && key in s.readbacks && s.readbacks[key].node == node
    && forall k :: k in s.readbacks && s.readbacks[k].node == node ==> k == key
  }

  // The answer's own sequence, or the only readback of the node.
  ghost function Answered(s: State, node: nat, sequence: int): Option<int> {
    if sequence in s.readbacks then Some(sequence)
    else if exists key :: IsSole(s, node, key) then
      var key :| IsSole(s, node, key); Some(key)
    else None
  }

  function Refreshed(b: Binding, volumes: Option<seq<real>>, muted: Option<bool>): Binding {
    b.(hasVolumes := b.hasVolumes || volumes.Some?, volumes := if volumes.Some? then volumes.value else b.volumes,
       hasMute := b.hasMute || muted.Some?, muted := if muted.Some? then muted.value else b.muted)
  }

  function PublishExternal(s: State, role: Role, node: nat): State {
    var r := RoleOf(s, role);
    if r.binding != Some(node) || Busy(r) then s else PostExternal(s, role)
  }

  ghost function NodeParam(s: State, server: Server, node: nat, sequence: int, volumes: Option<seq<real>>,
                           muted: Option<bool>): State
    requires node in s.bindings
  {
    var b := Refreshed(s.bindings[node], volumes, muted);
    var fresher := s.(bindings := s.bindings[node := b]);
    if !(b.hasVolumes && b.hasMute) then fresher else
    var key := Answered(s, node, sequence);
    if key.Some? && key.value in s.readbacks then
      CompleteRequest(fresher.(readbacks := s.readbacks - {key.value}), server, s.readbacks[key.value], node)
    else PublishExternal(PublishExternal(fresher, Output, node), Input, node)
  }

  // ---- Runs ----

  datatype Event =
    | TrackEvent(role: Role, node: nat, generation: nat)
    | UntrackEvent(role: Role, generation: nat)
    | AskEvent(request: Request)
    | Appeared(node: nat)
    | Vanished(node: nat)
    | Synchronised(sequence: int)
    | Answer(node: nat, sequence: int, volumes: Option<seq<real>>, muted: Option<bool>)

  datatype Step = Step(event: Event, server: Server)

  function Initial(sync: int): State {
    State(false, sync, FIRST_READBACK, UNTRACKED, UNTRACKED, {}, map[], map[], map[], [])
  }

  ghost function Apply(s: State, step: Step): State {
    match step.event
    case TrackEvent(role, node, generation) => Track(s, step.server, role, node, generation)
    case UntrackEvent(role, generation) => Untrack(s, role, generation)
    case AskEvent(q) => Ask(s, step.server, q)
    case Appeared(node) => EnsureTracked(s.(known := s.known + {node}), step.server)
    case Vanished(node) => RemoveBinding(s.(known := s.known - {node}), node)
    case Synchronised(sequence) => CoreDone(s, step.server, sequence)
    case Answer(node, sequence, volumes, muted) =>
      if node in s.bindings then NodeParam(s, step.server, node, sequence, volumes, muted) else s
  }

  ghost function Run(s: State, steps: seq<Step>): State
    decreases |steps|
  {
    if steps == [] then s else Run(Apply(s, steps[0]), steps[1..])
  }

  // ---- What the environment owes ----

  ghost predicate Outstanding(s: State, q: Request) {
    (exists k :: k in s.syncs && s.syncs[k] == q) || (exists k :: k in s.readbacks && s.readbacks[k] == q)
  }

  ghost predicate GoodVolumes(volumes: seq<real>) {
    0 < |volumes| <= MAX_CHANNELS && forall i :: 0 <= i < |volumes| ==> volumes[i] >= 0.0
  }

  // Track generations are new, sync sequences are new, and an answer carrying the sequence
  // of a readback comes from the node that was read.
  ghost predicate Permitted(s: State, step: Step) {
    && step.server.sync !in s.syncs && step.server.sync != s.initialSync
    && match step.event
       case TrackEvent(role, node, generation) =>
         forall q :: Outstanding(s, q) && q.role == role && q.node == node ==> q.generation != generation
       case Answer(node, sequence, volumes, muted) =>
         && (sequence in s.readbacks ==> s.readbacks[sequence].node == node)
         && (volumes.Some? ==> GoodVolumes(volumes.value))
       case _ => true
  }

  ghost predicate AllPermitted(s: State, steps: seq<Step>)
    decreases |steps|
  {
    steps == [] || (Permitted(s, steps[0]) && AllPermitted(Apply(s, steps[0]), steps[1..]))
  }
}
