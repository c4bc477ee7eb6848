/** Order: the last request of each kind is the last one sent, and exactly which steps strand a queued one. */
module AudioOrder {
  import opened Basics
  import opened Volume
  import opened AudioModel
  import opened AudioInvariant

  // ---- The last request of a kind ----

  predicate Resets(m: Message, role: Role) {
    m == Tracked(role) || (m.Unavailable? && m.role == role)
  }

  predicate Asks(m: Message, role: Role, kind: Kind) {
    m.Accepted? && m.request.role == role && m.request.kind == kind
  }

  // Handed to the server, which may have refused it.
  predicate Sends(m: Message, role: Role, kind: Kind) {
    && (m.Dispatched? || (m.Failed? && m.reason in {NotReady, InvalidState, Refused}))
    && m.request.role == role && m.request.kind == kind
  }

  // Since the role was last tracked or became unavailable.
  function LastAsked(log: seq<Message>, role: Role, kind: Kind): Option<Request> {
    if log == [] || Resets(log[|log| - 1], role) then None
    else if Asks(log[|log| - 1], role, kind) then Some(log[|log| - 1].request)
    else LastAsked(log[..|log| - 1], role, kind)
  }

  function LastSent(log: seq<Message>, role: Role, kind: Kind): Option<Request> {
    if log == [] || Resets(log[|log| - 1], role) then None
    else if Sends(log[|log| - 1], role, kind) then Some(log[|log| - 1].request)
    else LastSent(log[..|log| - 1], role, kind)
  }

  function Waiting(r: RoleState, kind: Kind): Option<Request> {
    if kind == SetVolume then r.queuedVolume else r.queuedMute
  }

  // The last request asked is the one waiting, or else the one last sent.
  ghost predicate Latest(s: State, role: Role, kind: Kind) {
    var r := RoleOf(s, role);
    && (Waiting(r, kind).Some? ==> r.binding.Some?)
    && (r.node.Some? ==>
      LastAsked(s.log, role, kind)
      == if Waiting(r, kind).Some? then Waiting(r, kind) else LastSent(s.log, role, kind))
  }

  lemma Logged(log: seq<Message>, m: Message, role: Role, kind: Kind)
    ensures LastAsked(log + [m], role, kind)
            == if Resets(m, role) then None else if Asks(m, role, kind) then Some(m.request)
               else LastAsked(log, role, kind)
    ensures LastSent(log + [m], role, kind)
            == if Resets(m, role) then None else if Sends(m, role, kind) then Some(m.request)
               else LastSent(log, role, kind)
  {
    assert (log + [m])[..|log|] == log;
  }

  lemma Idle(s: State, m: Message, role: Role, kind: Kind)
    requires Latest(s, role, kind)
    requires !Resets(m, role) && !Asks(m, role, kind) && !Sends(m, role, kind)
    ensures Latest(Post(s, m), role, kind)
  {
    hide LastAsked, LastSent;
    Logged(s.log, m, role, kind);
  }

  // ---- Steps that only follow the nodes ----

  lemma PostExternalLatest(s: State, x: Role, role: Role, kind: Kind)
    requires Latest(s, role, kind)
    ensures Latest(PostExternal(s, x), role, kind)
    ensures PostExternal(s, x).output == s.output && PostExternal(s, x).input == s.input
  {
    hide Latest;
    var r := RoleOf(s, x);
    if r.binding.Some? && r.binding.value in s.bindings {
      var b := s.bindings[r.binding.value];
      if Complete(b) {
        Idle(s, External(x, r.binding.value, r.generation, Average(b.volumes), b.muted), role, kind);
      }
    }
  }

  lemma EnsureRoleLatest(s: State, server: Server, x: Role, role: Role, kind: Kind)
    requires Latest(s, role, kind)
    ensures Latest(EnsureRole(s, server, x), role, kind)
  {
    hide PostExternal, LastAsked, LastSent;
    var r := RoleOf(s, x);
    if !(r.node.None? || r.binding.Some? || r.node.value !in s.known) {
      var (bound, binding) := EnsureBinding(s, server, r.node.value);
      PostExternalLatest(PutRole(bound, x, r.(binding := binding)), x, role, kind);
    }
  }

  lemma EnsureTrackedLatest(s: State, server: Server, role: Role, kind: Kind)
    requires Latest(s, role, kind)
    ensures Latest(EnsureTracked(s, server), role, kind)
  {
    hide Latest, EnsureRole;
    if s.ready {
      var first := EnsureRole(s, server, Output);
      EnsureRoleLatest(s, server, Output, role, kind);
      EnsureRoleLatest(first, server, Input, role, kind);
    }
  }

  lemma DropRoleLatest(s: State, x: Role, node: nat, role: Role, kind: Kind)
    requires Latest(s, role, kind)
    ensures Latest(DropRole(s, x, node), role, kind)
  {
    hide LastAsked, LastSent;
    var r := RoleOf(s, x);
    if r.binding == Some(node) {
      Logged(s.log, Unavailable(x, r.generation), role, kind);
    }
  }

  lemma RemoveBindingLatest(s: State, node: nat, role: Role, kind: Kind)
    requires Latest(s, role, kind)
    ensures Latest(RemoveBinding(s, node), role, kind)
  {
    hide DropRole, LastAsked, LastSent;
    if node in s.bindings {
      var first := DropRole(s, Output, node);
      DropRoleLatest(s, Output, node, role, kind);
      DropRoleLatest(first, Input, node, role, kind);
    }
  }

  lemma TrackLatest(s: State, server: Server, x: Role, node: nat, generation: nat, role: Role, kind: Kind)
    requires Latest(s, role, kind)
    ensures Latest(Track(s, server, x, node, generation), role, kind)
  {
    hide RemoveBinding, EnsureTracked, LastAsked, LastSent;
    var put := PutRole(s, x, UNTRACKED.(node := Some(node), generation := generation));
    var replaced := Post(put, Tracked(x));
    Logged(s.log, Tracked(x), role, kind);
    assert Latest(replaced, role, kind);
    ReleasedLatest(s, server, x, node, generation, replaced, role, kind);
  }

  lemma ReleasedLatest(s: State, server: Server, x: Role, node: nat, generation: nat, replaced: State, role: Role,
                       kind: Kind)
    requires Latest(replaced, role, kind)
    ensures var tracked := EnsureTracked(ReleaseIfUnused(replaced, RoleOf(s, x).node), server);
      && Latest(tracked, role, kind)
      && (RoleOf(tracked, x).binding.None? && s.ready && node !in s.known
          ==> Latest(Post(tracked, Unavailable(x, generation)), role, kind))
  {
    hide RemoveBinding, EnsureTracked, Latest;
    var released := ReleaseIfUnused(replaced, RoleOf(s, x).node);
    if RoleOf(s, x).node.Some? {
      RemoveBindingLatest(replaced, RoleOf(s, x).node.value, role, kind);
    }
    var tracked := EnsureTracked(released, server);
    EnsureTrackedLatest(released, server, role, kind);
    if RoleOf(tracked, x).binding.None? && s.ready && node !in s.known {
      UnavailableLatest(tracked, x, generation, role, kind);
    }
  }

  // What is not bound has nothing waiting.
  lemma UnavailableLatest(s: State, x: Role, generation: nat, role: Role, kind: Kind)
    requires Latest(s, role, kind) && RoleOf(s, x).binding.None?
    ensures Latest(Post(s, Unavailable(x, generation)), role, kind)
  {
    Logged(s.log, Unavailable(x, generation), role, kind);
  }

  lemma UntrackLatest(s: State, x: Role, generation: nat, role: Role, kind: Kind)
    requires Latest(s, role, kind)
    ensures Latest(Untrack(s, x, generation), role, kind)
  {
    hide RemoveBinding, LastAsked, LastSent;
    if RoleOf(s, x).generation == generation && RoleOf(s, x).node.Some? {
      RemoveBindingLatest(PutRole(s, x, UNTRACKED), RoleOf(s, x).node.value, role, kind);
    }
  }

  // ---- Steps that send ----

  // Nothing waits while nothing is in flight.
  ghost predicate Moving(r: RoleState) {
    r.queuedVolume.Some? || r.queuedMute.Some? ==> Busy(r)
  }

  ghost predicate AllMoving(s: State) {
    Moving(s.output) && Moving(s.input)
  }

  ghost predicate Accepts(server: Server) {
    !server.refusesWrite && server.sync >= 0
  }

  // p is the last request of its kind and in hand: neither waiting nor sent.
  ghost predicate InHand(s: State, p: Request) {
    && LastAsked(s.log, p.role, p.kind) == Some(p) && Waiting(RoleOf(s, p.role), p.kind).None?
    && !Busy(RoleOf(s, p.role)) && RoleOf(s, p.role).binding == Some(p.node) && Current(RoleOf(s, p.role), p)
    && p.node in s.bindings
  }

  lemma DispatchRoles(s: State, server: Server, p: Request)
    requires InHand(s, p)
    ensures var t := Dispatch(s, server, p);
      && RoleOf(t, p.role) == (if Sendable(s, p).None? && Accepts(server) then Fly(RoleOf(s, p.role), p.kind, true)
                               else RoleOf(s, p.role))
      && (forall x :: x != p.role ==> RoleOf(t, x) == RoleOf(s, x))
  {
    hide Sendable, LastAsked;
  }

  lemma SendableFault(s: State, p: Request)
    requires InHand(s, p)
    ensures Sendable(s, p).Some? ==> Sendable(s, p).value in {NotReady, InvalidState}
  {
  }

  ghost predicate SameTracking(r: RoleState, t: RoleState) {
    t.node == r.node && t.binding == r.binding && t.queuedVolume == r.queuedVolume && t.queuedMute == r.queuedMute
  }

  lemma SentOne(s: State, t: State, p: Request, m: Message, role: Role, kind: Kind)
    requires InHand(s, p)
    requires role != p.role || kind != p.kind ==> Latest(s, role, kind)
    requires m.Dispatched? || (m.Failed? && m.reason in {NotReady, InvalidState, Refused})
    requires m.request == p
    requires t.log == s.log + [m] && SameTracking(RoleOf(s, role), RoleOf(t, role))
    ensures Latest(t, role, kind)
  {
    hide LastAsked, LastSent;
    Logged(s.log, m, role, kind);
  }

  // Giving up right after sending does not unsend.
  lemma LostOne(s: State, t: State, p: Request, role: Role, kind: Kind)
    requires Latest(s, role, kind) && t.log == s.log + [Failed(p, SyncFailed)]
    requires SameTracking(RoleOf(s, role), RoleOf(t, role))
    ensures Latest(t, role, kind)
  {
    hide LastAsked, LastSent;
    Logged(s.log, Failed(p, SyncFailed), role, kind);
  }

  lemma DispatchTracking(s: State, server: Server, p: Request, role: Role)
    ensures SameTracking(RoleOf(s, role), RoleOf(Dispatch(s, server, p), role))
  {
    FlySame(RoleOf(s, p.role), p.kind, true);
    hide Sendable, Fly, ClearInFlight, SameTracking, PutRole, RoleOf;
    var r := Fly(RoleOf(s, p.role), p.kind, true);
    var flying := PutRole(s, p.role, r);
    var sent := Post(flying, Dispatched(p, Written(s, p)));
    PutRoleIs(s, p.role, r, role);
    PostRoles(s, flying, sent, role);
    ClearTracking(sent, p, role);
    SameTrackingOn(RoleOf(s, role), RoleOf(sent, role), RoleOf(ClearInFlight(sent, p), role));
    AnyTracking(s, sent, server.sync, p, role);
  }

  lemma FlySame(r: RoleState, kind: Kind, flying: bool)
    ensures SameTracking(r, Fly(r, kind, flying))
  {
  }

  lemma PutRoleIs(s: State, role: Role, r: RoleState, x: Role)
    ensures RoleOf(PutRole(s, role, r), x) == if x == role then r else RoleOf(s, x)
  {
  }

  lemma ClearTracking(s: State, q: Request, role: Role)
    ensures SameTracking(RoleOf(s, role), RoleOf(ClearInFlight(s, q), role))
  {
    FlySame(RoleOf(s, q.role), q.kind, false);
    hide Fly, PutRole, RoleOf;
    PutRoleIs(s, q.role, Fly(RoleOf(s, q.role), q.kind, false), role);
  }

  lemma SameTrackingOn(a: RoleState, b: RoleState, c: RoleState)
    requires SameTracking(a, b) && SameTracking(b, c)
    ensures SameTracking(a, c)
  {
  }

  // Messages and outstanding requests do not touch the roles.
  lemma PostRoles(s: State, flying: State, sent: State, role: Role)
    requires sent == flying.(log := sent.log) && SameTracking(RoleOf(s, role), RoleOf(flying, role))
    ensures SameTracking(RoleOf(s, role), RoleOf(sent, role))
  {
  }

  lemma AnyTracking(s: State, sent: State, sync: int, p: Request, role: Role)
    ensures RoleOf(sent.(syncs := sent.syncs[sync := p]), role) == RoleOf(sent, role)
    ensures forall t, m :: RoleOf(Post(t, m), role) == RoleOf(t, role)
    ensures SameTracking(RoleOf(s, role), RoleOf(s, role))
  {
  }

  lemma DispatchLatest(s: State, server: Server, p: Request, role: Role, kind: Kind)
    requires InHand(s, p)
    requires role != p.role || kind != p.kind ==> Latest(s, role, kind)
    ensures Latest(Dispatch(s, server, p), role, kind)
  {
    hide Sendable, Latest, InHand, SameTracking;
    SendableFault(s, p);
    DispatchTracking(s, server, p, role);
    var fault := Sendable(s, p);
    var t := Dispatch(s, server, p);
    if fault.Some? {
      SentOne(s, t, p, Failed(p, fault.value), role, kind);
    } else if server.refusesWrite {
      SentOne(s, t, p, Failed(p, Refused), role, kind);
    } else {
      var sent := Post(s, Dispatched(p, Written(s, p)));
      assert SameTracking(RoleOf(s, role), RoleOf(sent, role)) by {
        PostTracking(s, Dispatched(p, Written(s, p)), role);
      }
      SentOne(s, sent, p, Dispatched(p, Written(s, p)), role, kind);
      if server.sync < 0 {
        PostedTracking(s, sent, t, role);
        LostOne(sent, t, p, role, kind);
      } else {
        SentOne(s, t, p, Dispatched(p, Written(s, p)), role, kind);
      }
    }
  }

  lemma PostTracking(s: State, m: Message, role: Role)
    ensures SameTracking(RoleOf(s, role), RoleOf(Post(s, m), role))
  {
  }

  lemma PostedTracking(s: State, sent: State, t: State, role: Role)
    requires SameTracking(RoleOf(s, role), RoleOf(sent, role)) && SameTracking(RoleOf(s, role), RoleOf(t, role))
    ensures SameTracking(RoleOf(sent, role), RoleOf(t, role))
  {
  }

  ghost predicate BoundInv(s: State, role: Role) {
    var r := RoleOf(s, role);
    r.binding.Some? ==> r.binding == r.node && r.binding.value in s.bindings
  }

  lemma AskLatest(s: State, server: Server, p: Request, role: Role, kind: Kind)
    requires Inv(s) && AllMoving(s) && Latest(s, role, kind)
    ensures Latest(Ask(s, server, p), role, kind)
  {
    hide Dispatch, Latest, FlightInv, QueueInv;
    var received := Post(s, Received(p));
    Idle(s, Received(p), role, kind);
    var r := RoleOf(s, p.role);
    var accepted := Post(received, Accepted(p));
    if !Current(r, p) || r.binding.None? {
      Idle(received, Failed(p, Stale), role, kind);
    } else if Busy(r) {
      EnqueuedLatest(received, p, role, kind);
    } else {
      assert BoundInv(s, p.role);
      SentLatest(received, server, p, role, kind);
    }
  }

  lemma EnqueuedLatest(s: State, p: Request, role: Role, kind: Kind)
    requires Latest(s, role, kind) && RoleOf(s, p.role).binding.Some?
    ensures var t := Post(s, Accepted(p)); Latest(PutRole(t, p.role, Enqueue(RoleOf(t, p.role), p)), role, kind)
  {
    hide LastAsked, LastSent;
    Logged(s.log, Accepted(p), role, kind);
    EnqueuedRoles(Post(s, Accepted(p)), p, role, kind);
    hide Enqueue, PutRole, RoleOf, Waiting, Resets, Sends;
    assert !Resets(Accepted(p), role) && !Sends(Accepted(p), role, kind) by { NoReset(p, role, kind); }
    assert RoleOf(Post(s, Accepted(p)), role) == RoleOf(s, role) by { PostRole(s, Accepted(p), role); }
  }

  lemma NoReset(p: Request, role: Role, kind: Kind)
    ensures !Resets(Accepted(p), role) && !Sends(Accepted(p), role, kind)
  {
  }

  lemma PostRole(s: State, m: Message, role: Role)
    ensures RoleOf(Post(s, m), role) == RoleOf(s, role)
  {
  }

  lemma EnqueuedRoles(s: State, p: Request, role: Role, kind: Kind)
    ensures var t := PutRole(s, p.role, Enqueue(RoleOf(s, p.role), p));
      && t.log == s.log && RoleOf(t, role).node == RoleOf(s, role).node
      && RoleOf(t, role).binding == RoleOf(s, role).binding
      && Waiting(RoleOf(t, role), kind)
         == if role == p.role && kind == p.kind then Some(p) else Waiting(RoleOf(s, role), kind)
  {
  }

  lemma SentLatest(s: State, server: Server, p: Request, role: Role, kind: Kind)
    requires Latest(s, role, kind) && Current(RoleOf(s, p.role), p)
    requires RoleOf(s, p.role).binding == Some(p.node) && p.node in s.bindings && !Busy(RoleOf(s, p.role))
    requires Moving(RoleOf(s, p.role))
    ensures var t := Dispatch(Post(s, Accepted(p)), server, p);
            Latest(t, role, kind)
  {
    hide Dispatch, LastAsked, LastSent;
    var accepted := Post(s, Accepted(p));
    Logged(s.log, Accepted(p), role, kind);
    Logged(s.log, Accepted(p), p.role, p.kind);
    DispatchLatest(accepted, server, p, role, kind);
  }

  lemma AskMoves(s: State, server: Server, p: Request)
    requires Inv(s) && AllMoving(s)
    ensures AllMoving(Ask(s, server, p))
  {
    hide Dispatch, LastAsked, LastSent, FlightInv, QueueInv;
    var received := Post(s, Received(p));
    Logged(received.log, Accepted(p), p.role, p.kind);
    var r := RoleOf(s, p.role);
    assert BoundInv(s, p.role);
    assert RoleOf(received, p.role) == r;
    if Current(r, p) && r.binding.Some? && !Busy(r) {
      var accepted := Post(received, Accepted(p));
      assert InHand(accepted, p);
      DispatchRoles(accepted, server, p);
      var t := Dispatch(accepted, server, p);
      assert Ask(s, server, p) == t;
      assert Moving(RoleOf(t, Output)) && Moving(RoleOf(t, Input));
    }
  }

  ghost predicate Strands(r: RoleState, server: Server) {
    !Busy(r) && r.queuedMute.Some? && r.queuedVolume.Some? && !Accepts(server)
  }

  // The queued request taken next: a mute write goes before a volume write.
  ghost function Next(r: RoleState): Option<Request> {
    if r.queuedMute.Some? then r.queuedMute else r.queuedVolume
  }

  ghost function Taken(r: RoleState): RoleState {
    if r.queuedMute.Some? then r.(queuedMute := None) else r.(queuedVolume := None)
  }

  lemma TakenInHand(s: State, x: Role)
    requires Inv(s) && Latest(s, x, SetVolume) && Latest(s, x, SetMute)
    requires !Busy(RoleOf(s, x)) && Next(RoleOf(s, x)).Some?
    ensures var p := Next(RoleOf(s, x)).value;
            p.role == x && InHand(PutRole(s, x, Taken(RoleOf(s, x))), p)
  {
    hide LastAsked, LastSent, FlightInv;
    assert BoundInv(s, x) && QueueInv(x, RoleOf(s, x));
  }

  lemma TakenLatest(s: State, x: Role, role: Role, kind: Kind)
    requires Latest(s, role, kind) && Next(RoleOf(s, x)).Some?
    requires var p := Next(RoleOf(s, x)).value; role != x || kind != p.kind
    requires QueueInv(x, RoleOf(s, x))
    ensures Latest(PutRole(s, x, Taken(RoleOf(s, x))), role, kind)
  {
    hide LastAsked, LastSent;
  }

  lemma DispatchQueuedLatest(s: State, server: Server, x: Role, role: Role, kind: Kind)
    requires Inv(s) && Latest(s, role, kind)
    requires Latest(s, x, SetVolume) && Latest(s, x, SetMute)
    ensures Latest(DispatchQueued(s, server, x), role, kind)
  {
    assert QueueInv(x, RoleOf(s, x));
    hide Dispatch, Latest, InHand, Inv, QueueInv;
    var r := RoleOf(s, x);
    if !Busy(r) && Next(r).Some? {
      var t := PutRole(s, x, Taken(r));
      TakenInHand(s, x);
      if role != x || kind != Next(r).value.kind {
        TakenLatest(s, x, role, kind);
      }
      DispatchLatest(t, server, Next(r).value, role, kind);
    }
  }

  lemma DispatchQueuedMoves(s: State, server: Server, x: Role)
    requires Inv(s) && Latest(s, x, SetVolume) && Latest(s, x, SetMute)
    ensures Moving(RoleOf(DispatchQueued(s, server, x), x)) <==> !Strands(RoleOf(s, x), server)
    ensures forall y :: y != x ==> RoleOf(DispatchQueued(s, server, x), y) == RoleOf(s, y)
  {
    var r := RoleOf(s, x);
    assert BoundInv(s, x) && QueueInv(x, r);
    hide Dispatch, Latest, InHand, Inv, Sendable;
    if !Busy(r) && Next(r).Some? {
      var t := PutRole(s, x, Taken(r));
      TakenInHand(s, x);
      DispatchRoles(t, server, Next(r).value);
      if Next(r).value.kind == SetMute {
        MuteSendable(t, Next(r).value);
      }
    }
  }

  lemma MuteSendable(s: State, p: Request)
    requires InHand(s, p) && p.kind == SetMute
    ensures Sendable(s, p).None?
  {
  }

  // ---- Which steps strand a queued request ----

  // The readback the server refuses ends a write behind which something waits.
  ghost predicate ReadbackStrands(s: State, server: Server, q: Request) {
    var r := RoleOf(s, q.role);
    Current(r, q) && server.refusesReadback && (r.queuedVolume.Some? || r.queuedMute.Some?)
  }

  // The mute write started after a completion is refused, with a volume write behind it.
  ghost predicate CompletionStrands(s: State, server: Server, q: Request) {
    var r := RoleOf(s, q.role);
    Current(r, q) && r.queuedMute.Some? && r.queuedVolume.Some? && !Accepts(server)
  }

  ghost predicate StepStrands(s: State, step: Step) {
    match step.event
    case Synchronised(sequence) =>
      sequence != s.initialSync && sequence in s.syncs && ReadbackStrands(s, step.server, s.syncs[sequence])
    case Answer(node, sequence, volumes, muted) =>
      && node in s.bindings
      && Complete(Refreshed(s.bindings[node], volumes, muted))
      && var key := Answered(s, node, sequence);
         key.Some? && key.value in s.readbacks && CompletionStrands(s, step.server, s.readbacks[key.value])
    case _ => false
  }

  lemma ClearedRole(s: State, q: Request)
    requires Landing(s, q) && Mine(RoleOf(s, q.role), q.role, q)
    ensures !Busy(RoleOf(ClearInFlight(s, q), q.role))
    ensures forall x :: x != q.role ==> RoleOf(ClearInFlight(s, q), x) == RoleOf(s, x)
    ensures RoleOf(ClearInFlight(s, q), q.role).queuedMute == RoleOf(s, q.role).queuedMute
    ensures RoleOf(ClearInFlight(s, q), q.role).queuedVolume == RoleOf(s, q.role).queuedVolume
    ensures ClearInFlight(s, q).log == s.log
    ensures RoleOf(ClearInFlight(s, q), q.role).node == RoleOf(s, q.role).node
    ensures RoleOf(ClearInFlight(s, q), q.role).binding == RoleOf(s, q.role).binding
  {
    hide Silent, Flying;
  }

  lemma BeginReadbackLatest(s: State, server: Server, q: Request, role: Role, kind: Kind)
    requires Latest(s, role, kind)
    ensures Latest(BeginReadback(s, server, q), role, kind)
  {
    hide LastAsked, LastSent, ClearInFlight;
    var key := s.nextReadback + 1;
    var asked := s.(nextReadback := key, readbacks := s.readbacks[key := q]);
    var back := asked.(readbacks := asked.readbacks - {key});
    ClearedLatest(s, q, role, kind);
    ClearedLatest(back, q, role, kind);
    Logged(s.log, Failed(q, ReadbackFailed), role, kind);
  }

  lemma ClearedLatest(s: State, q: Request, role: Role, kind: Kind)
    requires Latest(s, role, kind)
    ensures Latest(ClearInFlight(s, q), role, kind) && ClearInFlight(s, q).log == s.log
  {
    hide LastAsked, LastSent;
  }

  lemma BeginReadbackMoves(s: State, server: Server, q: Request)
    requires Landing(s, q) && AllMoving(s)
    ensures AllMoving(BeginReadback(s, server, q)) <==> !ReadbackStrands(s, server, q)
  {
    hide Silent, Flying, FlightInv, QueueInv, ClearInFlight;
    var r := RoleOf(s, q.role);
    var key := s.nextReadback + 1;
    var asked := s.(nextReadback := key, readbacks := s.readbacks[key := q]);
    var back := asked.(readbacks := asked.readbacks - {key});
    if Current(r, q) {
      assert Mine(r, q.role, q);
      ClearedRole(s, q);
      SameClear(s, back, q);
    } else {
      assert ClearInFlight(s, q) == s by { NotCleared(s, q); }
    }
  }

  lemma NotCleared(s: State, q: Request)
    requires !Current(RoleOf(s, q.role), q)
    ensures ClearInFlight(s, q) == s
  {
  }

  lemma SameClear(s: State, t: State, q: Request)
    requires t.output == s.output && t.input == s.input
    ensures ClearInFlight(t, q).output == ClearInFlight(s, q).output
    ensures ClearInFlight(t, q).input == ClearInFlight(s, q).input
  {
    hide Fly, Current;
  }

  lemma CompleteLatest(s: State, server: Server, q: Request, node: nat, role: Role, kind: Kind)
    requires Landing(s, q) && NewSync(s, server) && q.node == node && AllMoving(s)
    requires Latest(s, role, kind)
    requires Latest(s, q.role, SetVolume) && Latest(s, q.role, SetMute)
    ensures Latest(CompleteRequest(s, server, q, node), role, kind)
    ensures AllMoving(CompleteRequest(s, server, q, node)) <==> !CompletionStrands(s, server, q)
  {
    hide LastAsked, LastSent, Silent, Flying, FlightInv, DispatchQueued, ClearInFlight, PostConfirmed, Inv;
    var r := RoleOf(s, q.role);
    if Current(r, q) {
      assert Mine(r, q.role, q);
      assert r.binding == Some(node);
      var confirmed := PostConfirmed(s, q, node);
      PostConfirmedSame(s, q, node);
      LandingSame(s, confirmed, q);
      LandedClear(confirmed, q);
      ClearedRole(confirmed, q);
      var cleared := ClearInFlight(confirmed, q);
      forall x, k | Latest(s, x, k)
        ensures Latest(cleared, x, k)
      {
        ConfirmedLatest(s, q, node, x, k);
      }
      ConfirmedLatest(s, q, node, role, kind);
      DispatchQueuedLatest(cleared, server, q.role, role, kind);
      DispatchQueuedMoves(cleared, server, q.role);
    }
  }

  lemma ConfirmedLatest(s: State, q: Request, node: nat, role: Role, kind: Kind)
    requires Latest(s, role, kind)
    ensures Latest(ClearInFlight(PostConfirmed(s, q, node), q), role, kind)
  {
    hide LastAsked, LastSent, ClearInFlight;
    ClearedLatest(s, q, role, kind);
    if node in s.bindings {
      var b := s.bindings[node];
      if Complete(b) {
        ConfirmedOnly(s, q, b, role, kind);
        ClearedLatest(Post(s, Confirmed(q, Average(b.volumes), b.muted)), q, role, kind);
      }
    }
  }

  lemma ConfirmedOnly(s: State, q: Request, b: Binding, role: Role, kind: Kind)
    requires Latest(s, role, kind) && Complete(b)
    ensures var t := Post(s, Confirmed(q, Average(b.volumes), b.muted)); Latest(t, role, kind)
  {
    hide LastAsked, LastSent;
    Logged(s.log, Confirmed(q, Average(b.volumes), b.muted), role, kind);
  }

  lemma PublishLatest(s: State, x: Role, node: nat, role: Role, kind: Kind)
    requires Latest(s, role, kind)
    ensures Latest(PublishExternal(s, x, node), role, kind)
    ensures PublishExternal(s, x, node).output == s.output && PublishExternal(s, x, node).input == s.input
  {
    hide Latest, PostExternal;
    PostExternalLatest(s, x, role, kind);
  }

  ghost predicate AllLatest(s: State) {
    && Latest(s, Output, SetVolume) && Latest(s, Output, SetMute)
    && Latest(s, Input, SetVolume) && Latest(s, Input, SetMute)
  }

  lemma LatestOf(s: State, role: Role, kind: Kind)
    requires AllLatest(s)
    ensures Latest(s, role, kind)
  {
    hide Latest;
  }

  lemma AnsweredNode(s: State, node: nat, sequence: int)
    requires sequence in s.readbacks ==> s.readbacks[sequence].node == node
    ensures var key := Answered(s, node, sequence);
            key.Some? && key.value in s.readbacks ==> s.readbacks[key.value].node == node
  {
  }

  lemma NodeParamLatest(s: State, step: Step, role: Role, kind: Kind)
    requires Inv(s) && AllMoving(s) && Permitted(s, step) && AllLatest(s)
    requires step.event.Answer? && step.event.node in s.bindings
    ensures var t := Apply(s, step);
            Latest(t, role, kind) && (AllMoving(t) <==> !StepStrands(s, step))
  {
    hide Latest, Inv, Refreshed, CompleteRequest, PublishExternal, Answered, Complete, GoodVolumes, Landing;
    var Answer(node, sequence, volumes, muted) := step.event;
    var b := Refreshed(s.bindings[node], volumes, muted);
    var fresher := s.(bindings := s.bindings[node := b]);
    BindingsGood(s, node);
    RefreshedGood(s.bindings[node], volumes, muted);
    FresherKeeps(s, node, b);
    RebindLatest(s, node, b);
    LatestOf(s, role, kind);
    LatestOf(fresher, role, kind);
    CompleteIs(b);
    var key := Answered(s, node, sequence);
    AnsweredNode(s, node, sequence);
    if b.hasVolumes && b.hasMute && key.Some? && key.value in s.readbacks {
      ReadbackLands(fresher, key.value);
      ReadLatest(fresher, step.server, key.value, node, role, kind);
    } else {
      PublishLatest(fresher, Output, node, role, kind);
      PublishLatest(PublishExternal(fresher, Output, node), Input, node, role, kind);
    }
  }

  lemma ReadLatest(s: State, server: Server, key: int, node: nat, role: Role, kind: Kind)
    requires Inv(s) && AllMoving(s) && AllLatest(s) && NewSync(s, server)
    requires key in s.readbacks && s.readbacks[key].node == node
    ensures var q := s.readbacks[key];
      var t := CompleteRequest(s.(readbacks := s.readbacks - {key}), server, q, node);
      && Latest(t, role, kind)
      && (AllMoving(t) <==> !CompletionStrands(s, server, q))
  {
    hide Inv, CompleteRequest, Landing, LastAsked, LastSent;
    var q := s.readbacks[key];
    ReadbackLands(s, key);
    LatestOf(s, role, kind);
    LatestOf(s, q.role, SetVolume);
    LatestOf(s, q.role, SetMute);
    CompleteLatest(s.(readbacks := s.readbacks - {key}), server, q, node, role, kind);
  }

  lemma CompleteIs(b: Binding)
    requires GoodBinding(b)
    ensures Complete(b) <==> b.hasVolumes && b.hasMute
  {
  }

  lemma RebindLatest(s: State, node: nat, b: Binding)
    requires AllLatest(s)
    ensures AllLatest(s.(bindings := s.bindings[node := b]))
  {
    hide LastAsked, LastSent;
  }

  // ---- Every step ----

  lemma RolesMove(s: State, server: Server, x: Role)
    requires AllMoving(s)
    ensures AllMoving(EnsureRole(s, server, x)) && EnsureRole(s, server, x).ready == s.ready
  {
  }

  lemma EnsuredMoves(s: State, server: Server)
    requires AllMoving(s)
    ensures AllMoving(EnsureTracked(s, server))
  {
    hide AllMoving, EnsureRole;
    RolesMove(s, server, Output);
    RolesMove(EnsureRole(s, server, Output), server, Input);
  }

  lemma RemovedMoves(s: State, node: nat)
    requires AllMoving(s)
    ensures AllMoving(RemoveBinding(s, node))
  {
  }

  lemma TrackMoves(s: State, server: Server, role: Role, node: nat, generation: nat)
    requires AllMoving(s)
    ensures AllMoving(Track(s, server, role, node, generation))
  {
    hide RemoveBinding, EnsureTracked;
    var replaced := Post(PutRole(s, role, UNTRACKED.(node := Some(node), generation := generation)), Tracked(role));
    if RoleOf(s, role).node.Some? {
      RemovedMoves(replaced, RoleOf(s, role).node.value);
    }
    EnsuredMoves(ReleaseIfUnused(replaced, RoleOf(s, role).node), server);
  }

  lemma UntrackMoves(s: State, role: Role, generation: nat)
    requires AllMoving(s)
    ensures AllMoving(Untrack(s, role, generation))
  {
    hide RemoveBinding;
    if RoleOf(s, role).node.Some? {
      RemovedMoves(PutRole(s, role, UNTRACKED), RoleOf(s, role).node.value);
    }
  }

  lemma CoreDoneLatest(s: State, step: Step, role: Role, kind: Kind)
    requires Inv(s) && AllMoving(s) && AllLatest(s) && step.event.Synchronised?
    ensures var t := Apply(s, step);
            Latest(t, role, kind) && (AllMoving(t) <==> !StepStrands(s, step))
  {
    hide Inv, EnsureTracked, BeginReadback, LastAsked, LastSent, Landing;
    var sequence := step.event.sequence;
    LatestOf(s, role, kind);
    if sequence == s.initialSync {
      EnsuredMoves(s.(ready := true), step.server);
      EnsureTrackedLatest(s.(ready := true), step.server, role, kind);
    } else if sequence in s.syncs {
      SyncLands(s, sequence);
      BeginReadbackLatest(s.(syncs := s.syncs - {sequence}), step.server, s.syncs[sequence], role, kind);
      BeginReadbackMoves(s.(syncs := s.syncs - {sequence}), step.server, s.syncs[sequence]);
    }
  }

  // A step keeps the order, and it strands a queued request exactly in two cases, both refusals of
  // the server.
  lemma StepLatest(s: State, step: Step, role: Role, kind: Kind)
    requires Inv(s) && Permitted(s, step) && AllMoving(s) && AllLatest(s)
    ensures var t := Apply(s, step);
            Latest(t, role, kind) && (AllMoving(t) <==> !StepStrands(s, step))
  {
    hide Inv, NodeParam, CoreDone, RemoveBinding, EnsureTracked, Ask, Track, Untrack, GoodVolumes, LastAsked, LastSent,
      AllMoving;
    LatestOf(s, role, kind);
    match step.event {
      case TrackEvent(x, node, generation) =>
        TrackLatest(s, step.server, x, node, generation, role, kind);
        TrackMoves(s, step.server, x, node, generation);
      case UntrackEvent(x, generation) =>
        UntrackLatest(s, x, generation, role, kind);
        UntrackMoves(s, x, generation);
      case AskEvent(q) =>
        AskLatest(s, step.server, q, role, kind);
        AskMoves(s, step.server, q);
      case Appeared(node) =>
        NothingMoved(s, s.known + {node});
        EnsuredMoves(s.(known := s.known + {node}), step.server);
        EnsureTrackedLatest(s.(known := s.known + {node}), step.server, role, kind);
      case Vanished(node) =>
        NothingMoved(s, s.known - {node});
        RemovedMoves(s.(known := s.known - {node}), node);
        RemoveBindingLatest(s.(known := s.known - {node}), node, role, kind);
      case Synchronised(sequence) => CoreDoneLatest(s, step, role, kind);
      case Answer(node, sequence, volumes, muted) =>
        if node in s.bindings {
          NodeParamLatest(s, step, role, kind);
        }
    }
  }

  lemma NothingMoved(s: State, known: set<nat>)
    requires AllMoving(s)
    ensures AllMoving(s.(known := known))
  {
  }

  ghost predicate NoneStrands(s: State, steps: seq<Step>)
    decreases |steps|
  {
    steps == [] || (!StepStrands(s, steps[0]) && NoneStrands(Apply(s, steps[0]), steps[1..]))
  }

  lemma AllKept(s: State, step: Step)
    requires Inv(s) && Permitted(s, step) && AllMoving(s) && AllLatest(s)
    ensures AllLatest(Apply(s, step)) && (AllMoving(Apply(s, step)) <==> !StepStrands(s, step))
  {
    hide Inv, Permitted, AllMoving, Latest, Apply, StepStrands;
    StepLatest(s, step, Output, SetVolume);
    StepLatest(s, step, Output, SetMute);
    StepLatest(s, step, Input, SetVolume);
    StepLatest(s, step, Input, SetMute);
  }

  lemma {:induction false} RunLatest(s: State, steps: seq<Step>)
    requires Inv(s) && AllPermitted(s, steps) && NoneStrands(s, steps) && AllMoving(s) && AllLatest(s)
    ensures Inv(Run(s, steps)) && AllMoving(Run(s, steps)) && AllLatest(Run(s, steps))
    decreases |steps|
  {
    hide Inv, Permitted, AllMoving, AllLatest, Apply, StepStrands;
    if steps != [] {
      StepKeeps(s, steps[0]);
      AllKept(s, steps[0]);
      RunLatest(Apply(s, steps[0]), steps[1..]);
    }
  }

  // While no refusal strands a request, what waits has something in flight before it, and
  // whenever nothing waits the last write sent is the last one asked for.
  lemma LastAskedIsLastSent(sync: int, steps: seq<Step>, role: Role, kind: Kind)
    requires AllPermitted(Initial(sync), steps) && NoneStrands(Initial(sync), steps)
    ensures var s := Run(Initial(sync), steps);
      var r := RoleOf(s, role);
      && (Waiting(r, kind).Some? ==> Busy(r) && LastAsked(s.log, role, kind) == Waiting(r, kind))
      && (r.node.Some? && Waiting(r, kind).None? ==> LastSent(s.log, role, kind) == LastAsked(s.log, role, kind))
  {
    assert Inv(Initial(sync)) && AllLatest(Initial(sync)) && AllMoving(Initial(sync));
    RunLatest(Initial(sync), steps);
    var s := Run(Initial(sync), steps);
    LatestOf(s, role, kind);
    assert BindingInv(s, RoleOf(s, role));
  }

  // Asked volumes are between none and full, so the scaling never rejects one.
  lemma NeverInvalidState(s: State, q: Request)
    requires Inv(s) && 0.0 <= q.volume <= 1.0
    ensures Sendable(s, q) != Some(InvalidState)
  {
    hide RoleInv, Representable, Scaled;
    if q.node in s.bindings {
      OverflowUnreachable(s.bindings[q.node].volumes, q.volume);
    }
  }
}
