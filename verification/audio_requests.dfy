/** What becomes of each request: an account that balances over every run. */
module AudioRequests {
  import opened Basics
  import opened Volume
  import opened AudioModel
  import opened AudioInvariant

  // ---- Counting ----

  datatype Mark = WasReceived | WasDispatched | WasConfirmed | WasFailed | WasLost

  predicate Marks(m: Message, q: Request, mark: Mark) {
    match mark
    case WasReceived => m == Received(q)
    case WasDispatched => m.Dispatched? && m.request == q
    case WasConfirmed => m.Confirmed? && m.request == q
    case WasFailed => m.Failed? && m.request == q
    case WasLost => m == Failed(q, SyncFailed) || m == Failed(q, ReadbackFailed)
  }

  function Times(log: seq<Message>, q: Request, mark: Mark): nat {
    if log == [] then 0
    else Times(log[..|log| - 1], q, mark) + if Marks(log[|log| - 1], q, mark) then 1 else 0
  }

  lemma TimesMore(log: seq<Message>, m: Message, q: Request, mark: Mark)
    ensures Times(log + [m], q, mark) == Times(log, q, mark) + if Marks(m, q, mark) then 1 else 0
  {
    assert (log + [m])[..|log|] == log;
  }

  function Count(requests: map<int, Request>, q: Request): nat {
    |set k | k in requests && requests[k] == q|
  }

  lemma CountAdd(requests: map<int, Request>, key: int, v: Request, q: Request)
    requires key !in requests
    ensures Count(requests[key := v], q) == Count(requests, q) + if v == q then 1 else 0
  {
    var more := requests[key := v];
    var before := set k | k in requests && requests[k] == q;
    var after := set k | k in more && more[k] == q;
    assert after == if v == q then before + {key} else before;
  }

  lemma CountDrop(requests: map<int, Request>, key: int, q: Request)
    requires key in requests
    ensures Count(requests, q) == Count(requests - {key}, q) + if requests[key] == q then 1 else 0
  {
    CountAdd(requests - {key}, key, requests[key], q);
    assert (requests - {key})[key := requests[key]] == requests;
  }

  lemma CountWithout(requests: map<int, Request>, node: nat, q: Request)
    ensures Count(requests, q) == Count(WithoutNode(requests, node), q) + OfNode(requests, node, q)
  {
    var less := WithoutNode(requests, node);
    var before := set k | k in requests && requests[k] == q;
    var after := set k | k in less && less[k] == q;
    assert after == if q.node == node then {} else before;
  }

  // How often the request is among those for the node.
  function OfNode(requests: map<int, Request>, node: nat, q: Request): nat {
    if q.node == node then Count(requests, q) else 0
  }

  function Queued(r: RoleState, q: Request): nat {
    (if r.queuedVolume == Some(q) then 1 else 0) + (if r.queuedMute == Some(q) then 1 else 0)
  }

  function InFlight(s: State, q: Request): nat {
    Count(s.syncs, q) + Count(s.readbacks, q)
  }

  function Held(s: State, q: Request): nat {
    InFlight(s, q) + Queued(s.output, q) + Queued(s.input, q)
  }

  // Requests received and neither answered nor held any more.
  function Due(s: State, q: Request): int {
    Times(s.log, q, WasReceived) - Times(s.log, q, WasConfirmed) - Times(s.log, q, WasFailed) - Held(s, q)
  }

  // Writes sent and neither confirmed, lost nor outstanding any more.
  function Gone(s: State, q: Request): int {
    Times(s.log, q, WasDispatched) - Times(s.log, q, WasConfirmed) - Times(s.log, q, WasLost) - InFlight(s, q)
  }

  function One(p: Request, q: Request): nat {
    if p == q then 1 else 0
  }

  // From s to t so many more were given up without an answer, and so many of them after they were sent.
  ghost predicate GaveUp(s: State, t: State, q: Request, due: int, gone: int) {
    Due(t, q) == Due(s, q) + due && Gone(t, q) == Gone(s, q) + gone
  }

  lemma Posted(s: State, m: Message, q: Request)
    ensures GaveUp(s, Post(s, m), q,
                   (if m == Received(q) then 1 else 0)
                   - (if (m.Confirmed? || m.Failed?) && m.request == q then 1 else 0),
                   (if m.Dispatched? && m.request == q then 1 else 0)
                   - (if m.Confirmed? && m.request == q then 1 else 0)
                   - (if m == Failed(q, SyncFailed) || m == Failed(q, ReadbackFailed) then 1 else 0))
  {
    hide Times, Count;
    TimesMore(s.log, m, q, WasReceived);
    TimesMore(s.log, m, q, WasDispatched);
    TimesMore(s.log, m, q, WasConfirmed);
    TimesMore(s.log, m, q, WasFailed);
    TimesMore(s.log, m, q, WasLost);
  }

  // Only the log, the outstanding and the queued requests count.
  lemma Same(s: State, t: State, q: Request)
    requires t.log == s.log && t.syncs == s.syncs && t.readbacks == s.readbacks
    ensures GaveUp(s, t, q,
                   Queued(s.output, q) + Queued(s.input, q) - Queued(t.output, q) - Queued(t.input, q), 0)
  {
  }

  lemma SyncAdded(s: State, key: int, p: Request, q: Request)
    requires key !in s.syncs
    ensures GaveUp(s, s.(syncs := s.syncs[key := p]), q, 0 - One(p, q), 0 - One(p, q))
  {
    hide Times;
    CountAdd(s.syncs, key, p, q);
  }

  lemma ReadbackAdded(s: State, key: int, p: Request, q: Request)
    requires key !in s.readbacks
    ensures GaveUp(s, s.(readbacks := s.readbacks[key := p]), q, 0 - One(p, q), 0 - One(p, q))
  {
    hide Times;
    CountAdd(s.readbacks, key, p, q);
  }

  lemma SyncDropped(s: State, key: int, q: Request)
    requires key in s.syncs
    ensures GaveUp(s, s.(syncs := s.syncs - {key}), q, One(s.syncs[key], q), One(s.syncs[key], q))
  {
    hide Times;
    CountDrop(s.syncs, key, q);
  }

  lemma ReadbackDropped(s: State, key: int, q: Request)
    requires key in s.readbacks
    ensures GaveUp(s, s.(readbacks := s.readbacks - {key}), q, One(s.readbacks[key], q), One(s.readbacks[key], q))
  {
    hide Times;
    CountDrop(s.readbacks, key, q);
  }

  // ---- What a step gives up ----

  function QueuedFor(r: RoleState, node: nat, q: Request): nat {
    if r.binding == Some(node) then Queued(r, q) else 0
  }

  // With a binding go the requests queued for the roles bound to it and everything outstanding for its node.
  function LapsedWith(s: State, node: nat, q: Request): nat {
    if node in s.bindings then OfNode(s.syncs, node, q) + OfNode(s.readbacks, node, q) else 0
  }

  function GivenUpWith(s: State, node: nat, q: Request): nat {
    if node in s.bindings then QueuedFor(s.output, node, q) + QueuedFor(s.input, node, q) + LapsedWith(s, node, q)
    else 0
  }

  predicate Releases(s: State, node: Option<nat>) {
    node.Some? && s.output.node != node && s.input.node != node
  }

  // Nobody is told of these: a queued request that a newer one replaces, what was queued for a role tracked
  // anew or untracked, what went with a binding, and a reply that came too late.
  ghost function GivenUp(s: State, step: Step, q: Request): nat {
    match step.event
    case TrackEvent(role, node, generation) =>
      var left := PutRole(s, role, UNTRACKED.(node := Some(node), generation := generation));
      var before := RoleOf(s, role).node;
      Queued(RoleOf(s, role), q) + if Releases(left, before) then GivenUpWith(left, before.value, q) else 0
    case UntrackEvent(role, generation) =>
      if RoleOf(s, role).generation != generation then 0 else
      var left, before := PutRole(s, role, UNTRACKED), RoleOf(s, role).node;
      Queued(RoleOf(s, role), q) + if Releases(left, before) then GivenUpWith(left, before.value, q) else 0
    case AskEvent(p) =>
      var r := RoleOf(s, p.role);
      if Current(r, p) && r.binding.Some? && Busy(r)
         && (if p.kind == SetVolume then r.queuedVolume else r.queuedMute) == Some(q) then 1 else 0
    case Vanished(node) => GivenUpWith(s, node, q)
    case _ => Lapsed(s, step, q)
  }

  // Those of them that had been sent.
  ghost function Lapsed(s: State, step: Step, q: Request): nat {
    match step.event
    case TrackEvent(role, node, generation) =>
      var left := PutRole(s, role, UNTRACKED.(node := Some(node), generation := generation));
      var before := RoleOf(s, role).node;
      if Releases(left, before) then LapsedWith(left, before.value, q) else 0
    case UntrackEvent(role, generation) =>
      var left, before := PutRole(s, role, UNTRACKED), RoleOf(s, role).node;
      if RoleOf(s, role).generation == generation && Releases(left, before)
      then LapsedWith(left, before.value, q) else 0
    case Vanished(node) => LapsedWith(s, node, q)
    case Synchronised(sequence) =>
      if sequence == s.initialSync || sequence !in s.syncs then 0 else
      var p := s.syncs[sequence];
      var r := RoleOf(s, p.role);
      if Current(r, p) && r.binding.Some? then 0 else One(p, q)
    case Answer(node, sequence, volumes, muted) =>
      if node !in s.bindings then 0 else
      var b := Refreshed(s.bindings[node], volumes, muted);
      var key := Answered(s, node, sequence);
      if !b.hasVolumes || !b.hasMute || key.None? || key.value !in s.readbacks then 0 else
      var p := s.readbacks[key.value];
      var r := RoleOf(s, p.role);
      if Current(r, p) && r.binding == Some(node) then 0 else One(p, q)
    case _ => 0
  }

  // ---- Steps that answer nothing ----

  lemma PostExternalSame(s: State, role: Role, q: Request)
    ensures GaveUp(s, PostExternal(s, role), q, 0, 0)
  {
    hide Due, Gone;
    var r := RoleOf(s, role);
    if r.binding.Some? && r.binding.value in s.bindings {
      var b := s.bindings[r.binding.value];
      if Complete(b) {
        Posted(s, External(role, r.binding.value, r.generation, Average(b.volumes), b.muted), q);
      }
    }
  }

  lemma EnsureRoleSame(s: State, server: Server, role: Role, q: Request)
    ensures GaveUp(s, EnsureRole(s, server, role), q, 0, 0)
  {
    hide Due, Gone, PostExternal;
    var r := RoleOf(s, role);
    if !(r.node.None? || r.binding.Some? || r.node.value !in s.known) {
      var (bound, binding) := EnsureBinding(s, server, r.node.value);
      var put := PutRole(bound, role, r.(binding := binding));
      Same(s, put, q);
      PostExternalSame(put, role, q);
    }
  }

  lemma EnsureTrackedSame(s: State, server: Server, q: Request)
    ensures GaveUp(s, EnsureTracked(s, server), q, 0, 0)
  {
    hide Due, Gone, EnsureRole;
    EnsureRoleSame(s, server, Output, q);
    EnsureRoleSame(EnsureRole(s, server, Output), server, Input, q);
  }

  lemma DropRoleGives(s: State, role: Role, node: nat, q: Request)
    ensures GaveUp(s, DropRole(s, role, node), q, QueuedFor(RoleOf(s, role), node, q), 0)
  {
    hide Due, Gone;
    var r := RoleOf(s, role);
    if r.binding == Some(node) {
      var t := PutRole(s, role, r.(binding := None, volumeInFlight := false, muteInFlight := false,
                                   queuedVolume := None, queuedMute := None));
      Same(s, t, q);
      Posted(t, Unavailable(role, r.generation), q);
    }
  }

  lemma DropRoleLeaves(s: State, node: nat)
    ensures
      var t := DropRole(s, Output, node);
      && t.syncs == s.syncs && t.readbacks == s.readbacks && t.bindings == s.bindings && t.input == s.input
      && DropRole(t, Input, node).syncs == s.syncs && DropRole(t, Input, node).readbacks == s.readbacks
      && DropRole(t, Input, node).bindings == s.bindings
  {
  }

  lemma NodeDropped(s: State, node: nat, bindings: map<nat, Binding>, q: Request)
    ensures var d := OfNode(s.syncs, node, q) + OfNode(s.readbacks, node, q);
            GaveUp(s, s.(syncs := WithoutNode(s.syncs, node), readbacks := WithoutNode(s.readbacks, node),
                         bindings := bindings), q, d, d)
  {
    hide Times;
    CountWithout(s.syncs, node, q);
    CountWithout(s.readbacks, node, q);
  }

  lemma RemoveBindingGives(s: State, node: nat, q: Request)
    ensures GaveUp(s, RemoveBinding(s, node), q, GivenUpWith(s, node, q), LapsedWith(s, node, q))
  {
    hide Due, Gone, DropRole, Queued, OfNode, WithoutNode;
    if node in s.bindings {
      var one := DropRole(s, Output, node);
      var two := DropRole(one, Input, node);
      DropRoleGives(s, Output, node, q);
      DropRoleGives(one, Input, node, q);
      DropRoleLeaves(s, node);
      NodeDropped(two, node, two.bindings - {node}, q);
    }
  }

  lemma ReleaseGives(s: State, node: Option<nat>, q: Request)
    ensures GaveUp(s, ReleaseIfUnused(s, node), q,
                   if Releases(s, node) then GivenUpWith(s, node.value, q) else 0,
                   if Releases(s, node) then LapsedWith(s, node.value, q) else 0)
  {
    hide Due, Gone, RemoveBinding, GivenUpWith, LapsedWith;
    if node.Some? {
      RemoveBindingGives(s, node.value, q);
    }
  }

  lemma ReplacedGives(s: State, role: Role, r: RoleState, q: Request)
    requires r.queuedVolume.None? && r.queuedMute.None?
    ensures GaveUp(s, PutRole(s, role, r), q, Queued(RoleOf(s, role), q), 0)
  {
    Same(s, PutRole(s, role, r), q);
    hide Due, Gone;
  }

  lemma LogLeaves(s: State, m: Message, node: nat, q: Request)
    ensures GivenUpWith(Post(s, m), node, q) == GivenUpWith(s, node, q)
    ensures LapsedWith(Post(s, m), node, q) == LapsedWith(s, node, q)
  {
  }

  lemma TrackGives(s: State, server: Server, role: Role, node: nat, generation: nat, q: Request)
    ensures var step := Step(TrackEvent(role, node, generation), server);
            GaveUp(s, Track(s, server, role, node, generation), q, GivenUp(s, step, q), Lapsed(s, step, q))
  {
    hide Due, Gone, ReleaseIfUnused, EnsureTracked, GivenUpWith, LapsedWith, Queued;
    var put := PutRole(s, role, UNTRACKED.(node := Some(node), generation := generation));
    var replaced := Post(put, Tracked(role));
    var before := RoleOf(s, role).node;
    ReplacedGives(s, role, UNTRACKED.(node := Some(node), generation := generation), q);
    Posted(put, Tracked(role), q);
    ReleaseGives(replaced, before, q);
    LogLeaves(put, Tracked(role), if before.Some? then before.value else 0, q);
    var released := ReleaseIfUnused(replaced, before);
    EnsureTrackedSame(released, server, q);
    Posted(EnsureTracked(released, server), Unavailable(role, generation), q);
  }

  lemma UntrackGives(s: State, role: Role, generation: nat, server: Server, q: Request)
    ensures var step := Step(UntrackEvent(role, generation), server);
            GaveUp(s, Untrack(s, role, generation), q, GivenUp(s, step, q), Lapsed(s, step, q))
  {
    hide Due, Gone, ReleaseIfUnused, GivenUpWith, LapsedWith, Queued;
    ReplacedGives(s, role, UNTRACKED, q);
    ReleaseGives(PutRole(s, role, UNTRACKED), RoleOf(s, role).node, q);
  }

  // ---- Steps that send and answer ----

  lemma SendableReasons(s: State, p: Request)
    ensures Sendable(s, p).Some? ==> Sendable(s, p).value in {Stale, NotReady, InvalidState}
  {
  }

  lemma ClearSame(s: State, p: Request, q: Request)
    ensures GaveUp(s, ClearInFlight(s, p), q, 0, 0)
  {
    hide Due, Gone;
    Same(s, ClearInFlight(s, p), q);
  }

  lemma FlyGives(s: State, p: Request, flying: bool, q: Request)
    ensures GaveUp(s, PutRole(s, p.role, Fly(RoleOf(s, p.role), p.kind, flying)), q, 0, 0)
  {
    hide Due, Gone;
    Same(s, PutRole(s, p.role, Fly(RoleOf(s, p.role), p.kind, flying)), q);
  }

  lemma SentGives(s: State, server: Server, p: Request, q: Request)
    requires NewSync(s, server)
    ensures var sent := Post(PutRole(s, p.role, Fly(RoleOf(s, p.role), p.kind, true)), Dispatched(p, Written(s, p)));
      var t := if server.sync < 0 then Post(ClearInFlight(sent, p), Failed(p, SyncFailed))
               else sent.(syncs := sent.syncs[server.sync := p]);
      GaveUp(s, t, q, 0 - One(p, q), 0)
  {
    hide Due, Gone, ClearInFlight, Fly;
    var flying := PutRole(s, p.role, Fly(RoleOf(s, p.role), p.kind, true));
    var sent := Post(flying, Dispatched(p, Written(s, p)));
    FlyGives(s, p, true, q);
    Posted(flying, Dispatched(p, Written(s, p)), q);
    if server.sync < 0 {
      ClearSame(sent, p, q);
      Posted(ClearInFlight(sent, p), Failed(p, SyncFailed), q);
    } else {
      SyncAdded(sent, server.sync, p, q);
    }
  }

  // What is dispatched was received and is not held any more.
  lemma DispatchGives(s: State, server: Server, p: Request, q: Request)
    requires NewSync(s, server)
    ensures GaveUp(s, Dispatch(s, server, p), q, 0 - One(p, q), 0)
  {
    hide Due, Gone, Scaled, Sendable;
    var fault := Sendable(s, p);
    if fault.Some? {
      Posted(s, Failed(p, fault.value), q);
      SendableReasons(s, p);
    } else if server.refusesWrite {
      Posted(s, Failed(p, Refused), q);
    } else {
      SentGives(s, server, p, q);
    }
  }

  lemma EnqueuedGives(s: State, p: Request, q: Request)
    ensures var r := RoleOf(s, p.role);
      GaveUp(s, PutRole(s, p.role, Enqueue(r, p)), q,
             (if (if p.kind == SetVolume then r.queuedVolume else r.queuedMute) == Some(q) then 1 else 0) - One(p, q),
             0)
  {
    hide Due, Gone;
    Same(s, PutRole(s, p.role, Enqueue(RoleOf(s, p.role), p)), q);
  }

  lemma AskGives(s: State, server: Server, p: Request, q: Request)
    requires NewSync(s, server)
    ensures GaveUp(s, Ask(s, server, p), q, GivenUp(s, Step(AskEvent(p), server), q), 0)
  {
    hide Due, Gone, Dispatch;
    var received := Post(s, Received(p));
    Posted(s, Received(p), q);
    var r := RoleOf(s, p.role);
    if !Current(r, p) || r.binding.None? {
      Posted(received, Failed(p, Stale), q);
    } else {
      var accepted := Post(received, Accepted(p));
      Posted(received, Accepted(p), q);
      if Busy(r) {
        EnqueuedGives(accepted, p, q);
      } else {
        DispatchGives(accepted, server, p, q);
      }
    }
  }

  lemma DispatchQueuedGives(s: State, server: Server, role: Role, q: Request)
    requires NewSync(s, server)
    ensures GaveUp(s, DispatchQueued(s, server, role), q, 0, 0)
  {
    hide Due, Gone, Dispatch;
    var r := RoleOf(s, role);
    if !Busy(r) {
      if r.queuedMute.Some? {
        var t := PutRole(s, role, r.(queuedMute := None));
        Same(s, t, q);
        DispatchGives(t, server, r.queuedMute.value, q);
      } else if r.queuedVolume.Some? {
        var t := PutRole(s, role, r.(queuedVolume := None));
        Same(s, t, q);
        DispatchGives(t, server, r.queuedVolume.value, q);
      }
    }
  }

  lemma BeginReadbackGives(s: State, server: Server, p: Request, q: Request)
    requires forall k :: k in s.readbacks ==> k <= s.nextReadback
    ensures var r := RoleOf(s, p.role);
      var d := if Current(r, p) && r.binding.Some? then 0 - One(p, q) else 0;
      GaveUp(s, BeginReadback(s, server, p), q, d, d)
  {
    hide Due, Gone, ClearInFlight;
    var key := s.nextReadback + 1;
    var numbered := s.(nextReadback := key);
    var asked := numbered.(readbacks := s.readbacks[key := p]);
    var back := asked.(readbacks := asked.readbacks - {key});
    Same(s, numbered, q);
    ClearSame(s, p, q);
    ReadbackAdded(numbered, key, p, q);
    ReadbackDropped(asked, key, q);
    ClearSame(back, p, q);
    Posted(ClearInFlight(back, p), Failed(p, ReadbackFailed), q);
  }

  lemma CompleteGives(s: State, server: Server, p: Request, node: nat, q: Request)
    requires NewSync(s, server) && node in s.bindings && Complete(s.bindings[node])
    ensures var r := RoleOf(s, p.role);
      var d := if Current(r, p) && r.binding == Some(node) then 0 - One(p, q) else 0;
      GaveUp(s, CompleteRequest(s, server, p, node), q, d, d)
  {
    hide Due, Gone, DispatchQueued, ClearInFlight, Average;
    var b := s.bindings[node];
    var confirmed := PostConfirmed(s, p, node);
    Posted(s, Confirmed(p, Average(b.volumes), b.muted), q);
    ClearSame(confirmed, p, q);
    ClearKeepsSyncs(confirmed, p);
    DispatchQueuedGives(ClearInFlight(confirmed, p), server, p.role, q);
  }

  lemma PublishSame(s: State, role: Role, node: nat, q: Request)
    ensures GaveUp(s, PublishExternal(s, role, node), q, 0, 0)
  {
    hide Due, Gone, PostExternal;
    PostExternalSame(s, role, q);
  }

  lemma AnswerGives(s: State, step: Step, q: Request)
    requires Inv(s) && Permitted(s, step) && step.event.Answer? && step.event.node in s.bindings
    ensures GaveUp(s, Apply(s, step), q, Lapsed(s, step, q), Lapsed(s, step, q))
  {
    hide Due, Gone, CompleteRequest, PublishExternal, Answered, RoleInv, GoodVolumes;
    var Answer(node, sequence, volumes, muted) := step.event;
    var b := Refreshed(s.bindings[node], volumes, muted);
    var fresher := s.(bindings := s.bindings[node := b]);
    RefreshedGood(s.bindings[node], volumes, muted);
    Same(s, fresher, q);
    var key := Answered(s, node, sequence);
    if b.hasVolumes && b.hasMute {
      if key.Some? && key.value in s.readbacks {
        assert Complete(b) by { GoodComplete(b); }
        ReadbackDropped(fresher, key.value, q);
        CompleteGives(fresher.(readbacks := s.readbacks - {key.value}), step.server, s.readbacks[key.value], node, q);
      } else {
        PublishSame(fresher, Output, node, q);
        PublishSame(PublishExternal(fresher, Output, node), Input, node, q);
      }
    }
  }

  lemma GoodComplete(b: Binding)
    requires GoodBinding(b) && b.hasVolumes && b.hasMute
    ensures Complete(b)
  {
  }

  lemma CoreDoneGives(s: State, step: Step, q: Request)
    requires Inv(s) && step.event.Synchronised?
    ensures GaveUp(s, Apply(s, step), q, Lapsed(s, step, q), Lapsed(s, step, q))
  {
    hide Due, Gone, EnsureTracked, BeginReadback, RoleInv;
    var sequence := step.event.sequence;
    if sequence == s.initialSync {
      Same(s, s.(ready := true), q);
      EnsureTrackedSame(s.(ready := true), step.server, q);
    } else if sequence in s.syncs {
      SyncDropped(s, sequence, q);
      BeginReadbackGives(s.(syncs := s.syncs - {sequence}), step.server, s.syncs[sequence], q);
    } else {
      Same(s, s, q);
    }
  }

  // Every step gives up exactly the requests described.
  lemma StepGives(s: State, step: Step, q: Request)
    requires Inv(s) && Permitted(s, step)
    ensures GaveUp(s, Apply(s, step), q, GivenUp(s, step, q), Lapsed(s, step, q))
  {
    hide Due, Gone, Inv, NodeParam, CoreDone, RemoveBinding, EnsureTracked, Ask, Track, Untrack, GivenUpWith,
      LapsedWith, Answered, GoodVolumes;
    match step.event {
      case TrackEvent(role, node, generation) => TrackGives(s, step.server, role, node, generation, q);
      case UntrackEvent(role, generation) => UntrackGives(s, role, generation, step.server, q);
      case AskEvent(p) => AskGives(s, step.server, p, q);
      case Appeared(node) =>
        Same(s, s.(known := s.known + {node}), q);
        EnsureTrackedSame(s.(known := s.known + {node}), step.server, q);
      case Vanished(node) =>
        var t := s.(known := s.known - {node});
        Same(s, t, q);
        RemoveBindingGives(t, node, q);
        KnownLeaves(s, s.known - {node}, node, q);
      case Synchronised(sequence) => CoreDoneGives(s, step, q);
      case Answer(node, sequence, volumes, muted) =>
        if node in s.bindings {
          AnswerGives(s, step, q);
        } else {
          Same(s, s, q);
        }
    }
  }

  lemma KnownLeaves(s: State, known: set<nat>, node: nat, q: Request)
    ensures GivenUpWith(s.(known := known), node, q) == GivenUpWith(s, node, q)
    ensures LapsedWith(s.(known := known), node, q) == LapsedWith(s, node, q)
  {
  }

  // ---- Whole runs ----

  ghost function AllGivenUp(s: State, steps: seq<Step>, q: Request): nat
    decreases |steps|
  {
    if steps == [] then 0 else GivenUp(s, steps[0], q) + AllGivenUp(Apply(s, steps[0]), steps[1..], q)
  }

  ghost function AllLapsed(s: State, steps: seq<Step>, q: Request): nat
    decreases |steps|
  {
    if steps == [] then 0 else Lapsed(s, steps[0], q) + AllLapsed(Apply(s, steps[0]), steps[1..], q)
  }

  lemma {:induction false} RunGives(s: State, steps: seq<Step>, q: Request)
    requires Inv(s) && AllPermitted(s, steps)
    ensures GaveUp(s, Run(s, steps), q, AllGivenUp(s, steps, q), AllLapsed(s, steps, q))
    decreases |steps|
  {
    hide Due, Gone, Inv, Permitted, Apply, GivenUp, Lapsed;
    if steps != [] {
      StepKeeps(s, steps[0]);
      StepGives(s, steps[0], q);
      RunGives(Apply(s, steps[0]), steps[1..], q);
    }
  }

  // Over any run each request received is confirmed, refused, still held or was given up by one of the steps
  // described, once for each time it was asked; and so is each write sent.
  lemma AnsweredExactlyOnce(sync: int, steps: seq<Step>, q: Request)
    requires AllPermitted(Initial(sync), steps)
    ensures var s := Run(Initial(sync), steps);
      && Times(s.log, q, WasReceived)
         == Times(s.log, q, WasConfirmed) + Times(s.log, q, WasFailed) + Held(s, q)
            + AllGivenUp(Initial(sync), steps, q)
      && Times(s.log, q, WasDispatched)
         == Times(s.log, q, WasConfirmed) + Times(s.log, q, WasLost) + InFlight(s, q)
            + AllLapsed(Initial(sync), steps, q)
  {
    assert Inv(Initial(sync));
    RunGives(Initial(sync), steps, q);
  }
}
