/**
  * What every step of the audio bridge keeps: a role has a write in flight exactly when
  * exactly one outstanding request is about what it tracks now.
  */
module AudioInvariant {
  import opened Basics
  import opened Volume
  import opened AudioModel

  ghost predicate Mine(r: RoleState, role: Role, q: Request) {
    q.role == role && Current(r, q)
  }

  // Nothing outstanding is about what the role tracks now.
  ghost predicate Silent(s: State, role: Role, r: RoleState) {
    && (forall k :: k in s.syncs ==> !Mine(r, role, s.syncs[k]))
    && (forall k :: k in s.readbacks ==> !Mine(r, role, s.readbacks[k]))
  }

  ghost predicate OneSync(s: State, role: Role, r: RoleState, key: int) {
    && key in s.syncs && Mine(r, role, s.syncs[key])
    && (forall k :: k in s.syncs && Mine(r, role, s.syncs[k]) ==> k == key)
    && (forall k :: k in s.readbacks ==> !Mine(r, role, s.readbacks[k]))
  }

  ghost predicate OneReadback(s: State, role: Role, r: RoleState, key: int) {
    && key in s.readbacks && Mine(r, role, s.readbacks[key])
    && (forall k :: k in s.readbacks && Mine(r, role, s.readbacks[k]) ==> k == key)
    && (forall k :: k in s.syncs ==> !Mine(r, role, s.syncs[k]))
  }

  // Exactly one outstanding request is the role's, and it is of this kind.
  ghost predicate Flying(s: State, role: Role, r: RoleState, kind: Kind) {
    || (exists key :: OneSync(s, role, r, key) && s.syncs[key].kind == kind)
    || (exists key :: OneReadback(s, role, r, key) && s.readbacks[key].kind == kind)
  }

  ghost predicate QueueInv(role: Role, r: RoleState) {
    && (r.queuedVolume.Some? ==>
          r.binding.Some? && Mine(r, role, r.queuedVolume.value) && r.queuedVolume.value.kind == SetVolume)
    && (r.queuedMute.Some? ==>
          r.binding.Some? && Mine(r, role, r.queuedMute.value) && r.queuedMute.value.kind == SetMute)
  }

  ghost predicate FlightInv(s: State, role: Role, r: RoleState) {
    && !(r.volumeInFlight && r.muteInFlight)
    && (Busy(r) ==> r.binding.Some?)
    && if r.volumeInFlight then Flying(s, role, r, SetVolume)
       else if r.muteInFlight then Flying(s, role, r, SetMute)
       else Silent(s, role, r)
  }

  ghost predicate BindingInv(s: State, r: RoleState) {
    r.binding.Some? ==> r.binding == r.node && r.binding.value in s.bindings
  }

  ghost predicate RoleInv(s: State, role: Role) {
    var r := RoleOf(s, role);
    BindingInv(s, r) && FlightInv(s, role, r) && QueueInv(role, r)
  }

  ghost predicate GoodBinding(b: Binding) {
    if b.hasVolumes then GoodVolumes(b.volumes) else b.volumes == []
  }

  ghost predicate Inv(s: State) {
    && RoleInv(s, Output) && RoleInv(s, Input)
    && (forall k :: k in s.readbacks ==> k <= s.nextReadback)
    && (forall n :: n in s.bindings ==> GoodBinding(s.bindings[n]))
  }

  // ---- What the parts of the invariant look at ----

  lemma SameRole(s: State, t: State, role: Role)
    requires RoleInv(s, role) && RoleOf(t, role) == RoleOf(s, role)
    requires t.syncs == s.syncs && t.readbacks == s.readbacks
    requires RoleOf(s, role).binding.Some? ==> RoleOf(s, role).binding.value in t.bindings
    ensures RoleInv(t, role)
  {
    SameFlight(s, t, role, RoleOf(s, role));
  }

  lemma SameFlight(s: State, t: State, role: Role, r: RoleState)
    requires FlightInv(s, role, r)
    requires t.syncs == s.syncs && t.readbacks == s.readbacks
    ensures FlightInv(t, role, r)
  {
    if key :| OneSync(s, role, r, key) {
      assert OneSync(t, role, r, key);
    }
    if key :| OneReadback(s, role, r, key) {
      assert OneReadback(t, role, r, key);
    }
  }

  // Same logs aside, same state: messages do not matter.
  lemma PostKeeps(s: State, message: Message)
    requires Inv(s)
    ensures Inv(Post(s, message))
  {
    hide FlightInv, QueueInv;
    SameRole(s, Post(s, message), Output);
    SameRole(s, Post(s, message), Input);
  }

  // A role's own flags aside, changing one role leaves the other alone.
  lemma PutRoleKeeps(s: State, role: Role, r: RoleState)
    requires Inv(s) && BindingInv(s, r) && FlightInv(s, role, r) && QueueInv(role, r)
    ensures Inv(PutRole(s, role, r))
  {
    hide FlightInv, QueueInv;
    var t := PutRole(s, role, r);
    SameFlight(s, t, Output, RoleOf(t, Output));
    SameFlight(s, t, Input, RoleOf(t, Input));
  }

  // ---- Outstanding requests come and go ----

  lemma AddSyncOther(s: State, key: int, q: Request, role: Role, r: RoleState)
    requires FlightInv(s, role, r) && key !in s.syncs && !Mine(r, role, q)
    ensures FlightInv(s.(syncs := s.syncs[key := q]), role, r)
  {
    var t := s.(syncs := s.syncs[key := q]);
    if k :| OneSync(s, role, r, k) {
      assert OneSync(t, role, r, k);
    }
    if k :| OneReadback(s, role, r, k) {
      assert OneReadback(t, role, r, k);
    }
  }

  lemma AddReadbackOther(s: State, key: int, q: Request, role: Role, r: RoleState)
    requires FlightInv(s, role, r) && key !in s.readbacks && !Mine(r, role, q)
    ensures FlightInv(s.(readbacks := s.readbacks[key := q]), role, r)
  {
    var t := s.(readbacks := s.readbacks[key := q]);
    if k :| OneSync(s, role, r, k) {
      assert OneSync(t, role, r, k);
    }
    if k :| OneReadback(s, role, r, k) {
      assert OneReadback(t, role, r, k);
    }
  }

  lemma AddSyncMine(s: State, key: int, q: Request, role: Role, r: RoleState)
    requires Silent(s, role, r) && key !in s.syncs && Mine(r, role, q)
    ensures Flying(s.(syncs := s.syncs[key := q]), role, r, q.kind)
  {
    assert OneSync(s.(syncs := s.syncs[key := q]), role, r, key);
  }

  lemma AddReadbackMine(s: State, key: int, q: Request, role: Role, r: RoleState)
    requires Silent(s, role, r) && key !in s.readbacks && Mine(r, role, q)
    ensures Flying(s.(readbacks := s.readbacks[key := q]), role, r, q.kind)
  {
    assert OneReadback(s.(readbacks := s.readbacks[key := q]), role, r, key);
  }

  lemma DropSync(s: State, key: int, role: Role, r: RoleState)
    requires FlightInv(s, role, r) && key in s.syncs
    ensures var t := s.(syncs := s.syncs - {key});
      if Mine(r, role, s.syncs[key]) then
        Silent(t, role, r) && Busy(r)
        && (if s.syncs[key].kind == SetVolume then r.volumeInFlight else r.muteInFlight)
      else FlightInv(t, role, r)
  {
    var t := s.(syncs := s.syncs - {key});
    if !Mine(r, role, s.syncs[key]) {
      if k :| OneSync(s, role, r, k) {
        assert OneSync(t, role, r, k);
      }
      if k :| OneReadback(s, role, r, k) {
        assert OneReadback(t, role, r, k);
      }
    }
  }

  lemma DropReadback(s: State, key: int, role: Role, r: RoleState)
    requires FlightInv(s, role, r) && key in s.readbacks
    ensures var t := s.(readbacks := s.readbacks - {key});
      if Mine(r, role, s.readbacks[key]) then
        Silent(t, role, r) && Busy(r)
        && (if s.readbacks[key].kind == SetVolume then r.volumeInFlight else r.muteInFlight)
      else FlightInv(t, role, r)
  {
    var t := s.(readbacks := s.readbacks - {key});
    if !Mine(r, role, s.readbacks[key]) {
      if k :| OneSync(s, role, r, k) {
        assert OneSync(t, role, r, k);
      }
      if k :| OneReadback(s, role, r, k) {
        assert OneReadback(t, role, r, k);
      }
    }
  }

  lemma DropNode(s: State, node: nat, role: Role, r: RoleState)
    requires FlightInv(s, role, r) && (Busy(r) ==> r.node != Some(node))
    ensures FlightInv(s.(syncs := WithoutNode(s.syncs, node), readbacks := WithoutNode(s.readbacks, node)), role, r)
  {
    var t := s.(syncs := WithoutNode(s.syncs, node), readbacks := WithoutNode(s.readbacks, node));
    if k :| OneSync(s, role, r, k) {
      assert OneSync(t, role, r, k);
    }
    if k :| OneReadback(s, role, r, k) {
      assert OneReadback(t, role, r, k);
    }
  }

  // ---- Bindings ----

  lemma EnsureRoleKeeps(s: State, server: Server, role: Role)
    requires Inv(s)
    ensures Inv(EnsureRole(s, server, role))
    ensures EnsureRole(s, server, role).syncs == s.syncs && EnsureRole(s, server, role).readbacks == s.readbacks
  {
    hide Flying, Silent, PostExternal;
    var r := RoleOf(s, role);
    if !(r.node.None? || r.binding.Some? || r.node.value !in s.known) {
      var (bound, binding) := EnsureBinding(s, server, r.node.value);
      SameRole(s, bound, Output);
      SameRole(s, bound, Input);
      assert Inv(bound);
      SameFlight(s, bound, role, r.(binding := binding)) by {
        assert FlightInv(s, role, r.(binding := binding)) by { Rebound(s, role, r, binding); }
      }
      PutRoleKeeps(bound, role, r.(binding := binding));
      PostExternalKeeps(PutRole(bound, role, r.(binding := binding)), role);
    }
  }

  lemma Rebound(s: State, role: Role, r: RoleState, binding: Option<nat>)
    requires FlightInv(s, role, r) && r.binding.None?
    ensures FlightInv(s, role, r.(binding := binding))
  {
    assert Silent(s, role, r.(binding := binding));
  }

  lemma PostExternalKeeps(s: State, role: Role)
    requires Inv(s)
    ensures Inv(PostExternal(s, role))
    ensures PostExternal(s, role).syncs == s.syncs && PostExternal(s, role).readbacks == s.readbacks
  {
    hide Inv;
    var r := RoleOf(s, role);
    if !(r.binding.None? || r.binding.value !in s.bindings || !Complete(s.bindings[r.binding.value])) {
      var b := s.bindings[r.binding.value];
      PostKeeps(s, External(role, r.binding.value, r.generation, Average(b.volumes), b.muted));
    }
  }

  lemma EnsureTrackedKeeps(s: State, server: Server)
    requires Inv(s)
    ensures Inv(EnsureTracked(s, server))
  {
    hide Inv, EnsureRole;
    if s.ready {
      EnsureRoleKeeps(s, server, Output);
      EnsureRoleKeeps(EnsureRole(s, server, Output), server, Input);
    }
  }

  lemma RemoveBindingKeeps(s: State, node: nat)
    requires Inv(s)
    ensures Inv(RemoveBinding(s, node))
  {
    if node in s.bindings {
      var t := RemoveBinding(s, node);
      DroppedRole(s, t, Output, node);
      DroppedRole(s, t, Input, node);
    }
  }

  lemma DroppedRole(s: State, t: State, role: Role, node: nat)
    requires RoleInv(s, role) && node in s.bindings && t.bindings == s.bindings - {node}
    requires t.syncs == WithoutNode(s.syncs, node) && t.readbacks == WithoutNode(s.readbacks, node)
    requires RoleOf(t, role) == RoleOf(DropRole(s, role, node), role)
    ensures RoleInv(t, role)
  {
    hide Flying;
    var r := RoleOf(s, role);
    if r.binding == Some(node) {
      assert Silent(t, role, RoleOf(t, role));
    } else {
      DropNode(s, node, role, r);
      SameFlight(s.(syncs := WithoutNode(s.syncs, node), readbacks := WithoutNode(s.readbacks, node)), t, role, r);
    }
  }

  lemma ReleaseKeeps(s: State, node: Option<nat>)
    requires Inv(s)
    ensures Inv(ReleaseIfUnused(s, node))
  {
    if node.Some? {
      RemoveBindingKeeps(s, node.value);
    }
  }

  // ---- Commands ----

  lemma ReplaceKeeps(s: State, role: Role, r: RoleState)
    requires Inv(s) && r.binding.None? && !Busy(r) && r.queuedVolume.None? && r.queuedMute.None?
    requires Silent(s, role, r)
    ensures Inv(PutRole(s, role, r))
  {
    PutRoleKeeps(s, role, r);
  }

  lemma TrackKeeps(s: State, server: Server, role: Role, node: nat, generation: nat)
    requires Inv(s)
    requires forall q :: Outstanding(s, q) && q.role == role && q.node == node ==> q.generation != generation
    ensures Inv(Track(s, server, role, node, generation))
  {
    hide Inv, ReleaseIfUnused, EnsureTracked;
    var r := UNTRACKED.(node := Some(node), generation := generation);
    assert Silent(s, role, r) by {
      forall k | k in s.syncs
        ensures !Mine(r, role, s.syncs[k])
      {
        assert Outstanding(s, s.syncs[k]);
      }
      forall k | k in s.readbacks
        ensures !Mine(r, role, s.readbacks[k])
      {
        assert Outstanding(s, s.readbacks[k]);
      }
    }
    ReplaceKeeps(s, role, r);
    var replaced := Post(PutRole(s, role, r), Tracked(role));
    PostKeeps(PutRole(s, role, r), Tracked(role));
    ReleaseKeeps(replaced, RoleOf(s, role).node);
    var released := ReleaseIfUnused(replaced, RoleOf(s, role).node);
    EnsureTrackedKeeps(released, server);
    PostKeeps(EnsureTracked(released, server), Unavailable(role, generation));
  }

  lemma UntrackKeeps(s: State, role: Role, generation: nat)
    requires Inv(s)
    ensures Inv(Untrack(s, role, generation))
  {
    hide Inv, ReleaseIfUnused;
    if RoleOf(s, role).generation == generation {
      ReplaceKeeps(s, role, UNTRACKED);
      ReleaseKeeps(PutRole(s, role, UNTRACKED), RoleOf(s, role).node);
    }
  }

  ghost predicate NewSync(s: State, server: Server) {
    server.sync !in s.syncs
  }

  lemma FlownKeeps(s: State, server: Server, q: Request)
    requires Inv(s) && NewSync(s, server)
    requires !Busy(RoleOf(s, q.role)) && RoleOf(s, q.role).binding.Some? && Current(RoleOf(s, q.role), q)
    ensures Inv(PutRole(s.(syncs := s.syncs[server.sync := q]), q.role, Fly(RoleOf(s, q.role), q.kind, true)))
  {
    var t := s.(syncs := s.syncs[server.sync := q]);
    var r := Fly(RoleOf(s, q.role), q.kind, true);
    var u := PutRole(t, q.role, r);
    var other := if q.role == Output then Input else Output;
    AddSyncOther(s, server.sync, q, other, RoleOf(s, other));
    SameFlight(t, u, other, RoleOf(s, other));
    assert Silent(s, q.role, r);
    AddSyncMine(s, server.sync, q, q.role, r);
    SameFlight(t, u, q.role, r);
    assert RoleInv(u, q.role) && RoleInv(u, other);
  }

  lemma DispatchKeeps(s: State, server: Server, q: Request)
    requires Inv(s) && NewSync(s, server) && !Busy(RoleOf(s, q.role)) && Current(RoleOf(s, q.role), q)
    ensures Inv(Dispatch(s, server, q))
  {
    hide Inv, Flying, Silent, Scaled;
    var fault := Sendable(s, q);
    if fault.Some? {
      PostKeeps(s, Failed(q, fault.value));
    } else if server.refusesWrite {
      PostKeeps(s, Failed(q, Refused));
    } else {
      var r := RoleOf(s, q.role);
      if server.sync < 0 {
        var logged := Post(Post(s, Dispatched(q, Written(s, q))), Failed(q, SyncFailed));
        PostKeeps(s, Dispatched(q, Written(s, q)));
        PostKeeps(Post(s, Dispatched(q, Written(s, q))), Failed(q, SyncFailed));
        assert Fly(Fly(r, q.kind, true), q.kind, false) == r;
        assert Dispatch(s, server, q) == logged;
      } else {
        FlownKeeps(s, server, q);
        var t := PutRole(s.(syncs := s.syncs[server.sync := q]), q.role, Fly(r, q.kind, true));
        PostKeeps(t, Dispatched(q, Written(s, q)));
        assert Dispatch(s, server, q) == Post(t, Dispatched(q, Written(s, q)));
      }
    }
  }

  lemma AskKeeps(s: State, server: Server, q: Request)
    requires Inv(s) && NewSync(s, server)
    ensures Inv(Ask(s, server, q))
  {
    hide Inv, Dispatch;
    var received := Post(s, Received(q));
    var accepted := Post(received, Accepted(q));
    PostKeeps(s, Received(q));
    PostKeeps(received, Failed(q, Stale));
    PostKeeps(received, Accepted(q));
    var r := RoleOf(s, q.role);
    if Current(r, q) && r.binding.Some? {
      if Busy(r) {
        EnqueueKeeps(accepted, q);
      } else {
        DispatchKeeps(accepted, server, q);
      }
    }
  }

  lemma EnqueueKeeps(s: State, q: Request)
    requires Inv(s) && Current(RoleOf(s, q.role), q) && RoleOf(s, q.role).binding.Some?
    ensures Inv(PutRole(s, q.role, Enqueue(RoleOf(s, q.role), q)))
  {
    var r := RoleOf(s, q.role);
    Requeued(s, q.role, r, Enqueue(r, q));
    PutRoleKeeps(s, q.role, Enqueue(r, q));
  }

  // Queued requests are not outstanding.
  lemma Requeued(s: State, role: Role, r: RoleState, t: RoleState)
    requires FlightInv(s, role, r) && t.(queuedVolume := r.queuedVolume, queuedMute := r.queuedMute) == r
    ensures FlightInv(s, role, t)
  {
    if k :| OneSync(s, role, r, k) {
      assert OneSync(s, role, t, k);
    }
    if k :| OneReadback(s, role, r, k) {
      assert OneReadback(s, role, t, k);
    }
  }

  lemma DispatchQueuedKeeps(s: State, server: Server, role: Role)
    requires Inv(s) && NewSync(s, server)
    ensures Inv(DispatchQueued(s, server, role))
  {
    hide Dispatch, Flying, Silent;
    var r := RoleOf(s, role);
    if !Busy(r) {
      if r.queuedMute.Some? {
        Requeued(s, role, r, r.(queuedMute := None));
        PutRoleKeeps(s, role, r.(queuedMute := None));
        DispatchKeeps(PutRole(s, role, r.(queuedMute := None)), server, r.queuedMute.value);
      } else if r.queuedVolume.Some? {
        Requeued(s, role, r, r.(queuedVolume := None));
        PutRoleKeeps(s, role, r.(queuedVolume := None));
        DispatchKeeps(PutRole(s, role, r.(queuedVolume := None)), server, r.queuedVolume.value);
      }
    }
  }

  // ---- Answers ----

  // q has just been taken out of the outstanding requests and its role still flies it.
  ghost predicate LandingRole(s: State, role: Role, q: Request) {
    var r := RoleOf(s, role);
    && BindingInv(s, r) && QueueInv(role, r)
    && if Mine(r, role, q) then
         && Silent(s, role, r) && r.binding.Some? && !(r.volumeInFlight && r.muteInFlight)
         && (if q.kind == SetVolume then r.volumeInFlight else r.muteInFlight)
       else FlightInv(s, role, r)
  }

  ghost predicate Landing(s: State, q: Request) {
    && LandingRole(s, Output, q) && LandingRole(s, Input, q)
    && (forall k :: k in s.readbacks ==> k <= s.nextReadback)
    && (forall n :: n in s.bindings ==> GoodBinding(s.bindings[n]))
  }

  lemma SyncLands(s: State, key: int)
    requires Inv(s) && key in s.syncs
    ensures Landing(s.(syncs := s.syncs - {key}), s.syncs[key])
  {
    hide Flying, Silent;
    DropSync(s, key, Output, s.output);
    DropSync(s, key, Input, s.input);
  }

  lemma ReadbackLands(s: State, key: int)
    requires Inv(s) && key in s.readbacks
    ensures Landing(s.(readbacks := s.readbacks - {key}), s.readbacks[key])
  {
    hide Flying, Silent;
    DropReadback(s, key, Output, s.output);
    DropReadback(s, key, Input, s.input);
  }

  lemma LandedClear(s: State, q: Request)
    requires Landing(s, q)
    ensures Inv(ClearInFlight(s, q))
  {
    var t := ClearInFlight(s, q);
    var other := if q.role == Output then Input else Output;
    SameFlight(s, t, other, RoleOf(s, other));
    if Mine(RoleOf(s, q.role), q.role, q) {
      assert Silent(t, q.role, RoleOf(t, q.role));
    } else {
      SameFlight(s, t, q.role, RoleOf(s, q.role));
    }
    assert RoleInv(t, other) && RoleInv(t, q.role);
  }

  lemma LandedReadback(s: State, q: Request)
    requires Landing(s, q) && Mine(RoleOf(s, q.role), q.role, q)
    ensures Inv(s.(nextReadback := s.nextReadback + 1, readbacks := s.readbacks[s.nextReadback + 1 := q]))
  {
    var key := s.nextReadback + 1;
    var u := s.(readbacks := s.readbacks[key := q]);
    var t := u.(nextReadback := key);
    var other := if q.role == Output then Input else Output;
    AddReadbackOther(s, key, q, other, RoleOf(s, other));
    SameFlight(u, t, other, RoleOf(s, other));
    AddReadbackMine(s, key, q, q.role, RoleOf(s, q.role));
    SameFlight(u, t, q.role, RoleOf(s, q.role));
    assert RoleInv(t, other) && RoleInv(t, q.role);
  }

  lemma BeginReadbackKeeps(s: State, server: Server, q: Request)
    requires Landing(s, q)
    ensures Inv(BeginReadback(s, server, q))
  {
    hide Inv, Silent, Flying, ClearInFlight;
    var r := RoleOf(s, q.role);
    if !Current(r, q) || r.binding.None? {
      LandedClear(s, q);
    } else if server.refusesReadback {
      var key := s.nextReadback + 1;
      var asked := s.(nextReadback := key, readbacks := s.readbacks[key := q]);
      assert asked.readbacks - {key} == s.readbacks;
      var back := s.(nextReadback := key);
      LandingOn(s, q);
      LandedClear(back, q);
      PostKeeps(ClearInFlight(back, q), Failed(q, ReadbackFailed));
    } else {
      LandedReadback(s, q);
    }
  }

  lemma LandingOn(s: State, q: Request)
    requires Landing(s, q)
    ensures Landing(s.(nextReadback := s.nextReadback + 1), q)
  {
    var t := s.(nextReadback := s.nextReadback + 1);
    forall role | FlightInv(s, role, RoleOf(s, role))
      ensures FlightInv(t, role, RoleOf(s, role))
    {
      SameFlight(s, t, role, RoleOf(s, role));
    }
    assert LandingRole(t, Output, q) && LandingRole(t, Input, q);
  }

  lemma LandingSame(s: State, t: State, q: Request)
    requires Landing(s, q) && t.syncs == s.syncs && t.readbacks == s.readbacks
    requires t.output == s.output && t.input == s.input && t.nextReadback == s.nextReadback
    requires t.bindings.Keys == s.bindings.Keys && forall n :: n in t.bindings ==> GoodBinding(t.bindings[n])
    ensures Landing(t, q)
  {
    forall role | FlightInv(s, role, RoleOf(s, role))
      ensures FlightInv(t, role, RoleOf(s, role))
    {
      SameFlight(s, t, role, RoleOf(s, role));
    }
    assert LandingRole(t, Output, q) && LandingRole(t, Input, q);
  }

  lemma PostConfirmedSame(s: State, q: Request, node: nat)
    ensures PostConfirmed(s, q, node).(log := s.log) == s
  {
  }

  // Answers come from the node the request was about.
  lemma CompleteKeeps(s: State, server: Server, q: Request, node: nat)
    requires Landing(s, q) && NewSync(s, server) && q.node == node
    ensures Inv(CompleteRequest(s, server, q, node))
  {
    hide Inv, Silent, Flying, ClearInFlight, PostConfirmed, DispatchQueued;
    var r := RoleOf(s, q.role);
    if !Current(r, q) || r.binding != Some(node) {
      assert !Mine(r, q.role, q);
      LandedElsewhere(s, q);
    } else {
      var confirmed := PostConfirmed(s, q, node);
      PostConfirmedSame(s, q, node);
      LandingSame(s, confirmed, q);
      LandedClear(confirmed, q);
      ClearKeepsSyncs(confirmed, q);
      DispatchQueuedKeeps(ClearInFlight(confirmed, q), server, q.role);
    }
  }

  lemma ClearKeepsSyncs(s: State, q: Request)
    ensures ClearInFlight(s, q).syncs == s.syncs
  {
  }

  lemma LandedElsewhere(s: State, q: Request)
    requires Landing(s, q) && !Mine(RoleOf(s, q.role), q.role, q)
    ensures Inv(s)
  {
    hide FlightInv, QueueInv, Silent;
    assert RoleInv(s, Output) && RoleInv(s, Input);
  }

  lemma PublishKeeps(s: State, role: Role, node: nat)
    requires Inv(s)
    ensures Inv(PublishExternal(s, role, node))
  {
    hide Inv;
    PostExternalKeeps(s, role);
  }

  lemma RefreshedGood(b: Binding, volumes: Option<seq<real>>, muted: Option<bool>)
    requires GoodBinding(b) && (volumes.Some? ==> GoodVolumes(volumes.value))
    ensures GoodBinding(Refreshed(b, volumes, muted))
  {
  }

  lemma FresherKeeps(s: State, node: nat, b: Binding)
    requires Inv(s) && node in s.bindings && GoodBinding(b)
    ensures Inv(s.(bindings := s.bindings[node := b]))
  {
    hide FlightInv, QueueInv;
    var t := s.(bindings := s.bindings[node := b]);
    SameRole(s, t, Output);
    SameRole(s, t, Input);
  }

  lemma NodeParamKeeps(s: State, server: Server, node: nat, sequence: int, volumes: Option<seq<real>>,
                       muted: Option<bool>)
    requires Inv(s) && NewSync(s, server) && node in s.bindings
    requires volumes.Some? ==> GoodVolumes(volumes.value)
    requires sequence in s.readbacks ==> s.readbacks[sequence].node == node
    ensures Inv(NodeParam(s, server, node, sequence, volumes, muted))
  {
    hide Inv, Refreshed, GoodVolumes, PublishExternal, CompleteRequest;
    var b := Refreshed(s.bindings[node], volumes, muted);
    BindingsGood(s, node);
    RefreshedGood(s.bindings[node], volumes, muted);
    FresherKeeps(s, node, b);
    var fresher := s.(bindings := s.bindings[node := b]);
    var key := Answered(s, node, sequence);
    if key.Some? && key.value in s.readbacks {
      ReadbackLands(fresher, key.value);
      CompleteKeeps(fresher.(readbacks := s.readbacks - {key.value}), server, s.readbacks[key.value], node);
    } else {
      PublishKeeps(fresher, Output, node);
      PublishKeeps(PublishExternal(fresher, Output, node), Input, node);
    }
  }

  lemma BindingsGood(s: State, node: nat)
    requires Inv(s) && node in s.bindings
    ensures GoodBinding(s.bindings[node])
  {
  }

  // ---- Every step and every run ----

  lemma KnownKeeps(s: State, known: set<nat>, ready: bool)
    requires Inv(s)
    ensures Inv(s.(known := known, ready := ready))
  {
    hide FlightInv, QueueInv;
    var t := s.(known := known, ready := ready);
    SameRole(s, t, Output);
    SameRole(s, t, Input);
  }

  lemma CoreDoneKeeps(s: State, server: Server, sequence: int)
    requires Inv(s)
    ensures Inv(CoreDone(s, server, sequence))
  {
    hide Inv, EnsureTracked, BeginReadback;
    if sequence == s.initialSync {
      KnownKeeps(s, s.known, true);
      EnsureTrackedKeeps(s.(ready := true), server);
    } else if sequence in s.syncs {
      SyncLands(s, sequence);
      BeginReadbackKeeps(s.(syncs := s.syncs - {sequence}), server, s.syncs[sequence]);
    }
  }

  lemma StepKeeps(s: State, step: Step)
    requires Inv(s) && Permitted(s, step)
    ensures Inv(Apply(s, step))
  {
    hide Inv, NodeParam, CoreDone, RemoveBinding, EnsureTracked, Ask, Track, Untrack, GoodVolumes;
    match step.event {
      case TrackEvent(role, node, generation) => TrackKeeps(s, step.server, role, node, generation);
      case UntrackEvent(role, generation) => UntrackKeeps(s, role, generation);
      case AskEvent(q) => AskKeeps(s, step.server, q);
      case Appeared(node) =>
        KnownKeeps(s, s.known + {node}, s.ready);
        EnsureTrackedKeeps(s.(known := s.known + {node}), step.server);
      case Vanished(node) =>
        KnownKeeps(s, s.known - {node}, s.ready);
        RemoveBindingKeeps(s.(known := s.known - {node}), node);
      case Synchronised(sequence) => CoreDoneKeeps(s, step.server, sequence);
      case Answer(node, sequence, volumes, muted) =>
        if node in s.bindings {
          NodeParamKeeps(s, step.server, node, sequence, volumes, muted);
        }
    }
  }

  lemma {:induction false} RunKeeps(s: State, steps: seq<Step>)
    requires Inv(s) && AllPermitted(s, steps)
    ensures Inv(Run(s, steps))
    decreases |steps|
  {
    if steps != [] {
      StepKeeps(s, steps[0]);
      RunKeeps(Apply(s, steps[0]), steps[1..]);
    }
  }

  // In every reachable state a role is busy exactly when exactly one outstanding request is
  // about what it tracks, never with a volume and a mute write at once.
  lemma ReachableFlights(sync: int, steps: seq<Step>, role: Role)
    requires AllPermitted(Initial(sync), steps)
    ensures var s := Run(Initial(sync), steps);
      var r := RoleOf(s, role);
      && !(r.volumeInFlight && r.muteInFlight)
      && (r.volumeInFlight <==> Flying(s, role, r, SetVolume))
      && (r.muteInFlight <==> Flying(s, role, r, SetMute))
      && (!Busy(r) <==> Silent(s, role, r))
  {
    assert Inv(Initial(sync));
    RunKeeps(Initial(sync), steps);
    var s := Run(Initial(sync), steps);
    ExactFlight(s, role);
  }

  lemma ExactFlight(s: State, role: Role)
    requires Inv(s)
    ensures var r := RoleOf(s, role);
      && !(r.volumeInFlight && r.muteInFlight)
      && (r.volumeInFlight <==> Flying(s, role, r, SetVolume))
      && (r.muteInFlight <==> Flying(s, role, r, SetMute))
      && (!Busy(r) <==> Silent(s, role, r))
  {
  }
}
