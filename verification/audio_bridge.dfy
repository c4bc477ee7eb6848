/** The audio bridge itself: its fields change in place, each event exactly as specified. */
module AudioBridges {
  import opened Basics
  import opened Volume
  import opened AudioModel
  import opened AudioInvariant
  import AudioReports

  lemma Kept(s: State, step: Step)
    ensures Inv(s) && Permitted(s, step) ==> Inv(Apply(s, step))
  {
    hide Inv, Permitted, Apply;
    if Inv(s) && Permitted(s, step) {
      StepKeeps(s, step);
    }
  }

  lemma AnswerSays(s: State, server: Server, node: nat, sequence: int, volumes: Option<seq<real>>, muted: Option<bool>)
    requires node in s.bindings
    ensures forall sort ::
      AudioReports.Those(NodeParam(s, server, node, sequence, volumes, muted).log, sort)
      == AudioReports.Those(s.log, sort)
         + AudioReports.Says(s, Step(Answer(node, sequence, volumes, muted), server), sort)
  {
    hide NodeParam, AudioReports.Those, AudioReports.Says;
    forall sort
      ensures AudioReports.Those(NodeParam(s, server, node, sequence, volumes, muted).log, sort)
        == AudioReports.Those(s.log, sort)
           + AudioReports.Says(s, Step(Answer(node, sequence, volumes, muted), server), sort)
    {
      AudioReports.SaysExactly(s, Step(Answer(node, sequence, volumes, muted), server), sort);
    }
  }

  class AudioBridge {
    var ready: bool
    const initialSync: int
    var nextReadback: int
    var output: RoleState
    var input: RoleState
    var known: set<nat>
    var bindings: map<nat, Binding>
    var syncs: map<int, Request>
    var readbacks: map<int, Request>
    var log: seq<Message>

    // Every event keeps this, by what is proved of the specification.
    ghost predicate Valid()
      reads this
    {
      Inv(Now())
    }

    constructor (initialSync: int)
      ensures Now() == Initial(initialSync) && Valid()
    {
      this.initialSync := initialSync;
      ready, nextReadback := false, FIRST_READBACK;
      output, input := UNTRACKED, UNTRACKED;
      known, bindings, syncs, readbacks, log := {}, map[], map[], map[], [];
    }

    function Now(): State
      reads this
    {
      State(ready, initialSync, nextReadback, output, input, known, bindings, syncs, readbacks, log)
    }

    // ---- Roles and messages ----

    method SetRole(role: Role, r: RoleState)
      modifies this
      ensures Now() == PutRole(old(Now()), role, r)
    {
      if role == Output {
        output := r;
      } else {
        input := r;
      }
    }

    method Say(message: Message)
      modifies this
      ensures Now() == Post(old(Now()), message)
    {
      log := log + [message];
    }

    method PostExternal(role: Role)
      modifies this
      ensures Now() == AudioModel.PostExternal(old(Now()), role)
    {
      var r := RoleOf(Now(), role);
      if r.binding.Some? && r.binding.value in bindings {
        var b := bindings[r.binding.value];
        if Complete(b) {
          Say(External(role, r.binding.value, r.generation, Average(b.volumes), b.muted));
        }
      }
    }

    method PostConfirmed(q: Request, node: nat)
      modifies this
      ensures Now() == AudioModel.PostConfirmed(old(Now()), q, node)
    {
      if node in bindings {
        var b := bindings[node];
        if Complete(b) {
          Say(Confirmed(q, Average(b.volumes), b.muted));
        }
      }
    }

    // ---- Bindings ----

    method EnsureBinding(server: Server, node: nat) returns (binding: Option<nat>)
      modifies this
      ensures (Now(), binding) == AudioModel.EnsureBinding(old(Now()), server, node)
    {
      if node in bindings { return Some(node); }
      if node !in known || node in server.unbindable { return None; }
      bindings := bindings[node := Binding(false, false, [], false)];
      return Some(node);
    }

    method EnsureRole(server: Server, role: Role)
      modifies this
      ensures Now() == AudioModel.EnsureRole(old(Now()), server, role)
    {
      var r := RoleOf(Now(), role);
      if r.node.None? || r.binding.Some? || r.node.value !in known { return; }
      var binding := EnsureBinding(server, r.node.value);
      SetRole(role, r.(binding := binding));
      PostExternal(role);
    }

    method EnsureTrackedBindings(server: Server)
      modifies this
      ensures Now() == EnsureTracked(old(Now()), server)
    {
      hide AudioModel.EnsureRole;
      if !ready { return; }
      EnsureRole(server, Output);
      EnsureRole(server, Input);
    }

    method DropRole(role: Role, node: nat)
      modifies this
      ensures Now() == AudioModel.DropRole(old(Now()), role, node)
    {
      var r := RoleOf(Now(), role);
      if r.binding == Some(node) {
        SetRole(role, r.(binding := None, volumeInFlight := false, muteInFlight := false,
                         queuedVolume := None, queuedMute := None));
        Say(Unavailable(role, r.generation));
      }
    }

    method EraseRequestsForNode(node: nat)
      modifies this
      ensures Now() == old(Now()).(syncs := WithoutNode(old(syncs), node),
                                   readbacks := WithoutNode(old(readbacks), node))
    {
      hide WithoutNode;
      syncs := EraseNode(syncs, node);
      readbacks := EraseNode(readbacks, node);
    }

    method RemoveBinding(node: nat)
      modifies this
      ensures Now() == AudioModel.RemoveBinding(old(Now()), node)
    {
      hide AudioModel.DropRole, WithoutNode;
      if node !in bindings { return; }
      DropRole(Output, node);
      DropRole(Input, node);
      EraseRequestsForNode(node);
      bindings := bindings - {node};
      DropKeepsRest(old(Now()), Output, node);
      DropKeepsRest(AudioModel.DropRole(old(Now()), Output, node), Input, node);
    }

    method ReleaseBindingIfUnused(node: Option<nat>)
      modifies this
      ensures Now() == ReleaseIfUnused(old(Now()), node)
    {
      hide AudioModel.RemoveBinding;
      if node.Some? && output.node != node && input.node != node {
        RemoveBinding(node.value);
      }
    }

    // ---- Commands ----

    method Track(server: Server, role: Role, node: nat, generation: nat)
      modifies this
      ensures Now() == AudioModel.Track(old(Now()), server, role, node, generation)
      ensures old(Valid() && Permitted(Now(), Step(TrackEvent(role, node, generation), server))) ==> Valid()
    {
      Kept(Now(), Step(TrackEvent(role, node, generation), server));
      hide Inv, Permitted;
      hide EnsureTracked, ReleaseIfUnused;
      var oldNode := RoleOf(Now(), role).node;
      SetRole(role, UNTRACKED.(node := Some(node), generation := generation));
      Say(Tracked(role));
      ghost var replaced := Now();
      ReleaseBindingIfUnused(oldNode);
      ghost var released := Now();
      EnsureTrackedBindings(server);
      ReleaseKeepsKnown(replaced, oldNode);
      EnsureKeepsKnown(released, server);
      if RoleOf(Now(), role).binding.None? && ready && node !in known {
        Say(Unavailable(role, generation));
      }
    }

    method Untrack(role: Role, generation: nat)
      modifies this
      ensures Now() == AudioModel.Untrack(old(Now()), role, generation)
      ensures old(Valid()) ==> Valid()
    {
      if Inv(Now()) {
        UntrackKeeps(Now(), role, generation);
      }
      hide Inv;
      hide ReleaseIfUnused;
      var r := RoleOf(Now(), role);
      if r.generation != generation { return; }
      SetRole(role, UNTRACKED);
      ReleaseBindingIfUnused(r.node);
    }

    method ClearInFlight(q: Request)
      modifies this
      ensures Now() == AudioModel.ClearInFlight(old(Now()), q)
    {
      var r := RoleOf(Now(), q.role);
      if Current(r, q) {
        SetRole(q.role, Fly(r, q.kind, false));
      }
    }

    method Dispatch(server: Server, q: Request)
      modifies this
      ensures Now() == AudioModel.Dispatch(old(Now()), server, q)
    {
      hide Scaled;
      var r := RoleOf(Now(), q.role);
      var written := [];
      if r.binding != Some(q.node) || q.node !in bindings {
        Say(Failed(q, Stale));
        return;
      }
      if q.kind == SetVolume {
        var b := bindings[q.node];
        if !b.hasVolumes || b.volumes == [] {
          Say(Failed(q, NotReady));
          return;
        }
        var cubic := ProportionalCubicVolumes(b.volumes, q.volume);
        if cubic.None? {
          Say(Failed(q, InvalidState));
          return;
        }
        written := cubic.value;
      }
      if server.refusesWrite {
        Say(Failed(q, Refused));
        return;
      }
      SetRole(q.role, Fly(r, q.kind, true));
      Say(Dispatched(q, written));
      if server.sync < 0 {
        ClearInFlight(q);
        Say(Failed(q, SyncFailed));
      } else {
        syncs := syncs[server.sync := q];
      }
    }

    method Ask(server: Server, q: Request)
      modifies this
      ensures Now() == AudioModel.Ask(old(Now()), server, q)
      ensures old(Valid() && Permitted(Now(), Step(AskEvent(q), server))) ==> Valid()
    {
      Kept(Now(), Step(AskEvent(q), server));
      hide Inv, Permitted;
      hide AudioModel.Dispatch;
      Say(Received(q));
      var r := RoleOf(Now(), q.role);
      if !Current(r, q) || r.binding.None? {
        Say(Failed(q, Stale));
        return;
      }
      Say(Accepted(q));
      if Busy(r) {
        SetRole(q.role, Enqueue(r, q));
      } else {
        Dispatch(server, q);
      }
    }

    method DispatchQueued(server: Server, role: Role)
      modifies this
      ensures Now() == AudioModel.DispatchQueued(old(Now()), server, role)
    {
      hide AudioModel.Dispatch;
      var r := RoleOf(Now(), role);
      if Busy(r) { return; }
      if r.queuedMute.Some? {
        SetRole(role, r.(queuedMute := None));
        Dispatch(server, r.queuedMute.value);
      } else if r.queuedVolume.Some? {
        SetRole(role, r.(queuedVolume := None));
        Dispatch(server, r.queuedVolume.value);
      }
    }

    // ---- Server events ----

    method BeginReadback(server: Server, q: Request)
      modifies this
      ensures Now() == AudioModel.BeginReadback(old(Now()), server, q)
    {
      hide AudioModel.ClearInFlight;
      var r := RoleOf(Now(), q.role);
      if !Current(r, q) || r.binding.None? {
        ClearInFlight(q);
        return;
      }
      nextReadback := nextReadback + 1;
      readbacks := readbacks[nextReadback := q];
      if server.refusesReadback {
        readbacks := readbacks - {nextReadback};
        ClearInFlight(q);
        Say(Failed(q, ReadbackFailed));
      }
    }

    method CompleteRequest(server: Server, q: Request, node: nat)
      modifies this
      ensures Now() == AudioModel.CompleteRequest(old(Now()), server, q, node)
    {
      hide AudioModel.PostConfirmed, AudioModel.DispatchQueued, AudioModel.ClearInFlight;
      var r := RoleOf(Now(), q.role);
      if !Current(r, q) || r.binding != Some(node) { return; }
      PostConfirmed(q, node);
      ClearInFlight(q);
      DispatchQueued(server, q.role);
    }

    method OnCoreDone(server: Server, sequence: int)
      modifies this
      ensures Now() == CoreDone(old(Now()), server, sequence)
      ensures old(Valid() && Permitted(Now(), Step(Synchronised(sequence), server))) ==> Valid()
    {
      Kept(Now(), Step(Synchronised(sequence), server));
      hide Inv, Permitted;
      hide EnsureTracked, AudioModel.BeginReadback;
      if sequence == initialSync {
        ready := true;
        EnsureTrackedBindings(server);
      } else if sequence in syncs {
        var q := syncs[sequence];
        syncs := syncs - {sequence};
        BeginReadback(server, q);
      }
    }

    // The only readback of the node, if there is exactly one.
    method FindReadback(node: nat) returns (found: Option<int>)
      ensures found.Some? ==> IsSole(Now(), node, found.value)
      ensures found.None? ==> forall key :: !IsSole(Now(), node, key)
    {
      found := None;
      var keys := readbacks.Keys;
      while keys != {}
        invariant keys <= readbacks.Keys
        invariant found.Some? ==>
                    found.value in readbacks && found.value !in keys && readbacks[found.value].node == node
        invariant forall k :: k in readbacks && k !in keys && readbacks[k].node == node ==> found == Some(k)
        decreases |keys|
      {
        ghost var some := HasElement(keys);
        var key :| key in keys;
        keys := keys - {key};
        if readbacks[key].node == node {
          if found.Some? {
            assert found.value != key;
            return None;
          }
          found := Some(key);
        }
      }
    }

    method OnNodeParam(server: Server, node: nat, sequence: int, volumes: Option<seq<real>>, muted: Option<bool>)
      requires node in bindings
      modifies this
      ensures Now() == NodeParam(old(Now()), server, node, sequence, volumes, muted)
      ensures forall sort ::
        AudioReports.Those(log, sort)
        == AudioReports.Those(old(log), sort)
           + AudioReports.Says(old(Now()), Step(Answer(node, sequence, volumes, muted), server), sort)
      ensures old(Valid() && Permitted(Now(), Step(Answer(node, sequence, volumes, muted), server))) ==> Valid()
    {
      Kept(Now(), Step(Answer(node, sequence, volumes, muted), server));
      AnswerSays(Now(), server, node, sequence, volumes, muted);
      hide Inv, Permitted, NodeParam, AudioReports.Those, AudioReports.Says;
      TakeAnswer(server, node, sequence, volumes, muted);
    }

    method TakeAnswer(server: Server, node: nat, sequence: int, volumes: Option<seq<real>>, muted: Option<bool>)
      requires node in bindings
      modifies this
      ensures Now() == NodeParam(old(Now()), server, node, sequence, volumes, muted)
    {
      hide AudioModel.CompleteRequest, AudioModel.PostExternal, Answered;
      var b := bindings[node];
      if volumes.Some? {
        b := b.(volumes := volumes.value, hasVolumes := true);
      }
      if muted.Some? {
        b := b.(muted := muted.value, hasMute := true);
      }
      bindings := bindings[node := b];
      if !(b.hasVolumes && b.hasMute) { return; }
      var key: Option<int>;
      if sequence in readbacks {
        key := Some(sequence);
      } else {
        key := FindReadback(node);
      }
      assert key == Answered(old(Now()), node, sequence) by { AnsweredIs(old(Now()), Now(), node, sequence, key); }
      if key.Some? {
        var q := readbacks[key.value];
        readbacks := readbacks - {key.value};
        CompleteRequest(server, q, node);
        return;
      }
      PublishExternal(Output, node);
      PublishExternal(Input, node);
    }

    method PublishExternal(role: Role, node: nat)
      modifies this
      ensures Now() == AudioModel.PublishExternal(old(Now()), role, node)
    {
      hide AudioModel.PostExternal;
      var r := RoleOf(Now(), role);
      if r.binding == Some(node) && !Busy(r) {
        PostExternal(role);
      }
    }

    method OnRegistryGlobal(server: Server, node: nat)
      modifies this
      ensures Now() == Apply(old(Now()), Step(Appeared(node), server))
      ensures old(Valid() && Permitted(Now(), Step(Appeared(node), server))) ==> Valid()
    {
      Kept(Now(), Step(Appeared(node), server));
      hide Inv, Permitted;
      hide EnsureTracked;
      known := known + {node};
      EnsureTrackedBindings(server);
    }

    method OnRegistryGlobalRemove(server: Server, node: nat)
      modifies this
      ensures Now() == Apply(old(Now()), Step(Vanished(node), server))
      ensures old(Valid() && Permitted(Now(), Step(Vanished(node), server))) ==> Valid()
    {
      Kept(Now(), Step(Vanished(node), server));
      hide Inv, Permitted;
      hide AudioModel.RemoveBinding;
      known := known - {node};
      RemoveBinding(node);
    }
  }

  lemma DropKeepsRest(s: State, role: Role, node: nat)
    ensures var t := AudioModel.DropRole(s, role, node);
            t.syncs == s.syncs && t.readbacks == s.readbacks && t.bindings == s.bindings
  {
  }

  method EraseNode(requests: map<int, Request>, node: nat) returns (rest: map<int, Request>)
    ensures rest == WithoutNode(requests, node)
  {
    rest := requests;
    var keys := requests.Keys;
    while keys != {}
      invariant keys <= rest.Keys <= requests.Keys
      invariant forall k :: k in rest ==> rest[k] == requests[k]
      invariant forall k :: k in requests && k !in keys ==> (k in rest <==> requests[k].node != node)
      decreases |keys|
    {
      ghost var some := HasElement(keys);
      var key :| key in keys;
      if rest[key].node == node {
        rest := rest - {key};
      }
      keys := keys - {key};
    }
    var all := WithoutNode(requests, node);
    assert forall k :: k in requests ==> (k in rest <==> requests[k].node != node);
    assert forall k :: k in all <==> k in requests && requests[k].node != node;
    assert rest.Keys == all.Keys;
    assert forall k :: k in all ==> all[k] == rest[k];
    assert rest == all;
  }

  lemma ReleaseKeepsKnown(s: State, node: Option<nat>)
    ensures ReleaseIfUnused(s, node).known == s.known && ReleaseIfUnused(s, node).ready == s.ready
  {
  }

  lemma EnsureKeepsKnown(s: State, server: Server)
    ensures EnsureTracked(s, server).known == s.known && EnsureTracked(s, server).ready == s.ready
  {
    hide AudioModel.EnsureRole;
    EnsureRoleKeepsKnown(s, server, Output);
    EnsureRoleKeepsKnown(AudioModel.EnsureRole(s, server, Output), server, Input);
  }

  lemma EnsureRoleKeepsKnown(s: State, server: Server, role: Role)
    ensures var t := AudioModel.EnsureRole(s, server, role); t.known == s.known && t.ready == s.ready
  {
  }

  lemma AnsweredIs(s: State, t: State, node: nat, sequence: int, key: Option<int>)
    requires s.readbacks == t.readbacks
    requires sequence in s.readbacks ==> key == Some(sequence)
    requires sequence !in s.readbacks && key.Some? ==> IsSole(t, node, key.value)
    requires sequence !in s.readbacks && key.None? ==> forall k :: !IsSole(t, node, k)
    ensures key == Answered(s, node, sequence)
    ensures key.Some? ==> key.value in s.readbacks
  {
    if sequence !in s.readbacks {
      if key.Some? {
        assert IsSole(s, node, key.value);
      } else {
        forall k | IsSole(s, node, k)
          ensures false
        {
          assert IsSole(t, node, k);
        }
      }
    }
  }
}
