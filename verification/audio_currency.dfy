/** When a write is confirmed: in every state, by which step, for which request and with what. */
module AudioCurrency {
  import opened Basics
  import opened Volume
  import opened AudioModel

  function Confirmations(log: seq<Message>): seq<Message> {
    if log == [] then []
    else Confirmations(log[..|log| - 1]) + if log[|log| - 1].Confirmed? then [log[|log| - 1]] else []
  }

  ghost predicate Silent(s: State, t: State) {
    Confirmations(t.log) == Confirmations(s.log)
  }

  lemma ConfirmationsMore(log: seq<Message>, m: Message)
    ensures Confirmations(log + [m]) == Confirmations(log) + if m.Confirmed? then [m] else []
  {
    assert (log + [m])[..|log|] == log;
  }

  lemma Unconfirmed(s: State, m: Message)
    requires !m.Confirmed?
    ensures Silent(s, Post(s, m))
  {
    ConfirmationsMore(s.log, m);
  }

  // ---- Everything but the completion of a request ----

  lemma PostExternalSilent(s: State, role: Role)
    ensures Silent(s, PostExternal(s, role))
  {
    hide Silent;
    var r := RoleOf(s, role);
    if r.binding.Some? && r.binding.value in s.bindings && Complete(s.bindings[r.binding.value]) {
      var b := s.bindings[r.binding.value];
      Unconfirmed(s, External(role, r.binding.value, r.generation, Average(b.volumes), b.muted));
    } else {
      SameLog(s, s);
    }
  }

  lemma SameLog(s: State, t: State)
    requires t.log == s.log
    ensures Silent(s, t)
  {
  }

  lemma EnsureTrackedSilent(s: State, server: Server)
    ensures Silent(s, EnsureTracked(s, server))
  {
    hide EnsureRole;
    EnsureRoleSilent(s, server, Output);
    EnsureRoleSilent(EnsureRole(s, server, Output), server, Input);
  }

  lemma EnsureRoleSilent(s: State, server: Server, role: Role)
    ensures Silent(s, EnsureRole(s, server, role))
  {
    hide PostExternal;
    var r := RoleOf(s, role);
    if r.node.Some? {
      var (bound, binding) := EnsureBinding(s, server, r.node.value);
      PostExternalSilent(PutRole(bound, role, r.(binding := binding)), role);
    }
  }

  lemma DropRoleSilent(s: State, role: Role, node: nat)
    ensures Silent(s, DropRole(s, role, node))
  {
    hide Confirmations;
    var r := RoleOf(s, role);
    var t := PutRole(s, role, r.(binding := None, volumeInFlight := false, muteInFlight := false,
                                 queuedVolume := None, queuedMute := None));
    Unconfirmed(t, Unavailable(role, r.generation));
  }

  lemma RemoveBindingSilent(s: State, node: nat)
    ensures Silent(s, RemoveBinding(s, node))
  {
    hide DropRole;
    DropRoleSilent(s, Output, node);
    DropRoleSilent(DropRole(s, Output, node), Input, node);
  }

  lemma ReleaseSilent(s: State, node: Option<nat>)
    ensures Silent(s, ReleaseIfUnused(s, node))
  {
    hide RemoveBinding;
    RemoveBindingSilent(s, if node.Some? then node.value else 0);
  }

  lemma TrackSilent(s: State, server: Server, role: Role, node: nat, generation: nat)
    ensures Silent(s, Track(s, server, role, node, generation))
  {
    hide ReleaseIfUnused, EnsureTracked;
    var put := PutRole(s, role, UNTRACKED.(node := Some(node), generation := generation));
    Unconfirmed(put, Tracked(role));
    var replaced := Post(put, Tracked(role));
    ReleaseSilent(replaced, RoleOf(s, role).node);
    var released := ReleaseIfUnused(replaced, RoleOf(s, role).node);
    EnsureTrackedSilent(released, server);
    Unconfirmed(EnsureTracked(released, server), Unavailable(role, generation));
  }

  lemma UntrackSilent(s: State, role: Role, generation: nat)
    ensures Silent(s, Untrack(s, role, generation))
  {
    hide ReleaseIfUnused;
    ReleaseSilent(PutRole(s, role, UNTRACKED), RoleOf(s, role).node);
  }

  lemma DispatchSilent(s: State, server: Server, q: Request)
    ensures Silent(s, Dispatch(s, server, q))
  {
    hide Sendable, Confirmations;
    var fault := Sendable(s, q);
    if fault.Some? {
      Unconfirmed(s, Failed(q, fault.value));
    } else if server.refusesWrite {
      Unconfirmed(s, Failed(q, Refused));
    } else {
      var flying := PutRole(s, q.role, Fly(RoleOf(s, q.role), q.kind, true));
      var sent := Post(flying, Dispatched(q, Written(s, q)));
      Unconfirmed(flying, Dispatched(q, Written(s, q)));
      Unconfirmed(ClearInFlight(sent, q), Failed(q, SyncFailed));
    }
  }

  lemma AskSilent(s: State, server: Server, q: Request)
    ensures Silent(s, Ask(s, server, q))
  {
    hide Dispatch, Confirmations;
    var received := Post(s, Received(q));
    Unconfirmed(s, Received(q));
    Unconfirmed(received, Failed(q, Stale));
    Unconfirmed(received, Accepted(q));
    DispatchSilent(Post(received, Accepted(q)), server, q);
  }

  lemma DispatchQueuedSilent(s: State, server: Server, role: Role)
    ensures Silent(s, DispatchQueued(s, server, role))
  {
    hide Dispatch;
    var r := RoleOf(s, role);
    if r.queuedMute.Some? {
      DispatchSilent(PutRole(s, role, r.(queuedMute := None)), server, r.queuedMute.value);
    }
    if r.queuedVolume.Some? {
      DispatchSilent(PutRole(s, role, r.(queuedVolume := None)), server, r.queuedVolume.value);
    }
  }

  lemma BeginReadbackSilent(s: State, server: Server, q: Request)
    ensures Silent(s, BeginReadback(s, server, q))
  {
    var numbered := s.(nextReadback := s.nextReadback + 1);
    Unconfirmed(ClearInFlight(numbered, q), Failed(q, ReadbackFailed));
  }

  lemma CoreDoneSilent(s: State, server: Server, sequence: int)
    ensures Silent(s, CoreDone(s, server, sequence))
  {
    hide EnsureTracked, BeginReadback;
    EnsureTrackedSilent(s.(ready := true), server);
    if sequence in s.syncs {
      BeginReadbackSilent(s.(syncs := s.syncs - {sequence}), server, s.syncs[sequence]);
    }
  }

  lemma PublishSilent(s: State, role: Role, node: nat)
    ensures Silent(s, PublishExternal(s, role, node))
  {
    hide PostExternal;
    PostExternalSilent(s, role);
  }

  // ---- The completion of a request ----

  // The node has told all its state, it answers an outstanding readback, and that readback is for
  // what its role tracks and has bound now.
  ghost function Completes(s: State, step: Step): Option<Message> {
    match step.event
    case Answer(node, sequence, volumes, muted) =>
      if node !in s.bindings then None else
      var b := Refreshed(s.bindings[node], volumes, muted);
      var key := Answered(s, node, sequence);
      if !Complete(b) || key.None? || key.value !in s.readbacks then None else
      var q := s.readbacks[key.value];
      if Current(RoleOf(s, q.role), q) && RoleOf(s, q.role).binding == Some(node)
      then Some(Confirmed(q, Average(b.volumes), b.muted)) else None
    case _ => None
  }

  ghost predicate Confirms(s: State, t: State, m: Option<Message>) {
    Confirmations(t.log) == Confirmations(s.log) + if m.Some? then [m.value] else []
  }

  lemma CompleteConfirms(s: State, server: Server, q: Request, node: nat)
    requires node in s.bindings
    ensures
      var r, b := RoleOf(s, q.role), s.bindings[node];
      Confirms(s, CompleteRequest(s, server, q, node),
               if Current(r, q) && r.binding == Some(node) && Complete(b)
               then Some(Confirmed(q, Average(b.volumes), b.muted)) else None)
  {
    hide DispatchQueued, Confirmations, Average;
    var r, b := RoleOf(s, q.role), s.bindings[node];
    if Complete(b) {
      ConfirmationsMore(s.log, Confirmed(q, Average(b.volumes), b.muted));
    }
    DispatchQueuedSilent(ClearInFlight(PostConfirmed(s, q, node), q), server, q.role);
    assert ClearInFlight(PostConfirmed(s, q, node), q).log == PostConfirmed(s, q, node).log;
  }

  lemma AnswerConfirms(s: State, step: Step)
    requires step.event.Answer? && step.event.node in s.bindings
    ensures Confirms(s, Apply(s, step), Completes(s, step))
  {
    hide CompleteRequest, PublishExternal, Answered, Confirmations, Average;
    var Answer(node, sequence, volumes, muted) := step.event;
    var b := Refreshed(s.bindings[node], volumes, muted);
    var fresher := s.(bindings := s.bindings[node := b]);
    var key := Answered(s, node, sequence);
    if b.hasVolumes && b.hasMute && key.Some? && key.value in s.readbacks {
      CompleteConfirms(fresher.(readbacks := s.readbacks - {key.value}), step.server, s.readbacks[key.value], node);
    } else {
      PublishSilent(fresher, Output, node);
      PublishSilent(PublishExternal(fresher, Output, node), Input, node);
    }
  }

  // In every state whatsoever a step confirms at most one request, and exactly the one whose readback the
  // bound node of its role answers, if that is what the role tracks now; with the state just told.
  lemma ConfirmsExactly(s: State, step: Step)
    ensures Confirmations(Apply(s, step).log)
            == Confirmations(s.log) + if Completes(s, step).Some? then [Completes(s, step).value] else []
  {
    hide Confirmations, NodeParam, CoreDone, RemoveBinding, EnsureTracked, Ask, Track, Untrack;
    match step.event {
      case TrackEvent(role, node, generation) => TrackSilent(s, step.server, role, node, generation);
      case UntrackEvent(role, generation) => UntrackSilent(s, role, generation);
      case AskEvent(q) => AskSilent(s, step.server, q);
      case Appeared(node) => EnsureTrackedSilent(s.(known := s.known + {node}), step.server);
      case Vanished(node) => RemoveBindingSilent(s.(known := s.known - {node}), node);
      case Synchronised(sequence) => CoreDoneSilent(s, step.server, sequence);
      case Answer(node, sequence, volumes, muted) =>
        if node in s.bindings {
          AnswerConfirms(s, step);
        }
    }
  }

  // What is confirmed was outstanding and about what its role tracked at that very step.
  lemma ConfirmedIsCurrent(s: State, step: Step)
    requires Completes(s, step).Some?
    ensures
      var q := Completes(s, step).value.request;
      Outstanding(s, q) && Current(RoleOf(s, q.role), q)
  {
    hide Answered, Complete;
    var key := Answered(s, step.event.node, step.event.sequence).value;
    assert s.readbacks[key] == Completes(s, step).value.request;
  }

  ghost predicate ConfirmedAt(s: State, step: Step, m: Message) {
    && m.Confirmed? && Completes(s, step) == Some(m)
    && Outstanding(s, m.request) && Current(RoleOf(s, m.request.role), m.request)
  }

  // Over every run: no confirmation in the log was ever for a superseded node or generation.
  lemma {:induction false} RunConfirms(s: State, steps: seq<Step>, m: Message)
    requires m in Confirmations(Run(s, steps).log) && m !in Confirmations(s.log)
    ensures exists n :: 0 <= n < |steps| && ConfirmedAt(Run(s, steps[..n]), steps[n], m)
    decreases |steps|
  {
    hide Completes, Confirmations, Apply, Outstanding, Current;
    if steps != [] {
      var t := Apply(s, steps[0]);
      ConfirmsExactly(s, steps[0]);
      if m in Confirmations(t.log) {
        ConfirmedIsCurrent(s, steps[0]);
        CompletesConfirmed(s, steps[0]);
        assert steps[..0] == [];
        assert ConfirmedAt(Run(s, steps[..0]), steps[0], m);
      } else {
        RunConfirms(t, steps[1..], m);
        var n :| 0 <= n < |steps[1..]| && ConfirmedAt(Run(t, steps[1..][..n]), steps[1..][n], m);
        assert steps[..n + 1][1..] == steps[1..][..n];
        assert ConfirmedAt(Run(s, steps[..n + 1]), steps[n + 1], m);
      }
    }
  }

  lemma CompletesConfirmed(s: State, step: Step)
    ensures Completes(s, step).Some? ==> Completes(s, step).value.Confirmed?
  {
    hide Answered;
  }
}
