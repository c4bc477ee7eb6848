/**
  * What every step says and sends, in every state: which changes made elsewhere are reported
  * and with what, which write goes out, with which level for each channel, what fails and
  * what is unavailable.
  */
module AudioReports {
  import opened Basics
  import opened Volume
  import opened AudioModel

  datatype Sort = Reports | Writes | Faults | Absences

  predicate Of(m: Message, sort: Sort) {
    match sort
    case Reports => m.External?
    case Writes => m.Dispatched?
    case Faults => m.Failed?
    case Absences => m.Unavailable?
  }

  function Those(log: seq<Message>, sort: Sort): seq<Message> {
    if log == [] then []
    else Those(log[..|log| - 1], sort) + if Of(log[|log| - 1], sort) then [log[|log| - 1]] else []
  }

  function Just(m: Option<Message>): seq<Message> {
    if m.Some? then [m.value] else []
  }

  // From s to t exactly these messages of the sort were added.
  ghost predicate Adds(s: State, t: State, sort: Sort, more: seq<Message>) {
    Those(t.log, sort) == Those(s.log, sort) + more
  }

  lemma ThoseMore(log: seq<Message>, m: Message, sort: Sort)
    ensures Those(log + [m], sort) == Those(log, sort) + if Of(m, sort) then [m] else []
  {
    assert (log + [m])[..|log|] == log;
  }

  lemma PostAdds(s: State, m: Message, sort: Sort)
    ensures Adds(s, Post(s, m), sort, if Of(m, sort) then [m] else [])
  {
    ThoseMore(s.log, m, sort);
  }

  lemma SameLog(s: State, t: State, sort: Sort)
    requires t.log == s.log
    ensures Adds(s, t, sort, [])
  {
  }

  lemma AddsBoth(s: State, t: State, u: State, sort: Sort, a: seq<Message>, b: seq<Message>)
    requires Adds(s, t, sort, a) && Adds(t, u, sort, b)
    ensures Adds(s, u, sort, a + b)
  {
  }

  // ---- What is reported ----

  // The node has told its volumes and its mute.
  ghost predicate HasTold(b: Binding) {
    b.hasVolumes && b.hasMute && |b.volumes| > 0
  }

  function Report(role: Role, node: nat, generation: nat, b: Binding): Message
    requires |b.volumes| > 0
  {
    External(role, node, generation, Average(b.volumes), b.muted)
  }

  // A role that is bound to the node and has no write in flight hears of it.
  ghost function Hears(r: RoleState, role: Role, node: nat, b: Binding): seq<Message> {
    if r.binding == Some(node) && !r.volumeInFlight && !r.muteInFlight && HasTold(b)
    then [Report(role, node, r.generation, b)] else []
  }

  // A role that is bound only now hears what the node has told before.
  ghost function Learns(r: RoleState, role: Role, known: set<nat>, bindings: map<nat, Binding>): seq<Message> {
    if r.binding == None && r.node.Some? && r.node.value in known && r.node.value in bindings
       && HasTold(bindings[r.node.value])
    then [Report(role, r.node.value, r.generation, bindings[r.node.value])] else []
  }

  ghost function LearnBoth(output: RoleState, input: RoleState, known: set<nat>,
                           bindings: map<nat, Binding>): seq<Message>
  {
    Learns(output, Output, known, bindings) + Learns(input, Input, known, bindings)
  }

  // The binding once the node has told these.
  function Told(b: Binding, volumes: Option<seq<real>>, muted: Option<bool>): Binding {
    Binding(b.hasVolumes || volumes.Some?, b.hasMute || muted.Some?,
            if volumes.Some? then volumes.value else b.volumes, if muted.Some? then muted.value else b.muted)
  }

  // The readback an answer of this node is taken for: the one of its sequence, or else the
  // only one of the node.
  ghost predicate TakenFor(s: State, node: nat, sequence: int, key: int) {
    && key in s.readbacks
    && (key == sequence
        || (sequence !in s.readbacks && s.readbacks[key].node == node
            && forall k :: k in s.readbacks && s.readbacks[k].node == node ==> k == key))
  }

  ghost predicate IsReadback(s: State, node: nat, sequence: int) {
    exists key :: TakenFor(s, node, sequence, key)
  }

  // What a step reports. An answer that is no readback is news for each idle role bound to
  // the node, the output first; tracking, appearing nodes and readiness are news for roles
  // bound by it to a node that has told its state already.
  ghost function ReportsOf(s: State, step: Step): seq<Message> {
    match step.event
    case Answer(node, sequence, volumes, muted) =>
      if node !in s.bindings || IsReadback(s, node, sequence) then [] else
      var b := Told(s.bindings[node], volumes, muted);
      Hears(s.output, Output, node, b) + Hears(s.input, Input, node, b)
    case TrackEvent(role, node, generation) =>
      if !s.ready then [] else
      var r := RoleState(Some(node), generation, None, false, false, None, None);
      LearnBoth(if role == Output then r else s.output, if role == Input then r else s.input, s.known, s.bindings)
    case Appeared(node) =>
      if s.ready then LearnBoth(s.output, s.input, s.known + {node}, s.bindings) else []
    case Synchronised(sequence) =>
      if sequence == s.initialSync then LearnBoth(s.output, s.input, s.known, s.bindings) else []
    case _ => []
  }

  // ---- What is sent ----

  // Muting is written as asked; a volume as the levels of all channels, scaled to it.
  ghost function Sends(binding: Option<nat>, bindings: map<nat, Binding>, server: Server, q: Request): Option<Message> {
    if binding != Some(q.node) || q.node !in bindings || server.refusesWrite then None
    else if q.kind == SetMute then Some(Dispatched(q, []))
    else if bindings[q.node].hasVolumes && bindings[q.node].volumes != []
            && Scaled(bindings[q.node].volumes, q.volume).Some?
    then Some(Dispatched(q, Scaled(bindings[q.node].volumes, q.volume).value))
    else None
  }

  // The write that waits for the role: a mute before a volume.
  function Waiting(r: RoleState): Option<Request> {
    if r.queuedMute.Some? then r.queuedMute else r.queuedVolume
  }

  // Why a request that is dispatched fails.
  ghost function Fault(binding: Option<nat>, bindings: map<nat, Binding>, server: Server, q: Request): Option<Message> {
    if binding != Some(q.node) || q.node !in bindings then Some(Failed(q, Stale))
    else if q.kind == SetVolume && !(bindings[q.node].hasVolumes && |bindings[q.node].volumes| > 0)
    then Some(Failed(q, NotReady))
    else if q.kind == SetVolume && !Acceptable(bindings[q.node].volumes, q.volume) then Some(Failed(q, InvalidState))
    else if server.refusesWrite then Some(Failed(q, Refused))
    else if server.sync < 0 then Some(Failed(q, SyncFailed))
    else None
  }

  ghost predicate IsCurrent(s: State, q: Request) {
    var r := RoleOf(s, q.role);
    r.node == Some(q.node) && r.generation == q.generation && r.binding.Some?
  }

  ghost predicate IsIdle(s: State, role: Role) {
    !RoleOf(s, role).volumeInFlight && !RoleOf(s, role).muteInFlight
  }

  // The write that is due next when an answer completes the one before it.
  ghost function Following(s: State, step: Step): Option<Request> {
    if !step.event.Answer? then None else
    var Answer(node, sequence, volumes, muted) := step.event;
    if node !in s.bindings || !IsReadback(s, node, sequence) then None else
    var key :| TakenFor(s, node, sequence, key);
    var q := s.readbacks[key];
    var r, b := RoleOf(s, q.role), Told(s.bindings[node], volumes, muted);
    if b.hasVolumes && b.hasMute && IsCurrent(s, q) && r.binding == Some(node)
       && !(if q.kind == SetVolume then r.muteInFlight else r.volumeInFlight)
    then Waiting(r) else None
  }

  ghost function BindingsAfter(s: State, step: Step): map<nat, Binding> {
    match step.event
    case Answer(node, sequence, volumes, muted) =>
      if node in s.bindings then s.bindings[node := Told(s.bindings[node], volumes, muted)] else s.bindings
    case _ => s.bindings
  }

  // What a step dispatches: a request at once when its role is idle, or the one that waits
  // when the write before it is answered.
  ghost function Due(s: State, step: Step): Option<Request> {
    if step.event.AskEvent? && IsCurrent(s, step.event.request) && IsIdle(s, step.event.request.role)
    then Some(step.event.request) else Following(s, step)
  }

  ghost function WriteOf(s: State, step: Step): Option<Message> {
    var q := Due(s, step);
    if q.None? then None
    else Sends(RoleOf(s, q.value.role).binding, BindingsAfter(s, step), step.server, q.value)
  }

  // What a step fails: a request about something else than what is tracked and bound, at
  // once; one that is dispatched in vain; and one whose readback is refused.
  ghost function FaultOf(s: State, step: Step): Option<Message> {
    var q := Due(s, step);
    if q.Some? then Fault(RoleOf(s, q.value.role).binding, BindingsAfter(s, step), step.server, q.value) else
    match step.event
    case AskEvent(q) => if IsCurrent(s, q) then None else Some(Failed(q, Stale))
    case Synchronised(sequence) =>
      if sequence != s.initialSync && sequence in s.syncs && IsCurrent(s, s.syncs[sequence])
         && step.server.refusesReadback
      then Some(Failed(s.syncs[sequence], ReadbackFailed)) else None
    case _ => None
  }

  ghost function Says(s: State, step: Step, sort: Sort): seq<Message> {
    match sort
    case Reports => ReportsOf(s, step)
    case Writes => Just(WriteOf(s, step))
    case Faults => Just(FaultOf(s, step))
    case Absences => AbsencesOf(s, step)
  }

  // A role bound to a node that goes is told so.
  ghost function Misses(r: RoleState, role: Role, node: nat): seq<Message> {
    if r.binding == Some(node) then [Unavailable(role, r.generation)] else []
  }

  // What a step calls unavailable: a node that vanishes, for the roles bound to it, and one
  // that is tracked while it is not there.
  ghost function AbsencesOf(s: State, step: Step): seq<Message> {
    match step.event
    case Vanished(node) =>
      if node in s.bindings then Misses(s.output, Output, node) + Misses(s.input, Input, node) else []
    case TrackEvent(role, node, generation) =>
      if s.ready && node !in s.known then [Unavailable(role, generation)] else []
    case _ => []
  }

  // ---- Steps that say and send nothing of the kind ----

  ghost predicate BoundToTracked(s: State) {
    forall role :: RoleOf(s, role).binding.Some? ==> RoleOf(s, role).binding == RoleOf(s, role).node
  }

  lemma DropRoleAdds(s: State, role: Role, node: nat, sort: Sort)
    ensures Adds(s, DropRole(s, role, node), sort, if sort == Absences then Misses(RoleOf(s, role), role, node) else [])
  {
    hide Those;
    var r := RoleOf(s, role);
    var t := PutRole(s, role, r.(binding := None, volumeInFlight := false, muteInFlight := false,
                                 queuedVolume := None, queuedMute := None));
    PostAdds(t, Unavailable(role, r.generation), sort);
  }

  lemma RemoveBindingAdds(s: State, node: nat, sort: Sort)
    ensures Adds(s, RemoveBinding(s, node), sort,
                 if sort == Absences && node in s.bindings
                 then Misses(s.output, Output, node) + Misses(s.input, Input, node) else [])
  {
    DroppedOther(s, node);
    hide DropRole, Misses, Those;
    DropRoleAdds(s, Output, node, sort);
    DropRoleAdds(DropRole(s, Output, node), Input, node, sort);
  }

  lemma DroppedOther(s: State, node: nat)
    ensures DropRole(s, Output, node).input == s.input
  {
  }

  // What no role tracks any more nobody was bound to.
  lemma ReleaseAdds(s: State, node: Option<nat>, sort: Sort)
    requires BoundToTracked(s)
    ensures Adds(s, ReleaseIfUnused(s, node), sort, [])
  {
    assert RoleOf(s, Output) == s.output && RoleOf(s, Input) == s.input;
    hide RemoveBinding;
    RemoveBindingAdds(s, if node.Some? then node.value else 0, sort);
  }

  lemma UntrackAdds(s: State, role: Role, generation: nat, sort: Sort)
    requires BoundToTracked(s)
    ensures Adds(s, Untrack(s, role, generation), sort, [])
  {
    var u := PutRole(s, role, UNTRACKED);
    assert forall other :: other != role ==> RoleOf(u, other) == RoleOf(s, other);
    hide ReleaseIfUnused;
    ReleaseAdds(u, RoleOf(s, role).node, sort);
  }

  lemma BeginReadbackAdds(s: State, server: Server, q: Request, sort: Sort)
    ensures Adds(s, BeginReadback(s, server, q), sort,
                 if sort == Faults && IsCurrent(s, q) && server.refusesReadback then [Failed(q, ReadbackFailed)]
                 else [])
  {
    hide Those;
    PostAdds(ClearInFlight(s.(nextReadback := s.nextReadback + 1), q), Failed(q, ReadbackFailed), sort);
  }

  // ---- Dispatching ----

  ghost function Dispatches(s: State, server: Server, q: Request, sort: Sort): seq<Message> {
    match sort
    case Reports => []
    case Writes => Just(Sends(RoleOf(s, q.role).binding, s.bindings, server, q))
    case Faults => Just(Fault(RoleOf(s, q.role).binding, s.bindings, server, q))
    case Absences => []
  }

  // Whether a request can be sent, and what would be.
  lemma SendableIs(s: State, server: Server, q: Request)
    ensures
      var fault, binding := Sendable(s, q), RoleOf(s, q.role).binding;
      var sends := Sends(binding, s.bindings, server, q);
      && (fault.Some? ==> Fault(binding, s.bindings, server, q) == Some(Failed(q, fault.value)) && sends == None)
      && (fault.None? ==>
            && sends == (if server.refusesWrite then None else Some(Dispatched(q, Written(s, q))))
            && Fault(binding, s.bindings, server, q)
               == if server.refusesWrite then Some(Failed(q, Refused))
                  else if server.sync < 0 then Some(Failed(q, SyncFailed)) else None)
  {
    if q.node in s.bindings {
      OverflowUnreachable(s.bindings[q.node].volumes, q.volume);
    }
    hide Scaled, Acceptable;
  }

  lemma DispatchAdds(s: State, server: Server, q: Request, sort: Sort)
    ensures Adds(s, Dispatch(s, server, q), sort, Dispatches(s, server, q, sort))
  {
    SendableIs(s, server, q);
    hide Those, Sendable, Sends, Fault, Written;
    var fault := Sendable(s, q);
    if fault.Some? {
      PostAdds(s, Failed(q, fault.value), sort);
    } else if server.refusesWrite {
      PostAdds(s, Failed(q, Refused), sort);
    } else {
      var flying := PutRole(s, q.role, Fly(RoleOf(s, q.role), q.kind, true));
      var sent := Post(flying, Dispatched(q, Written(s, q)));
      PostAdds(flying, Dispatched(q, Written(s, q)), sort);
      PostAdds(ClearInFlight(sent, q), Failed(q, SyncFailed), sort);
    }
  }

  lemma AskAdds(s: State, step: Step, sort: Sort)
    requires step.event.AskEvent?
    ensures Adds(s, Apply(s, step), sort, Says(s, step, sort))
  {
    hide Dispatch, Those, Sends, Fault;
    var q := step.event.request;
    var received := Post(s, Received(q));
    var accepted := Post(received, Accepted(q));
    PostAdds(s, Received(q), sort);
    PostAdds(received, Failed(q, Stale), sort);
    PostAdds(received, Accepted(q), sort);
    DispatchAdds(accepted, step.server, q, sort);
    assert RoleOf(accepted, q.role) == RoleOf(s, q.role) && accepted.bindings == s.bindings;
  }

  // ---- Answers ----

  lemma AnsweredIs(s: State, node: nat, sequence: int)
    ensures
      var key := Answered(s, node, sequence);
      && (key.Some? <==> IsReadback(s, node, sequence))
      && (key.Some? ==> TakenFor(s, node, sequence, key.value))
    ensures forall a, b :: TakenFor(s, node, sequence, a) && TakenFor(s, node, sequence, b) ==> a == b
  {
    if sequence in s.readbacks {
      assert TakenFor(s, node, sequence, sequence);
    } else {
      forall key
        ensures TakenFor(s, node, sequence, key) <==> IsSole(s, node, key)
      {
      }
    }
  }

  lemma ConfirmedAdds(s: State, q: Request, node: nat, sort: Sort)
    ensures Adds(s, PostConfirmed(s, q, node), sort, [])
  {
    hide Those, Average;
    if node in s.bindings && Complete(s.bindings[node]) {
      PostAdds(s, Confirmed(q, Average(s.bindings[node].volumes), s.bindings[node].muted), sort);
    }
  }

  ghost function NextSent(s: State, server: Server, role: Role, sort: Sort): seq<Message> {
    var r := RoleOf(s, role);
    if Busy(r) || Waiting(r).None? then [] else Dispatches(s, server, Waiting(r).value, sort)
  }

  lemma DispatchQueuedAdds(s: State, server: Server, role: Role, sort: Sort)
    ensures Adds(s, DispatchQueued(s, server, role), sort, NextSent(s, server, role, sort))
  {
    hide Dispatch, Those, Sends, Fault;
    var r := RoleOf(s, role);
    if !Busy(r) && Waiting(r).Some? {
      var u := PutRole(s, role, if r.queuedMute.Some? then r.(queuedMute := None) else r.(queuedVolume := None));
      DispatchAdds(u, server, Waiting(r).value, sort);
      assert RoleOf(u, Waiting(r).value.role).binding == RoleOf(s, Waiting(r).value.role).binding;
    }
  }

  // What is sent once a readback is answered, from the state in which it is.
  ghost function CompletedSends(s: State, server: Server, q: Request, node: nat, sort: Sort): seq<Message> {
    var r := RoleOf(s, q.role);
    if r.node != Some(q.node) || r.generation != q.generation || r.binding != Some(node)
       || (if q.kind == SetVolume then r.muteInFlight else r.volumeInFlight) || Waiting(r).None?
    then []
    else Dispatches(s, server, Waiting(r).value, sort)
  }

  lemma CompletedAdds(s: State, server: Server, q: Request, node: nat, sort: Sort)
    ensures Adds(s, CompleteRequest(s, server, q, node), sort, CompletedSends(s, server, q, node, sort))
  {
    hide DispatchQueued, Those, PostConfirmed;
    ConfirmedAdds(s, q, node, sort);
    var said := PostConfirmed(s, q, node);
    assert said == s.(log := said.log) by { SaidIs(s, q, node); }
    var landed := ClearInFlight(said, q);
    DispatchQueuedAdds(landed, server, q.role, sort);
    if Current(RoleOf(s, q.role), q) && RoleOf(s, q.role).binding == Some(node) {
      LandedSends(s, landed, server, q, node, sort);
    }
  }

  lemma SaidIs(s: State, q: Request, node: nat)
    ensures PostConfirmed(s, q, node) == s.(log := PostConfirmed(s, q, node).log)
  {
    hide Average;
  }

  lemma LandedSends(s: State, landed: State, server: Server, q: Request, node: nat, sort: Sort)
    requires landed.bindings == s.bindings && Current(RoleOf(s, q.role), q) && RoleOf(s, q.role).binding == Some(node)
    requires RoleOf(landed, q.role) == Fly(RoleOf(s, q.role), q.kind, false)
    requires forall role :: role != q.role ==> RoleOf(landed, role) == RoleOf(s, role)
    ensures NextSent(landed, server, q.role, sort) == CompletedSends(s, server, q, node, sort)
  {
    hide Sends, Fault;
    var r, u := RoleOf(s, q.role), RoleOf(landed, q.role);
    assert Waiting(u) == Waiting(r);
    if Waiting(r).Some? {
      var other := Waiting(r).value.role;
      assert RoleOf(landed, other).binding == RoleOf(s, other).binding;
    }
  }

  lemma PublishAdds(s: State, role: Role, node: nat, sort: Sort)
    requires node in s.bindings
    ensures Adds(s, PublishExternal(s, role, node), sort,
                 if sort == Reports then Hears(RoleOf(s, role), role, node, s.bindings[node]) else [])
    ensures PublishExternal(s, role, node) == s.(log := PublishExternal(s, role, node).log)
  {
    hide Those, Average;
    var r, b := RoleOf(s, role), s.bindings[node];
    if r.binding == Some(node) && Complete(b) {
      PostAdds(s, External(role, node, r.generation, Average(b.volumes), b.muted), sort);
    }
  }

  lemma PublishBothAdds(s: State, node: nat, sort: Sort)
    requires node in s.bindings
    ensures
      var b := s.bindings[node];
      Adds(s, PublishExternal(PublishExternal(s, Output, node), Input, node), sort,
           if sort == Reports then Hears(s.output, Output, node, b) + Hears(s.input, Input, node, b) else [])
  {
    hide PublishExternal, Those, Hears;
    PublishAdds(s, Output, node, sort);
    PublishAdds(PublishExternal(s, Output, node), Input, node, sort);
  }

  lemma ReadbackSends(s: State, step: Step, fresher: State, key: int, sort: Sort)
    requires step.event.Answer? && step.event.node in s.bindings
    requires TakenFor(s, step.event.node, step.event.sequence, key)
    requires forall a, b ::
      TakenFor(s, step.event.node, step.event.sequence, a) && TakenFor(s, step.event.node, step.event.sequence, b)
      ==> a == b
    requires
      var b := Told(s.bindings[step.event.node], step.event.volumes, step.event.muted);
      fresher == s.(bindings := s.bindings[step.event.node := b]) && b.hasVolumes && b.hasMute
    ensures
      CompletedSends(fresher.(readbacks := s.readbacks - {key}), step.server, s.readbacks[key], step.event.node, sort)
      == Says(s, step, sort)
  {
    var u, q := fresher.(readbacks := s.readbacks - {key}), s.readbacks[key];
    assert IsReadback(s, step.event.node, step.event.sequence);
    hide Sends, Fault;
    assert forall role :: RoleOf(u, role) == RoleOf(s, role);
  }

  lemma AnswerAdds(s: State, step: Step, sort: Sort)
    requires step.event.Answer?
    ensures Adds(s, Apply(s, step), sort, Says(s, step, sort))
  {
    var Answer(node, sequence, volumes, muted) := step.event;
    if node in s.bindings {
      var b := Told(s.bindings[node], volumes, muted);
      var fresher := s.(bindings := s.bindings[node := b]);
      AnsweredIs(s, node, sequence);
      hide Answered, TakenFor, CompleteRequest, PublishExternal, Those;
      assert b == Refreshed(s.bindings[node], volumes, muted);
      var key := Answered(s, node, sequence);
      if b.hasVolumes && b.hasMute {
        if key.Some? {
          ReadbackSends(s, step, fresher, key.value, sort);
          CompletedAdds(fresher.(readbacks := s.readbacks - {key.value}), step.server, s.readbacks[key.value], node,
                        sort);
        } else {
          PublishBothAdds(fresher, node, sort);
        }
      } else {
        SameLog(s, fresher, sort);
      }
    }
  }

  // ---- Binding ----

  lemma ExternalAdds(s: State, role: Role, sort: Sort)
    ensures
      var r := RoleOf(s, role);
      Adds(s, PostExternal(s, role), sort,
           if sort == Reports && r.binding.Some? && r.binding.value in s.bindings
              && HasTold(s.bindings[r.binding.value])
           then [Report(role, r.binding.value, r.generation, s.bindings[r.binding.value])] else [])
  {
    hide Those, Average;
    var r := RoleOf(s, role);
    if r.binding.Some? && r.binding.value in s.bindings && Complete(s.bindings[r.binding.value]) {
      PostAdds(s, Report(role, r.binding.value, r.generation, s.bindings[r.binding.value]), sort);
    }
  }

  lemma EnsureRoleAdds(s: State, server: Server, role: Role, sort: Sort)
    ensures Adds(s, EnsureRole(s, server, role), sort,
                 if sort == Reports then Learns(RoleOf(s, role), role, s.known, s.bindings) else [])
  {
    hide PostExternal, Those, Report;
    var r := RoleOf(s, role);
    if r.node.Some? && r.binding.None? && r.node.value in s.known {
      var (bound, binding) := EnsureBinding(s, server, r.node.value);
      ExternalAdds(PutRole(bound, role, r.(binding := binding)), role, sort);
    }
  }

  // Only bindings that have told nothing came.
  ghost predicate Extends(bindings: map<nat, Binding>, more: map<nat, Binding>) {
    && (forall n :: n in bindings ==> n in more && more[n] == bindings[n])
    && forall n :: n in more && n !in bindings ==> !HasTold(more[n])
  }

  lemma EnsuredExtends(s: State, server: Server, node: nat)
    ensures var (t, binding) := EnsureBinding(s, server, node);
      t == s.(bindings := t.bindings) && Extends(s.bindings, t.bindings)
  {
  }

  // The second role learns as much after the first was bound as before.
  lemma EnsuredFirst(s: State, server: Server)
    ensures var t := EnsureRole(s, server, Output);
      t.input == s.input && t.known == s.known && Extends(s.bindings, t.bindings)
  {
    hide PostExternal, EnsureBinding, Extends;
    var r := s.output;
    SameExtends(s.bindings);
    if r.node.Some? {
      EnsuredExtends(s, server, r.node.value);
      var (bound, binding) := EnsureBinding(s, server, r.node.value);
      ExternalSays(PutRole(bound, Output, r.(binding := binding)), Output);
    }
  }

  lemma SameExtends(bindings: map<nat, Binding>)
    ensures Extends(bindings, bindings)
  {
  }

  lemma EnsureTrackedAdds(s: State, server: Server, sort: Sort)
    ensures Adds(s, EnsureTracked(s, server), sort,
                 if sort == Reports && s.ready then LearnBoth(s.output, s.input, s.known, s.bindings) else [])
  {
    hide EnsureRole, Those;
    EnsureRoleAdds(s, server, Output, sort);
    EnsureRoleAdds(EnsureRole(s, server, Output), server, Input, sort);
    EnsuredFirst(s, server);
  }

  // ---- Tracking ----

  // Which state the roles are bound from when a node is tracked.
  lemma ReleasedIs(s: State, role: Role, node: nat, generation: nat, left: Option<nat>)
    requires BoundToTracked(s)
    requires left == RoleOf(s, role).node
    ensures
      var u := Post(PutRole(s, role, UNTRACKED.(node := Some(node), generation := generation)), Tracked(role));
      var t := ReleaseIfUnused(u, left);
      && t.output == u.output && t.input == u.input && t.known == s.known && t.ready == s.ready
      && (forall n :: n in t.bindings <==>
            n in s.bindings && (Some(n) == left ==> u.output.node == left || u.input.node == left))
      && forall n :: n in t.bindings ==> t.bindings[n] == s.bindings[n]
  {
    hide WithoutNode;
    assert RoleOf(s, Output) == s.output && RoleOf(s, Input) == s.input;
  }

  // What is learnt once the node tracked before is released is what could be learnt before.
  lemma ReleasedLearns(s: State, t: State, role: Role, node: nat, generation: nat)
    requires
      var r := UNTRACKED.(node := Some(node), generation := generation);
      && t.output == (if role == Output then r else s.output) && t.input == (if role == Input then r else s.input)
    requires t.known == s.known
    requires forall n :: n in t.bindings <==>
      n in s.bindings && (Some(n) == RoleOf(s, role).node ==> t.output.node == Some(n) || t.input.node == Some(n))
    requires forall n :: n in t.bindings ==> t.bindings[n] == s.bindings[n]
    ensures LearnBoth(t.output, t.input, t.known, t.bindings) == LearnBoth(t.output, t.input, s.known, s.bindings)
  {
    hide HasTold;
  }

  // The roles when the node tracked before is about to be released.
  lemma ReplacedIs(s: State, role: Role, node: nat, generation: nat)
    requires BoundToTracked(s)
    ensures
      var r := UNTRACKED.(node := Some(node), generation := generation);
      var u := Post(PutRole(s, role, r), Tracked(role));
      && u.output == (if role == Output then r else s.output) && u.input == (if role == Input then r else s.input)
      && BoundToTracked(u)
  {
    assert RoleOf(s, Output) == s.output && RoleOf(s, Input) == s.input;
  }

  // Nothing but the messages of the binding and of the absence is said once it is released.
  lemma BoundSays(s: State, step: Step, released: State, sort: Sort)
    requires step.event.TrackEvent? && BoundToTracked(s)
    requires
      var TrackEvent(role, node, generation) := step.event;
      var r := RoleState(Some(node), generation, None, false, false, None, None);
      && released.output == (if role == Output then r else s.output)
      && released.input == (if role == Input then r else s.input) && released.ready == s.ready
      && LearnBoth(released.output, released.input, released.known, released.bindings)
         == LearnBoth(released.output, released.input, s.known, s.bindings)
    ensures
      var TrackEvent(role, node, generation) := step.event;
      (if sort == Reports && released.ready
       then LearnBoth(released.output, released.input, released.known, released.bindings) else [])
      + (if s.ready && node !in s.known && sort == Absences then [Unavailable(role, generation)] else [])
      == Says(s, step, sort)
  {
    hide LearnBoth;
  }

  ghost function ReleasedState(s: State, role: Role, node: nat, generation: nat): State {
    ReleaseIfUnused(Post(PutRole(s, role, UNTRACKED.(node := Some(node), generation := generation)), Tracked(role)),
                    RoleOf(s, role).node)
  }

  lemma TrackIs(s: State, server: Server, role: Role, node: nat, generation: nat)
    requires BoundToTracked(s)
    ensures
      var tracked := EnsureTracked(ReleasedState(s, role, node, generation), server);
      Track(s, server, role, node, generation)
      == if s.ready && node !in s.known then Post(tracked, Unavailable(role, generation)) else tracked
  {
    ReplacedIs(s, role, node, generation);
    ReleasedIs(s, role, node, generation, RoleOf(s, role).node);
    hide ReleaseIfUnused, EnsureTracked, BoundToTracked;
    EnsuredExactly(ReleasedState(s, role, node, generation), server, role);
  }

  lemma ReleasedAdds(s: State, role: Role, node: nat, generation: nat, sort: Sort)
    requires BoundToTracked(s)
    ensures Adds(s, ReleasedState(s, role, node, generation), sort, [])
  {
    var put := PutRole(s, role, UNTRACKED.(node := Some(node), generation := generation));
    ReplacedIs(s, role, node, generation);
    hide ReleaseIfUnused, BoundToTracked, Those;
    PostAdds(put, Tracked(role), sort);
    ReleaseAdds(Post(put, Tracked(role)), RoleOf(s, role).node, sort);
  }

  ghost function LearntOnRelease(released: State, sort: Sort): seq<Message> {
    if sort == Reports && released.ready
    then LearnBoth(released.output, released.input, released.known, released.bindings) else []
  }

  lemma TrackSays(s: State, step: Step, sort: Sort)
    requires step.event.TrackEvent? && BoundToTracked(s)
    ensures
      var TrackEvent(role, node, generation) := step.event;
      LearntOnRelease(ReleasedState(s, role, node, generation), sort)
      + (if s.ready && node !in s.known && sort == Absences then [Unavailable(role, generation)] else [])
      == Says(s, step, sort)
  {
    var TrackEvent(role, node, generation) := step.event;
    ReplacedIs(s, role, node, generation);
    ReleasedIs(s, role, node, generation, RoleOf(s, role).node);
    hide ReleaseIfUnused, LearnBoth, Says, BoundToTracked;
    var released := ReleasedState(s, role, node, generation);
    ReleasedLearns(s, released, role, node, generation);
    BoundSays(s, step, released, sort);
  }

  lemma TrackAdds(s: State, step: Step, sort: Sort)
    requires step.event.TrackEvent? && BoundToTracked(s)
    ensures Adds(s, Apply(s, step), sort, Says(s, step, sort))
  {
    var TrackEvent(role, node, generation) := step.event;
    assert Apply(s, step) == Track(s, step.server, role, node, generation);
    hide Apply, ReleasedState, EnsureTracked, Track, LearntOnRelease, BoundToTracked, Says, Adds, Post;
    var released := ReleasedState(s, role, node, generation);
    var tracked := EnsureTracked(released, step.server);
    var learnt := LearntOnRelease(released, sort);
    TrackIs(s, step.server, role, node, generation);
    TrackSays(s, step, sort);
    ReleasedAdds(s, role, node, generation, sort);
    LearntAdds(released, step.server, sort);
    AddsBoth(s, released, tracked, sort, [], learnt);
    NothingMore(learnt);
    if s.ready && node !in s.known {
      AbsenceAdds(tracked, role, generation, sort);
      AddsBoth(s, tracked, Post(tracked, Unavailable(role, generation)), sort, learnt,
               if sort == Absences then [Unavailable(role, generation)] else []);
    }
  }

  lemma NothingMore(messages: seq<Message>)
    ensures [] + messages == messages && messages + [] == messages
  {
  }

  lemma LearntAdds(released: State, server: Server, sort: Sort)
    ensures Adds(released, EnsureTracked(released, server), sort, LearntOnRelease(released, sort))
  {
    EnsureTrackedAdds(released, server, sort);
    hide EnsureTracked, LearnBoth, Those;
  }

  lemma AbsenceAdds(s: State, role: Role, generation: nat, sort: Sort)
    ensures Adds(s, Post(s, Unavailable(role, generation)), sort,
                 if sort == Absences then [Unavailable(role, generation)] else [])
  {
    PostAdds(s, Unavailable(role, generation), sort);
  }

  lemma CoreDoneAdds(s: State, step: Step, sort: Sort)
    requires step.event.Synchronised?
    ensures Adds(s, Apply(s, step), sort, Says(s, step, sort))
  {
    hide EnsureTracked, BeginReadback, Those;
    var sequence := step.event.sequence;
    EnsureTrackedAdds(s.(ready := true), step.server, sort);
    if sequence in s.syncs {
      BeginReadbackAdds(s.(syncs := s.syncs - {sequence}), step.server, s.syncs[sequence], sort);
    }
  }

  lemma StepAdds(s: State, step: Step, sort: Sort)
    requires step.event.TrackEvent? || step.event.UntrackEvent? ==> BoundToTracked(s)
    ensures Adds(s, Apply(s, step), sort, Says(s, step, sort))
  {
    hide NodeParam, CoreDone, RemoveBinding, EnsureTracked, Ask, Track, Untrack, Those;
    match step.event {
      case TrackEvent(role, node, generation) => TrackAdds(s, step, sort);
      case UntrackEvent(role, generation) => UntrackAdds(s, role, generation, sort);
      case AskEvent(q) => AskAdds(s, step, sort);
      case Appeared(node) => EnsureTrackedAdds(s.(known := s.known + {node}), step.server, sort);
      case Vanished(node) => RemoveBindingAdds(s.(known := s.known - {node}), node, sort);
      case Synchronised(sequence) => CoreDoneAdds(s, step, sort);
      case Answer(node, sequence, volumes, muted) => AnswerAdds(s, step, sort);
    }
  }

  // In every state each step says of each sort exactly this, and nothing else.
  lemma SaysExactly(s: State, step: Step, sort: Sort)
    requires step.event.TrackEvent? || step.event.UntrackEvent? ==> BoundToTracked(s)
    ensures Those(Apply(s, step).log, sort) == Those(s.log, sort) + Says(s, step, sort)
  {
    StepAdds(s, step, sort);
  }

  ghost predicate InProportion(levels: seq<real>, volumes: seq<real>, i: nat, j: nat)
    requires i < |levels| == |volumes| && j < |levels|
  {
    if Average(volumes) > SILENCE then levels[i] * volumes[j] == levels[j] * volumes[i] else levels[i] == levels[j]
  }

  // Levels that average to the volume asked for, in the proportions the channels had, or all
  // the same when they were silent.
  ghost predicate AsAsked(levels: seq<real>, volumes: seq<real>, target: real) {
    && 0 < |levels| == |volumes| && Average(levels) == target
    && (forall i :: 0 <= i < |levels| ==> levels[i] >= 0.0)
    && forall i: nat, j: nat :: i < |levels| && j < |levels| ==> InProportion(levels, volumes, i, j)
  }

  lemma ScaledProportion(volumes: seq<real>, target: real, i: nat, j: nat)
    requires Acceptable(volumes, target) && i < |volumes| && j < |volumes|
    ensures InProportion(Visuals(volumes, target), volumes, i, j)
  {
    RatiosKept(volumes, target, i, j);
    hide Visuals, Average;
  }

  lemma ScaledAsAsked(volumes: seq<real>, target: real)
    requires Acceptable(volumes, target)
    ensures AsAsked(Visuals(volumes, target), volumes, target)
  {
    hide Visuals, Average, InProportion;
    var levels := Visuals(volumes, target);
    AverageIsTarget(volumes, target);
    forall i | 0 <= i < |levels|
      ensures levels[i] >= 0.0
    {
      ChannelBound(volumes, target, i);
    }
    forall i: nat, j: nat | i < |levels| && j < |levels|
      ensures InProportion(levels, volumes, i, j)
    {
      ScaledProportion(volumes, target, i, j);
    }
  }

  // What goes out for a volume are the cubes of such levels, one for each channel.
  lemma WrittenIsAsked(binding: Option<nat>, bindings: map<nat, Binding>, server: Server, q: Request)
    requires q.kind == SetVolume && Sends(binding, bindings, server, q).Some?
    ensures
      var volumes, written := bindings[q.node].volumes, Sends(binding, bindings, server, q).value.written;
      exists levels :: AsAsked(levels, volumes, q.volume) && written == Cubes(levels)
  {
    var volumes := bindings[q.node].volumes;
    hide Visuals, AsAsked, Cubes;
    ScaledAsAsked(volumes, q.volume);
  }

  // ---- What the roles are bound to ----

  ghost predicate Bindable(s: State, server: Server, node: nat) {
    s.ready && node in s.known && (node in s.bindings || node !in server.unbindable)
  }

  // A role stays bound, or is bound to the node it tracks once that can be done.
  ghost function BoundNow(s: State, server: Server, r: RoleState): RoleState {
    if r.binding.None? && r.node.Some? && Bindable(s, server, r.node.value) then r.(binding := r.node) else r
  }

  lemma ExternalSays(s: State, role: Role)
    ensures PostExternal(s, role) == s.(log := PostExternal(s, role).log)
  {
    hide Average;
  }

  lemma EnsuredRole(s: State, server: Server, role: Role)
    requires s.ready
    ensures var t := EnsureRole(s, server, role);
      && RoleOf(t, role) == BoundNow(s, server, RoleOf(s, role)) && t.ready && t.known == s.known
      && (forall other :: other != role ==> RoleOf(t, other) == RoleOf(s, other))
      && (forall n :: Bindable(t, server, n) <==> Bindable(s, server, n))
  {
    hide PostExternal;
    var r := RoleOf(s, role);
    if r.node.Some? {
      var (bound, binding) := EnsureBinding(s, server, r.node.value);
      ExternalSays(PutRole(bound, role, r.(binding := binding)), role);
    }
  }

  lemma EnsuredExactly(s: State, server: Server, role: Role)
    ensures RoleOf(EnsureTracked(s, server), role) == BoundNow(s, server, RoleOf(s, role))
  {
    if s.ready {
      hide EnsureRole, Bindable;
      EnsuredRole(s, server, Output);
      EnsuredRole(EnsureRole(s, server, Output), server, Input);
    }
  }

  // Tracking leaves the role with nothing in flight or waiting, bound to its node if that can
  // be done; it takes nothing from the other role, and may bind it too.
  lemma TrackedExactly(s: State, server: Server, role: Role, node: nat, generation: nat, other: Role)
    requires BoundToTracked(s) && other != role
    ensures var t := Apply(s, Step(TrackEvent(role, node, generation), server));
      && RoleOf(t, role) == BoundNow(s, server, RoleState(Some(node), generation, None, false, false, None, None))
      && RoleOf(t, other) == BoundNow(s, server, RoleOf(s, other))
  {
    hide ReleaseIfUnused, EnsureTracked;
    var put := PutRole(s, role, UNTRACKED.(node := Some(node), generation := generation));
    var replaced := Post(put, Tracked(role));
    ReleasedIs(s, role, node, generation, RoleOf(s, role).node);
    var released := ReleaseIfUnused(replaced, RoleOf(s, role).node);
    EnsuredExactly(released, server, role);
    EnsuredExactly(released, server, other);
    assert RoleOf(released, role) == RoleState(Some(node), generation, None, false, false, None, None);
    assert RoleOf(released, other) == RoleOf(s, other);
  }

  // What a node tells is kept, volumes and mute each until told again.
  lemma ToldExactly(s: State, step: Step)
    requires step.event.Answer?
    ensures Apply(s, step).bindings == BindingsAfter(s, step)
  {
    hide Answered, CompleteRequest, PublishExternal;
    if step.event.node in s.bindings {
      var Answer(node, sequence, volumes, muted) := step.event;
      assert Told(s.bindings[node], volumes, muted) == Refreshed(s.bindings[node], volumes, muted);
      var fresher := s.(bindings := BindingsAfter(s, step));
      var key := Answered(s, node, sequence);
      if key.Some? && key.value in s.readbacks {
        CompleteKeeps(fresher.(readbacks := s.readbacks - {key.value}), step.server, s.readbacks[key.value], node);
      }
      PublishKeeps(fresher, Output, node);
      PublishKeeps(PublishExternal(fresher, Output, node), Input, node);
    }
  }

  lemma PublishKeeps(s: State, role: Role, node: nat)
    ensures PublishExternal(s, role, node).bindings == s.bindings
  {
    hide PostExternal;
    ExternalKeeps(s, role);
  }

  lemma ExternalKeeps(s: State, role: Role)
    ensures PostExternal(s, role).bindings == s.bindings
  {
    hide Average;
  }

  lemma CompleteKeeps(s: State, server: Server, q: Request, node: nat)
    ensures CompleteRequest(s, server, q, node).bindings == s.bindings
  {
    hide Dispatch, PostConfirmed;
    SaidIs(s, q, node);
    forall u: State, p
      ensures Dispatch(u, server, p).bindings == u.bindings
    {
      DispatchKeeps(u, server, p);
    }
  }

  lemma DispatchKeeps(s: State, server: Server, q: Request)
    ensures Dispatch(s, server, q).bindings == s.bindings
  {
    hide Sendable, Written, Fly;
  }
}
