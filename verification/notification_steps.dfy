/** Each entry point of the notification runtime as one transition of its state. */
module NotificationSteps {
  import opened Basics
  import opened NotificationModel

  // ---------------------------------------------------------------- admission

  function Newcomer(o: Object, n: Notification, key: Option<nat>, sequence: nat): Association {
    Association(sequence, o, key, n.content.urgency, n.transient, -1, false, true,
                SourceToken(sequence), 1, Payload("", "", "", ""), 0, false)
  }

  /** The newcomer is not tracked: its record, if any, stays as an expired one. */
  ghost function TurnAway(s: State, o: Object, key: Option<nat>, w: World): State {
    var marked := if key.Some? then s.(history := Expired(s.history, key.value)) else s;
    Arm(AfterExpire(marked, o, w), w.now)
  }

  ghost function Install(s: State, newcomer: Association, n: Notification, now: nat): State {
    var a := Presented(Scheduled(newcomer, n, now), n);
    Arm(s.(live := s.live[newcomer.notification.protocolId := a]), now)
  }

  /** Makes room for the newcomer, or turns it away, when the table is full. */
  ghost function Contend(s: State, newcomer: Association, n: Notification, w: World): State {
    var v := Victim(s.live, s.history, newcomer);
    if v.None? || v.value !in s.live then TurnAway(s, newcomer.notification, newcomer.recordKey, w)
    else
      var victim := s.live[v.value].notification;
      var s1 := AfterExpire(s, victim, w);
      if !ExpireCalled(victim, w) || |s1.live| >= MAX_LIVE
      then TurnAway(s1, newcomer.notification, newcomer.recordKey, w)
      else Install(s1, newcomer, n, w.now)
  }

  ghost function AdmitFresh(s: State, o: Object, w: World): State {
    var n := w.read(o);
    if o.protocolId == 0 then AfterExpire(s, o, w)
    else if o.protocolId in s.live then (if Owns(s, o) then Queue(s, o) else s)
    else
      var (sequence, counter) := Allocate(s.liveKeys);
      if sequence.None? then AfterExpire(s, o, w)
      else
        var (s1, key) := AdmitHistory(s.(liveKeys := counter), n, w.now);
        var newcomer := Newcomer(o, n, key, sequence.value);
        if |s1.live| >= MAX_LIVE then Contend(s1, newcomer, n, w)
        else Install(s1, newcomer, n, w.now)
  }

  // ---------------------------------------------------------------- replacement

  ghost function Queue(s: State, o: Object): State {
    if !Owns(s, o) then s
    else s.(live := s.live[o.protocolId := s.live[o.protocolId].(updateQueued := true)])
  }

  ghost function Update(s: State, o: Object): State {
    if s.reconciling then s else Queue(s, o)
  }

  function Rewritten(history: seq<Record>, key: nat, n: Notification): (written: seq<Record>)
    ensures |written| == |history|
    ensures forall i :: 0 <= i < |history| ==>
      written[i] == if history[i].key == key then history[i].(live := true, content := n.content) else history[i]
  {
    seq(|history|, i requires 0 <= i < |history| =>
      if history[i].key == key then history[i].(live := true, content := n.content) else history[i])
  }

  /** Moves the record of association `id` to what its new transience asks for. */
  ghost function Rerecord(s: State, id: nat, oldKey: Option<nat>, n: Notification, now: nat): State
    requires id in s.live
  {
    var a := s.live[id];
    if a.transient && !n.transient then
      var (s1, key) := AdmitHistory(s, n, now);
      if id in s1.live then s1.(live := s1.live[id := a.(recordKey := key, transient := false)]) else s1
    else if !a.transient && n.transient then
      var s1 := if oldKey.Some? && oldKey.value in Keys(s.history) then Forget(s, {oldKey.value}) else s;
      s1.(live := s1.live[id := a.(recordKey := None, transient := true)])
    else if !n.transient && a.recordKey.Some? then
      if a.recordKey.value in Keys(s.history)
      then s.(history := Rewritten(s.history, a.recordKey.value, n))
      else s.(live := s.live[id := a.(recordKey := None)])
    else s
  }

  ghost function Replace(s: State, o: Object, w: World): State {
    if !Owns(s, o) then s
    else
      var id, n := o.protocolId, w.read(o);
      var s1 := Prune(s, w.now);
      if id !in s1.live then s1
      else
        var s2 := Rerecord(s1, id, s.live[id].recordKey, n, w.now);
        if id !in s2.live then s2
        else
          var a := s2.live[id].(transient := n.transient, urgency := n.content.urgency);
          Arm(s2.(live := s2.live[id := Presented(Scheduled(a, n, w.now), n)]), w.now)
  }

  /** A replacement queued earlier for `o` runs from the event loop. */
  ghost function RunQueued(s: State, o: Object, w: World): State {
    var id := o.protocolId;
    if id !in s.live then s
    else
      var s1 := s.(live := s.live[id := s.live[id].(updateQueued := false)]);
      if w.alive(o) then Replace(s1, o, w) else s1
  }

  // ---------------------------------------------------------------- reload

  function Detached(live: map<nat, Association>): map<nat, Association> {
    map id | id in live :: live[id].(recordKey := None, seen := false, updateQueued := false)
  }

  ghost function BeginGeneration(s: State, now: nat): State {
    Arm(s.(generation := if s.generation != MAX_SEQUENCE then s.generation + 1 else s.generation,
           reconciling := true, buffered := [], live := Detached(s.live), history := []), now)
  }

  ghost function Attach(s: State, o: Object, generation: nat, lastGeneration: bool, w: World): State {
    if generation != s.generation then s
    else if s.reconciling then s.(buffered := s.buffered + [Buffered(o, lastGeneration)])
    else AdmitFresh(s, o, w)
  }

  /** The first living object buffered under each non-zero id not yet in `ids`. */
  function FirstPerId(buffered: seq<Buffered>, carried: bool, ids: set<nat>, w: World): seq<Object> {
    if buffered == [] then []
    else
      var b := buffered[0];
      var id := b.notification.protocolId;
      if w.alive(b.notification) && id != 0 && b.carried == carried && id !in ids
      then [b.notification] + FirstPerId(buffered[1..], carried, ids + {id}, w)
      else FirstPerId(buffered[1..], carried, ids, w)
  }

  function InsertDescending(o: Object, sorted: seq<Object>): seq<Object> {
    if sorted == [] || o.protocolId > sorted[0].protocolId then [o] + sorted
    else [sorted[0]] + InsertDescending(o, sorted[1..])
  }

  function SortDescending(objects: seq<Object>): seq<Object> {
    if objects == [] then [] else InsertDescending(objects[0], SortDescending(objects[1..]))
  }

  ghost function Recognise(s: State, o: Object, w: World): State {
    if !Owns(s, o) then AfterExpire(s, o, w)
    else
      var id, n := o.protocolId, w.read(o);
      var a := s.live[id].(seen := true, transient := n.transient, urgency := n.content.urgency);
      var s1 := s.(live := s.live[id := a]);
      if n.transient then s1
      else
        var (s2, key) := AdmitHistory(s1, n, w.now);
        if id in s2.live then s2.(live := s2.live[id := s2.live[id].(recordKey := key)]) else s2
  }

  /** Goes through the carried objects, which are in descending order, from the last one. */
  ghost function RecogniseAll(s: State, descending: seq<Object>, w: World): State
    decreases |descending|
  {
    if descending == [] then s
    else
      var last := |descending| - 1;
      RecogniseAll(Recognise(s, descending[last], w), descending[..last], w)
  }

  function SeenOnly(live: map<nat, Association>): map<nat, Association> {
    map id | id in live && live[id].seen :: live[id]
  }

  /** Reconciliation proper: everything before the fresh objects are admitted. */
  ghost function Reconcile(s: State, w: World): State {
    var carried := SortDescending(FirstPerId(s.buffered, true, {}, w));
    var s1 := RecogniseAll(s.(buffered := []), carried, w);
    s1.(live := SeenOnly(s1.live), reconciling := false)
  }

  ghost function AdmitAll(s: State, objects: seq<Object>, w: World): State
    decreases |objects|
  {
    if objects == [] then s else AdmitAll(AdmitFresh(s, objects[0], w), objects[1..], w)
  }

  ghost function FinishGeneration(s: State, generation: nat, w: World): State {
    if !s.reconciling || generation != s.generation then s
    else Arm(AdmitAll(Reconcile(s, w), FirstPerId(s.buffered, false, {}, w), w), w.now)
  }

  // ---------------------------------------------------------------- removal

  ghost predicate Addressed(s: State, id: nat, key: nat, w: World) {
    id in s.live && s.live[id].recordKey == Some(key) && w.alive(s.live[id].notification)
  }

  /** The association a dismissal is meant for. */
  ghost function Addressee(s: State, key: nat, w: World): (id: Option<nat>)
    ensures id.Some? ==> Addressed(s, id.value, key, w)
    ensures id.None? ==> forall other :: !Addressed(s, other, key, w)
  {
    if exists id :: Addressed(s, id, key, w)
    then var id :| Addressed(s, id, key, w); Some(id)
    else None
  }

  ghost function Dismiss(s: State, key: nat, w: World): (State, bool) {
    if key == 0 then (s, false)
    else match Addressee(s, key, w)
      case Some(id) =>
        var o := s.live[id].notification;
        (match w.dismiss(o)
         case Refuses => Arm(Erase(Forget(s, {key}), id), w.now)
         case LeavesOpen => s
         case Closes(reason) => Close(s, o, reason, w.now), true)
      case None =>
        if key !in Keys(s.history) then (s, false)
        else (Arm(Forget(s, {key}), w.now), true)
  }

  function UnlinkAll(live: map<nat, Association>): map<nat, Association> {
    map id | id in live :: live[id].(recordKey := None)
  }

  ghost function ClearHistory(s: State, now: nat): State {
    if s.history == [] then s else Arm(s.(live := UnlinkAll(s.live), history := []), now)
  }

  ghost function LoseOwnership(s: State, now: nat): State {
    if s.live == map[] then s
    else Arm(s.(history := Without(s.history, LinkedKeys(s.live)), live := map[]), now)
  }

  // ---------------------------------------------------------------- deadlines

  function DueIds(s: State, now: nat): set<nat> {
    set id | id in s.live && 0 <= s.live[id].deadline <= now
  }

  /** How the association of a due notification ends; None when it stays open. */
  function Ending(a: Association, w: World): Option<int> {
    if !ExpireCalled(a.notification, w) then Some(0)
    else match w.expire(a.notification)
      case Closes(reason) => Some(reason)
      case _ => None
  }

  function EndedIds(s: State, ids: set<nat>, w: World): set<nat> {
    set id | id in ids && id in s.live && Ending(s.live[id], w).Some?
  }

  function KeysEnding(s: State, ids: set<nat>, expired: bool, w: World): set<nat> {
    set id | id in ids && id in s.live && Ending(s.live[id], w).Some? && s.live[id].recordKey.Some?
        && (Ending(s.live[id], w).value == 1) == expired :: s.live[id].recordKey.value
  }

  function ExpiredAll(history: seq<Record>, keys: set<nat>): (marked: seq<Record>)
    ensures |marked| == |history|
    ensures forall i :: 0 <= i < |history| ==>
      marked[i] == if history[i].key in keys then history[i].(live := false) else history[i]
  {
    seq(|history|, i requires 0 <= i < |history| =>
      if history[i].key in keys then history[i].(live := false) else history[i])
  }

  /** All due notifications end at once; no order is involved. */
  function EndAll(s: State, ids: set<nat>, w: World): State {
    var dropped := KeysEnding(s, ids, false, w);
    s.(live := s.live - EndedIds(s, ids, w),
       history := Without(ExpiredAll(s.history, KeysEnding(s, ids, true, w)), dropped))
  }

  ghost function ProcessDue(s: State, w: World): State {
    Arm(Prune(EndAll(s, DueIds(s, w.now), w), w.now), w.now)
  }

  // ---------------------------------------------------------------- events and runs

  datatype Event =
    | BeginEvent
    | AttachEvent(o: Object, generation: nat, lastGeneration: bool)
    | UpdateEvent(o: Object)
    | QueuedEvent(o: Object)
    | CloseEvent(o: Object, reason: int)
    | FinishEvent(generation: nat)
    | DismissEvent(key: nat)
    | ClearEvent
    | OwnershipLostEvent
    | DueEvent

  ghost function Step(s: State, e: Event, w: World): State {
    match e
    case BeginEvent => BeginGeneration(s, w.now)
    case AttachEvent(o, generation, lastGeneration) => Attach(s, o, generation, lastGeneration, w)
    case UpdateEvent(o) => Update(s, o)
    case QueuedEvent(o) => RunQueued(s, o, w)
    case CloseEvent(o, reason) => Close(s, o, reason, w.now)
    case FinishEvent(generation) => FinishGeneration(s, generation, w)
    case DismissEvent(key) => Dismiss(s, key, w).0
    case ClearEvent => ClearHistory(s, w.now)
    case OwnershipLostEvent => LoseOwnership(s, w.now)
    case DueEvent => ProcessDue(s, w)
  }

  ghost function Run(s: State, events: seq<(Event, World)>): State
    decreases |events|
  {
    if events == [] then s else Run(Step(s, events[0].0, events[0].1), events[1..])
  }
}
