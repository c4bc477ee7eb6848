/**
  * The brightness bridge: a request for one display is pending until a signal and a fresh
  * snapshot confirm it, the service refuses it, its display changes, or its time is up.
  * The clock is read once per event; everything the service says is a parameter.
  */
module BrightnessModel {
  import opened Basics

  type Name = string

  // Published as "generation:name".
  datatype Key = Key(generation: nat, name: Name)

  datatype Display = Display(key: Key, maximum: int, brightness: int)

  datatype Pending = Pending(id: int, generation: nat, key: Key, requested: int, maximum: int, deadline: int)

  datatype Origin = Self(id: int) | External | Unknown

  datatype Observed = Observed(name: Name, brightness: int, origin: Origin)

  datatype Outcome = Stale | Busy | Noop | TimedOut | Unavailable | Backend | Confirmed

  datatype Answer = Answer(id: int, outcome: Outcome)

  datatype Timer = Off | On(armedAt: int, fireAt: int)

  // received, answers and abandoned record the whole run; answers are unordered because
  // several requests are answered in hash order.
  datatype State = State(owner: Option<nat>, generation: nat, scheduled: bool, displays: map<Name, Display>,
                         failures: map<Name, Outcome>, pending: map<Name, Pending>, observed: seq<Observed>,
                         timer: Timer, received: multiset<int>, answers: multiset<Answer>,
                         abandoned: multiset<int>)

  const REQUEST_TIMEOUT_MS: int := 2500
  const MAX_DISPLAYS: nat := 32

  const IDLE := State(None, 0, false, map[], map[], map[], [], Off, multiset{}, multiset{}, multiset{})

  // ---- The timer ----

  function Deadlines(pending: map<Name, Pending>): set<int> {
    set n | n in pending :: pending[n].deadline
  }

  ghost predicate IsTimer(pending: map<Name, Pending>, now: int, timer: Timer) {
    if pending == map[] then timer == Off
    else exists nearest :: IsLeast(Deadlines(pending), nearest)
                           && timer == On(now, now + Min(Max(1, nearest - now), MAX_INT))
  }

  ghost function Armed(pending: map<Name, Pending>, now: int): (timer: Timer)
    ensures IsTimer(pending, now, timer)
  {
    if pending == map[] then Off else
    DeadlinesExist(pending);
    var nearest := Least(Deadlines(pending));
    On(now, now + Min(Max(1, nearest - now), MAX_INT))
  }

  lemma DeadlinesExist(pending: map<Name, Pending>)
    ensures pending != map[] ==> Deadlines(pending) != {}
  {
    if pending != map[] {
      var n :| n in pending;
      assert pending[n].deadline in Deadlines(pending);
    }
  }

  ghost function Rearm(s: State, now: int): State {
    s.(timer := Armed(s.pending, now))
  }

  // ---- Answers ----

  function Reply(s: State, id: int, outcome: Outcome): State {
    s.(answers := s.answers + multiset{Answer(id, outcome)})
  }

  // One answer each for the requests pending under these names.
  function AnswersFor(pending: map<Name, Pending>, names: set<Name>, outcome: Outcome): set<Answer> {
    set n | n in names && n in pending :: Answer(pending[n].id, outcome)
  }

  function ReplyAll(s: State, names: set<Name>, outcome: Outcome): State {
    s.(pending := s.pending - names, answers := s.answers + multiset(AnswersFor(s.pending, names, outcome)))
  }

  // ---- Owners ----

  function IdsOf(pending: map<Name, Pending>): set<int> {
    set n | n in pending :: pending[n].id
  }

  function Detach(s: State): State {
    s.(owner := None, scheduled := false, observed := [], pending := map[], timer := Off, displays := map[],
       failures := map[], abandoned := s.abandoned + multiset(IdsOf(s.pending)))
  }

  function Schedule(s: State): State {
    if s.owner.None? then s else s.(scheduled := true)
  }

  function Attach(s: State, owner: nat): State {
    if s.owner == Some(owner) then s else
    var detached := if s.owner.Some? then Detach(s) else s;
    if detached.generation == MAX_INT then detached
    else Schedule(detached.(generation := detached.generation + 1, owner := Some(owner)))
  }

  function OwnerChanged(s: State, owner: Option<nat>): State {
    if owner == s.owner then s
    else if owner.Some? then Attach(Detach(s), owner.value)
    else Detach(s)
  }

  // ---- Snapshots ----

  datatype Reading = Reading(maximum: int, brightness: int)

  predicate ValidReading(r: Reading) {
    r.maximum > 0 && 0 <= r.brightness <= r.maximum
  }

  function Refreshed(generation: nat, found: map<Name, Reading>): map<Name, Display> {
    map n | n in found && ValidReading(found[n]) :: Display(Key(generation, n), found[n].maximum, found[n].brightness)
  }

  function Outdated(pending: map<Name, Pending>, displays: map<Name, Display>): set<Name> {
    set n | n in pending && (n !in displays || displays[n].maximum != pending[n].maximum)
  }

  predicate Shows(s: State, o: Observed) {
    o.name in s.displays && s.displays[o.name].brightness == o.brightness
  }

  predicate Confirms(s: State, o: Observed) {
    Shows(s, o) && o.origin.Self? && o.name in s.pending && s.pending[o.name].id == o.origin.id
  }

  function Confirm(s: State, o: Observed): State {
    if Confirms(s, o) then
      ReplyAll(s.(failures := s.failures - {o.name}), {o.name}, Confirmed)
    else if Shows(s, o) && !o.origin.Self? then s.(failures := s.failures - {o.name})
    else s
  }

  function ConfirmAll(s: State, observed: seq<Observed>): State
    decreases |observed|
  {
    if observed == [] then s else ConfirmAll(Confirm(s, observed[0]), observed[1..])
  }

  // The snapshot fails, or is discarded because the service has another owner by now.
  ghost function Refresh(s: State, found: Option<map<Name, Reading>>, sameOwner: bool, now: int): State {
    var begun := s.(scheduled := false);
    if s.owner.None? || found.None? || !sameOwner then begun else
    var displays := Refreshed(s.generation, found.value);
    var kept := ReplyAll(begun, Outdated(s.pending, displays), Stale).(displays := displays);
    Rearm(ConfirmAll(kept, s.observed).(observed := []), now)
  }

  // ---- Requests ----

  function Rounded(ratio: real, maximum: int): int {
    var wanted := (ratio * maximum as real + 0.5).Floor;
    Max(0, Min(wanted, maximum))
  }

  predicate Known(s: State, key: Key) {
    s.owner.Some? && key.name in s.displays && s.displays[key.name].key == key
  }

  ghost function Request(s: State, id: int, key: Key, ratio: real, now: int): State {
    var received := s.(received := s.received + multiset{id});
    if !Known(s, key) then Reply(received, id, Stale)
    else if id in IdsOf(s.pending) || key.name in s.pending then Reply(received, id, Busy) else
    var display := s.displays[key.name];
    var requested := Rounded(ratio, display.maximum);
    var cleared := received.(failures := s.failures - {key.name});
    if requested == display.brightness then Reply(cleared, id, Noop) else
    var pending := Pending(id, s.generation, key, requested, display.maximum, now + REQUEST_TIMEOUT_MS);
    Rearm(cleared.(pending := s.pending[key.name := pending]), now)
  }

  // The service answers the call made for a request.
  ghost function CallFinished(s: State, owner: nat, generation: nat, name: Name, id: int, error: Option<Outcome>,
                              now: int): State {
    if s.owner != Some(owner) || s.generation != generation || name !in s.pending || s.pending[name].id != id
       || error.None? then s
    else Rearm(ReplyAll(s.(failures := s.failures[name := error.value]), {name}, error.value), now)
  }

  function Due(pending: map<Name, Pending>, now: int): set<Name> {
    set n | n in pending && pending[n].deadline <= now
  }

  function FailAll(failures: map<Name, Outcome>, names: set<Name>, outcome: Outcome): map<Name, Outcome> {
    map n | n in failures.Keys + names :: if n in names then outcome else failures[n]
  }

  ghost function Expire(s: State, now: int): State {
    var due := Due(s.pending, now);
    Rearm(ReplyAll(s.(failures := FailAll(s.failures, due, TimedOut)), due, TimedOut), now)
  }

  // ---- Signals ----

  datatype Source = Ours | Other | NoSource

  datatype Context = OurContext(id: int) | OtherContext | NoContext

  function OriginOf(s: State, name: Name, source: Source, context: Context): Origin {
    if name in s.pending && source == Ours && context == OurContext(s.pending[name].id) then Self(s.pending[name].id)
    else if source != NoSource || context != NoContext then External
    else Unknown
  }

  // One change is kept for each display, the latest; the oldest display gives way.
  function QueueObserved(observed: seq<Observed>, change: Observed): seq<Observed> {
    if exists i :: 0 <= i < |observed| && observed[i].name == change.name
    then Replaced(observed, change)
    else (if |observed| >= MAX_DISPLAYS then observed[1..] else observed) + [change]
  }

  function Replaced(observed: seq<Observed>, change: Observed): (r: seq<Observed>)
    ensures |r| == |observed|
  {
    if observed == [] then []
    else if observed[0].name == change.name then [change] + observed[1..]
    else [observed[0]] + Replaced(observed[1..], change)
  }

  function BrightnessChanged(s: State, name: Name, brightness: int, source: Source, context: Context): State {
    Schedule(s.(observed := QueueObserved(s.observed, Observed(name, brightness, OriginOf(s, name, source, context)))))
  }

  ghost function ClearPending(s: State, name: Name, outcome: Outcome, now: int): State {
    if name !in s.pending then s else Rearm(ReplyAll(s, {name}, outcome), now)
  }

  ghost function RangeChanged(s: State, name: Name, now: int): State {
    Schedule(ClearPending(s, name, Stale, now))
  }

  // ---- Runs ----

  datatype Event =
    | Owner(owner: Option<nat>)
    | Attached(attached: nat)
    | Snapshot(found: Option<map<Name, Reading>>, sameOwner: bool, now: int)
    | Asked(id: int, key: Key, ratio: real, now: int)
    | Finished(caller: nat, generation: nat, name: Name, id: int, error: Option<Outcome>, now: int)
    | TimerFired(now: int)
    | Changed(name: Name, brightness: int, source: Source, context: Context)
    | Ranged(name: Name, now: int)
    | Hotplugged

  ghost function Apply(s: State, event: Event): State {
    match event
    case Owner(owner) => OwnerChanged(s, owner)
    case Attached(owner) => Attach(s, owner)
    case Snapshot(found, sameOwner, now) => Refresh(s, found, sameOwner, now)
    case Asked(id, key, ratio, now) => Request(s, id, key, ratio, now)
    case Finished(owner, generation, name, id, error, now) => CallFinished(s, owner, generation, name, id, error, now)
    case TimerFired(now) => Expire(s, now)
    case Changed(name, brightness, source, context) => BrightnessChanged(s, name, brightness, source, context)
    case Ranged(name, now) => RangeChanged(s, name, now)
    case Hotplugged => Schedule(s)
  }

  ghost function Run(s: State, events: seq<Event>): State
    decreases |events|
  {
    if events == [] then s else Run(Apply(s, events[0]), events[1..])
  }

  // A snapshot never lists more displays than the limit, nor invents outcomes.
  ghost predicate Permitted(event: Event) {
    match event
    case Snapshot(found, _, _) => found.Some? ==> |found.value| <= MAX_DISPLAYS
    case Finished(_, _, _, _, error, _) => error.Some? ==> error.value in {TimedOut, Unavailable, Backend}
    case _ => true
  }
}
