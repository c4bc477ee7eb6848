/** The state of the notification runtime and what each of its entry points does
    to that state, written without the order in which hash tables are walked. */
module NotificationModel {
  import opened Basics

  const MAX_LIVE := 50
  const MAX_HISTORY := 50
  const HISTORY_LIFETIME_MS := 86_400_000
  const MAX_SEQUENCE := 0xFFFF_FFFF_FFFF_FFFF
  const MAX_REVISION := 0x7FFF_FFFF
  const MAX_TIMER_MS := 0x7FFF_FFFF

  datatype Urgency = Low | Normal | Critical

  /** A foreign notification object: its identity and its constant `id` property. */
  datatype Object = Object(serial: nat, protocolId: nat)

  datatype Content = Content(appName: string, summary: string, body: string, urgency: Urgency,
                             desktopEntry: string, appIconName: string, resident: bool)

  /** The properties of a foreign object, read and normalised. */
  datatype Notification = Notification(content: Content, transient: bool, expireTimeoutMs: int)

  datatype Record = Record(key: nat, admittedAt: nat, cutoff: nat, live: bool, content: Content)

  datatype Payload = Payload(appName: string, summary: string, body: string, appIconName: string)

  datatype Association = Association(
    sequence: nat, notification: Object, recordKey: Option<nat>, urgency: Urgency, transient: bool,
    deadline: int, updateQueued: bool, seen: bool,
    token: string, tokenGeneration: int, payload: Payload, revision: nat, presented: bool)

  datatype Buffered = Buffered(notification: Object, carried: bool)

  /** A 64-bit counter that hands out each value at most once and then stops. */
  datatype Counter = Counter(next: nat, exhausted: bool)

  datatype Timer = Timer(armedAt: nat, fireAt: nat)

  /** What a call of `expire` or `dismiss` on a foreign object does before it returns. */
  datatype Reply = Refuses | LeavesOpen | Closes(reason: int)

  /** Everything the runtime learns from outside during one entry point. */
  datatype World = World(now: nat, alive: Object -> bool, expire: Object -> Reply,
                         dismiss: Object -> Reply, read: Object -> Notification)

  datatype State = State(
    live: map<nat, Association>, history: seq<Record>, buffered: seq<Buffered>,
    historyKeys: Counter, liveKeys: Counter,
    generation: nat, reconciling: bool, timer: Option<Timer>)

  const INITIAL := State(map[], [], [], Counter(1, false), Counter(1, false), 0, false, None)

  // ---------------------------------------------------------------- record keys

  function Keys(history: seq<Record>): set<nat> {
    set r | r in history :: r.key
  }

  function LiveKeys(history: seq<Record>): set<nat> {
    set r | r in history && r.live :: r.key
  }

  /** The record keys held by associations. */
  function LinkedKeys(live: map<nat, Association>): set<nat> {
    set id | id in live && live[id].recordKey.Some? :: live[id].recordKey.value
  }

  function StaleKeys(history: seq<Record>, now: nat): set<nat> {
    set r | r in history && r.cutoff <= now :: r.key
  }

  /** The first value the counter has never handed out. */
  function Limit(c: Counter): nat {
    if c.exhausted then MAX_SEQUENCE + 1 else c.next
  }

  function Allocate(c: Counter): (Option<nat>, Counter) {
    if c.exhausted then (None, c)
    else if c.next == MAX_SEQUENCE then (Some(c.next), Counter(c.next, true))
    else (Some(c.next), Counter(c.next + 1, false))
  }

  // ---------------------------------------------------------------- history and links

  function Without(history: seq<Record>, keys: set<nat>): (kept: seq<Record>)
    ensures forall r :: r in kept <==> r in history && r.key !in keys
    ensures |kept| <= |history|
  {
    if history == [] then []
    else if history[0].key in keys then Without(history[1..], keys)
    else [history[0]] + Without(history[1..], keys)
  }

  function Unlink(live: map<nat, Association>, keys: set<nat>): map<nat, Association> {
    map id | id in live ::
      if live[id].recordKey.Some? && live[id].recordKey.value in keys
      then live[id].(recordKey := None) else live[id]
  }

  /** Removes the records with the given keys together with the links to them. */
  function Forget(s: State, keys: set<nat>): State {
    s.(history := Without(s.history, keys), live := Unlink(s.live, keys))
  }

  function PruneByAge(s: State, now: nat): State {
    Forget(s, StaleKeys(s.history, now))
  }

  function PruneOverflow(s: State): State {
    if |s.history| <= MAX_HISTORY then s
    else
      s.(history := s.history[..MAX_HISTORY],
         live := Unlink(s.live, Keys(s.history[MAX_HISTORY..])))
  }

  function Prune(s: State, now: nat): State {
    PruneOverflow(PruneByAge(s, now))
  }

  function Expired(history: seq<Record>, key: nat): (marked: seq<Record>)
    ensures |marked| == |history|
    ensures forall i :: 0 <= i < |history| ==>
      marked[i] == if history[i].key == key then history[i].(live := false) else history[i]
  {
    seq(|history|, i requires 0 <= i < |history| =>
      if history[i].key == key then history[i].(live := false) else history[i])
  }

  function MakeRecord(n: Notification, key: nat, admittedAt: nat): Record {
    Record(key, admittedAt, admittedAt + HISTORY_LIFETIME_MS, true, n.content)
  }

  function AdmitHistory(s: State, n: Notification, now: nat): (State, Option<nat>) {
    if n.transient then (s, None)
    else
      var (key, counter) := Allocate(s.historyKeys);
      var s0 := s.(historyKeys := counter);
      if key.None? then (s0, None)
      else
        var s1 := Prune(s0.(history := [MakeRecord(n, key.value, now)] + s0.history), now);
        (s1, if key.value in Keys(s1.history) then key else None)
  }

  // ---------------------------------------------------------------- scheduling

  /** The moments at which something has to happen by itself. */
  function DueTimes(live: map<nat, Association>, history: seq<Record>): set<int> {
    (set id | id in live && live[id].deadline >= 0 :: live[id].deadline)
    + (set r | r in history :: r.cutoff)
  }

  function FireTime(now: nat, earliest: int): nat {
    now + Min(Max(0, earliest - now), MAX_TIMER_MS)
  }

  ghost function TimerFor(live: map<nat, Association>, history: seq<Record>, now: nat): Option<Timer> {
    var times := DueTimes(live, history);
    if times == {} then None else Some(Timer(now, FireTime(now, Least(times))))
  }

  ghost function Arm(s: State, now: nat): State {
    s.(timer := TimerFor(s.live, s.history, now))
  }

  function ExpiryDelay(n: Notification): int {
    if n.content.urgency == Critical || n.expireTimeoutMs == 0 then -1
    else if n.expireTimeoutMs > 0 then n.expireTimeoutMs
    else if n.content.urgency == Low then 5000 else 10000
  }

  function Scheduled(a: Association, n: Notification, now: nat): Association {
    a.(deadline := if ExpiryDelay(n) < 0 then -1 else now + ExpiryDelay(n))
  }

  // ---------------------------------------------------------------- presentation

  function Digit(d: nat): char
    requires d < 10
  {
    ['0', '1', '2', '3', '4', '5', '6', '7', '8', '9'][d]
  }

  function Decimal(n: nat): (s: string)
    ensures s != []
  {
    if n < 10 then [Digit(n)] else Decimal(n / 10) + [Digit(n % 10)]
  }

  function SourceToken(sequence: nat): string {
    "notification-" + Decimal(sequence)
  }

  function Invalidated(a: Association): Association {
    if !a.presented then a
    else a.(presented := false, payload := a.payload.(appName := "", summary := ""))
  }

  function Presented(a: Association, n: Notification): Association {
    if a.revision == MAX_REVISION then Invalidated(a)
    else a.(payload := Payload(n.content.appName, n.content.summary, n.content.body, n.content.appIconName),
            revision := a.revision + 1, presented := true)
  }

  ghost predicate Matches(a: Association, token: string, tokenGeneration: int, revision: int) {
    a.presented && a.token == token && a.tokenGeneration == tokenGeneration && a.revision == revision
  }

  // ---------------------------------------------------------------- closing and expiring

  ghost predicate Owns(s: State, o: Object) {
    o.protocolId in s.live && s.live[o.protocolId].notification == o
  }

  /** The record of a closed notification stays, marked, only when it expired (reason 1). */
  ghost function Released(s: State, key: Option<nat>, reason: int): State {
    match key
    case None => s
    case Some(k) => if reason == 1 then s.(history := Expired(s.history, k)) else Forget(s, {k})
  }

  ghost function Erase(s: State, id: nat): State {
    s.(live := s.live - {id})
  }

  ghost function Close(s: State, o: Object, reason: int, now: nat): State {
    if !Owns(s, o) then s
    else Arm(Erase(Released(s, s.live[o.protocolId].recordKey, reason), o.protocolId), now)
  }

  /** Whether `expire` could be called at all. */
  function ExpireCalled(o: Object, w: World): bool {
    w.alive(o) && !w.expire(o).Refuses?
  }

  ghost function AfterExpire(s: State, o: Object, w: World): State {
    if ExpireCalled(o, w) && w.expire(o).Closes? then Close(s, o, w.expire(o).reason, w.now) else s
  }

  // ---------------------------------------------------------------- capacity

  function UrgencyClass(urgency: Urgency): nat {
    match urgency
    case Low => 1
    case Normal => 2
    case Critical => 3
  }

  function CapacityClass(a: Association, history: seq<Record>): nat {
    if a.transient || a.recordKey.None? || a.recordKey.value !in Keys(history) then 0
    else UrgencyClass(a.urgency)
  }

  /** `a` is expired before `b` under pressure. */
  predicate WeakerThan(a: Association, b: Association, history: seq<Record>) {
    var ca, cb := CapacityClass(a, history), CapacityClass(b, history);
    ca < cb || (ca == cb && a.sequence < b.sequence)
  }

  /** `victim` is the weakest of the newcomer (None) and all associations. */
  ghost predicate IsVictim(live: map<nat, Association>, history: seq<Record>, newcomer: Association,
                           victim: Option<nat>)
  {
    match victim
    case None =>
      forall id :: id in live ==> WeakerThan(newcomer, live[id], history)
    case Some(v) =>
      && v in live
      && WeakerThan(live[v], newcomer, history)
      && forall id :: id in live && id != v ==> WeakerThan(live[v], live[id], history)
  }

  ghost predicate SequencesDistinct(live: map<nat, Association>) {
    forall a, b :: a in live && b in live && live[a].sequence == live[b].sequence ==> a == b
  }

  lemma {:induction false} VictimExists(live: map<nat, Association>, history: seq<Record>, newcomer: Association)
    requires SequencesDistinct(live)
    requires forall id :: id in live ==> live[id].sequence != newcomer.sequence
    ensures exists v :: IsVictim(live, history, newcomer, v)
    decreases |live|
  {
    if live == map[] {
      assert IsVictim(live, history, newcomer, None);
    } else {
      var x :| x in live;
      var rest := live - {x};
      assert |rest| < |live| by { assert rest.Keys == live.Keys - {x}; }
      VictimExists(rest, history, newcomer);
      var v :| IsVictim(rest, history, newcomer, v);
      var best := if v.None? then newcomer else live[v.value];
      assert forall id :: id in live ==> id == x || (id in rest && rest[id] == live[id]);
      if WeakerThan(live[x], best, history) {
        assert IsVictim(live, history, newcomer, Some(x));
      } else {
        assert IsVictim(live, history, newcomer, v);
      }
    }
  }

  /** The outcome of a capacity decision is one value, whatever order the table is walked in. */
  lemma VictimUnique(live: map<nat, Association>, history: seq<Record>, newcomer: Association,
                     u: Option<nat>, v: Option<nat>)
    requires IsVictim(live, history, newcomer, u) && IsVictim(live, history, newcomer, v)
    ensures u == v
  {}

  ghost function Victim(live: map<nat, Association>, history: seq<Record>, newcomer: Association): (v: Option<nat>)
    ensures (exists u :: IsVictim(live, history, newcomer, u)) ==> IsVictim(live, history, newcomer, v)
  {
    if exists u :: IsVictim(live, history, newcomer, u)
    then var u :| IsVictim(live, history, newcomer, u); u
    else None
  }
}
