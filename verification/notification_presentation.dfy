/** A presentation handed to the popup resolves to one payload and, once gone, never comes back. */
module NotificationPresentation {
  import opened Basics
  import opened NotificationModel
  import opened NotificationSteps
  import opened NotificationInvariant
  import opened NotificationSafety

  // ---------------------------------------------------------------- what a step may do to a presentation

  ghost predicate SamePresentation(a: Association, b: Association) {
    SameIdentity(a, b) && a.revision == b.revision && a.payload == b.payload && a.presented == b.presented
  }

  /** `a` is what became of `b`: revisions only grow, and nothing is shown again under an old one. */
  ghost predicate Follows(a: Association, b: Association) {
    && SameIdentity(a, b)
    && b.revision <= a.revision
    && (a.revision == b.revision && a.presented ==> b.presented && a.payload == b.payload)
  }

  /** The token names the admission sequence. */
  ghost predicate Tokened(a: Association) {
    a.token == SourceToken(a.sequence) && a.tokenGeneration == 1
  }

  /** Every association of `t` comes from `s` or is younger than everything `s` ever saw. */
  ghost predicate Carries(s: State, t: State) {
    && Limit(s.liveKeys) <= Limit(t.liveKeys)
    && forall id :: id in t.live ==>
         (t.live[id].sequence >= Limit(s.liveKeys) && Tokened(t.live[id]))
         || (id in s.live && Follows(t.live[id], s.live[id]))
  }

  /** Nothing new, nothing presented again. */
  ghost predicate Quiet(s: State, t: State) {
    && t.liveKeys == s.liveKeys
    && forall id :: id in t.live ==> id in s.live && SamePresentation(t.live[id], s.live[id])
  }

  /** Sequences are told apart and all come from the counter; no link is involved. */
  ghost predicate Numbered(s: State) {
    && CounterOk(s.liveKeys) && SequencesDistinct(s.live)
    && forall id :: id in s.live ==> s.live[id].sequence < Limit(s.liveKeys)
  }

  lemma QuietNumbered(s: State, t: State)
    requires Quiet(s, t) && Numbered(s)
    ensures Numbered(t)
  {}

  lemma CarriesTransitive(s: State, t: State, u: State)
    requires Carries(s, t) && Carries(t, u)
    ensures Carries(s, u)
  {}

  lemma QuietCarries(s: State, t: State)
    requires Quiet(s, t)
    ensures Carries(s, t)
  {}

  lemma QuietTransitive(s: State, t: State, u: State)
    requires Quiet(s, t) && Quiet(t, u)
    ensures Quiet(s, u)
  {}

  lemma PruneQuiet(s: State, now: nat)
    ensures Quiet(s, Prune(s, now))
  {
    PruneIsLocal(s, now);
  }

  lemma AdmitHistoryQuiet(s: State, n: Notification, now: nat)
    ensures Quiet(s, AdmitHistory(s, n, now).0)
  {
    hide Prune;
    var (key, counter) := Allocate(s.historyKeys);
    if key.Some? {
      var s1 := s.(historyKeys := counter, history := [MakeRecord(n, key.value, now)] + s.history);
      PruneQuiet(s1, now);
      QuietTransitive(s, s1, Prune(s1, now));
    }
  }

  lemma CloseQuiet(s: State, o: Object, reason: int, now: nat)
    ensures Quiet(s, Close(s, o, reason, now))
  {
    hide TimerFor, Without, Expired;
  }

  lemma AfterExpireQuiet(s: State, o: Object, w: World)
    ensures Quiet(s, AfterExpire(s, o, w))
  {
    hide Close;
    CloseQuiet(s, o, if w.expire(o).Closes? then w.expire(o).reason else 0, w.now);
  }

  lemma TurnAwayQuiet(s: State, o: Object, key: Option<nat>, w: World)
    ensures Quiet(s, TurnAway(s, o, key, w))
  {
    hide TimerFor, AfterExpire, Expired;
    var s1 := if key.Some? then s.(history := Expired(s.history, key.value)) else s;
    AfterExpireQuiet(s1, o, w);
  }

  lemma PresentedFollows(a: Association, n: Notification, now: nat)
    ensures Follows(Presented(Scheduled(a, n, now), n), a)
  {}

  lemma InstallCarries(s: State, newcomer: Association, n: Notification, now: nat, base: State)
    requires Quiet(base.(liveKeys := s.liveKeys), s)
    requires Limit(base.liveKeys) <= Limit(s.liveKeys) && newcomer.sequence >= Limit(base.liveKeys)
    requires Tokened(newcomer)
    ensures Carries(base, Install(s, newcomer, n, now))
  {
    hide TimerFor, SourceToken;
  }

  lemma InstallNumbered(s: State, newcomer: Association, n: Notification, now: nat)
    requires Numbered(s) && newcomer.sequence < Limit(s.liveKeys)
    requires forall id :: id in s.live ==> s.live[id].sequence < newcomer.sequence
    ensures Numbered(Install(s, newcomer, n, now))
  {
    hide TimerFor, SourceToken;
    PresentedFollows(newcomer, n, now);
    hide Presented, Scheduled;
  }

  lemma ContendNumbered(s: State, newcomer: Association, n: Notification, w: World)
    requires Numbered(s) && newcomer.sequence < Limit(s.liveKeys)
    requires forall id :: id in s.live ==> s.live[id].sequence < newcomer.sequence
    ensures Numbered(Contend(s, newcomer, n, w))
  {
    hide AfterExpire, TurnAway, Install, Victim, Limit, CounterOk, SequencesDistinct;
    var v := Victim(s.live, s.history, newcomer);
    TurnAwayQuiet(s, newcomer.notification, newcomer.recordKey, w);
    QuietNumbered(s, TurnAway(s, newcomer.notification, newcomer.recordKey, w));
    if v.Some? && v.value in s.live {
      var victim := s.live[v.value].notification;
      var s1 := AfterExpire(s, victim, w);
      AfterExpireQuiet(s, victim, w);
      QuietNumbered(s, s1);
      TurnAwayQuiet(s1, newcomer.notification, newcomer.recordKey, w);
      QuietNumbered(s1, TurnAway(s1, newcomer.notification, newcomer.recordKey, w));
      QuietYounger(s, s1, newcomer.sequence);
      InstallNumbered(s1, newcomer, n, w.now);
    }
  }

  lemma QuietYounger(s: State, t: State, sequence: nat)
    requires Quiet(s, t) && forall id :: id in s.live ==> s.live[id].sequence < sequence
    ensures forall id :: id in t.live ==> t.live[id].sequence < sequence
  {}

  lemma ContendCarries(s: State, newcomer: Association, n: Notification, w: World, base: State)
    requires Quiet(base.(liveKeys := s.liveKeys), s)
    requires Limit(base.liveKeys) <= Limit(s.liveKeys) && newcomer.sequence >= Limit(base.liveKeys)
    requires Tokened(newcomer)
    ensures Carries(base, Contend(s, newcomer, n, w))
  {
    hide AfterExpire, TurnAway, Install, Victim, Limit, SourceToken;
    var base1 := base.(liveKeys := s.liveKeys);
    var v := Victim(s.live, s.history, newcomer);
    TurnAwayQuiet(s, newcomer.notification, newcomer.recordKey, w);
    if v.Some? && v.value in s.live {
      var victim := s.live[v.value].notification;
      AfterExpireQuiet(s, victim, w);
      var s1 := AfterExpire(s, victim, w);
      TurnAwayQuiet(s1, newcomer.notification, newcomer.recordKey, w);
      InstallCarries(s1, newcomer, n, w.now, base);
    }
  }

  lemma AdmitFreshCarries(s: State, o: Object, w: World)
    ensures Carries(s, AdmitFresh(s, o, w))
    requires CounterOk(s.liveKeys)
  {
    hide AfterExpire, Contend, Install, AdmitHistory, Follows, SourceToken;
    AfterExpireQuiet(s, o, w);
    QuietCarries(s, AfterExpire(s, o, w));
    QueueQuiet(s, o);
    QuietCarries(s, Queue(s, o));
    QuietCarries(s, s);
    if o.protocolId != 0 && o.protocolId !in s.live && !s.liveKeys.exhausted {
      var n := w.read(o);
      var (sequence, counter) := Allocate(s.liveKeys);
      AdmitHistoryQuiet(s.(liveKeys := counter), n, w.now);
      var (s1, key) := AdmitHistory(s.(liveKeys := counter), n, w.now);
      ContendCarries(s1, Newcomer(o, n, key, sequence.value), n, w, s);
      InstallCarries(s1, Newcomer(o, n, key, sequence.value), n, w.now, s);
    }
  }

  lemma AllocateNumbered(s: State)
    requires Numbered(s) && !s.liveKeys.exhausted
    ensures
      var (sequence, counter) := Allocate(s.liveKeys);
      && Numbered(s.(liveKeys := counter)) && sequence.value < Limit(counter)
      && forall id :: id in s.live ==> s.live[id].sequence < sequence.value
  {}

  lemma AdmitFreshNumbered(s: State, o: Object, w: World)
    requires Numbered(s)
    ensures Numbered(AdmitFresh(s, o, w))
  {
    hide AfterExpire, Contend, Install, AdmitHistory, Numbered, SourceToken, Quiet;
    AfterExpireQuiet(s, o, w);
    QuietNumbered(s, AfterExpire(s, o, w));
    QueueQuiet(s, o);
    QuietNumbered(s, Queue(s, o));
    if o.protocolId != 0 && o.protocolId !in s.live && !s.liveKeys.exhausted {
      var n := w.read(o);
      AllocateNumbered(s);
      var (sequence, counter) := Allocate(s.liveKeys);
      var s0 := s.(liveKeys := counter);
      var (s1, key) := AdmitHistory(s0, n, w.now);
      AdmitHistoryQuiet(s0, n, w.now);
      QuietNumbered(s0, s1);
      QuietYounger(s0, s1, sequence.value);
      assert s1.liveKeys == counter by { QuietCounter(s0, s1); }
      ContendNumbered(s1, Newcomer(o, n, key, sequence.value), n, w);
      InstallNumbered(s1, Newcomer(o, n, key, sequence.value), n, w.now);
    }
  }

  lemma QuietCounter(s: State, t: State)
    requires Quiet(s, t)
    ensures t.liveKeys == s.liveKeys
  {}

  lemma QueueQuiet(s: State, o: Object)
    ensures Quiet(s, Queue(s, o))
  {}

  lemma RerecordQuiet(s: State, id: nat, oldKey: Option<nat>, n: Notification, now: nat)
    requires id in s.live
    ensures Quiet(s, Rerecord(s, id, oldKey, n, now))
  {
    hide AdmitHistory, Without, Rewritten;
    AdmitHistoryQuiet(s, n, now);
  }

  lemma ReplaceNumbered(s: State, o: Object, w: World)
    requires Numbered(s)
    ensures Numbered(Replace(s, o, w))
  {
    hide Prune, Rerecord, TimerFor, Numbered, Quiet, Presented, Scheduled;
    if Owns(s, o) {
      var id, n := o.protocolId, w.read(o);
      PruneQuiet(s, w.now);
      var s1 := Prune(s, w.now);
      QuietNumbered(s, s1);
      if id in s1.live {
        RerecordQuiet(s1, id, s.live[id].recordKey, n, w.now);
        var s2 := Rerecord(s1, id, s.live[id].recordKey, n, w.now);
        QuietNumbered(s1, s2);
        if id in s2.live {
          var a := s2.live[id].(transient := n.transient, urgency := n.content.urgency);
          PresentedFollows(a, n, w.now);
          TouchNumbered(s2, id, Presented(Scheduled(a, n, w.now), n));
          ArmNumbered(s2.(live := s2.live[id := Presented(Scheduled(a, n, w.now), n)]), w.now);
        }
      }
    }
  }

  lemma TouchNumbered(s: State, id: nat, a: Association)
    requires Numbered(s) && id in s.live && a.sequence == s.live[id].sequence
    ensures Numbered(s.(live := s.live[id := a]))
  {}

  lemma ArmNumbered(s: State, now: nat)
    requires Numbered(s)
    ensures Numbered(Arm(s, now))
  {}

  lemma ReplaceCarries(s: State, o: Object, w: World)
    ensures Carries(s, Replace(s, o, w))
  {
    hide Prune, Rerecord, TimerFor;
    if Owns(s, o) {
      var id, n := o.protocolId, w.read(o);
      PruneQuiet(s, w.now);
      var s1 := Prune(s, w.now);
      if id in s1.live {
        RerecordQuiet(s1, id, s.live[id].recordKey, n, w.now);
      }
    }
  }

  lemma RunQueuedCarries(s: State, o: Object, w: World)
    ensures Carries(s, RunQueued(s, o, w))
  {
    hide Replace;
    if o.protocolId in s.live {
      var s1 := s.(live := s.live[o.protocolId := s.live[o.protocolId].(updateQueued := false)]);
      ReplaceCarries(s1, o, w);
      QuietCarries(s, s1);
      CarriesTransitive(s, s1, Replace(s1, o, w));
    }
  }

  lemma RunQueuedNumbered(s: State, o: Object, w: World)
    requires Numbered(s)
    ensures Numbered(RunQueued(s, o, w))
  {
    hide Replace, Numbered;
    if o.protocolId in s.live {
      TouchNumbered(s, o.protocolId, s.live[o.protocolId].(updateQueued := false));
      ReplaceNumbered(s.(live := s.live[o.protocolId := s.live[o.protocolId].(updateQueued := false)]), o, w);
    }
  }

  lemma RecogniseQuiet(s: State, o: Object, w: World)
    ensures Quiet(s, Recognise(s, o, w))
  {
    hide AfterExpire, AdmitHistory;
    AfterExpireQuiet(s, o, w);
    if Owns(s, o) {
      var id, n := o.protocolId, w.read(o);
      var a := s.live[id].(seen := true, transient := n.transient, urgency := n.content.urgency);
      var s1 := s.(live := s.live[id := a]);
      AdmitHistoryQuiet(s1, n, w.now);
    }
  }

  lemma {:induction false} RecogniseAllQuiet(s: State, objects: seq<Object>, w: World)
    ensures Quiet(s, RecogniseAll(s, objects, w))
    decreases |objects|
  {
    hide Recognise;
    if objects != [] {
      var last := |objects| - 1;
      RecogniseQuiet(s, objects[last], w);
      RecogniseAllQuiet(Recognise(s, objects[last], w), objects[..last], w);
    }
  }

  lemma {:induction false} AdmitAllCarries(s: State, objects: seq<Object>, w: World)
    requires Numbered(s)
    ensures Carries(s, AdmitAll(s, objects, w)) && Numbered(AdmitAll(s, objects, w))
    decreases |objects|
  {
    hide AdmitFresh, Carries, Numbered;
    QuietCarries(s, s);
    if objects != [] {
      assert CounterOk(s.liveKeys) by { LiveCounterOk(s); }
      AdmitFreshNumbered(s, objects[0], w);
      AdmitFreshCarries(s, objects[0], w);
      AdmitAllCarries(AdmitFresh(s, objects[0], w), objects[1..], w);
      CarriesTransitive(s, AdmitFresh(s, objects[0], w), AdmitAll(s, objects, w));
    }
  }

  lemma LiveCounterOk(s: State)
    requires Numbered(s)
    ensures CounterOk(s.liveKeys)
  {}

  lemma FinishCarries(s: State, generation: nat, w: World)
    requires Numbered(s)
    ensures Carries(s, FinishGeneration(s, generation, w)) && Numbered(FinishGeneration(s, generation, w))
  {
    hide Numbered, Carries, AdmitAll, RecogniseAll, TimerFor;
    QuietCarries(s, s);
    if s.reconciling && generation == s.generation {
      var s1 := Reconcile(s, w);
      assert Quiet(s, s1) by {
        RecogniseAllQuiet(s.(buffered := []), SortDescending(FirstPerId(s.buffered, true, {}, w)), w);
      }
      QuietNumbered(s, s1);
      QuietCarries(s, s1);
      var objects := FirstPerId(s.buffered, false, {}, w);
      AdmitAllCarries(s1, objects, w);
      var s2 := AdmitAll(s1, objects, w);
      ArmNumbered(s2, w.now);
      QuietCarries(s2, Arm(s2, w.now));
      CarriesTransitive(s, s1, s2);
      CarriesTransitive(s, s2, Arm(s2, w.now));
    }
  }

  lemma RemovalQuiet(s: State, e: Event, w: World)
    requires e.BeginEvent? || e.DismissEvent? || e.ClearEvent? || e.OwnershipLostEvent? || e.DueEvent?
    ensures Quiet(s, Step(s, e, w))
  {
    hide TimerFor, Without, ExpiredAll, Prune, Close, LinkedKeys, KeysEnding, Keys;
    match e
    case DismissEvent(key) =>
      match Addressee(s, key, w) {
        case Some(id) =>
          var o := s.live[id].notification;
          CloseQuiet(s, o, if w.dismiss(o).Closes? then w.dismiss(o).reason else 0, w.now);
        case None =>
      }
    case DueEvent =>
      PruneQuiet(EndAll(s, DueIds(s, w.now), w), w.now);
    case _ =>
  }

  /** Every step, whatever the links are like. */
  lemma StepCarries(s: State, e: Event, w: World)
    requires Numbered(s)
    ensures Carries(s, Step(s, e, w)) && Numbered(Step(s, e, w))
  {
    hide Numbered, Carries, BeginGeneration, AdmitFresh, Queue, RunQueued, Close, FinishGeneration, Dismiss,
      ClearHistory, LoseOwnership, ProcessDue, CounterOk, Quiet;
    match e
    case AttachEvent(o, generation, lastGeneration) =>
      LiveCounterOk(s);
      AdmitFreshCarries(s, o, w);
      AdmitFreshNumbered(s, o, w);
      BufferCarries(s, s.(buffered := s.buffered + [Buffered(o, lastGeneration)]));
      BufferCarries(s, s);
    case UpdateEvent(o) =>
      QueueQuiet(s, o);
      QuietCarries(s, Queue(s, o));
      QuietNumbered(s, Queue(s, o));
      BufferCarries(s, s);
    case QueuedEvent(o) =>
      RunQueuedCarries(s, o, w);
      RunQueuedNumbered(s, o, w);
    case CloseEvent(o, reason) =>
      CloseQuiet(s, o, reason, w.now);
      QuietCarries(s, Close(s, o, reason, w.now));
      QuietNumbered(s, Close(s, o, reason, w.now));
    case FinishEvent(generation) => FinishCarries(s, generation, w);
    case _ =>
      RemovalQuiet(s, e, w);
      QuietCarries(s, Step(s, e, w));
      QuietNumbered(s, Step(s, e, w));
  }

  lemma BufferCarries(s: State, t: State)
    requires t == s.(buffered := t.buffered)
    ensures Carries(s, t) && (Numbered(s) ==> Numbered(t))
  {}

  lemma {:induction false} RunCarries(s: State, events: seq<(Event, World)>)
    requires Numbered(s)
    ensures Carries(s, Run(s, events)) && Numbered(Run(s, events))
    decreases |events|
  {
    hide Numbered, Step, Carries;
    BufferCarries(s, s);
    if events != [] {
      var s1 := Step(s, events[0].0, events[0].1);
      StepCarries(s, events[0].0, events[0].1);
      RunCarries(s1, events[1..]);
      CarriesTransitive(s, s1, Run(s, events));
    }
  }

  // ---------------------------------------------------------------- tokens

  lemma {:induction false} DecimalInjective(a: nat, b: nat)
    requires Decimal(a) == Decimal(b)
    ensures a == b
  {
    var x, y := Decimal(a), Decimal(b);
    assert x[|x| - 1] == Digit(a % 10) && y[|y| - 1] == Digit(b % 10);
    assert a >= 10 ==> x[..|x| - 1] == Decimal(a / 10);
    assert b >= 10 ==> y[..|y| - 1] == Decimal(b / 10);
    if a >= 10 && b >= 10 {
      DecimalInjective(a / 10, b / 10);
    }
  }

  lemma SourceTokenInjective(a: nat, b: nat)
    requires SourceToken(a) == SourceToken(b)
    ensures a == b
  {
    var prefix := "notification-";
    assert SourceToken(a)[|prefix|..] == Decimal(a) && SourceToken(b)[|prefix|..] == Decimal(b);
    DecimalInjective(a, b);
  }

  ghost predicate TokensOk(s: State) {
    forall id :: id in s.live ==> Tokened(s.live[id])
  }

  lemma CarriesTokens(s: State, t: State)
    requires TokensOk(s) && Carries(s, t)
    ensures TokensOk(t)
  {
    hide SourceToken;
  }

  // ---------------------------------------------------------------- resolution

  /** The association a presentation request resolves to, if any. */
  ghost predicate ResolvesTo(s: State, token: string, tokenGeneration: int, revision: int, id: nat) {
    && token != "" && tokenGeneration > 0 && revision > 0
    && id in s.live && Matches(s.live[id], token, tokenGeneration, revision)
  }

  ghost predicate Resolves(s: State, token: string, tokenGeneration: int, revision: int) {
    exists id :: ResolvesTo(s, token, tokenGeneration, revision, id)
  }

  /** A request names at most one association, whatever order the table is walked in. */
  lemma ResolvesToOne(s: State, token: string, tokenGeneration: int, revision: int, a: nat, b: nat)
    requires Numbered(s) && TokensOk(s)
    requires ResolvesTo(s, token, tokenGeneration, revision, a)
    requires ResolvesTo(s, token, tokenGeneration, revision, b)
    ensures a == b
  {
    hide SourceToken;
    SourceTokenInjective(s.live[a].sequence, s.live[b].sequence);
    DistinctSequences(s, a, b);
  }

  lemma DistinctSequences(s: State, a: nat, b: nat)
    requires Numbered(s) && a in s.live && b in s.live && s.live[a].sequence == s.live[b].sequence
    ensures a == b
  {}

  lemma SequenceBelowLimit(s: State, id: nat)
    requires Numbered(s) && id in s.live
    ensures s.live[id].sequence < Limit(s.liveKeys)
  {}

  /** What resolves before and after also resolved in between, to the same association and payload. */
  lemma ResolvesThroughout(s: State, t: State, u: State, token: string, tokenGeneration: int, revision: int,
                           a: nat, b: nat)
    requires Numbered(s) && TokensOk(s) && Carries(s, t) && Carries(t, u)
    requires ResolvesTo(s, token, tokenGeneration, revision, a)
    requires ResolvesTo(u, token, tokenGeneration, revision, b)
    ensures a == b && ResolvesTo(t, token, tokenGeneration, revision, a)
    ensures s.live[a].payload == t.live[a].payload == u.live[a].payload
  {
    hide SourceToken, Numbered;
    SequenceBelowLimit(s, a);
    CarriesTokens(s, t);
    CarriesTokens(t, u);
    SourceTokenInjective(s.live[a].sequence, u.live[b].sequence);
    assert b in t.live && Follows(u.live[b], t.live[b]);
    assert b in s.live && Follows(t.live[b], s.live[b]);
    DistinctSequences(s, a, b);
  }

  lemma ResolvesMeanwhile(s: State, t: State, u: State, token: string, tokenGeneration: int, revision: int)
    requires Numbered(s) && TokensOk(s) && Carries(s, t) && Carries(t, u)
    requires Resolves(s, token, tokenGeneration, revision) && Resolves(u, token, tokenGeneration, revision)
    ensures Resolves(t, token, tokenGeneration, revision)
  {
    hide Numbered, TokensOk, Carries, ResolvesTo;
    var a :| ResolvesTo(s, token, tokenGeneration, revision, a);
    var b :| ResolvesTo(u, token, tokenGeneration, revision, b);
    ResolvesThroughout(s, t, u, token, tokenGeneration, revision, a, b);
  }

  lemma {:induction false} RunTokens(s: State, events: seq<(Event, World)>)
    requires Numbered(s) && TokensOk(s)
    ensures TokensOk(Run(s, events))
  {
    hide Numbered, Carries, TokensOk, Run;
    RunCarries(s, events);
    CarriesTokens(s, Run(s, events));
  }

  /** A presentation that stops resolving never resolves again, in any continuation. */
  lemma NeverResolvesAgain(before: seq<(Event, World)>, between: seq<(Event, World)>, after: seq<(Event, World)>,
                           token: string, tokenGeneration: int, revision: int)
    requires Resolves(Run(INITIAL, before), token, tokenGeneration, revision)
    requires !Resolves(Run(Run(INITIAL, before), between), token, tokenGeneration, revision)
    ensures !Resolves(Run(Run(Run(INITIAL, before), between), after), token, tokenGeneration, revision)
  {
    hide Numbered, Run, Carries, TokensOk, Resolves;
    InitialTokens();
    var s := Run(INITIAL, before);
    RunCarries(INITIAL, before);
    RunTokens(INITIAL, before);
    RunCarries(s, between);
    var t := Run(s, between);
    RunCarries(t, after);
    var u := Run(t, after);
    if Resolves(u, token, tokenGeneration, revision) {
      ResolvesMeanwhile(s, t, u, token, tokenGeneration, revision);
    }
  }

  lemma InitialTokens()
    ensures TokensOk(INITIAL) && Numbered(INITIAL)
  {}

  /** As long as it resolves, a presentation keeps the payload it was issued with. */
  lemma PayloadNeverChanges(before: seq<(Event, World)>, after: seq<(Event, World)>,
                            token: string, tokenGeneration: int, revision: int, a: nat, b: nat)
    requires ResolvesTo(Run(INITIAL, before), token, tokenGeneration, revision, a)
    requires ResolvesTo(Run(Run(INITIAL, before), after), token, tokenGeneration, revision, b)
    ensures a == b && Run(INITIAL, before).live[a].payload == Run(Run(INITIAL, before), after).live[a].payload
  {
    hide Numbered, Run, Carries, TokensOk;
    InitialTokens();
    var s := Run(INITIAL, before);
    RunCarries(INITIAL, before);
    RunTokens(INITIAL, before);
    RunCarries(s, after);
    BufferCarries(s, s);
    ResolvesThroughout(s, s, Run(s, after), token, tokenGeneration, revision, a, b);
  }
}
