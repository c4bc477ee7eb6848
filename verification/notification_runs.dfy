/** What holds in every state of every run, whatever queued replacements did to records and links. */
module NotificationRuns {
  import opened Basics
  import opened NotificationModel
  import opened NotificationSteps
  import opened NotificationInvariant
  import opened NotificationSafety
  import opened NotificationTracking
  import opened NotificationReload
  import opened NotificationPresentation
  import opened NotificationAgeing
  import opened NotificationBounds

  /** While a generation is reconciled the links are right even if an earlier reload left them wrong. */
  ghost predicate Sound(s: State) {
    && Numbered(s) && Tracked(s) && Apart(s) && Bounded(s) && Historic(s)
    && (s.reconciling ==> Inv(s))
  }

  lemma SoundAssociations(s: State)
    requires Numbered(s) && Tracked(s) && Bounded(s)
    ensures AssociationsOk(s.live, s.liveKeys)
  {}

  /** A reload begins with nothing recorded and nothing linked. */
  lemma BeginRestores(s: State, now: nat)
    requires Numbered(s) && Tracked(s) && Apart(s) && Bounded(s)
    ensures Inv(BeginGeneration(s, now))
  {
    SoundAssociations(s);
    DetachedOk(s.live, s.liveKeys);
    assert LiveKeys([]) == {};
    hide LinkedKeys, LinksOk, AssociationsOk, Keyed, SequencesDistinct, OneHolder;
  }

  lemma AttachKeepsInv(s: State, o: Object, generation: nat, lastGeneration: bool, w: World)
    requires Inv(s)
    ensures Inv(Attach(s, o, generation, lastGeneration, w))
  {
    hide Core, AdmitFresh;
    Frame(s, s.(buffered := s.buffered + [Buffered(o, lastGeneration)]), {});
    AdmitFreshKeeps(s, o, w);
  }

  /** Only the end of a reload can get the links wrong. */
  lemma StepKeepsInv(s: State, e: Event, w: World)
    requires Inv(s) && !e.FinishEvent?
    ensures Inv(Step(s, e, w))
  {
    hide Core, BeginGeneration, Attach, Queue, RunQueued, Close, Dismiss, ClearHistory, LoseOwnership, ProcessDue;
    match e
    case BeginEvent => BeginGenerationKeeps(s, w.now);
    case AttachEvent(o, generation, lastGeneration) => AttachKeepsInv(s, o, generation, lastGeneration, w);
    case UpdateEvent(o) => QueueKeeps(s, o);
    case QueuedEvent(o) => RunQueuedKeeps(s, o, w);
    case CloseEvent(o, reason) => CloseSettled(s, o, reason, w.now);
    case DismissEvent(key) => DismissKeeps(s, key, w);
    case ClearEvent => ClearHistoryKeeps(s, w.now);
    case OwnershipLostEvent => LoseOwnershipKeeps(s, w.now);
    case DueEvent => ProcessDueKeeps(s, w);
  }

  lemma AttachReconciling(s: State, o: Object, generation: nat, lastGeneration: bool, w: World)
    ensures Attach(s, o, generation, lastGeneration, w).reconciling == s.reconciling
  {
    hide AdmitFresh, Arrives;
    AdmitFreshArrives(s, o, w);
    if o.protocolId == 0 || o.protocolId !in s.live {
      ArrivesReconciling(s, AdmitFresh(s, o, w));
    }
  }

  lemma ArrivesReconciling(s: State, t: State)
    requires Arrives(s, t)
    ensures t.reconciling == s.reconciling
  {}

  lemma StaysReconciling(s: State, t: State)
    requires Stays(s, t)
    ensures t.reconciling == s.reconciling
  {}

  /** Only beginning starts a reconciliation. */
  lemma StillReconciling(s: State, e: Event, w: World)
    requires Tracked(s) && !e.BeginEvent? && Step(s, e, w).reconciling
    ensures s.reconciling && (e.FinishEvent? ==> Step(s, e, w) == s)
  {
    hide Tracked, Stays, Attach, RunQueued, FinishGeneration, Close, Dismiss, ProcessDue, ClearHistory, LoseOwnership;
    if Keeping(e) {
      KeepingStays(s, e, w);
      StaysReconciling(s, Step(s, e, w));
    } else {
      match e
      case AttachEvent(o, generation, lastGeneration) => AttachReconciling(s, o, generation, lastGeneration, w);
      case FinishEvent(generation) => FinishStill(s, generation, w);
      case _ =>
    }
  }

  lemma FinishStill(s: State, generation: nat, w: World)
    requires Tracked(s) && FinishGeneration(s, generation, w).reconciling
    ensures s.reconciling && FinishGeneration(s, generation, w) == s
  {
    FinishTracked(s, generation, w);
    hide Tracked, Reconcile, AdmitAll, Arm;
  }

  lemma StepInv(s: State, e: Event, w: World)
    requires Sound(s) && Step(s, e, w).reconciling
    ensures Inv(Step(s, e, w))
  {
    hide Inv, Numbered, Tracked, Apart, Bounded, Historic, Step, BeginGeneration;
    if e.BeginEvent? {
      BeginRestores(s, w.now);
      StepBegin(s, w);
    } else {
      StillReconciling(s, e, w);
      if !e.FinishEvent? {
        StepKeepsInv(s, e, w);
      }
    }
  }

  lemma StepBegin(s: State, w: World)
    ensures Step(s, BeginEvent, w) == BeginGeneration(s, w.now)
  {}

  lemma MovesBounded(s: State, t: State)
    requires Bounded(s) && Moves(s, t)
    ensures Bounded(t)
  {
    hide Links;
  }

  lemma StepSound(s: State, e: Event, w: World)
    requires Sound(s)
    ensures Sound(Step(s, e, w))
  {
    if Step(s, e, w).reconciling {
      StepInv(s, e, w);
    }
    hide Inv, Numbered, Tracked, Apart, Bounded, Historic, Step, Carries, Moves, Derived;
    StepCarries(s, e, w);
    StepTracked(s, e, w);
    StepMoves(s, e, w);
    MovesApart(s, Step(s, e, w));
    MovesBounded(s, Step(s, e, w));
    StepDerived(s, e, w);
    DerivedHistoric(s, Step(s, e, w), w.now);
  }

  lemma {:induction false} RunSound(s: State, events: seq<(Event, World)>)
    requires Sound(s)
    ensures Sound(Run(s, events))
    decreases |events|
  {
    hide Sound, Step;
    if events != [] {
      StepSound(s, events[0].0, events[0].1);
      RunSound(Step(s, events[0].0, events[0].1), events[1..]);
    }
  }

  lemma InitialSound()
    ensures Sound(INITIAL)
  {
    InitialAged();
    hide Historic, Aged;
  }

  lemma EveryRunIsSound(events: seq<(Event, World)>)
    ensures Sound(Run(INITIAL, events))
  {
    hide Sound, Run;
    InitialSound();
    RunSound(INITIAL, events);
  }

  /** Whatever happens, at most 50 notifications are live, at most 50 recorded, and no key is held twice. */
  lemma EveryRunIsBounded(events: seq<(Event, World)>)
    ensures
      var s := Run(INITIAL, events);
      |s.live| <= MAX_LIVE && |s.history| <= MAX_HISTORY && OneHolder(s.live)
  {
    EveryRunIsSound(events);
    hide Run, Inv, Numbered, Tracked, Historic, OneHolder;
  }

  /** Whatever happened before, while a generation is reconciled live records and links are one to one. */
  lemma EveryReconciliationIsOneToOne(events: seq<(Event, World)>)
    requires Run(INITIAL, events).reconciling
    ensures OneToOne(Run(INITIAL, events)) && NoneSeen(Run(INITIAL, events).live)
  {
    EveryRunIsSound(events);
    hide Run, Inv, Numbered, Apart, Bounded, Historic, OneToOne, NoneSeen;
    InvIsOneToOne(Run(INITIAL, events));
  }
}
