/**
 The lifecycle shell of the automation service: the readiness gate that lets the business in once, and a shutdown
 whose steps all run. Every continuation after an `await` is a separate event; an event that cannot happen in a
 state leaves it unchanged, so a run is any sequence of events.
 */
module ServiceLifecycle {

  /** The shared start promise: absent, pending, or settled with its clean-up still to run. */
  datatype Start = Idle | Pending | Settled

  datatype Shutdown = Open | WaitingForStart | Stopping | Disposing | ClosingRoot | Closed

  datatype Boot = RootStarting | FirstStart | Up | Failed

  /** What a failing step throws; a program may throw `undefined`. */
  datatype Thrown = Undefined | Error(message: string)

  datatype Outcome = Fine | Throws(thrown: Thrown)

  datatype Act =
    | StartCalled
    | StartOk
    | StartFailed
    | CloseBegan
    | StopCalled
    | DisposeCalled
    | RootCloseCalled
    | StepFailed(thrown: Thrown)
    | CloseResolved
    | CloseRejected(thrown: Thrown)
    | Exited(code: nat)

  datatype Service = Service(
    boot: Boot,
    businessStart: Start,
    started: bool,
    watchArmed: bool,
    signalsAttached: bool,
    closing: bool,
    shutdown: Shutdown,
    firstError: Thrown,
    exitOnClose: bool,
    log: seq<Act>)

  function Created(listensToSignals: bool): Service {
    Service(RootStarting, Idle, false, false, listensToSignals, false, Open, Undefined, false, [])
  }

  datatype Event =
    | RootStarted(ready: bool)
    | RootFailed
    | BootContinues
    | Tick(ready: bool)
    | StartSettles(ok: bool)
    | StartCleansUp
    | Signal
    | CloseRequested
    | CloseContinues
    | StopSettles(outcome: Outcome)
    | DisposeSettles(outcome: Outcome)
    | RootCloseSettles(outcome: Outcome)

  function Logged(s: Service, a: Act): Service {
    s.(log := s.log + [a])
  }

  function StartIfReady(s: Service, ready: bool): Service {
    if s.closing || s.started || !ready || s.businessStart != Idle then s
    else Logged(s.(businessStart := Pending), StartCalled)
  }

  function ArmWatch(s: Service): Service {
    if s.closing || s.started || s.watchArmed then s else s.(watchArmed := true)
  }

  /** The shutdown once no start is in flight. */
  function ShutDown(s: Service): Service {
    if s.started then Logged(s.(shutdown := Stopping), StopCalled)
    else Logged(s.(shutdown := Disposing), DisposeCalled)
  }

  function StopBegun(s: Service): Service {
    if s.closing then s
    else
      var s := Logged(s.(closing := true, signalsAttached := false, watchArmed := false), CloseBegan);
      if s.businessStart != Idle then s.(shutdown := WaitingForStart) else ShutDown(s)
  }

  /** A shutdown step has ended: remember its error when it is the first. */
  function Noted(s: Service, o: Outcome): Service {
    match o
    case Fine => s
    case Throws(e) => Logged(s.(firstError := if s.firstError == Undefined then e else s.firstError), StepFailed(e))
  }

  function Finished(s: Service): Service {
    var result := if s.firstError == Undefined then CloseResolved else CloseRejected(s.firstError);
    var s := Logged(s.(shutdown := Closed), result);
    if s.exitOnClose then Logged(s, Exited(if s.firstError == Undefined then 0 else 1)) else s
  }

  function Step(s: Service, e: Event): Service {
    match e
    case RootStarted(ready) =>
      if s.boot != RootStarting then s else StartIfReady(s, ready).(boot := FirstStart)
    case RootFailed =>
      if s.boot != RootStarting then s else StopBegun(s).(boot := Failed)
    case BootContinues =>
      if s.boot != FirstStart || s.businessStart != Idle then s else ArmWatch(s).(boot := Up)
    case Tick(ready) =>
      if !s.watchArmed then s else StartIfReady(s, ready)
    case StartSettles(ok) =>
      if s.businessStart != Pending then s
      else if ok then Logged(s.(businessStart := Settled, started := true, watchArmed := false), StartOk)
      else Logged(s.(businessStart := Settled), StartFailed)
    case StartCleansUp =>
      if s.businessStart != Settled then s else s.(businessStart := Idle)
    case Signal =>
      if !s.signalsAttached then s else StopBegun(s).(exitOnClose := true)
    case CloseRequested =>
      if s.boot != Up then s else StopBegun(s)
    case CloseContinues =>
      if s.shutdown != WaitingForStart || s.businessStart != Idle then s else ShutDown(s)
    case StopSettles(o) =>
      if s.shutdown != Stopping then s
      else Logged(Noted(s.(started := s.started && o != Fine), o).(shutdown := Disposing), DisposeCalled)
    case DisposeSettles(o) =>
      if s.shutdown != Disposing then s
      else Logged(Noted(s, o).(shutdown := ClosingRoot), RootCloseCalled)
    case RootCloseSettles(o) =>
      if s.shutdown != ClosingRoot then s else Finished(Noted(s, o))
  }

  function Run(s: Service, es: seq<Event>): Service {
    if es == [] then s else Step(Run(s, es[..|es| - 1]), es[|es| - 1])
  }

  // ---------- what a log says, independently of the service ----------

  /** The acts of shutting down, in order. */
  function ShutdownActs(log: seq<Act>): seq<Act> {
    if log == [] then []
    else
      var last := log[|log| - 1];
      ShutdownActs(log[..|log| - 1])
      + if last.CloseBegan? || last.StopCalled? || last.DisposeCalled? || last.RootCloseCalled? || last.CloseResolved?
           || last.CloseRejected?
        then [last] else []
  }

  function Count(log: seq<Act>, a: Act): nat {
    if log == [] then 0 else Count(log[..|log| - 1], a) + if log[|log| - 1] == a then 1 else 0
  }

  /** The first error other than `undefined` that a step threw. */
  function FirstError(log: seq<Act>): Thrown {
    if log == [] then Undefined
    else
      var earlier := FirstError(log[..|log| - 1]);
      if earlier == Undefined && log[|log| - 1].StepFailed? then log[|log| - 1].thrown else earlier
  }

  function Exits(log: seq<Act>): seq<nat> {
    if log == [] then []
    else Exits(log[..|log| - 1]) + if log[|log| - 1].Exited? then [log[|log| - 1].code] else []
  }

  /** A start may begin after this log: none is under way, none has succeeded, and closing has not begun. */
  predicate MayStart(log: seq<Act>) {
    Count(log, CloseBegan) == 0 && Count(log, StartOk) == 0 && Count(log, StartCalled) == Count(log, StartFailed)
  }

  predicate StartsAreLegal(log: seq<Act>) {
    forall j :: 0 <= j < |log| && log[j].StartCalled? ==> MayStart(log[..j])
  }

  lemma Appended(log: seq<Act>, a: Act)
    ensures ShutdownActs(log + [a])
            == ShutdownActs(log)
               + if a.CloseBegan? || a.StopCalled? || a.DisposeCalled? || a.RootCloseCalled? || a.CloseResolved? || a.CloseRejected?
                 then [a] else []
    ensures forall b :: Count(log + [a], b) == Count(log, b) + if a == b then 1 else 0
    ensures FirstError(log + [a])
            == if FirstError(log) == Undefined && a.StepFailed? then a.thrown else FirstError(log)
    ensures Exits(log + [a]) == Exits(log) + if a.Exited? then [a.code] else []
    ensures StartsAreLegal(log) && (a.StartCalled? ==> MayStart(log)) ==> StartsAreLegal(log + [a])
  {
    assert (log + [a])[..|log|] == log;
    assert forall j :: 0 <= j < |log| ==> (log + [a])[..j] == log[..j];
  }

  // ---------- the invariant ----------

  /** The shutdown acts a service in this state must have performed, `succeeded` telling whether a start ever did. */
  function Expected(s: Service, succeeded: bool): seq<Act> {
    var stop := if succeeded then [StopCalled] else [];
    match s.shutdown
    case Open => []
    case WaitingForStart => [CloseBegan]
    case Stopping => [CloseBegan, StopCalled]
    case Disposing => [CloseBegan] + stop + [DisposeCalled]
    case ClosingRoot => [CloseBegan] + stop + [DisposeCalled, RootCloseCalled]
    case Closed => [CloseBegan] + stop + [DisposeCalled, RootCloseCalled, Result(s)]
  }

  function Result(s: Service): Act {
    if s.firstError == Undefined then CloseResolved else CloseRejected(s.firstError)
  }

  predicate Inv(s: Service) {
    var succeeded := Count(s.log, StartOk);
    && (s.closing <==> s.shutdown != Open)
    && (s.signalsAttached ==> !s.closing)
    && (s.exitOnClose ==> s.closing)
    && (s.watchArmed ==> s.boot == Up && !s.closing && !s.started)
    && (s.boot == RootStarting ==> s.businessStart == Idle && succeeded == 0)
    && (s.boot == Up && !s.closing && !s.started ==> s.watchArmed)
    && (s.boot == Failed ==> s.closing)
    && succeeded <= 1
    && (s.started ==> succeeded == 1)
    && (succeeded == 1 ==> s.businessStart != Pending && (s.started || s.shutdown in {Disposing, ClosingRoot, Closed}))
    && (s.shutdown == Stopping ==> s.started)
    && (s.shutdown in {Stopping, Disposing, ClosingRoot, Closed} ==> s.businessStart == Idle)
    && Count(s.log, StartCalled)
       == Count(s.log, StartFailed) + succeeded + (if s.businessStart == Pending then 1 else 0)
    && Count(s.log, CloseBegan) == (if s.closing then 1 else 0)
    && StartsAreLegal(s.log)
    && ShutdownActs(s.log) == Expected(s, succeeded == 1)
    && s.firstError == FirstError(s.log)
    && Exits(s.log) == (if s.shutdown == Closed && s.exitOnClose then [if s.firstError == Undefined then 0 else 1] else [])
  }

  lemma LoggedFacts(s: Service, a: Act)
    ensures var t := Logged(s, a);
            && ShutdownActs(t.log)
               == ShutdownActs(s.log)
                  + (if a.CloseBegan? || a.StopCalled? || a.DisposeCalled? || a.RootCloseCalled? || a.CloseResolved?
                        || a.CloseRejected? then [a] else [])
            && (forall b :: Count(t.log, b) == Count(s.log, b) + if a == b then 1 else 0)
            && FirstError(t.log) == (if FirstError(s.log) == Undefined && a.StepFailed? then a.thrown else FirstError(s.log))
            && Exits(t.log) == Exits(s.log) + (if a.Exited? then [a.code] else [])
            && (StartsAreLegal(s.log) && (a.StartCalled? ==> MayStart(s.log)) ==> StartsAreLegal(t.log))
  {
    Appended(s.log, a);
  }

  lemma StartIfReadyKeepsInv(s: Service, ready: bool, boot: Boot)
    requires Inv(s)
    requires (s.boot == RootStarting && boot == FirstStart) || (s.boot == boot == Up)
    ensures Inv(StartIfReady(s, ready).(boot := boot))
  {
    hide Count, ShutdownActs, FirstError, Exits, StartsAreLegal;
    LoggedFacts(s.(businessStart := Pending), StartCalled);
  }

  lemma ShutDownKeepsInv(s: Service)
    requires s.shutdown == WaitingForStart && s.businessStart == Idle && Inv(s)
    ensures Inv(ShutDown(s))
  {
    hide Count, ShutdownActs, FirstError, Exits, StartsAreLegal;
    LoggedFacts(s.(shutdown := Stopping), StopCalled);
    LoggedFacts(s.(shutdown := Disposing), DisposeCalled);
  }

  /** The shutdown has begun; whether it waits for a start is still open. */
  function CloseMarked(s: Service, boot: Boot, exitOnClose: bool): Service {
    Logged(s.(closing := true, signalsAttached := false, watchArmed := false), CloseBegan)
      .(shutdown := WaitingForStart, boot := boot, exitOnClose := exitOnClose)
  }

  lemma CloseMarkedKeepsInv(s: Service, boot: Boot, exitOnClose: bool)
    requires Inv(s) && !s.closing && (boot == s.boot || (s.boot == RootStarting && boot == Failed))
    ensures Inv(CloseMarked(s, boot, exitOnClose))
  {
    hide Count, ShutdownActs, FirstError, Exits, StartsAreLegal;
    LoggedFacts(s.(closing := true, signalsAttached := false, watchArmed := false), CloseBegan);
  }

  lemma StopServiceKeepsInv(s: Service, boot: Boot, exitOnClose: bool)
    requires Inv(s) && (boot == s.boot || (s.boot == RootStarting && boot == Failed))
    requires exitOnClose == s.exitOnClose || !s.closing
    ensures Inv(StopBegun(s).(boot := boot, exitOnClose := exitOnClose))
  {
    hide Inv, Logged;
    if s.closing {
      BootFailsKeepsInv(s, boot);
    } else {
      CloseMarkedKeepsInv(s, boot, exitOnClose);
      if s.businessStart == Idle {
        StaysIdle(s, boot, exitOnClose);
        ShutDownKeepsInv(CloseMarked(s, boot, exitOnClose));
      }
      StopIsMarked(s, boot, exitOnClose);
      hide StopBegun, CloseMarked, ShutDown;
    }
  }

  lemma BootFailsKeepsInv(s: Service, boot: Boot)
    requires Inv(s) && s.closing && (boot == s.boot || (s.boot == RootStarting && boot == Failed))
    ensures Inv(s.(boot := boot))
  {
    hide Count, ShutdownActs, FirstError, Exits, StartsAreLegal;
  }

  lemma StaysIdle(s: Service, boot: Boot, exitOnClose: bool)
    ensures CloseMarked(s, boot, exitOnClose).shutdown == WaitingForStart
    ensures CloseMarked(s, boot, exitOnClose).businessStart == s.businessStart
  {
  }

  lemma StopIsMarked(s: Service, boot: Boot, exitOnClose: bool)
    requires !s.closing
    ensures StopBegun(s).(boot := boot, exitOnClose := exitOnClose)
            == if s.businessStart == Idle then ShutDown(CloseMarked(s, boot, exitOnClose)) else CloseMarked(s, boot, exitOnClose)
  {
  }

  lemma NotedFacts(s: Service, o: Outcome)
    requires s.firstError == FirstError(s.log)
    ensures var t := Noted(s, o);
            && t == s.(firstError := t.firstError, log := t.log)
            && ShutdownActs(t.log) == ShutdownActs(s.log)
            && Count(t.log, StartOk) == Count(s.log, StartOk)
            && Count(t.log, StartCalled) == Count(s.log, StartCalled)
            && Count(t.log, StartFailed) == Count(s.log, StartFailed)
            && Count(t.log, CloseBegan) == Count(s.log, CloseBegan)
            && t.firstError == FirstError(t.log)
            && Exits(t.log) == Exits(s.log)
            && (StartsAreLegal(s.log) ==> StartsAreLegal(t.log))
  {
    hide Count, ShutdownActs, FirstError, Exits, StartsAreLegal;
    if o.Throws? {
      LoggedFacts(s, StepFailed(o.thrown));
    }
  }

  lemma ShutdownStepKeepsInv(s: Service, e: Event)
    requires Inv(s) && (e.StopSettles? || e.DisposeSettles? || e.RootCloseSettles?)
    ensures Inv(Step(s, e))
  {
    hide Count, ShutdownActs, FirstError, Exits, StartsAreLegal, Noted, Finished;
    match e
    case StopSettles(o) =>
      if s.shutdown == Stopping {
        var t := s.(started := s.started && o != Fine);
        NotedFacts(t, o);
        LoggedFacts(Noted(t, o).(shutdown := Disposing), DisposeCalled);
      }
    case DisposeSettles(o) =>
      if s.shutdown == Disposing {
        NotedFacts(s, o);
        LoggedFacts(Noted(s, o).(shutdown := ClosingRoot), RootCloseCalled);
      }
    case RootCloseSettles(o) =>
      if s.shutdown == ClosingRoot {
        NotedFacts(s, o);
        FinishKeepsInv(Noted(s, o));
      }
  }

  lemma FinishKeepsInv(s: Service)
    requires s.shutdown == ClosingRoot && Inv(s)
    ensures Inv(Finished(s))
  {
    hide Count, ShutdownActs, FirstError, Exits, StartsAreLegal;
    var t := s.(shutdown := Closed);
    LoggedFacts(t, Result(s));
    LoggedFacts(Logged(t, Result(s)), Exited(if s.firstError == Undefined then 0 else 1));
  }

  lemma StartSettlesKeepsInv(s: Service, ok: bool)
    requires Inv(s) && s.businessStart == Pending
    ensures Inv(Step(s, StartSettles(ok)))
  {
    hide Count, ShutdownActs, FirstError, Exits, StartsAreLegal;
    if ok {
      LoggedFacts(s.(businessStart := Settled, started := true, watchArmed := false), StartOk);
    } else {
      LoggedFacts(s.(businessStart := Settled), StartFailed);
    }
  }

  lemma StepKeepsInv(s: Service, e: Event)
    requires Inv(s)
    ensures Inv(Step(s, e))
  {
    hide Count, ShutdownActs, FirstError, Exits, StartsAreLegal;
    match e
    case RootStarted(ready) =>
      if s.boot == RootStarting { StartIfReadyKeepsInv(s, ready, FirstStart); }
    case RootFailed =>
      if s.boot == RootStarting { StopServiceKeepsInv(s, Failed, s.exitOnClose); }
    case BootContinues =>
    case Tick(ready) =>
      if s.watchArmed { StartIfReadyKeepsInv(s, ready, Up); }
    case StartSettles(ok) =>
      if s.businessStart == Pending { StartSettlesKeepsInv(s, ok); }
    case StartCleansUp =>
    case Signal =>
      if s.signalsAttached { StopServiceKeepsInv(s, s.boot, true); }
    case CloseRequested =>
      if s.boot == Up { StopServiceKeepsInv(s, Up, s.exitOnClose); }
    case CloseContinues =>
      if s.shutdown == WaitingForStart && s.businessStart == Idle { ShutDownKeepsInv(s); }
    case _ =>
      ShutdownStepKeepsInv(s, e);
  }

  lemma {:induction false} Reachable(listens: bool, es: seq<Event>)
    ensures Inv(Run(Created(listens), es))
  {
    if es != [] {
      Reachable(listens, es[..|es| - 1]);
      StepKeepsInv(Run(Created(listens), es[..|es| - 1]), es[|es| - 1]);
    }
  }

  // ---------- the promises ----------

  /** Starts never overlap; none begins after a success or once closing has begun. */
  lemma StartsNeverOverlap(listens: bool, es: seq<Event>, j: nat)
    requires j < |Run(Created(listens), es).log| && Run(Created(listens), es).log[j].StartCalled?
    ensures var before := Run(Created(listens), es).log[..j];
            && Count(before, CloseBegan) == 0
            && Count(before, StartOk) == 0
            && Count(before, StartCalled) == Count(before, StartFailed)
  {
    Reachable(listens, es);
  }

  /** Which events begin a start: a readiness report of ready, at boot or from the armed watch, while no start is pending. */
  lemma StartsExactly(listens: bool, es: seq<Event>, e: Event)
    ensures var s := Run(Created(listens), es);
            Count(Step(s, e).log, StartCalled) > Count(s.log, StartCalled)
            <==> (e == RootStarted(true) && s.boot == RootStarting && !s.closing)
                 || (e == Tick(true) && s.watchArmed && s.businessStart == Idle)
  {
    Reachable(listens, es);
    var s := Run(Created(listens), es);
    hide Run;
    CallsCounted(s, e);
  }

  lemma CallsCounted(s: Service, e: Event)
    requires Inv(s)
    ensures Count(Step(s, e).log, StartCalled)
            == Count(s.log, StartCalled)
               + if (e == RootStarted(true) && s.boot == RootStarting && !s.closing)
                    || (e == Tick(true) && s.watchArmed && s.businessStart == Idle) then 1 else 0
  {
    hide Count, ShutdownActs, FirstError, Exits, StartsAreLegal;
    match e
    case RootStarted(ready) =>
      LoggedFacts(s.(businessStart := Pending), StartCalled);
    case Tick(ready) =>
      LoggedFacts(s.(businessStart := Pending), StartCalled);
    case _ =>
      OtherStepsCallNothing(s, e);
  }

  lemma ShutdownCallsNothing(s: Service)
    ensures Count(ShutDown(s).log, StartCalled) == Count(s.log, StartCalled)
    ensures Count(StopBegun(s).log, StartCalled) == Count(s.log, StartCalled)
  {
    hide Count, ShutdownActs, FirstError, Exits, StartsAreLegal;
    LoggedFacts(s.(shutdown := Stopping), StopCalled);
    LoggedFacts(s.(shutdown := Disposing), DisposeCalled);
    var t := Logged(s.(closing := true, signalsAttached := false, watchArmed := false), CloseBegan);
    LoggedFacts(s.(closing := true, signalsAttached := false, watchArmed := false), CloseBegan);
    LoggedFacts(t.(shutdown := Stopping), StopCalled);
    LoggedFacts(t.(shutdown := Disposing), DisposeCalled);
  }

  lemma SettlingCallsNothing(s: Service, e: Event)
    requires s.firstError == FirstError(s.log) && (e.StopSettles? || e.DisposeSettles? || e.RootCloseSettles?)
    ensures Count(Step(s, e).log, StartCalled) == Count(s.log, StartCalled)
  {
    hide Count, ShutdownActs, FirstError, Exits, StartsAreLegal, Noted;
    match e
    case StopSettles(o) =>
      var t := s.(started := s.started && o != Fine);
      NotedFacts(t, o);
      LoggedFacts(Noted(t, o).(shutdown := Disposing), DisposeCalled);
    case DisposeSettles(o) =>
      NotedFacts(s, o);
      LoggedFacts(Noted(s, o).(shutdown := ClosingRoot), RootCloseCalled);
    case RootCloseSettles(o) =>
      NotedFacts(s, o);
      FinishingCallsNothing(Noted(s, o));
  }

  lemma FinishingCallsNothing(s: Service)
    ensures Count(Finished(s).log, StartCalled) == Count(s.log, StartCalled)
  {
    hide Count, ShutdownActs, FirstError, Exits, StartsAreLegal;
    var t := s.(shutdown := Closed);
    LoggedFacts(t, Result(s));
    LoggedFacts(Logged(t, Result(s)), Exited(if s.firstError == Undefined then 0 else 1));
  }

  lemma OtherStepsCallNothing(s: Service, e: Event)
    requires Inv(s) && !e.RootStarted? && !e.Tick?
    ensures Count(Step(s, e).log, StartCalled) == Count(s.log, StartCalled)
  {
    hide Count, ShutdownActs, FirstError, Exits, StartsAreLegal, StopBegun, ShutDown, Noted, Finished;
    if e.StopSettles? || e.DisposeSettles? || e.RootCloseSettles? {
      SettlingCallsNothing(s, e);
      hide Step, Inv;
    } else {
      hide Inv;
      ShutdownCallsNothing(s);
      if e.StartSettles? {
        LoggedFacts(s.(businessStart := Settled, started := true, watchArmed := false), StartOk);
        LoggedFacts(s.(businessStart := Settled), StartFailed);
      }
    }
  }

  /** While the service is up and not closing, the business is either in or still being retried. */
  lemma ReadinessKeepsBeingRetried(listens: bool, es: seq<Event>)
    ensures var s := Run(Created(listens), es);
            && (s.watchArmed ==> !s.closing && !s.started)
            && (s.boot == Up && !s.closing ==> (s.watchArmed <==> !s.started))
  {
    Reachable(listens, es);
  }

  /**
   A finished shutdown called `stop` exactly when a start had succeeded, then `dispose`, then the root's close, each
   once and in that order, whichever of them threw; it reports the first error thrown other than `undefined`.
   */
  lemma ShutdownRunsEveryStep(listens: bool, es: seq<Event>)
    requires Run(Created(listens), es).shutdown == Closed
    ensures var log := Run(Created(listens), es).log;
            ShutdownActs(log)
            == [CloseBegan] + (if Count(log, StartOk) == 1 then [StopCalled] else [])
               + [DisposeCalled, RootCloseCalled,
                  if FirstError(log) == Undefined then CloseResolved else CloseRejected(FirstError(log))]
  {
    Reachable(listens, es);
    hide Count, ShutdownActs, FirstError, Exits, StartsAreLegal;
  }

  /** A shutdown under way has performed a beginning of the finished shutdown's acts and nothing else. */
  lemma ShutdownNeverRepeats(listens: bool, es: seq<Event>)
    ensures var log := Run(Created(listens), es).log;
            var stop := if Count(log, StartOk) == 1 then [StopCalled] else [];
            var acts := ShutdownActs(log);
            || acts <= [CloseBegan] + stop + [DisposeCalled, RootCloseCalled, CloseResolved]
            || acts <= [CloseBegan] + stop + [DisposeCalled, RootCloseCalled, CloseRejected(FirstError(log))]
  {
    Reachable(listens, es);
    hide Count, ShutdownActs, FirstError, Exits, StartsAreLegal;
    var s := Run(Created(listens), es);
    assert s.shutdown.Stopping? ==> Count(s.log, StartOk) == 1;
  }

  /** How far a shutdown still has to go. */
  function Remaining(s: Service): nat {
    match s.shutdown
    case Open => 8
    case WaitingForStart => 5 + (match s.businessStart case Idle => 0 case Settled => 1 case Pending => 2)
    case Stopping => 3
    case Disposing => 2
    case ClosingRoot => 1
    case Closed => 0
  }

  /** The continuation a shutdown under way is waiting for. */
  function Awaited(s: Service, ok: bool, o: Outcome): Event
    requires s.shutdown != Open && s.shutdown != Closed
  {
    match s.shutdown
    case WaitingForStart =>
      (match s.businessStart case Pending => StartSettles(ok) case Settled => StartCleansUp case Idle => CloseContinues)
    case Stopping => StopSettles(o)
    case Disposing => DisposeSettles(o)
    case _ => RootCloseSettles(o)
  }

  lemma WaitGetsShorter(s: Service, ok: bool, o: Outcome)
    requires s.shutdown == WaitingForStart
    ensures Remaining(Step(s, Awaited(s, ok, o))) < Remaining(s)
    ensures Step(s, Awaited(s, ok, o)).shutdown != Open
  {
    hide Noted, StartIfReady, StopBegun, ArmWatch, Finished;
  }

  /** However each awaited call ends, the shutdown comes closer to its end. */
  lemma ShutdownNeverSticks(s: Service, ok: bool, o: Outcome)
    requires s.shutdown != Open && s.shutdown != Closed
    ensures Remaining(Step(s, Awaited(s, ok, o))) < Remaining(s)
    ensures Step(s, Awaited(s, ok, o)).shutdown != Open
  {
    if s.shutdown == WaitingForStart {
      WaitGetsShorter(s, ok, o);
      hide Step, Remaining, Awaited;
    } else {
      hide Noted, StartIfReady, StopBegun, ArmWatch, ShutDown;
    }
  }

  /** Settling every awaited call, however it ends, closes the service in at most seven events. */
  lemma {:induction false} ShutdownCompletes(s: Service, ok: bool, o: Outcome) returns (es: seq<Event>)
    requires s.shutdown != Open
    ensures |es| <= Remaining(s) <= 7 && Run(s, es).shutdown == Closed
    decreases Remaining(s)
  {
    if s.shutdown == Closed {
      es := [];
    } else {
      var e := Awaited(s, ok, o);
      ShutdownNeverSticks(s, ok, o);
      var rest := ShutdownCompletes(Step(s, e), ok, o);
      es := [e] + rest;
      RunFrom(s, e, rest);
    }
  }

  lemma {:induction false} RunFrom(s: Service, e: Event, rest: seq<Event>)
    ensures Run(s, [e] + rest) == Run(Step(s, e), rest)
  {
    hide Step;
    if rest == [] {
      assert [e] + rest == [e];
      assert [e][..0] == [];
    } else {
      RunFrom(s, e, rest[..|rest| - 1]);
      assert ([e] + rest)[..|rest|] == [e] + rest[..|rest| - 1];
    }
  }

  /** The process exits at most once, only after the shutdown has ended, and with 0 exactly when it reported no error. */
  lemma ExitsOnceWithTheResult(listens: bool, es: seq<Event>)
    ensures var s := Run(Created(listens), es);
            && |Exits(s.log)| <= 1
            && (Exits(s.log) != [] ==>
                  && s.shutdown == Closed
                  && (Exits(s.log)[0] == 0 <==> FirstError(s.log) == Undefined))
  {
    Reachable(listens, es);
    hide Count, ShutdownActs, FirstError, Exits, StartsAreLegal;
  }

  predicate StepThrew(log: seq<Act>) {
    exists k :: 0 <= k < |log| && log[k].StepFailed?
  }

  lemma {:induction false} FirstErrorIsNone(log: seq<Act>)
    ensures FirstError(log) == Undefined <==> forall k :: 0 <= k < |log| && log[k].StepFailed? ==> log[k].thrown == Undefined
  {
    if log != [] {
      FirstErrorIsNone(log[..|log| - 1]);
      assert forall k :: 0 <= k < |log| - 1 ==> log[..|log| - 1][k] == log[k];
    }
  }

  /** A close is reported clean exactly when every error its steps threw was `undefined`. */
  lemma CloseIsCleanExactly(listens: bool, es: seq<Event>)
    requires Run(Created(listens), es).shutdown == Closed
    ensures var log := Run(Created(listens), es).log;
            Result(Run(Created(listens), es)) == CloseResolved
            <==> forall k :: 0 <= k < |log| && log[k].StepFailed? ==> log[k].thrown == Undefined
  {
    Reachable(listens, es);
    FirstErrorIsNone(Run(Created(listens), es).log);
    hide Count, ShutdownActs, FirstError, Exits, StartsAreLegal;
  }

  /** So a failed step can go unreported: here `dispose` throws `undefined` and the close still resolves. */
  lemma FailureCanGoUnreported()
    ensures var s := Run(Created(false), [RootStarted(false), BootContinues, CloseRequested,
                                          DisposeSettles(Throws(Undefined)), RootCloseSettles(Fine)]);
            StepThrew(s.log) && Result(s) == CloseResolved && s.shutdown == Closed
  {
    var s0 := Created(false);
    var es := [RootStarted(false), BootContinues, CloseRequested, DisposeSettles(Throws(Undefined)), RootCloseSettles(Fine)];
    assert es[..4][..3][..2][..1][..0] == [];
    var s1 := Step(s0, es[0]);
    assert Run(s0, es[..4][..3][..2][..1]) == s1;
    var s2 := Step(s1, es[1]);
    assert Run(s0, es[..4][..3][..2]) == s2;
    var s3 := Step(s2, es[2]);
    assert Run(s0, es[..4][..3]) == s3;
    var s4 := Step(s3, es[3]);
    assert Run(s0, es[..4]) == s4;
    var s5 := Step(s4, es[4]);
    assert s5.log[2] == StepFailed(Undefined);
  }

  // ---------- what begins, ends and is reported, by the events ----------

  /** The later log only adds entries that end no start. */
  predicate EndsNoStart(before: seq<Act>, after: seq<Act>) {
    before <= after && forall k :: |before| <= k < |after| ==> !after[k].StartOk? && !after[k].StartFailed?
  }

  lemma NoEndsChain(a: seq<Act>, b: seq<Act>, c: seq<Act>)
    requires EndsNoStart(a, b) && EndsNoStart(b, c)
    ensures EndsNoStart(a, c)
  {
  }

  lemma ClosingEndsNoStart(s: Service)
    ensures EndsNoStart(s.log, StopBegun(s).log) && EndsNoStart(s.log, ShutDown(s).log)
    ensures StopBegun(s).started == s.started && ShutDown(s).started == s.started
  {
  }

  lemma NotedEndsNoStart(s: Service, o: Outcome)
    ensures EndsNoStart(s.log, Noted(s, o).log) && Noted(s, o).started == s.started
  {
  }

  lemma FinishedEndsNoStart(s: Service)
    ensures EndsNoStart(s.log, Finished(s).log) && Finished(s).started == s.started
  {
  }

  lemma SettlingEndsNoStart(s: Service, e: Event)
    requires e.StopSettles? || e.DisposeSettles? || e.RootCloseSettles?
    ensures EndsNoStart(s.log, Step(s, e).log) && (Step(s, e).started ==> s.started)
  {
    hide Noted, Finished;
    match e
    case StopSettles(o) =>
      var t := s.(started := s.started && o != Fine);
      NotedEndsNoStart(t, o);
      NoEndsChain(s.log, Noted(t, o).log, Noted(t, o).log + [DisposeCalled]);
    case DisposeSettles(o) =>
      NotedEndsNoStart(s, o);
      NoEndsChain(s.log, Noted(s, o).log, Noted(s, o).log + [RootCloseCalled]);
    case RootCloseSettles(o) =>
      NotedEndsNoStart(s, o);
      FinishedEndsNoStart(Noted(s, o));
      NoEndsChain(s.log, Noted(s, o).log, Finished(Noted(s, o)).log);
  }

  /** A start ends exactly when its promise settles, as a success or a failure; a success, and nothing else, lets the business in. */
  lemma StartEndsExactly(s: Service, e: Event)
    ensures var s' := Step(s, e);
            if e.StartSettles? && s.businessStart == Pending then
              && s'.log == s.log + [if e.ok then StartOk else StartFailed]
              && s'.started == (s.started || e.ok) && s'.businessStart == Settled
            else EndsNoStart(s.log, s'.log) && (s'.started ==> s.started)
  {
    hide StopBegun, ShutDown, Noted, Finished;
    if e.StopSettles? || e.DisposeSettles? || e.RootCloseSettles? {
      SettlingEndsNoStart(s, e);
      hide Step;
    } else {
      ClosingEndsNoStart(s);
    }
  }

  /** The boot: the root either fails or leads to the first start, which must be over before the service is up. */
  lemma BootExactly(s: Service, e: Event)
    ensures Step(s, e).boot
            == if s.boot == RootStarting && e.RootFailed? then Failed
               else if s.boot == RootStarting && e.RootStarted? then FirstStart
               else if s.boot == FirstStart && e.BootContinues? && s.businessStart == Idle then Up
               else s.boot
  {
    hide Finished;
    if e.RootCloseSettles? { FinishedKeepsBoot(Noted(s, e.outcome)); }
  }

  lemma FinishedKeepsBoot(s: Service)
    ensures Finished(s).boot == s.boot && Finished(s).closing == s.closing && Finished(s).signalsAttached == s.signalsAttached
    ensures Finished(s).exitOnClose == s.exitOnClose && Finished(s).firstError == s.firstError
  {
  }

  /** The process listens to signals until the shutdown begins. */
  predicate Listens(listens: bool, s: Service) {
    s.signalsAttached <==> listens && !s.closing
  }

  lemma StepListens(listens: bool, s: Service, e: Event)
    requires Listens(listens, s)
    ensures Listens(listens, Step(s, e))
  {
    hide Finished;
    if e.RootCloseSettles? { FinishedKeepsBoot(Noted(s, e.outcome)); }
  }

  lemma {:induction false} RunListens(listens: bool, es: seq<Event>)
    ensures Listens(listens, Run(Created(listens), es))
  {
    hide Step;
    if es != [] {
      RunListens(listens, es[..|es| - 1]);
      StepListens(listens, Run(Created(listens), es[..|es| - 1]), es[|es| - 1]);
    }
  }

  /** What asks an open service to shut down. */
  predicate AsksToClose(listens: bool, s: Service, e: Event) {
    (e.Signal? && listens) || (e.CloseRequested? && s.boot == Up) || (e.RootFailed? && s.boot == RootStarting)
  }

  /**
   An open service begins to shut down exactly on a signal it listens to, on a request once it is up, or when its root
   fails to start; it then first waits for a start that is under way.
   */
  lemma ShutdownBeginsExactly(listens: bool, es: seq<Event>, e: Event)
    requires !Run(Created(listens), es).closing
    ensures var s := Run(Created(listens), es);
            var s' := Step(s, e);
            && (s'.closing <==> AsksToClose(listens, s, e))
            && (s'.closing ==>
                  |s'.log| > |s.log| && s'.log[|s.log|] == CloseBegan
                  && (s'.shutdown == WaitingForStart <==> s.businessStart != Idle))
  {
    RunListens(listens, es);
    Reachable(listens, es);
    hide Run, Count, ShutdownActs, FirstError, Exits, StartsAreLegal, Finished;
    var s := Run(Created(listens), es);
    assert s.shutdown == Open;
    hide Inv;
  }

  /** The shutdown of this run began on a signal. */
  ghost predicate BegunBySignal(listens: bool, es: seq<Event>) {
    exists i :: 0 <= i < |es| && es[i].Signal? && listens && !Run(Created(listens), es[..i]).closing
  }

  lemma BegunAppend(listens: bool, es: seq<Event>, e: Event)
    ensures BegunBySignal(listens, es + [e])
            <==> BegunBySignal(listens, es) || (e.Signal? && listens && !Run(Created(listens), es).closing)
  {
    hide Run;
    var all := es + [e];
    assert all[..|es|] == es;
    assert forall i :: 0 <= i < |es| ==> all[..i] == es[..i];
    if BegunBySignal(listens, es) {
      var i :| 0 <= i < |es| && es[i].Signal? && listens && !Run(Created(listens), es[..i]).closing;
      assert all[i].Signal?;
    }
    if e.Signal? {
      assert all[|es|].Signal?;
    }
  }

  lemma StepExits(listens: bool, s: Service, e: Event)
    requires Listens(listens, s)
    ensures Step(s, e).exitOnClose <==> s.exitOnClose || (e.Signal? && listens && !s.closing)
  {
    hide Finished;
    if e.RootCloseSettles? { FinishedKeepsBoot(Noted(s, e.outcome)); }
  }

  lemma {:induction false} ExitIsAskedBySignal(listens: bool, es: seq<Event>)
    ensures Run(Created(listens), es).exitOnClose <==> BegunBySignal(listens, es)
  {
    hide Step, BegunBySignal;
    if es == [] {
      NothingBegun(listens, es);
    } else {
      var init, e := es[..|es| - 1], es[|es| - 1];
      ExitIsAskedBySignal(listens, init);
      BegunAppend(listens, init, e);
      assert init + [e] == es;
      RunListens(listens, init);
      StepExits(listens, Run(Created(listens), init), e);
    }
  }

  lemma NothingBegun(listens: bool, es: seq<Event>)
    requires es == []
    ensures !BegunBySignal(listens, es) && !Run(Created(listens), es).exitOnClose
  {
  }

  /** The process exits exactly when a shutdown that a signal began is over, with zero exactly when no error was reported. */
  lemma ExitsExactly(listens: bool, es: seq<Event>)
    ensures var s := Run(Created(listens), es);
            Exits(s.log)
            == if s.shutdown == Closed && BegunBySignal(listens, es)
               then [if FirstError(s.log) == Undefined then 0 else 1] else []
  {
    ExitIsAskedBySignal(listens, es);
    Reachable(listens, es);
    hide Run, BegunBySignal, Count, ShutdownActs, FirstError, Exits, StartsAreLegal;
  }

  /** What the step of a shutdown threw, if it is the step awaited and threw. */
  function ThrownBy(s: Service, e: Event): Thrown {
    match e
    case StopSettles(Throws(t)) => if s.shutdown == Stopping then t else Undefined
    case DisposeSettles(Throws(t)) => if s.shutdown == Disposing then t else Undefined
    case RootCloseSettles(Throws(t)) => if s.shutdown == ClosingRoot then t else Undefined
    case _ => Undefined
  }

  /** The first error other than `undefined` that a step of the shutdown threw. */
  function FirstThrown(listens: bool, es: seq<Event>): Thrown {
    if es == [] then Undefined
    else
      var init := es[..|es| - 1];
      var earlier := FirstThrown(listens, init);
      if earlier == Undefined then ThrownBy(Run(Created(listens), init), es[|es| - 1]) else earlier
  }

  lemma NotedThrows(s: Service, o: Outcome)
    ensures Noted(s, o).firstError == if s.firstError == Undefined && o.Throws? then o.thrown else s.firstError
  {
  }

  lemma StepThrows(s: Service, e: Event)
    ensures Step(s, e).firstError == if s.firstError == Undefined then ThrownBy(s, e) else s.firstError
  {
    hide Noted, Finished;
    match e
    case StopSettles(o) => NotedThrows(s.(started := s.started && o != Fine), o);
    case DisposeSettles(o) => NotedThrows(s, o);
    case RootCloseSettles(o) =>
      NotedThrows(s, o);
      FinishedKeepsBoot(Noted(s, o));
    case _ =>
  }

  /** What the log reports as the first error is the first one that a step of the shutdown threw. */
  lemma {:induction false} FirstErrorIsThrown(listens: bool, es: seq<Event>)
    ensures FirstError(Run(Created(listens), es).log) == FirstThrown(listens, es)
  {
    Reachable(listens, es);
    RunThrows(listens, es);
    hide Run, Count, ShutdownActs, FirstError, Exits, StartsAreLegal;
  }

  lemma {:induction false} RunThrows(listens: bool, es: seq<Event>)
    ensures Run(Created(listens), es).firstError == FirstThrown(listens, es)
  {
    hide Step, ThrownBy;
    if es != [] {
      RunThrows(listens, es[..|es| - 1]);
      StepThrows(Run(Created(listens), es[..|es| - 1]), es[|es| - 1]);
    }
  }

  // ---------- the shell as the source writes it ----------

  class ServiceShell {
    var boot: Boot
    var businessStart: Start
    var businessIngressStarted: bool
    var watchArmed: bool
    var signalsAttached: bool
    var closing: bool
    var shutdown: Shutdown
    var firstError: Thrown
    var exitOnClose: bool
    ghost var log: seq<Act>

    ghost function View(): Service
      reads this
    {
      Service(boot, businessStart, businessIngressStarted, watchArmed, signalsAttached, closing, shutdown, firstError,
              exitOnClose, log)
    }

    constructor (listens: bool)
      ensures View() == Created(listens)
    {
      boot, businessStart, businessIngressStarted := RootStarting, Idle, false;
      watchArmed, signalsAttached, closing := false, listens, false;
      shutdown, firstError, exitOnClose := Open, Undefined, false;
      log := [];
    }

    ghost method Log(a: Act)
      modifies this`log
      ensures log == old(log) + [a]
    {
      log := log + [a];
    }

    method StartBusinessIfReady(ready: bool)
      modifies this
      ensures View() == StartIfReady(old(View()), ready)
    {
      if closing || businessIngressStarted {
        return;
      }
      if !ready {
        return;
      }
      if businessStart == Idle {
        businessStart := Pending;
        Log(StartCalled);
      }
    }

    method ArmReadinessWatch()
      modifies this
      ensures View() == ArmWatch(old(View()))
    {
      if closing || businessIngressStarted || watchArmed {
        return;
      }
      watchArmed := true;
    }

    method StopService()
      modifies this
      ensures View() == StopBegun(old(View()))
    {
      if closing {
        return;
      }
      closing := true;
      Log(CloseBegan);
      signalsAttached := false;
      watchArmed := false;
      if businessStart != Idle {
        shutdown := WaitingForStart;
        return;
      }
      ContinueShutdown();
    }

    method ContinueShutdown()
      modifies this
      ensures View() == ShutDown(old(View()))
    {
      if businessIngressStarted {
        shutdown := Stopping;
        Log(StopCalled);
      } else {
        shutdown := Disposing;
        Log(DisposeCalled);
      }
    }

    method NoteFailure(o: Outcome)
      modifies this`firstError, this`log
      ensures View() == Noted(old(View()), o)
    {
      if o.Throws? {
        if firstError == Undefined {
          firstError := o.thrown;
        }
        Log(StepFailed(o.thrown));
      }
    }

    method OnRootStart(failed: bool, ready: bool)
      modifies this
      ensures View() == Step(old(View()), if failed then RootFailed else RootStarted(ready))
    {
      if boot != RootStarting {
        return;
      }
      if failed {
        StopService();
        boot := Failed;
      } else {
        StartBusinessIfReady(ready);
        boot := FirstStart;
      }
    }

    method OnBootContinues()
      modifies this
      ensures View() == Step(old(View()), BootContinues)
    {
      if boot == FirstStart && businessStart == Idle {
        if !businessIngressStarted {
          ArmReadinessWatch();
        }
        boot := Up;
      }
    }

    method OnStartSettles(ok: bool)
      modifies this
      ensures View() == Step(old(View()), StartSettles(ok))
    {
      if businessStart == Pending {
        businessStart := Settled;
        if ok {
          businessIngressStarted := true;
          watchArmed := false;
          Log(StartOk);
        } else {
          Log(StartFailed);
        }
      }
    }

    method OnSignal()
      modifies this
      ensures View() == Step(old(View()), Signal)
    {
      if signalsAttached {
        StopService();
        exitOnClose := true;
      }
    }

    method OnStopSettles(o: Outcome)
      modifies this
      ensures View() == Step(old(View()), StopSettles(o))
    {
      if shutdown == Stopping {
        if o == Fine {
          businessIngressStarted := false;
        }
        NoteFailure(o);
        shutdown := Disposing;
        Log(DisposeCalled);
      }
    }

    method OnDisposeSettles(o: Outcome)
      modifies this
      ensures View() == Step(old(View()), DisposeSettles(o))
    {
      if shutdown == Disposing {
        NoteFailure(o);
        shutdown := ClosingRoot;
        Log(RootCloseCalled);
      }
    }

    method OnRootCloseSettles(o: Outcome)
      modifies this
      ensures View() == Step(old(View()), RootCloseSettles(o))
    {
      if shutdown == ClosingRoot {
        NoteFailure(o);
        shutdown := Closed;
        Log(if firstError == Undefined then CloseResolved else CloseRejected(firstError));
        if exitOnClose {
          Log(Exited(if firstError == Undefined then 0 else 1));
        }
      }
    }

    /** One event; the service keeps its invariant. */
    method Handle(e: Event)
      requires Inv(View())
      modifies this
      ensures View() == Step(old(View()), e)
      ensures Inv(View())
    {
      StepKeepsInv(View(), e);
      hide Inv, StopBegun, StartIfReady, ShutDown;
      match e
      case RootStarted(ready) => OnRootStart(false, ready);
      case RootFailed => OnRootStart(true, false);
      case BootContinues => OnBootContinues();
      case Tick(ready) =>
        if watchArmed {
          StartBusinessIfReady(ready);
        }
      case StartSettles(ok) => OnStartSettles(ok);
      case StartCleansUp =>
        if businessStart == Settled {
          businessStart := Idle;
        }
      case Signal => OnSignal();
      case CloseRequested =>
        if boot == Up {
          StopService();
        }
      case CloseContinues =>
        if shutdown == WaitingForStart && businessStart == Idle {
          ContinueShutdown();
        }
      case StopSettles(o) => OnStopSettles(o);
      case DisposeSettles(o) => OnDisposeSettles(o);
      case RootCloseSettles(o) => OnRootCloseSettles(o);
    }
  }
}
