/**
 The session monitor: a clock that several reasons can pause, limits that wait for the pause to end, and an
 idle watchdog that never pauses. Times are milliseconds; every operation reads the clock once.
 */
module SessionMonitor {
  import opened Wrappers

  datatype Budget = Budget(likes: int, collects: int, follows: int, searches: int)

  /** What the limit test reads from its environment at one moment. */
  datatype Probe = Probe(windowOpen: bool, maxDurationMs: int, budget: Budget)

  datatype Cause = OutsideWindow | ActionLimit | DurationLimit | BudgetSpent | IdleTooLong

  datatype Signal = ShouldEnd(cause: Cause, at: int) | IdleNudge(at: int)

  datatype Monitor = Monitor(
    pauseReasons: set<string>,
    pauseStartedAt: int,
    startedAt: int,
    actionCount: nat,
    lastActivityAt: int,
    lastNudgeAt: int,
    ticking: bool,
    signals: seq<Signal>)

  const Unsubscribed := Monitor({}, 0, 0, 0, 0, 0, false, [])

  datatype Op =
    | Subscribe
    | Unsubscribe
    | Pause(reason: string)
    | Resume(reason: string, probe: Probe)
    | ActionDone(probe: Probe)
      /** Any other report from the edge. */
    | Activity
    | Tick(idleEndMs: int, idleNudgeMs: int)

  datatype Timed = Timed(at: int, op: Op)

  function Signalled(m: Monitor, s: Signal): Monitor {
    m.(signals := m.signals + [s])
  }

  function BudgetIsSpent(b: Budget): bool {
    b.likes <= 0 && b.collects <= 0 && b.searches <= 0
  }

  function CheckSession(maxActions: int, m: Monitor, at: int, p: Probe): Monitor {
    if m.pauseReasons != {} then m
    else if !p.windowOpen then Signalled(m, ShouldEnd(OutsideWindow, at))
    else if m.actionCount >= maxActions then Signalled(m, ShouldEnd(ActionLimit, at))
    else if at - m.startedAt >= p.maxDurationMs then Signalled(m, ShouldEnd(DurationLimit, at))
    else if BudgetIsSpent(p.budget) then Signalled(m, ShouldEnd(BudgetSpent, at))
    else m
  }

  function CheckIdle(m: Monitor, at: int, idleEndMs: int, idleNudgeMs: int): Monitor {
    var idle := at - m.lastActivityAt;
    if !m.ticking then m
    else if idle >= idleEndMs then Signalled(m, ShouldEnd(IdleTooLong, at))
    else if idle >= idleNudgeMs && at - m.lastNudgeAt >= idleNudgeMs then
      Signalled(m.(lastNudgeAt := at), IdleNudge(at))
    else m
  }

  function Step(maxActions: int, m: Monitor, t: Timed): Monitor {
    match t.op
    case Subscribe => Monitor({}, 0, t.at, 0, t.at, 0, true, m.signals)
    case Unsubscribe => m.(ticking := false, pauseReasons := {}, pauseStartedAt := 0)
    case Pause(r) =>
      m.(pauseStartedAt := if m.pauseReasons == {} then t.at else m.pauseStartedAt, pauseReasons := m.pauseReasons + {r})
    case Resume(r, p) =>
      if r !in m.pauseReasons then m
      else
        var m := m.(pauseReasons := m.pauseReasons - {r});
        if m.pauseReasons != {} then m
        else CheckSession(maxActions, m.(startedAt := m.startedAt + (t.at - m.pauseStartedAt), pauseStartedAt := 0), t.at, p)
    case ActionDone(p) =>
      CheckSession(maxActions, m.(lastActivityAt := t.at, actionCount := m.actionCount + 1), t.at, p)
    case Activity => m.(lastActivityAt := t.at)
    case Tick(end, nudge) => CheckIdle(m, t.at, end, nudge)
  }

  function Run(maxActions: int, m: Monitor, ops: seq<Timed>): Monitor {
    if ops == [] then m
    else Step(maxActions, Run(maxActions, m, ops[..|ops| - 1]), ops[|ops| - 1])
  }

  // ---------- the paused time of a history, defined without the monitor ----------

  /** The reason's last pause or resume in the history is a pause. */
  predicate Held(ops: seq<Timed>, r: string) {
    ops != [] &&
    var last := ops[|ops| - 1].op;
    if last.Pause? && last.reason == r then true
    else if last.Resume? && last.reason == r then false
    else Held(ops[..|ops| - 1], r)
  }

  ghost predicate AnyHeld(ops: seq<Timed>) {
    exists r :: Held(ops, r)
  }

  /** The operations up to and including an instant. */
  function UpTo(ops: seq<Timed>, instant: int): seq<Timed> {
    if ops == [] || ops[|ops| - 1].at <= instant then ops
    else UpTo(ops[..|ops| - 1], instant)
  }

  /** How many of the milliseconds from `start` to `end` some reason was held: the measure of the union of all pauses. */
  ghost function PausedMs(ops: seq<Timed>, start: int, end: int): nat
    decreases end - start
  {
    if end <= start then 0
    else PausedMs(ops, start, end - 1) + if AnyHeld(UpTo(ops, end - 1)) then 1 else 0
  }

  predicate Monotone(start: int, ops: seq<Timed>, end: int) {
    && (forall i :: 0 <= i < |ops| ==> start <= ops[i].at <= end)
    && (forall i, j :: 0 <= i < j < |ops| ==> ops[i].at <= ops[j].at)
  }

  /** A history inside one subscription. */
  predicate WithinSession(ops: seq<Timed>) {
    forall i :: 0 <= i < |ops| ==> !ops[i].op.Subscribe? && !ops[i].op.Unsubscribe?
  }

  function Subscribed(t0: int): Monitor {
    Step(0, Unsubscribed, Timed(t0, Subscribe))
  }

  lemma {:induction false} ReasonsAreHeld(maxActions: int, t0: int, ops: seq<Timed>)
    requires WithinSession(ops)
    ensures forall r :: r in Run(maxActions, Subscribed(t0), ops).pauseReasons <==> Held(ops, r)
  {
    if ops != [] {
      ReasonsAreHeld(maxActions, t0, ops[..|ops| - 1]);
    }
  }

  lemma UpToAll(ops: seq<Timed>, instant: int)
    requires forall i :: 0 <= i < |ops| ==> ops[i].at <= instant
    ensures UpTo(ops, instant) == ops
  {
  }

  /** The instants after the last operation are paused all together or not at all. */
  lemma {:induction false} PausedTail(ops: seq<Timed>, start: int, mid: int, end: int)
    requires (forall i :: 0 <= i < |ops| ==> ops[i].at <= mid) && start <= mid <= end
    ensures PausedMs(ops, start, end) == PausedMs(ops, start, mid) + if AnyHeld(ops) then end - mid else 0
    decreases end - mid
  {
    hide AnyHeld;
    if mid < end {
      PausedTail(ops, start, mid, end - 1);
      UpToAll(ops, end - 1);
    }
  }

  /** An operation does not change which earlier instants were paused. */
  lemma {:induction false} PausedPrefix(ops: seq<Timed>, start: int, end: int)
    requires ops != [] && end <= ops[|ops| - 1].at
    ensures PausedMs(ops, start, end) == PausedMs(ops[..|ops| - 1], start, end)
    decreases end - start
  {
    hide AnyHeld;
    if start < end {
      PausedPrefix(ops, start, end - 1);
    }
  }

  /** How far the clock has been put forward so far, the pause under way included. */
  function Shift(m: Monitor, now: int): int {
    m.startedAt + if m.pauseReasons == {} then 0 else now - m.pauseStartedAt
  }

  /** No operation inside a session moves the shifted start. */
  lemma StepKeepsShift(maxActions: int, m: Monitor, t: Timed)
    requires !t.op.Subscribe? && !t.op.Unsubscribe?
    ensures Shift(Step(maxActions, m, t), t.at) == Shift(m, t.at)
  {
  }

  lemma {:induction false} ClockInvariant(maxActions: int, t0: int, ops: seq<Timed>, now: int)
    requires WithinSession(ops) && Monotone(t0, ops, now) && t0 <= now
    ensures Shift(Run(maxActions, Subscribed(t0), ops), now) == t0 + PausedMs(ops, t0, now)
  {
    hide AnyHeld, Held, UpTo, Step;
    if ops == [] {
      NothingPaused(maxActions, t0, now);
    } else {
      var before, last := ops[..|ops| - 1], ops[|ops| - 1];
      ClockInvariant(maxActions, t0, before, last.at);
      StepKeepsShift(maxActions, Run(maxActions, Subscribed(t0), before), last);
      PausedPrefix(ops, t0, last.at);
      PausedTail(ops, t0, last.at, now);
      AnyHeldIsPaused(maxActions, t0, ops);
    }
  }

  lemma NothingPaused(maxActions: int, t0: int, now: int)
    requires t0 <= now
    ensures Shift(Run(maxActions, Subscribed(t0), []), now) == t0 && PausedMs([], t0, now) == 0
  {
    PausedTail([], t0, t0, now);
  }

  lemma AnyHeldIsPaused(maxActions: int, t0: int, ops: seq<Timed>)
    requires WithinSession(ops)
    ensures AnyHeld(ops) <==> Run(maxActions, Subscribed(t0), ops).pauseReasons != {}
  {
    ReasonsAreHeld(maxActions, t0, ops);
    var reasons := Run(maxActions, Subscribed(t0), ops).pauseReasons;
    if reasons != {} {
      var r :| r in reasons;
      assert Held(ops, r);
    }
  }

  /**
   Whenever no reason is held, the session's own clock shows the wall time since subscription less every
   millisecond during which some reason was held, however pauses were nested, repeated or mistaken.
   */
  lemma ClockExcludesPauses(maxActions: int, t0: int, ops: seq<Timed>, now: int)
    requires WithinSession(ops) && Monotone(t0, ops, now) && t0 <= now && !AnyHeld(ops)
    ensures now - Run(maxActions, Subscribed(t0), ops).startedAt == (now - t0) - PausedMs(ops, t0, now)
  {
    ClockInvariant(maxActions, t0, ops, now);
    AnyHeldIsPaused(maxActions, t0, ops);
  }

  // ---------- deferred endings ----------

  function Actions(ops: seq<Timed>): nat {
    if ops == [] then 0
    else Actions(ops[..|ops| - 1]) + if ops[|ops| - 1].op.ActionDone? then 1 else 0
  }

  lemma {:induction false} ActionsAreCounted(maxActions: int, t0: int, ops: seq<Timed>)
    requires WithinSession(ops)
    ensures Run(maxActions, Subscribed(t0), ops).actionCount == Actions(ops)
  {
    if ops != [] {
      ActionsAreCounted(maxActions, t0, ops[..|ops| - 1]);
    }
  }

  predicate IsLimitEnd(s: Signal) {
    s.ShouldEnd? && !s.cause.IdleTooLong?
  }

  /**
   The first limit that holds at a moment, by the wall clock and the history alone: the window, the number of actions,
   the unpaused time, the budget of likes, collects and searches.
   */
  ghost function LimitCause(maxActions: int, t0: int, ops: seq<Timed>, now: int, p: Probe, actions: nat): Option<Cause> {
    if !p.windowOpen then Some(OutsideWindow)
    else if actions >= maxActions then Some(ActionLimit)
    else if (now - t0) - PausedMs(ops, t0, now) >= p.maxDurationMs then Some(DurationLimit)
    else if p.budget.likes <= 0 && p.budget.collects <= 0 && p.budget.searches <= 0 then Some(BudgetSpent)
    else None
  }

  /** The ending a cause asks for, if any. */
  function Ending(cause: Option<Cause>, now: int): seq<Signal> {
    if cause.Some? then [ShouldEnd(cause.value, now)] else []
  }

  /** The limit test speaks exactly when nothing is held and a limit holds, and then once. */
  lemma CheckSpeaks(maxActions: int, m: Monitor, at: int, p: Probe)
    ensures var m' := CheckSession(maxActions, m, at, p);
            var holds := !p.windowOpen || m.actionCount >= maxActions || at - m.startedAt >= p.maxDurationMs
                         || BudgetIsSpent(p.budget);
            && m'.(signals := m.signals) == m
            && (if m.pauseReasons == {} && holds
                then |m'.signals| == |m.signals| + 1 && m'.signals[..|m.signals|] == m.signals
                     && IsLimitEnd(m'.signals[|m.signals|]) && m'.signals[|m.signals|].at == at
                else m'.signals == m.signals)
  {
  }

  /** An operation that leaves some reason held ends nothing on a limit, whatever the limits say. */
  lemma NoLimitEndWhilePaused(maxActions: int, t0: int, ops: seq<Timed>, k: nat)
    requires WithinSession(ops) && ops != [] && AnyHeld(ops)
    requires |Run(maxActions, Subscribed(t0), ops[..|ops| - 1]).signals| <= k < |Run(maxActions, Subscribed(t0), ops).signals|
    ensures !IsLimitEnd(Run(maxActions, Subscribed(t0), ops).signals[k])
  {
    hide AnyHeld, Held;
    AnyHeldIsPaused(maxActions, t0, ops);
  }

  /** A completed action ends the session exactly when nothing is held and a limit then holds, naming the first that does. */
  lemma ActionEndsExactly(maxActions: int, t0: int, ops: seq<Timed>, now: int, p: Probe)
    requires WithinSession(ops) && Monotone(t0, ops, now) && t0 <= now
    ensures var m := Run(maxActions, Subscribed(t0), ops);
            var m' := Step(maxActions, m, Timed(now, ActionDone(p)));
            m'.signals == m.signals
              + if AnyHeld(ops) then [] else Ending(LimitCause(maxActions, t0, ops, now, p, Actions(ops) + 1), now)
  {
    hide AnyHeld, Held, Run, PausedMs, Actions;
    var m := Run(maxActions, Subscribed(t0), ops);
    AnyHeldIsPaused(maxActions, t0, ops);
    ClockInvariant(maxActions, t0, ops, now);
    ActionsAreCounted(maxActions, t0, ops);
    assert m.signals + [] == m.signals;
  }

  /** The resume that releases the last reason ends the session exactly when a limit then holds: nothing deferred is lost. */
  lemma DeferredEndIsDelivered(maxActions: int, t0: int, ops: seq<Timed>, now: int, r: string, p: Probe)
    requires WithinSession(ops) && Monotone(t0, ops, now) && t0 <= now
    requires Held(ops, r) && forall q :: Held(ops, q) ==> q == r
    ensures var m := Run(maxActions, Subscribed(t0), ops);
            var m' := Step(maxActions, m, Timed(now, Resume(r, p)));
            m'.signals == m.signals + Ending(LimitCause(maxActions, t0, ops, now, p, Actions(ops)), now)
  {
    hide Run, PausedMs, Actions, Held;
    var m := Run(maxActions, Subscribed(t0), ops);
    ReasonsAreHeld(maxActions, t0, ops);
    assert m.pauseReasons == {r};
    ClockInvariant(maxActions, t0, ops, now);
    ActionsAreCounted(maxActions, t0, ops);
    assert m.signals + [] == m.signals;
  }

  /** Pauses, other reports and a resume that leaves a reason held say nothing. */
  lemma OthersAreSilent(maxActions: int, t0: int, ops: seq<Timed>, t: Timed)
    requires WithinSession(ops)
    requires t.op.Pause? || t.op.Activity? || (t.op.Resume? && exists q :: Held(ops, q) && q != t.op.reason)
    ensures var m := Run(maxActions, Subscribed(t0), ops); Step(maxActions, m, t).signals == m.signals
  {
    hide Run, Held;
    ReasonsAreHeld(maxActions, t0, ops);
    if t.op.Resume? {
      var q :| Held(ops, q) && q != t.op.reason;
      assert q in Run(maxActions, Subscribed(t0), ops).pauseReasons - {t.op.reason};
    }
  }

  /** Subscribing forgets everything of an earlier session; unsubscribing forgets what was held. */
  lemma SubscribingStartsAfresh(maxActions: int, m: Monitor, t0: int, r: string, p: Probe, later: int)
    ensures Step(maxActions, m, Timed(t0, Subscribe)) == Subscribed(t0).(signals := m.signals)
    ensures var m' := Step(maxActions, m, Timed(t0, Unsubscribe));
            m'.signals == m.signals && Step(maxActions, m', Timed(later, Resume(r, p))) == m'
  {
  }

  /** A resume of a reason that is not held changes nothing. */
  lemma UnknownResumeIsIgnored(maxActions: int, t0: int, ops: seq<Timed>, now: int, r: string, p: Probe)
    requires WithinSession(ops) && !Held(ops, r)
    ensures var m := Run(maxActions, Subscribed(t0), ops); Step(maxActions, m, Timed(now, Resume(r, p))) == m
  {
    ReasonsAreHeld(maxActions, t0, ops);
  }

  // ---------- the idle watchdog ----------

  /** The time of the last report from the edge, or of the subscription. */
  function LastReport(t0: int, ops: seq<Timed>): int {
    if ops == [] then t0
    else
      var last := ops[|ops| - 1];
      if last.op.ActionDone? || last.op.Activity? then last.at else LastReport(t0, ops[..|ops| - 1])
  }

  lemma {:induction false} ActivityIsLastReport(maxActions: int, t0: int, ops: seq<Timed>)
    requires WithinSession(ops)
    ensures Run(maxActions, Subscribed(t0), ops).lastActivityAt == LastReport(t0, ops)
    ensures Run(maxActions, Subscribed(t0), ops).ticking
  {
    if ops != [] {
      ActivityIsLastReport(maxActions, t0, ops[..|ops| - 1]);
    }
  }

  /** The watchdog ends the session exactly after a full idle period, paused or not. */
  lemma IdleEndIgnoresPauses(maxActions: int, t0: int, ops: seq<Timed>, now: int, idleEndMs: int, idleNudgeMs: int)
    requires WithinSession(ops)
    ensures var m := Run(maxActions, Subscribed(t0), ops);
            var m' := Step(maxActions, m, Timed(now, Tick(idleEndMs, idleNudgeMs)));
            now - LastReport(t0, ops) >= idleEndMs <==> m'.signals == m.signals + [ShouldEnd(IdleTooLong, now)]
  {
    ActivityIsLastReport(maxActions, t0, ops);
    var m := Run(maxActions, Subscribed(t0), ops);
    assert IdleNudge(now) != ShouldEnd(IdleTooLong, now);
    assert (m.signals + [IdleNudge(now)])[|m.signals|] == IdleNudge(now);
  }

  /** When the last nudge was sent; zero when none was. */
  function LastNudge(signals: seq<Signal>): int {
    if signals == [] then 0
    else
      var last := signals[|signals| - 1];
      if last.IdleNudge? then last.at else LastNudge(signals[..|signals| - 1])
  }

  lemma LastNudgeAppend(signals: seq<Signal>, s: Signal)
    ensures LastNudge(signals + [s]) == if s.IdleNudge? then s.at else LastNudge(signals)
  {
    assert (signals + [s])[..|signals|] == signals;
  }

  lemma StepKeepsLastNudge(maxActions: int, m: Monitor, t: Timed)
    requires m.lastNudgeAt == LastNudge(m.signals) && !t.op.Subscribe?
    ensures var m' := Step(maxActions, m, t); m'.lastNudgeAt == LastNudge(m'.signals)
  {
    hide LastNudge;
    forall s: Signal ensures LastNudge(m.signals + [s]) == if s.IdleNudge? then s.at else LastNudge(m.signals) {
      LastNudgeAppend(m.signals, s);
    }
  }

  lemma {:induction false} LastNudgeIsKnown(maxActions: int, t0: int, ops: seq<Timed>)
    requires WithinSession(ops)
    ensures var m := Run(maxActions, Subscribed(t0), ops); m.lastNudgeAt == LastNudge(m.signals)
  {
    hide Step;
    if ops == [] {
      NothingSignalled(t0);
    } else {
      LastNudgeIsKnown(maxActions, t0, ops[..|ops| - 1]);
      StepKeepsLastNudge(maxActions, Run(maxActions, Subscribed(t0), ops[..|ops| - 1]), ops[|ops| - 1]);
    }
  }

  lemma NothingSignalled(t0: int)
    ensures Subscribed(t0).signals == [] && Subscribed(t0).lastNudgeAt == 0
  {
  }

  /**
   A tick ends the session after a full idle period since the last report, else nudges after a nudge period both since
   the last report and since the last nudge, else says nothing.
   */
  lemma TickExactly(maxActions: int, t0: int, ops: seq<Timed>, now: int, idleEndMs: int, idleNudgeMs: int)
    requires WithinSession(ops)
    ensures var m := Run(maxActions, Subscribed(t0), ops);
            var m' := Step(maxActions, m, Timed(now, Tick(idleEndMs, idleNudgeMs)));
            var idle := now - LastReport(t0, ops);
            m'.signals == m.signals
              + if idle >= idleEndMs then [ShouldEnd(IdleTooLong, now)]
                else if idle >= idleNudgeMs && now - LastNudge(m.signals) >= idleNudgeMs then [IdleNudge(now)]
                else []
  {
    hide Run, LastReport, LastNudge;
    ActivityIsLastReport(maxActions, t0, ops);
    LastNudgeIsKnown(maxActions, t0, ops);
    var m := Run(maxActions, Subscribed(t0), ops);
    assert m.signals + [] == m.signals;
  }

  /** After the session has ended a leftover tick is silent. */
  lemma LeftoverTickIsSilent(maxActions: int, m: Monitor, now: int, later: int, idleEndMs: int, idleNudgeMs: int)
    ensures var m' := Step(maxActions, m, Timed(now, Unsubscribe));
            Step(maxActions, m', Timed(later, Tick(idleEndMs, idleNudgeMs))) == m'
  {
  }

  predicate NudgesSpaced(signals: seq<Signal>, gap: int) {
    forall i, j :: 0 <= i < j < |signals| && signals[i].IdleNudge? && signals[j].IdleNudge? ==>
      signals[j].at - signals[i].at >= gap
  }

  predicate FixedNudge(ops: seq<Timed>, gap: int) {
    forall i :: 0 <= i < |ops| && ops[i].op.Tick? ==> ops[i].op.idleNudgeMs == gap
  }

  lemma SignalsGrow(maxActions: int, m: Monitor, t: Timed)
    ensures var m' := Step(maxActions, m, t);
            && m.signals <= m'.signals && |m'.signals| <= |m.signals| + 1
            && (m'.ticking && !t.op.Subscribe? ==>
                  && m.ticking
                  && (m'.lastNudgeAt == m.lastNudgeAt || m'.lastNudgeAt == t.at)
                  && (m'.lastActivityAt == m.lastActivityAt || m'.lastActivityAt == t.at))
            && (t.op.Subscribe? ==> m'.lastActivityAt == t.at)
            && (m'.signals != m.signals && m'.signals[|m.signals|].IdleNudge? ==>
                  t.op.Tick? && m.ticking && m'.signals[|m.signals|].at == t.at == m'.lastNudgeAt
                  && t.at - m.lastActivityAt >= t.op.idleNudgeMs && t.at - m.lastNudgeAt >= t.op.idleNudgeMs)
  {
  }

  /** What the watchdog remembers of the nudges sent so far. */
  ghost predicate NudgesKnown(m: Monitor, end: int, gap: int) {
    && NudgesSpaced(m.signals, gap)
    && (forall i :: 0 <= i < |m.signals| && m.signals[i].IdleNudge? ==>
          && m.signals[i].at <= end
          && (m.ticking ==> m.signals[i].at <= m.lastNudgeAt || m.signals[i].at <= m.lastActivityAt))
  }

  lemma SpacedAppend(signals: seq<Signal>, s: Signal, gap: int)
    requires NudgesSpaced(signals, gap)
    requires s.IdleNudge? ==> forall i :: 0 <= i < |signals| && signals[i].IdleNudge? ==> s.at - signals[i].at >= gap
    ensures NudgesSpaced(signals + [s], gap)
  {
  }

  /** A nudge sent now comes at least the threshold after every earlier one. */
  lemma NewNudgeIsLate(maxActions: int, m: Monitor, t: Timed, end: int, gap: int)
    requires NudgesKnown(m, end, gap) && end <= t.at && (t.op.Tick? ==> t.op.idleNudgeMs == gap)
    ensures NudgesSpaced(Step(maxActions, m, t).signals, gap)
  {
    SignalsGrow(maxActions, m, t);
    var m' := Step(maxActions, m, t);
    hide Step, NudgesSpaced;
    if m'.signals != m.signals {
      assert m'.signals == m.signals + [m'.signals[|m.signals|]];
      SpacedAppend(m.signals, m'.signals[|m.signals|], gap);
    }
  }

  lemma StepKeepsNudges(maxActions: int, m: Monitor, t: Timed, end: int, gap: int)
    requires NudgesKnown(m, end, gap) && end <= t.at && (t.op.Tick? ==> t.op.idleNudgeMs == gap)
    ensures NudgesKnown(Step(maxActions, m, t), t.at, gap)
  {
    SignalsGrow(maxActions, m, t);
    NewNudgeIsLate(maxActions, m, t, end, gap);
    var m' := Step(maxActions, m, t);
    SignalTimes(maxActions, m, t);
    hide Step, NudgesSpaced;
    assert forall i :: 0 <= i < |m.signals| ==> m'.signals[i] == m.signals[i];
  }

  lemma SignalTimes(maxActions: int, m: Monitor, t: Timed)
    ensures var m' := Step(maxActions, m, t);
            forall i :: |m.signals| <= i < |m'.signals| ==> m'.signals[i].at == t.at
  {
  }

  /** With a fixed threshold, nudges are at least that far apart over any run, across subscriptions too. */
  lemma {:induction false} NudgesAreSpaced(maxActions: int, ops: seq<Timed>, start: int, end: int, gap: int)
    requires Monotone(start, ops, end) && FixedNudge(ops, gap)
    ensures NudgesKnown(Run(maxActions, Unsubscribed, ops), end, gap)
    ensures NudgesSpaced(Run(maxActions, Unsubscribed, ops).signals, gap)
  {
    hide Step;
    if ops != [] {
      var before, last := ops[..|ops| - 1], ops[|ops| - 1];
      NudgesAreSpaced(maxActions, before, start, last.at, gap);
      StepKeepsNudges(maxActions, Run(maxActions, Unsubscribed, before), last, last.at, gap);
    }
  }

  // ---------- the object ----------

  class SessionMonitorRole {
    const maxActions: int
    var pauseReasons: set<string>
    var pauseStartedAt: int
    var startedAt: int
    var actionCount: nat
    var lastActivityAt: int
    var lastNudgeAt: int
    var ticking: bool
    ghost var signals: seq<Signal>

    ghost function View(): Monitor
      reads this
    {
      Monitor(pauseReasons, pauseStartedAt, startedAt, actionCount, lastActivityAt, lastNudgeAt, ticking, signals)
    }

    constructor (maxActions: int)
      ensures this.maxActions == maxActions && View() == Unsubscribed
    {
      this.maxActions := maxActions;
      pauseReasons := {};
      pauseStartedAt := 0;
      startedAt := 0;
      actionCount := 0;
      lastActivityAt := 0;
      lastNudgeAt := 0;
      ticking := false;
      signals := [];
    }

    ghost method Emit(s: Signal)
      modifies this`signals
      ensures signals == old(signals) + [s]
    {
      signals := signals + [s];
    }

    method OnSubscribe(now: int)
      modifies this
      ensures View() == Step(maxActions, old(View()), Timed(now, Subscribe))
    {
      startedAt := now;
      actionCount := 0;
      lastActivityAt := now;
      lastNudgeAt := 0;
      pauseReasons := {};
      pauseStartedAt := 0;
      ticking := true;
    }

    method OnUnsubscribe(now: int)
      modifies this
      ensures View() == Step(maxActions, old(View()), Timed(now, Unsubscribe))
    {
      ticking := false;
      pauseReasons := {};
      pauseStartedAt := 0;
    }

    method PauseClock(now: int, reason: string)
      modifies this
      ensures View() == Step(maxActions, old(View()), Timed(now, Pause(reason)))
    {
      if pauseReasons == {} {
        pauseStartedAt := now;
      }
      pauseReasons := pauseReasons + {reason};
    }

    method ResumeClock(now: int, reason: string, probe: Probe)
      modifies this
      ensures View() == Step(maxActions, old(View()), Timed(now, Resume(reason, probe)))
    {
      if reason !in pauseReasons {
        return;
      }
      pauseReasons := pauseReasons - {reason};
      if pauseReasons != {} {
        return;
      }
      startedAt := startedAt + (now - pauseStartedAt);
      pauseStartedAt := 0;
      CheckLimits(now, probe);
    }

    method HandleActionCompleted(now: int, probe: Probe)
      modifies this
      ensures View() == Step(maxActions, old(View()), Timed(now, ActionDone(probe)))
    {
      lastActivityAt := now;
      actionCount := actionCount + 1;
      CheckLimits(now, probe);
    }

    method Refresh(now: int)
      modifies this
      ensures View() == Step(maxActions, old(View()), Timed(now, Activity))
    {
      lastActivityAt := now;
    }

    method OnTick(now: int, idleEndMs: int, idleNudgeMs: int)
      modifies this
      ensures View() == Step(maxActions, old(View()), Timed(now, Tick(idleEndMs, idleNudgeMs)))
    {
      if !ticking {
        return;
      }
      var idle := now - lastActivityAt;
      if idle >= idleEndMs {
        Emit(ShouldEnd(IdleTooLong, now));
        return;
      }
      if idle >= idleNudgeMs && now - lastNudgeAt >= idleNudgeMs {
        lastNudgeAt := now;
        Emit(IdleNudge(now));
      }
    }

    method CheckLimits(now: int, probe: Probe)
      modifies this
      ensures View() == CheckSession(maxActions, old(View()), now, probe)
    {
      if pauseReasons != {} {
        return;
      }
      if !probe.windowOpen {
        Emit(ShouldEnd(OutsideWindow, now));
        return;
      }
      if actionCount >= maxActions {
        Emit(ShouldEnd(ActionLimit, now));
        return;
      }
      var elapsed := now - startedAt;
      if elapsed >= probe.maxDurationMs {
        Emit(ShouldEnd(DurationLimit, now));
        return;
      }
      if BudgetIsSpent(probe.budget) {
        Emit(ShouldEnd(BudgetSpent, now));
      }
    }
  }
}
