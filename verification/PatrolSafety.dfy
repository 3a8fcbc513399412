/** Safety of whole patrol runs: no permanent freeze, bounded excursions, alternation, honest end reasons. */
module PatrolSafety {
  import opened Wrappers
  import opened PatrolModel
  import opened PatrolAudit
  import opened PatrolInvariant

  // ---------- no permanent freeze ----------

  lemma ReachableInv(cfg: Config, inputs: seq<Input>)
    ensures Inv(cfg, Run(cfg, InitialSession, inputs))
  {
    InitialInv(cfg);
    RunKeepsInv(cfg, InitialSession, inputs);
  }

  /** Whenever browsing is frozen, a timer that will thaw it is armed. */
  lemma NoPermanentFreeze(cfg: Config, inputs: seq<Input>)
    ensures var s := Run(cfg, InitialSession, inputs);
            s.subscribed && s.ctx.suspended ==>
              (s.ctx.excursion.active && s.stallTimer) || (s.ctx.captureInFlight && s.ctx.captureTimer)
  {
    ReachableInv(cfg, inputs);
  }

  function Repeat(i: Input, n: nat): (r: seq<Input>)
    ensures |r| == n
  {
    if n == 0 then [] else Repeat(i, n - 1) + [i]
  }

  lemma {:induction false} RunAppend(cfg: Config, s: Session, a: seq<Input>, b: seq<Input>)
    ensures Run(cfg, s, a + b) == Run(cfg, Run(cfg, s, a), b)
  {
    if b == [] {
      assert a + b == a;
    } else {
      var n := |b| - 1;
      assert (a + b)[..|a + b| - 1] == a + b[..n];
      RunAppend(cfg, s, a, b[..n]);
    }
  }

  lemma {:induction false} StallTimersEndExcursion(cfg: Config, s: Session, n: nat)
    requires Inv(cfg, s) && s.subscribed
    ensures var s' := Run(cfg, s, Repeat(StallTimerIn, n));
            && Inv(cfg, s') && s'.subscribed
            && (s'.ctx.excursion.active ==> s.ctx.excursion.active && s'.stallUsed == s.stallUsed + n)
            && s'.ctx.captureInFlight == s.ctx.captureInFlight
  {
    if n > 0 {
      var prev := Run(cfg, s, Repeat(StallTimerIn, n - 1));
      StallTimersEndExcursion(cfg, s, n - 1);
      assert Repeat(StallTimerIn, n)[..n - 1] == Repeat(StallTimerIn, n - 1);
      StepKeepsInv(cfg, prev, StallTimerIn);
    }
  }

  /** From any reachable subscribed state the two timers alone, with no help from the edge, thaw browsing. */
  lemma TimersAloneThaw(cfg: Config, s: Session)
    requires Inv(cfg, s) && s.subscribed
    ensures var quiet := Repeat(StallTimerIn, cfg.maxStallRecoveries - s.stallUsed + 1) + [CaptureTimerIn];
            var s' := Run(cfg, s, quiet);
            !s'.ctx.suspended && !s'.ctx.excursion.active && !s'.ctx.captureInFlight
  {
    var n := cfg.maxStallRecoveries - s.stallUsed + 1;
    var mid := Run(cfg, s, Repeat(StallTimerIn, n));
    StallTimersEndExcursion(cfg, s, n);
    RunAppend(cfg, s, Repeat(StallTimerIn, n), [CaptureTimerIn]);
    assert Run(cfg, mid, [CaptureTimerIn]) == Step(cfg, Run(cfg, mid, []), CaptureTimerIn);
    CaptureTimerThaws(cfg, mid);
  }

  lemma CaptureTimerThaws(cfg: Config, s: Session)
    requires Inv(cfg, s) && !s.ctx.excursion.active
    ensures var s' := Step(cfg, s, CaptureTimerIn);
            !s'.ctx.suspended && !s'.ctx.excursion.active && !s'.ctx.captureInFlight
  {
  }

  // ---------- termination ----------

  function Budget(cfg: Config, s: Session): int {
    3 * cfg.maxAttempts - TotalAttempts(s.ctx.excursion) + cfg.maxStallRecoveries - s.stallUsed
  }

  /** The inputs on which an excursion must get nearer to its end. */
  predicate Spends(i: Input) {
    i.HomeIn? || i.StallTimerIn?
  }

  predicate Patrolling(s: Session) {
    s.subscribed && s.ctx.excursion.active
  }

  /** The step left the excursion and its budgets alone, and announced no ending. */
  predicate Undisturbed(s: Session, s': Session) {
    && s'.ctx.excursion == s.ctx.excursion && s'.stallUsed == s.stallUsed && s'.subscribed == s.subscribed
    && s.trace <= s'.trace
    && forall k :: |s.trace| <= k < |s'.trace| ==> !s'.trace[k].ExcursionEnded?
  }

  /** The step announced one ending, with the given reason, and went back to the feed. */
  predicate EndedBy(s: Session, s': Session, reason: EndReason) {
    && !s'.ctx.excursion.active && s'.subscribed == s.subscribed
    && s.trace <= s'.trace && |s'.trace| >= |s.trace| + 2
    && s'.trace[|s'.trace| - 2] == ExcursionEnded(Epoch(s), reason)
    && s'.trace[|s'.trace| - 1] == FeedEntered(s.ctx.sourcePage, BackToFeed, false)
    && forall k :: |s.trace| <= k < |s'.trace| && k != |s'.trace| - 2 ==> !s'.trace[k].ExcursionEnded?
  }

  lemma HandledUndisturbed(s: Session, cat: Category, epoch: int)
    ensures Undisturbed(s, EmitCategoryHandled(s, cat, epoch))
  {
  }

  lemma FinishUndisturbed(s: Session, how: FinishReason)
    ensures Undisturbed(s, FinishCapture(s, how))
  {
  }

  lemma EdgeReadyUndisturbed(s: Session, account: string, captureId: string, sent: bool)
    ensures Undisturbed(s, EdgeReady(s, account, captureId, sent))
  {
    var s1 := s.(enricher := s.enricher.(awaitingEdge := false));
    FinishUndisturbed(s1, NotSent);
    if s.enricher.plan.Some? {
      var s2 := s1.(enricher := s1.enricher.(captureId := Some(captureId)), ctx := s1.ctx.(captureTimer := true));
      FinishUndisturbed(Log(s2, CaptureRequested(s.enricher.plan.value, captureId)), NotSent);
    }
  }

  lemma CardsUndisturbed(s: Session, id: string, plan: Option<Plan>, account: string, captureId: string, sent: bool)
    ensures Undisturbed(s, CardsArrived(s, id, plan, account, captureId, sent))
  {
    var s1 := if id != "" then Arm(s, id, plan, account) else s;
    assert Undisturbed(s, s1);
    EdgeReadyUndisturbed(s1, account, captureId, sent);
  }

  lemma IdentityUndisturbed(s: Session, obs: Observation, account: string, known: string)
    ensures Undisturbed(s, IdentityObserved(s, obs, account, known))
  {
    var s1 :=
      if obs.nickname == "" then s.(ctx := s.ctx.(emptyCaptures := s.ctx.emptyCaptures + 1))
      else if known != obs.nickname then Log(s, NicknameWritten(account, obs.nickname, obs.captureId))
      else s;
    FinishUndisturbed(s1, Observed);
  }

  lemma ItemsOutcome(cfg: Config, s: Session, items: seq<Item>)
    ensures var s' := ItemsArrived(cfg, s, items);
            Undisturbed(s, s') || (Patrolling(s) && AnyThrows(items) && EndedBy(s, s', ClassifyFailed))
  {
    hide EmitCategoryHandled;
    if Patrolling(s) && !AnyThrows(items) {
      var worthy, epoch := WorthyOf(items), Epoch(s);
      var s1 := Log(s, Classified(worthy, epoch));
      var unseen := UnseenOf(s1.ctx, worthy);
      HandledUndisturbed(Log(s1, WorthyFound(unseen, epoch)), Comments, epoch);
      HandledUndisturbed(Log(s1, AllSeen(epoch)), Comments, epoch);
    }
  }

  lemma ActionOutcome(s: Session, action: Action, ok: bool)
    ensures var s' := ActionCompleted(s, action, ok);
            Undisturbed(s, s') || (Patrolling(s) && !ok && EndedBy(s, s', CommandFailed(action)))
  {
    HandledUndisturbed(s, Likes, Epoch(s));
    HandledUndisturbed(s, Follows, Epoch(s));
  }

  lemma AdmitOutcome(s: Session, a: Admission, hard: bool, busy: bool)
    ensures var s' := Admit(s, a, hard, busy);
            && s'.subscribed == s.subscribed && s.trace <= s'.trace
            && (forall k :: |s.trace| <= k < |s'.trace| ==> !s'.trace[k].ExcursionEnded?)
            && (s.ctx.excursion.active ==> Undisturbed(s, s'))
  {
  }

  /** What one step can do to the excursion: leave it, start or stop a session, spend on it, or end it for a named cause. */
  lemma StepOutcome(cfg: Config, s: Session, i: Input)
    requires !Spends(i) && !i.EndSessionIn? && !i.RestartSessionIn?
    ensures var s' := Step(cfg, s, i);
            && s.trace <= s'.trace
            && (s.ctx.excursion.active || !(i.DetectedIn? || i.MicrotaskIn?) ==>
                  || Undisturbed(s, s')
                  || (i.ItemsIn? && Patrolling(s) && EndedBy(s, s', ClassifyFailed))
                  || (i.ActionIn? && Patrolling(s) && EndedBy(s, s', CommandFailed(i.action))))
            && (i.DetectedIn? || i.MicrotaskIn? ==>
                  forall k :: |s.trace| <= k < |s'.trace| ==> !s'.trace[k].ExcursionEnded?)
  {
    hide HomeArrived, ItemsArrived, ActionCompleted, CardsArrived, IdentityObserved, Admit, EmitCategoryHandled;
    match i
    case DetectedIn(epoch, hard, busy) => AdmitOutcome(s, Admission(epoch), hard, busy);
    case MicrotaskIn(hard, busy) =>
      if s.microtasks != [] {
        AdmitOutcome(s.(microtasks := s.microtasks[1..]), s.microtasks[0], hard, busy);
      }
    case ItemsIn(items) => ItemsOutcome(cfg, s, items);
    case ActionIn(action, ok) => ActionOutcome(s, action, ok);
    case PushSettledIn(index, ok) =>
      if index < |s.pushes| {
        var p := s.pushes[index];
        var s1 := s.(pushes := RemoveAt(s.pushes, index));
        HandledUndisturbed(MarkPush(s1, p, ok), Comments, p.epoch);
      }
    case CardsIn(id, plan, account, captureId, sent) => CardsUndisturbed(s, id, plan, account, captureId, sent);
    case IdentityIn(obs, account, known) => IdentityUndisturbed(s, obs, account, known);
    case CaptureTimerIn => FinishUndisturbed(s.(ctx := s.ctx.(captureTimer := false)), TimedOut);
    case _ =>
  }

  /** A home report or stall expiry lowers the budget by exactly one or ends the excursion; nothing else touches it. */
  lemma StepSpendsBudget(cfg: Config, s: Session, i: Input)
    requires Inv(cfg, s) && Patrolling(s)
    ensures var s' := Step(cfg, s, i);
            Patrolling(s') ==>
              && s'.ctx.excursion.epoch == s.ctx.excursion.epoch
              && Budget(cfg, s') == Budget(cfg, s) - (if Spends(i) then 1 else 0)
              && Budget(cfg, s') >= 0
  {
    hide HomeArrived, ItemsArrived, ActionCompleted, CardsArrived, IdentityObserved, Admit, PushSettled;
    StepKeepsInv(cfg, s, i);
    if i.HomeIn? {
      HomeSpends(cfg, s, i.counts);
    } else if i.StallTimerIn? {
      RealignmentNeverBrowses(cfg, s);
    } else if !i.EndSessionIn? && !i.RestartSessionIn? {
      StepOutcome(cfg, s, i);
    }
  }

  lemma HomeSpends(cfg: Config, s: Session, counts: Counts)
    requires Inv(cfg, s) && Patrolling(s)
    ensures var e, e' := s.ctx.excursion, HomeArrived(cfg, s, counts).ctx.excursion;
            var s' := HomeArrived(cfg, s, counts);
            e'.active ==> e'.epoch == e.epoch && TotalAttempts(e') == TotalAttempts(e) + 1 && s'.stallUsed == s.stallUsed
  {
    var pick := PickFrom(cfg, s.ctx.excursion, counts, 0);
    if pick.Some? {
      var e, e' := s.ctx.excursion, Select(s, pick.value).ctx.excursion;
      assert forall c :: Attempts(e', c) == Attempts(e, c) + if c == pick.value then 1 else 0;
    }
  }

  function Spent(inputs: seq<Input>): nat {
    if inputs == [] then 0
    else Spent(inputs[..|inputs| - 1]) + if Spends(inputs[|inputs| - 1]) then 1 else 0
  }

  lemma {:induction false} BudgetOverRun(cfg: Config, s: Session, inputs: seq<Input>)
    requires Inv(cfg, s) && Patrolling(s)
    requires forall n :: 0 <= n <= |inputs| ==> Patrolling(Run(cfg, s, inputs[..n]))
    ensures var s' := Run(cfg, s, inputs);
            Inv(cfg, s') && Budget(cfg, s') == Budget(cfg, s) - Spent(inputs) && Budget(cfg, s') >= 0
  {
    var n := |inputs| - 1;
    if inputs != [] {
      var before := inputs[..n];
      assert forall k :: 0 <= k <= n ==> before[..k] == inputs[..k];
      BudgetOverRun(cfg, s, before);
      assert inputs[..n + 1] == inputs;
      assert Patrolling(Run(cfg, s, inputs));
      StepSpendsBudget(cfg, Run(cfg, s, before), inputs[n]);
      StepKeepsInv(cfg, Run(cfg, s, before), inputs[n]);
    } else {
      StepSpendsBudget(cfg, s, EndSessionIn);
    }
  }

  /** Every excursion ends: more home reports and stall expiries than the budget allows cannot all fall inside it. */
  lemma ExcursionTerminates(cfg: Config, s: Session, inputs: seq<Input>) returns (n: nat)
    requires Inv(cfg, s) && Patrolling(s) && Spent(inputs) > Budget(cfg, s)
    ensures n <= |inputs| && !Patrolling(Run(cfg, s, inputs[..n]))
  {
    if forall k :: 0 <= k <= |inputs| ==> Patrolling(Run(cfg, s, inputs[..k])) {
      BudgetOverRun(cfg, s, inputs);
      assert false;
    }
    n :| 0 <= n <= |inputs| && !Patrolling(Run(cfg, s, inputs[..n]));
  }

  /** Within one excursion at most three times the attempt limit of browse commands, and the recovery limit of realignments. */
  lemma CommandsAreBounded(cfg: Config, inputs: seq<Input>)
    ensures var a := Fold(Run(cfg, InitialSession, inputs).trace);
            a.browses <= 3 * cfg.maxAttempts && a.opens <= 1 + cfg.maxStallRecoveries
  {
    ReachableInv(cfg, inputs);
  }

  /** A stall expiry either reopens the notification home, read-only, or ends the excursion; it never browses. */
  lemma RealignmentNeverBrowses(cfg: Config, s: Session)
    requires Inv(cfg, s) && s.stallTimer
    ensures var s' := Step(cfg, s, StallTimerIn);
            var epoch := s.ctx.excursion.epoch.value;
            s'.trace == s.trace +
              if s.stallUsed < cfg.maxStallRecoveries then [HomeOpening(epoch, false)]
              else [ExcursionEnded(epoch, Stalled(s.ctx.excursion.phase)), FeedEntered(s.ctx.sourcePage, BackToFeed, false)]
  {
  }

  // ---------- alternation ----------

  lemma RequestsAndEndingsAlternate(cfg: Config, inputs: seq<Input>)
    ensures var s := Run(cfg, InitialSession, inputs);
            var t := s.trace;
            && (forall j :: 0 <= j < |t| && t[j].ExcursionEnded? ==>
                  exists i :: 0 <= i < j && AnsweredBy(t, i, j))
            && (forall i, j :: 0 <= i < j < |t| && t[i].ExcursionRequested? && t[j].ExcursionRequested? ==>
                  exists k :: i < k < j && Closes(t[k], t[i].epoch))
            && Alternations(t).open == s.ctx.excursion.epoch
            && (s.ctx.excursion.active <==> Alternations(t).open.Some?)
  {
    ReachableInv(cfg, inputs);
    var t := Run(cfg, InitialSession, inputs).trace;
    forall j | 0 <= j < |t| && t[j].ExcursionEnded?
      ensures exists i :: 0 <= i < j && AnsweredBy(t, i, j)
    {
      var i := EndingAnswersRequest(t, j);
      assert AnsweredBy(t, i, j);
    }
    forall i, j | 0 <= i < j < |t| && t[i].ExcursionRequested? && t[j].ExcursionRequested?
      ensures exists k :: i < k < j && Closes(t[k], t[i].epoch)
    {
      var k := RequestsAreSeparated(t, i, j);
    }
  }

  /** Position `i` requests the epoch that position `j` ends, with no request, ending or reset in between. */
  predicate AnsweredBy(t: seq<Event>, i: nat, j: nat)
    requires i < j < |t| && t[j].ExcursionEnded?
  {
    && t[i] == ExcursionRequested(t[j].epoch)
    && forall k :: i < k < j ==> !t[k].ExcursionRequested? && !t[k].ExcursionEnded? && !t[k].SessionReset?
  }

  lemma {:induction false} ThawedEverywhere(t: seq<Event>, k: nat)
    requires Fold(t).thawed && k < |t| && t[k].FeedEntered?
    ensures !t[k].frozen
  {
    hide Fold, Alternations, FoldCaptures;
    var before, last := t[..|t| - 1], t[|t| - 1];
    assert t == before + [last];
    FoldAppend(before, last);
    if k < |t| - 1 {
      ThawedEverywhere(before, k);
    }
  }

  /** Browsing is never suspended at the moment a role announces the return to the feed. */
  lemma FeedEnteredUnfrozen(cfg: Config, inputs: seq<Input>, k: nat)
    requires var t := Run(cfg, InitialSession, inputs).trace; k < |t| && t[k].FeedEntered?
    ensures !Run(cfg, InitialSession, inputs).trace[k].frozen
  {
    ReachableInv(cfg, inputs);
    ThawedEverywhere(Run(cfg, InitialSession, inputs).trace, k);
  }

  // ---------- honest reasons ----------

  predicate Cleared(counts: Counts) {
    forall cat :: counts.Of(cat) <= 0
  }

  lemma PickNone(cfg: Config, e: Excursion, counts: Counts, i: nat)
    ensures PickFrom(cfg, e, counts, i).None? <==>
              forall k :: i <= k < |PRIORITY| ==> !Selectable(cfg, e, counts, PRIORITY[k])
    decreases |PRIORITY| - i
  {
  }

  /** The category picked is the first in priority order that can be picked. */
  lemma PickIsFirst(cfg: Config, e: Excursion, counts: Counts)
    ensures var r := PickFrom(cfg, e, counts, 0);
            r.Some? ==> exists k :: 0 <= k < |PRIORITY| && PRIORITY[k] == r.value && Selectable(cfg, e, counts, r.value)
                          && forall j :: 0 <= j < k ==> !Selectable(cfg, e, counts, PRIORITY[j])
  {
    PickIsFirstFrom(cfg, e, counts, 0);
  }

  lemma PickIsFirstFrom(cfg: Config, e: Excursion, counts: Counts, i: nat)
    ensures var r := PickFrom(cfg, e, counts, i);
            r.Some? ==> exists k :: i <= k < |PRIORITY| && PRIORITY[k] == r.value && Selectable(cfg, e, counts, r.value)
                          && forall j :: i <= j < k ==> !Selectable(cfg, e, counts, PRIORITY[j])
    decreases |PRIORITY| - i
  {
    if i < |PRIORITY| && !Selectable(cfg, e, counts, PRIORITY[i]) {
      PickIsFirstFrom(cfg, e, counts, i + 1);
    }
  }

  lemma {:induction false} GivenUpMembers(cfg: Config, e: Excursion, counts: Counts, i: nat)
    requires i <= |PRIORITY|
    ensures var g := GivenUpUpTo(cfg, e, counts, i);
            && Distinct(g)
            && forall cat :: cat in g <==> cat in PRIORITY[..i] && GivenUp(cfg, e, counts, cat)
  {
    if i > 0 {
      GivenUpMembers(cfg, e, counts, i - 1);
      assert PRIORITY[..i] == PRIORITY[..i - 1] + [PRIORITY[i - 1]];
    }
  }

  lemma NothingToPick(cfg: Config, e: Excursion, counts: Counts)
    ensures var none := PickFrom(cfg, e, counts, 0).None?;
            var g := GivenUpUpTo(cfg, e, counts, |PRIORITY|);
            && (none <==> forall cat :: counts.Of(cat) > 0 ==> Attempts(e, cat) >= cfg.maxAttempts)
            && (none ==> Distinct(g) && (forall cat :: cat in g <==> counts.Of(cat) > 0) && (g == [] <==> Cleared(counts)))
  {
    hide PickFrom, GivenUpUpTo;
    var g := GivenUpUpTo(cfg, e, counts, |PRIORITY|);
    PickNone(cfg, e, counts, 0);
    GivenUpMembers(cfg, e, counts, |PRIORITY|);
    assert PRIORITY[..|PRIORITY|] == PRIORITY;
    assert PRIORITY[0] == Comments && PRIORITY[1] == Likes && PRIORITY[2] == Follows;
    forall cat: Category ensures cat in PRIORITY {
      assert cat == PRIORITY[0] || cat == PRIORITY[1] || cat == PRIORITY[2];
    }
    if g != [] {
      assert g[0] in g;
    }
  }

  /**
   A home report ends the excursion exactly when every unread category is out of attempts. It then says
   "done" exactly when nothing is unread, and otherwise names exactly the categories still unread.
   */
  lemma TriageEndsHonestly(cfg: Config, s: Session, counts: Counts)
    requires Inv(cfg, s) && Patrolling(s)
    ensures var s' := Step(cfg, s, HomeIn(counts));
            var e := s.ctx.excursion;
            && (!s'.ctx.excursion.active <==> forall cat :: counts.Of(cat) > 0 ==> Attempts(e, cat) >= cfg.maxAttempts)
            && (!s'.ctx.excursion.active ==>
                  |s'.trace| == |s.trace| + 2 && s'.trace[|s.trace|].ExcursionEnded? &&
                  var reason := s'.trace[|s.trace|].reason;
                  if Cleared(counts) then reason == TriageDone
                  else reason.TriageIncomplete? && Distinct(reason.givenUp)
                       && forall cat :: cat in reason.givenUp <==> counts.Of(cat) > 0)
  {
    NothingToPick(cfg, s.ctx.excursion, counts);
  }

  /** A run's log only grows. */
  lemma LogGrows(cfg: Config, s: Session, i: Input)
    ensures s.trace <= Step(cfg, s, i).trace
  {
    hide ItemsArrived, ActionCompleted, CardsArrived, IdentityObserved, Admit, PushSettled;
    if !Spends(i) && !i.EndSessionIn? && !i.RestartSessionIn? {
      StepOutcome(cfg, s, i);
    }
  }

  lemma OtherEndings(cfg: Config, s: Session, i: Input, k: nat)
    requires !i.HomeIn? && (i.StallTimerIn? && s.stallTimer ==> s.ctx.excursion.epoch.Some?)
    requires |s.trace| <= k < |Step(cfg, s, i).trace| && Step(cfg, s, i).trace[k].ExcursionEnded?
    ensures !Step(cfg, s, i).trace[k].reason.TriageDone?
  {
    hide HomeArrived, ItemsArrived, ActionCompleted, CardsArrived, IdentityObserved, Admit, PushSettled;
    if !Spends(i) && !i.EndSessionIn? && !i.RestartSessionIn? {
      StepOutcome(cfg, s, i);
    }
  }

  /** An ending that claims every tab was cleared can only come from a home report with no unread count. */
  lemma DoneOnlyWhenCleared(cfg: Config, s: Session, i: Input, k: nat)
    requires Inv(cfg, s)
    requires |s.trace| <= k < |Step(cfg, s, i).trace|
    requires Step(cfg, s, i).trace[k].ExcursionEnded? && Step(cfg, s, i).trace[k].reason == TriageDone
    ensures i.HomeIn? && Cleared(i.counts) && Patrolling(s)
  {
    if !i.HomeIn? {
      OtherEndings(cfg, s, i, k);
      assert false;
    }
    if Patrolling(s) {
      TriageEndsHonestly(cfg, s, i.counts);
    }
  }

  lemma {:induction false} DoneOverRun(cfg: Config, inputs: seq<Input>, k: nat) returns (n: nat)
    requires var t := Run(cfg, InitialSession, inputs).trace;
             k < |t| && t[k].ExcursionEnded? && t[k].reason == TriageDone
    ensures n < |inputs| && inputs[n].HomeIn? && Cleared(inputs[n].counts)
    ensures Patrolling(Run(cfg, InitialSession, inputs[..n]))
  {
    var m := |inputs| - 1;
    var s := Run(cfg, InitialSession, inputs[..m]);
    LogGrows(cfg, s, inputs[m]);
    ReachableInv(cfg, inputs[..m]);
    if k < |s.trace| {
      n := DoneOverRun(cfg, inputs[..m], k);
      assert inputs[..m][..n] == inputs[..n];
    } else {
      DoneOnlyWhenCleared(cfg, s, inputs[m], k);
      n := m;
    }
  }
}
