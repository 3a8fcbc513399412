/** The inductive invariant of the patrol: what every reachable state of a connection satisfies. */
module PatrolInvariant {
  import opened Wrappers
  import opened PatrolModel
  import opened PatrolAudit

  predicate Distinct<T(==)>(xs: seq<T>) {
    forall i, j :: 0 <= i < j < |xs| ==> xs[i] != xs[j]
  }

  function TotalAttempts(e: Excursion): nat {
    Attempts(e, Comments) + Attempts(e, Likes) + Attempts(e, Follows)
  }

  /** The excursion, its timer and its budgets, against the log. */
  predicate ExcursionInv(cfg: Config, s: Session) {
    var e := s.ctx.excursion;
    var a := Fold(s.trace);
    && (if e.active then e.epoch.Some? else e == FreshExcursion)
    && (s.stallTimer <==> s.subscribed && e.active)
    && s.stallUsed <= cfg.maxStallRecoveries
    && (forall cat :: Attempts(e, cat) <= cfg.maxAttempts)
    && Alternations(s.trace) == Alternation(true, e.epoch)
    && (e.active ==> a.browses == TotalAttempts(e) && a.selected == e.selected)
    && (s.subscribed && e.active ==> a.opens == 1 + s.stallUsed)
    && a.browses <= 3 * cfg.maxAttempts
    && a.opens <= 1 + cfg.maxStallRecoveries
  }

  /** The flag that two protocols write, and the announcements that depend on it. */
  predicate FlagInv(s: Session) {
    var a := Fold(s.trace);
    && (s.ctx.suspended ==> s.ctx.excursion.active || s.ctx.captureInFlight)
    && a.thawed
    && a.notifiedInTurn
    && a.delivered == s.ctx.notified
    && a.unseenOnly
    && a.outstanding == multiset(s.pushes)
    && a.settlesKnown
  }

  /** The self-capture: its timer, its id, its attempt budget and its memory of startup ids. */
  predicate CaptureInv(s: Session) {
    var a := FoldCaptures(s.trace);
    var en := s.enricher;
    && (s.ctx.captureTimer <==> s.ctx.captureInFlight)
    && !en.awaitingEdge
    && (s.ctx.captureInFlight ==> en.plan.Some? && en.captureId.Some? && s.ctx.emptyCaptures < MAX_EMPTY_CAPTURES)
    && s.ctx.emptyCaptures <= MAX_EMPTY_CAPTURES
    && a.capturing == s.ctx.captureInFlight
    && a.once
    && (s.ctx.captureInFlight ==> a.requested == s.enricher.captureId)
    && a.answered
    && a.armsFresh
  }

  /** The bounded memory holds exactly the most recent ids, and no id recurs while it is remembered. */
  predicate MemoryInv(s: Session) {
    var ids := FoldCaptures(s.trace).ids;
    var en := s.enricher;
    && en.order == LastIds(ids)
    && en.consumed == (set id | id in en.order)
    && Spaced(ids)
  }

  function LastIds(ids: seq<string>): seq<string> {
    if |ids| <= 50 then ids else ids[|ids| - 50..]
  }

  predicate Spaced(ids: seq<string>) {
    forall i, j :: 0 <= i < j < |ids| && ids[i] == ids[j] ==> j - i > 50
  }

  predicate Inv(cfg: Config, s: Session) {
    ExcursionInv(cfg, s) && FlagInv(s) && CaptureInv(s) && MemoryInv(s)
  }

  // ---------- preservation, one event family at a time ----------

  lemma InitialInv(cfg: Config)
    ensures Inv(cfg, InitialSession)
  {
  }

  lemma AdmitKeepsInv(cfg: Config, s: Session, a: Admission, hard: bool, busy: bool)
    requires Inv(cfg, s)
    ensures Inv(cfg, Admit(s, a, hard, busy))
  {
    hide Fold, Alternations, FoldCaptures;
    FoldAppends();
  }

  lemma ResumeKeepsInv(cfg: Config, s: Session, reason: EndReason)
    requires Inv(cfg, s)
    ensures Inv(cfg, Resume(s, Epoch(s), reason))
  {
    hide Fold, Alternations, FoldCaptures;
    FoldAppends();
  }

  lemma StallKeepsInv(cfg: Config, s: Session)
    requires Inv(cfg, s) && s.stallTimer
    ensures Inv(cfg, StallExpired(cfg, s))
  {
    hide Fold, Alternations, FoldCaptures;
    FoldAppends();
  }

  lemma PickIsSelectable(cfg: Config, e: Excursion, counts: Counts, i: nat)
    ensures var r := PickFrom(cfg, e, counts, i);
            r.Some? ==> Selectable(cfg, e, counts, r.value)
    decreases |PRIORITY| - i
  {
  }

  lemma SelectKeepsInv(cfg: Config, s: Session, cat: Category)
    requires Inv(cfg, s) && s.subscribed && s.ctx.excursion.active && Attempts(s.ctx.excursion, cat) < cfg.maxAttempts
    ensures Inv(cfg, Select(s, cat))
  {
    hide Fold, Alternations, FoldCaptures;
    FoldAppends();
    var e, e' := s.ctx.excursion, Select(s, cat).ctx.excursion;
    assert forall c :: Attempts(e', c) == Attempts(e, c) + if c == cat then 1 else 0;
    hide Attempts;
    var s' := Select(s, cat);
    assert ExcursionInv(cfg, s') by { hide FlagInv, CaptureInv, MemoryInv; }
    assert FlagInv(s') by { hide ExcursionInv, CaptureInv, MemoryInv; }
    assert CaptureInv(s') && MemoryInv(s') by { hide ExcursionInv, FlagInv; }
    hide ExcursionInv, FlagInv, CaptureInv, MemoryInv;
  }

  lemma HomeKeepsInv(cfg: Config, s: Session, counts: Counts)
    requires Inv(cfg, s)
    ensures Inv(cfg, HomeArrived(cfg, s, counts))
  {
    hide Fold, Alternations, FoldCaptures;
    if s.subscribed && s.ctx.excursion.active {
      var pick := PickFrom(cfg, s.ctx.excursion, counts, 0);
      PickIsSelectable(cfg, s.ctx.excursion, counts, 0);
      if pick.Some? {
        SelectKeepsInv(cfg, s, pick.value);
      } else {
        var givenUp := GivenUpUpTo(cfg, s.ctx.excursion, counts, |PRIORITY|);
        ResumeKeepsInv(cfg, s, if |givenUp| > 0 then TriageIncomplete(givenUp) else TriageDone);
      }
    }
  }

  lemma HandledKeepsInv(cfg: Config, s: Session, cat: Category, epoch: int)
    requires Inv(cfg, s)
    ensures Inv(cfg, EmitCategoryHandled(s, cat, epoch))
  {
    hide Fold, Alternations, FoldCaptures;
    FoldAppends();
  }

  /** Announcements that neither automaton heeds. */
  lemma QuietLogKeepsInv(cfg: Config, s: Session, e: Event)
    requires Inv(cfg, s) && (e.Classified? || e.WorthyFound? || e.AllSeen?)
    ensures Inv(cfg, Log(s, e))
  {
    hide Fold, Alternations, FoldCaptures;
    FoldAppend(s.trace, e);
  }

  lemma {:induction false} UnseenMembers(ctx: Context, items: seq<Item>)
    ensures forall it :: it in UnseenOf(ctx, items) <==> it in items && !IsNotified(ctx, it.key)
  {
    if items != [] {
      UnseenMembers(ctx, items[1..]);
    }
  }

  lemma NotifyKeepsInv(cfg: Config, s: Session, items: seq<Item>)
    requires Inv(cfg, s) && s.ctx.excursion.active && s.ctx.excursion.selected == Some(Comments)
    requires KeysOf(items) !! s.ctx.notified
    ensures Inv(cfg, Notify(cfg, s, items, Epoch(s)))
  {
    hide Fold, Alternations, FoldCaptures;
    FoldAppend(s.trace, NotifyCalled(items, Epoch(s)));
    HandledKeepsInv(cfg, s, Comments, Epoch(s));
  }

  lemma ItemsKeepInv(cfg: Config, s: Session, items: seq<Item>)
    requires Inv(cfg, s)
    ensures Inv(cfg, ItemsArrived(cfg, s, items))
  {
    hide Fold, Alternations, FoldCaptures;
    if s.subscribed && s.ctx.excursion.active && s.ctx.excursion.selected == Some(Comments) {
      if AnyThrows(items) {
        ResumeKeepsInv(cfg, s, ClassifyFailed);
      } else {
        var worthy, epoch := WorthyOf(items), Epoch(s);
        QuietLogKeepsInv(cfg, s, Classified(worthy, epoch));
        var s1 := Log(s, Classified(worthy, epoch));
        var unseen := UnseenOf(s1.ctx, worthy);
        if |unseen| > 0 {
          QuietLogKeepsInv(cfg, s1, WorthyFound(unseen, epoch));
          UnseenMembers(s1.ctx, worthy);
          NotifyKeepsInv(cfg, Log(s1, WorthyFound(unseen, epoch)), unseen);
        } else {
          QuietLogKeepsInv(cfg, s1, AllSeen(epoch));
          HandledKeepsInv(cfg, Log(s1, AllSeen(epoch)), Comments, epoch);
        }
      }
    }
  }

  lemma RemovedFromMultiset<T>(xs: seq<T>, i: nat)
    requires i < |xs|
    ensures multiset(RemoveAt(xs, i)) == multiset(xs) - multiset{xs[i]}
  {
    assert xs == xs[..i] + [xs[i]] + xs[i + 1..];
  }

  lemma MarkKeepsInv(cfg: Config, s: Session, i: nat, ok: bool)
    requires Inv(cfg, s) && i < |s.pushes|
    ensures Inv(cfg, MarkPush(s.(pushes := RemoveAt(s.pushes, i)), s.pushes[i], ok))
  {
    hide Fold, Alternations, FoldCaptures, KeysOf, RemoveAt, TotalAttempts, Attempts, LastIds, Spaced;
    var p := s.pushes[i];
    RemovedFromMultiset(s.pushes, i);
    FoldAppend(s.trace, if ok then Notified(p.items, p.epoch) else NotifyFailed(p.items, p.epoch));
    var s' := MarkPush(s.(pushes := RemoveAt(s.pushes, i)), p, ok);
    assert ExcursionInv(cfg, s') by { hide FlagInv, CaptureInv, MemoryInv; }
    assert FlagInv(s') by { hide ExcursionInv, CaptureInv, MemoryInv; }
    assert CaptureInv(s') && MemoryInv(s') by { hide ExcursionInv, FlagInv; }
    hide ExcursionInv, FlagInv, CaptureInv, MemoryInv;
  }

  lemma PushKeepsInv(cfg: Config, s: Session, i: nat, ok: bool)
    requires Inv(cfg, s) && i < |s.pushes|
    ensures Inv(cfg, PushSettled(s, i, ok))
  {
    var p := s.pushes[i];
    MarkKeepsInv(cfg, s, i, ok);
    HandledKeepsInv(cfg, MarkPush(s.(pushes := RemoveAt(s.pushes, i)), p, ok), Comments, p.epoch);
  }

  lemma ActionKeepsInv(cfg: Config, s: Session, action: Action, ok: bool)
    requires Inv(cfg, s)
    ensures Inv(cfg, ActionCompleted(s, action, ok))
  {
    hide Fold, Alternations, FoldCaptures;
    if s.subscribed {
      var s1 := BrowserReceipt(s, action, ok);
      HandledKeepsInv(cfg, s, Likes, Epoch(s));
      HandledKeepsInv(cfg, s, Follows, Epoch(s));
      assert Inv(cfg, s1);
      if action != OtherAction && !ok {
        ResumeKeepsInv(cfg, s1, CommandFailed(action));
      }
    }
  }

  lemma FinishKeepsInv(cfg: Config, s: Session, how: FinishReason)
    requires ExcursionInv(cfg, s) && FlagInv(s) && MemoryInv(s)
    requires s.ctx.captureInFlight && s.ctx.emptyCaptures <= MAX_EMPTY_CAPTURES
    requires var a := FoldCaptures(s.trace); a.capturing && a.once && a.answered && a.armsFresh
    ensures Inv(cfg, FinishCapture(s, how))
  {
    hide Fold, Alternations, FoldCaptures;
    var s' := FinishCapture(s, how);
    var e1 := CaptureFinished(how);
    var e2 := FeedEntered(Feed, if how == NotSent then SessionStart else BackToFeed, false);
    assert s'.trace == s.trace + [e1] || s'.trace == s.trace + [e1] + [e2];
    FoldAppend(s.trace, e1);
    FoldAppend(s.trace + [e1], e2);
    assert Fold(s'.trace) == Fold(s.trace);
    assert FoldCaptures(s'.trace) == FoldCaptures(s.trace).(capturing := false, requested := None);
  }

  /** Consuming an id outside the window keeps consumptions of the same id more than a window apart. */
  lemma WindowShift(ids: seq<string>, id: string)
    requires Spaced(ids) && id !in LastIds(ids)
    ensures Spaced(ids + [id])
    ensures Distinct(LastIds(ids))
    ensures var order := LastIds(ids) + [id];
            LastIds(ids + [id]) == if |order| > MAX_STARTUP_IDS then order[1..] else order
  {
    var w := LastIds(ids);
    assert forall i :: |ids| - |w| <= i < |ids| ==> ids[i] == w[i - (|ids| - |w|)];
  }

  lemma RememberKeepsMemory(s: Session, id: string)
    requires MemoryInv(s) && id !in s.enricher.consumed
    ensures MemoryInv(Remember(s, id))
  {
    hide Fold, Alternations, FoldCaptures;
    var s', ids, order := Remember(s, id), FoldCaptures(s.trace).ids, s.enricher.order;
    FoldAppend(s.trace, StartupConsumed(id));
    assert FoldCaptures(s'.trace).ids == ids + [id];
    WindowShift(ids, id);
    if order != [] {
      ShiftedSet(order, id);
    }
  }

  lemma RememberKeepsInv(cfg: Config, s: Session, id: string)
    requires Inv(cfg, s) && id !in s.enricher.consumed
    ensures Inv(cfg, Remember(s, id))
    ensures Remember(s, id).ctx == s.ctx
  {
    hide Fold, Alternations, FoldCaptures;
    FoldAppend(s.trace, StartupConsumed(id));
    RememberKeepsMemory(s, id);
  }

  /** Appending an id that is not remembered and dropping the oldest keeps set and list in step. */
  lemma ShiftedSet(order: seq<string>, id: string)
    requires order != [] && Distinct(order) && id !in order
    ensures (set x | x in order) + {id} == (set x | x in order + [id])
    ensures (set x | x in order) + {id} - {order[0]} == (set x | x in (order + [id])[1..])
  {
    var kept := (order + [id])[1..];
    forall x ensures x in kept <==> (x in order || x == id) && x != order[0] {
      if x in order && x != order[0] {
        var i :| 0 <= i < |order| && order[i] == x;
        assert kept[i - 1] == x;
      }
      assert kept[|order| - 1] == id;
    }
  }

  lemma CardsKeepInv(
    cfg: Config, s: Session, id: string, plan: Option<Plan>, account: string, captureId: string, sent: bool)
    requires Inv(cfg, s)
    ensures Inv(cfg, CardsArrived(s, id, plan, account, captureId, sent))
  {
    if id != "" && id !in s.enricher.consumed {
      RememberKeepsInv(cfg, s, id);
      if plan.Some? && !s.ctx.captureInFlight && s.ctx.emptyCaptures < MAX_EMPTY_CAPTURES && account != "" {
        ArmedKeepsInv(cfg, s, id, plan.value, account, captureId, sent);
      }
    }
  }

  /** The capture has been armed and requested. */
  function CaptureUnderWay(s: Session, id: string, plan: Plan, captureId: string): Session {
    var r := Remember(s, id);
    var en := r.enricher.(plan := Some(plan), awaitingEdge := false, captureId := Some(captureId));
    var ctx := r.ctx.(pendingNickname := true, suspended := plan.restore == RestoreFeed, captureInFlight := true,
                      captureTimer := true);
    Log(Log(r.(enricher := en, ctx := ctx), CaptureArmed(id)), CaptureRequested(plan, captureId))
  }

  lemma UnderWayKeepsInv(cfg: Config, s: Session, id: string, plan: Plan, captureId: string)
    requires Inv(cfg, s) && id !in s.enricher.consumed && Inv(cfg, Remember(s, id))
    requires !s.ctx.captureInFlight && s.ctx.emptyCaptures < MAX_EMPTY_CAPTURES
    ensures Inv(cfg, CaptureUnderWay(s, id, plan, captureId))
  {
    hide Fold, Alternations, FoldCaptures, LastIds, Spaced, TotalAttempts, Attempts;
    var r, s' := Remember(s, id), CaptureUnderWay(s, id, plan, captureId);
    FoldAppend(s.trace, StartupConsumed(id));
    FoldAppend(r.trace, CaptureArmed(id));
    FoldAppend(r.trace + [CaptureArmed(id)], CaptureRequested(plan, captureId));
    assert ExcursionInv(cfg, s') by { hide FlagInv, CaptureInv, MemoryInv; }
    assert FlagInv(s') by { hide ExcursionInv, CaptureInv, MemoryInv; }
    assert CaptureInv(s') && MemoryInv(s') by { hide ExcursionInv, FlagInv; }
    hide ExcursionInv, FlagInv, CaptureInv, MemoryInv, Remember, CaptureUnderWay;
  }

  lemma ArmedKeepsInv(
    cfg: Config, s: Session, id: string, plan: Plan, account: string, captureId: string, sent: bool)
    requires Inv(cfg, s) && id != "" && id !in s.enricher.consumed && Inv(cfg, Remember(s, id))
    requires !s.ctx.captureInFlight && s.ctx.emptyCaptures < MAX_EMPTY_CAPTURES && account != ""
    ensures Inv(cfg, CardsArrived(s, id, Some(plan), account, captureId, sent))
  {
    var s' := CaptureUnderWay(s, id, plan, captureId);
    UnderWayKeepsInv(cfg, s, id, plan, captureId);
    if !sent {
      FinishKeepsInv(cfg, s', NotSent);
    }
    ArmedIsUnderWay(s, id, plan, account, captureId, sent);
    hide CardsArrived, CaptureUnderWay, FinishCapture, Inv;
  }

  lemma ArmedIsUnderWay(s: Session, id: string, plan: Plan, account: string, captureId: string, sent: bool)
    requires id != "" && id !in s.enricher.consumed && account != ""
    requires !s.ctx.captureInFlight && s.ctx.emptyCaptures < MAX_EMPTY_CAPTURES
    ensures var s' := CaptureUnderWay(s, id, plan, captureId);
            CardsArrived(s, id, Some(plan), account, captureId, sent) == if sent then s' else FinishCapture(s', NotSent)
  {
    hide FinishCapture;
  }

  lemma WrittenKeepsInv(cfg: Config, s: Session, account: string, nickname: string, captureId: string)
    requires Inv(cfg, s) && s.ctx.captureInFlight && s.enricher.captureId == Some(captureId)
    ensures Inv(cfg, Log(s, NicknameWritten(account, nickname, captureId)))
  {
    hide Fold, Alternations, FoldCaptures;
    FoldAppend(s.trace, NicknameWritten(account, nickname, captureId));
  }

  lemma IdentityKeepsInv(cfg: Config, s: Session, obs: Observation, account: string, known: string)
    requires Inv(cfg, s)
    ensures Inv(cfg, IdentityObserved(s, obs, account, known))
  {
    hide Fold, Alternations, FoldCaptures, FinishCapture;
    if Accepts(s, obs, account) {
      if obs.nickname == "" {
        FinishKeepsInv(cfg, s.(ctx := s.ctx.(emptyCaptures := s.ctx.emptyCaptures + 1)), Observed);
      } else if known != obs.nickname {
        WrittenKeepsInv(cfg, s, account, obs.nickname, obs.captureId);
        FinishKeepsInv(cfg, Log(s, NicknameWritten(account, obs.nickname, obs.captureId)), Observed);
      } else {
        FinishKeepsInv(cfg, s, Observed);
      }
    }
  }

  lemma MicrotaskKeepsInv(cfg: Config, s: Session, hard: bool, busy: bool)
    requires Inv(cfg, s)
    ensures Inv(cfg, Step(cfg, s, MicrotaskIn(hard, busy)))
  {
    if s.microtasks != [] {
      AdmitKeepsInv(cfg, s.(microtasks := s.microtasks[1..]), s.microtasks[0], hard, busy);
    }
  }

  lemma CaptureTimerKeepsInv(cfg: Config, s: Session)
    requires Inv(cfg, s)
    ensures Inv(cfg, Step(cfg, s, CaptureTimerIn))
  {
    if s.ctx.captureTimer {
      FinishKeepsInv(cfg, s.(ctx := s.ctx.(captureTimer := false)), TimedOut);
    }
  }

  lemma SessionStepKeepsInv(cfg: Config, s: Session, i: Input)
    requires Inv(cfg, s)
    requires i.CommentSettledIn? || i.SourcePageIn? || i.EndSessionIn? || i.RestartSessionIn?
    ensures Inv(cfg, Step(cfg, s, i))
  {
    hide Fold, Alternations, FoldCaptures;
    FoldAppends();
  }

  lemma CaptureStepKeepsInv(cfg: Config, s: Session, i: Input)
    requires Inv(cfg, s)
    requires i.CardsIn? || i.IdentityIn? || i.CaptureTimerIn?
    ensures Inv(cfg, Step(cfg, s, i))
  {
    hide Inv;
    match i
    case CardsIn(id, plan, account, captureId, sent) => CardsKeepInv(cfg, s, id, plan, account, captureId, sent);
    case IdentityIn(obs, account, known) => IdentityKeepsInv(cfg, s, obs, account, known);
    case CaptureTimerIn => CaptureTimerKeepsInv(cfg, s);
  }

  lemma EdgeStepKeepsInv(cfg: Config, s: Session, i: Input)
    requires Inv(cfg, s)
    requires i.HomeIn? || i.ItemsIn? || i.ActionIn? || i.PushSettledIn?
    ensures Inv(cfg, Step(cfg, s, i))
  {
    hide Inv;
    match i
    case HomeIn(counts) => HomeKeepsInv(cfg, s, counts);
    case ItemsIn(items) => ItemsKeepInv(cfg, s, items);
    case ActionIn(action, ok) => ActionKeepsInv(cfg, s, action, ok);
    case PushSettledIn(index, ok) => if index < |s.pushes| { PushKeepsInv(cfg, s, index, ok); }
  }

  lemma StepKeepsInv(cfg: Config, s: Session, i: Input)
    requires Inv(cfg, s)
    ensures Inv(cfg, Step(cfg, s, i))
  {
    if i.HomeIn? || i.ItemsIn? || i.ActionIn? || i.PushSettledIn? {
      EdgeStepKeepsInv(cfg, s, i);
    } else if i.CardsIn? || i.IdentityIn? || i.CaptureTimerIn? {
      CaptureStepKeepsInv(cfg, s, i);
    } else if i.StallTimerIn? {
      if s.stallTimer { StallKeepsInv(cfg, s); }
    } else if i.DetectedIn? {
      AdmitKeepsInv(cfg, s, Admission(i.epoch), i.hardPaused, i.commentInflight);
    } else if i.MicrotaskIn? {
      MicrotaskKeepsInv(cfg, s, i.hardPaused, i.commentInflight);
    } else {
      SessionStepKeepsInv(cfg, s, i);
    }
  }

  lemma {:induction false} RunKeepsInv(cfg: Config, s: Session, inputs: seq<Input>)
    requires Inv(cfg, s)
    ensures Inv(cfg, Run(cfg, s, inputs))
  {
    if inputs != [] {
      RunKeepsInv(cfg, s, inputs[..|inputs| - 1]);
      StepKeepsInv(cfg, Run(cfg, s, inputs[..|inputs| - 1]), inputs[|inputs| - 1]);
    }
  }
}
