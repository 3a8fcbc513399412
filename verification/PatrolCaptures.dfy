/** Which announcements of a return to the feed belong to which self-capture, read off the log of a whole run. */
module PatrolCaptures {
  import opened Wrappers
  import opened PatrolModel
  import opened PatrolInvariant

  // ---------- an automaton over the log ----------

  /**
   `armed`: the last event armed a capture. `plan`: what the capture under way was requested to do. `due`: the return
   to the feed that the last event calls for. `legal`: so far a capture was requested exactly when it had just been
   armed, captures were armed and finished in turn, and returns were announced exactly when and as due.
   */
  datatype Returns = Returns(legal: bool, armed: bool, plan: Option<Plan>, due: Due)

  datatype Due = NoReturn | FromExcursion | FromCapture(how: FinishReason)

  predicate Meets(due: Due, e: Event) {
    match due
    case NoReturn => !e.FeedEntered?
    case FromExcursion => e.FeedEntered? && e.trigger == BackToFeed
    case FromCapture(how) => e == CaptureReturn(how)
  }

  /** The return to the feed that ends a capture. */
  function CaptureReturn(how: FinishReason): Event {
    FeedEntered(Feed, if how == NotSent then SessionStart else BackToFeed, false)
  }

  predicate Restores(plan: Option<Plan>) {
    plan.Some? && plan.value.restore == RestoreFeed
  }

  predicate Allowed(r: Returns, e: Event) {
    && Meets(r.due, e)
    && (e.CaptureRequested? <==> r.armed)
    && (e.CaptureArmed? ==> r.plan.None?)
    && (e.CaptureFinished? ==> r.plan.Some?)
  }

  function Next(r: Returns, e: Event): Returns {
    var plan :=
      match e
      case CaptureRequested(p, _) => Some(p)
      case CaptureFinished(_) => None
      case SessionReset => None
      case _ => r.plan;
    var due :=
      match e
      case ExcursionEnded(_, _) => FromExcursion
      case CaptureFinished(how) => if Restores(r.plan) then FromCapture(how) else NoReturn
      case _ => NoReturn;
    Returns(r.legal && Allowed(r, e), e.CaptureArmed?, plan, due)
  }

  function ReturnsOf(t: seq<Event>): Returns {
    if t == [] then Returns(true, false, None, NoReturn)
    else Next(ReturnsOf(t[..|t| - 1]), t[|t| - 1])
  }

  lemma ReturnsAppend(t: seq<Event>, e: Event)
    ensures ReturnsOf(t + [e]) == Next(ReturnsOf(t), e)
  {
    assert (t + [e])[..|t|] == t;
  }

  lemma ReturnsAppends()
    ensures forall t: seq<Event>, e: Event {:trigger ReturnsOf(t + [e])} :: ReturnsOf(t + [e]) == Next(ReturnsOf(t), e)
  {
    forall t: seq<Event>, e: Event ensures ReturnsOf(t + [e]) == Next(ReturnsOf(t), e) {
      ReturnsAppend(t, e);
    }
  }

  // ---------- every run is legal ----------

  ghost predicate Returning(s: Session) {
    && ReturnsOf(s.trace) == Returns(true, false, if s.ctx.captureInFlight then s.enricher.plan else None, NoReturn)
    && (s.ctx.captureInFlight ==> s.enricher.plan.Some?)
    && !s.enricher.awaitingEdge
  }

  /** An event that concerns neither captures nor the feed. */
  predicate Plain(e: Event) {
    && !e.FeedEntered? && !e.ExcursionEnded? && !e.SessionReset?
    && !e.CaptureArmed? && !e.CaptureRequested? && !e.CaptureFinished?
  }

  lemma PlainKeeps(s: Session, e: Event)
    requires Returning(s) && Plain(e)
    ensures Returning(Log(s, e))
  {
    hide ReturnsOf;
    ReturnsAppend(s.trace, e);
  }

  lemma ResumeKeeps(s: Session, epoch: int, reason: EndReason)
    requires Returning(s)
    ensures Returning(Resume(s, epoch, reason))
  {
    hide ReturnsOf;
    ReturnsAppends();
  }

  lemma AdmitKeeps(s: Session, a: Admission, hard: bool, busy: bool)
    requires Returning(s)
    ensures Returning(Admit(s, a, hard, busy))
  {
    hide ReturnsOf;
    ReturnsAppends();
  }

  lemma SelectKeeps(s: Session, cat: Category)
    requires Returning(s)
    ensures Returning(Select(s, cat))
  {
    hide ReturnsOf;
    ReturnsAppends();
  }

  lemma HandledKeeps(s: Session, cat: Category, epoch: int)
    requires Returning(s)
    ensures Returning(EmitCategoryHandled(s, cat, epoch))
  {
    hide ReturnsOf;
    ReturnsAppends();
  }

  lemma StallKeeps(cfg: Config, s: Session)
    requires Returning(s)
    ensures Returning(StallExpired(cfg, s))
  {
    hide ReturnsOf, Resume;
    ReturnsAppends();
    ResumeKeeps(s.(stallTimer := false), Epoch(s), Stalled(s.ctx.excursion.phase));
  }

  lemma HomeKeeps(cfg: Config, s: Session, counts: Counts)
    requires Returning(s)
    ensures Returning(HomeArrived(cfg, s, counts))
  {
    hide ReturnsOf, PickFrom, GivenUpUpTo, Select, Resume;
    if s.subscribed && s.ctx.excursion.active {
      var pick := PickFrom(cfg, s.ctx.excursion, counts, 0);
      if pick.Some? {
        SelectKeeps(s, pick.value);
      } else {
        var givenUp := GivenUpUpTo(cfg, s.ctx.excursion, counts, |PRIORITY|);
        ResumeKeeps(s, Epoch(s), if |givenUp| > 0 then TriageIncomplete(givenUp) else TriageDone);
      }
    }
  }

  lemma NotifyKeeps(cfg: Config, s: Session, items: seq<Item>, epoch: int)
    requires Returning(s)
    ensures Returning(Notify(cfg, s, items, epoch))
  {
    hide ReturnsOf, EmitCategoryHandled;
    PlainKeeps(s, NotifyCalled(items, epoch));
    HandledKeeps(s, Comments, epoch);
  }

  lemma DedupeKeeps(cfg: Config, s: Session, worthy: seq<Item>, epoch: int)
    requires Returning(s)
    ensures Returning(Dedupe(cfg, s, worthy, epoch))
  {
    hide Returning, UnseenOf, EmitCategoryHandled, Notify;
    var unseen := UnseenOf(s.ctx, worthy);
    PlainKeeps(s, WorthyFound(unseen, epoch));
    NotifyKeeps(cfg, Log(s, WorthyFound(unseen, epoch)), unseen, epoch);
    PlainKeeps(s, AllSeen(epoch));
    HandledKeeps(Log(s, AllSeen(epoch)), Comments, epoch);
  }

  lemma ItemsKeep(cfg: Config, s: Session, items: seq<Item>)
    requires Returning(s)
    ensures Returning(ItemsArrived(cfg, s, items))
  {
    hide ReturnsOf, WorthyOf, Dedupe, Resume;
    var worthy := WorthyOf(items);
    ResumeKeeps(s, Epoch(s), ClassifyFailed);
    PlainKeeps(s, Classified(worthy, Epoch(s)));
    DedupeKeeps(cfg, Log(s, Classified(worthy, Epoch(s))), worthy, Epoch(s));
  }

  lemma SettledKeeps(s: Session, i: nat, ok: bool)
    requires Returning(s) && i < |s.pushes|
    ensures Returning(PushSettled(s, i, ok))
  {
    hide ReturnsOf, EmitCategoryHandled, KeysOf, RemoveAt;
    var p := s.pushes[i];
    var marked := MarkPush(s.(pushes := RemoveAt(s.pushes, i)), p, ok);
    ReturnsAppend(s.trace, if ok then Notified(p.items, p.epoch) else NotifyFailed(p.items, p.epoch));
    HandledKeeps(marked, Comments, p.epoch);
  }

  lemma ActionKeeps(s: Session, action: Action, ok: bool)
    requires Returning(s)
    ensures Returning(ActionCompleted(s, action, ok))
  {
    hide ReturnsOf, EmitCategoryHandled, Resume;
    HandledKeeps(s, Likes, Epoch(s));
    HandledKeeps(s, Follows, Epoch(s));
    var s1 := BrowserReceipt(s, action, ok);
    assert Returning(s1);
    ResumeKeeps(s1, Epoch(s1), CommandFailed(action));
  }

  lemma FinishKeeps(s: Session, how: FinishReason)
    requires Returning(s) && s.ctx.captureInFlight
    ensures Returning(FinishCapture(s, how))
  {
    hide ReturnsOf;
    ReturnsAppends();
  }

  lemma UnderWayKeeps(s: Session, id: string, plan: Plan, captureId: string)
    requires Returning(s) && !s.ctx.captureInFlight
    ensures Returning(CaptureUnderWay(s, id, plan, captureId)) && CaptureUnderWay(s, id, plan, captureId).ctx.captureInFlight
  {
    hide ReturnsOf;
    ReturnsAppends();
  }

  lemma RememberKeeps(s: Session, id: string)
    requires Returning(s)
    ensures Returning(Remember(s, id))
  {
    hide ReturnsOf;
    ReturnsAppend(s.trace, StartupConsumed(id));
  }

  lemma CardsKeep(s: Session, id: string, plan: Option<Plan>, account: string, captureId: string, sent: bool)
    requires Returning(s)
    ensures Returning(CardsArrived(s, id, plan, account, captureId, sent))
  {
    hide ReturnsOf, FinishCapture, CaptureUnderWay;
    if id != "" && id !in s.enricher.consumed {
      if plan.None? {
        RememberKeeps(s, id);
      } else if !s.ctx.captureInFlight && s.ctx.emptyCaptures < MAX_EMPTY_CAPTURES && account != "" {
        ArmedIsUnderWay(s, id, plan.value, account, captureId, sent);
        UnderWayKeeps(s, id, plan.value, captureId);
        var s' := CaptureUnderWay(s, id, plan.value, captureId);
        FinishKeeps(s', NotSent);
      }
    }
  }

  lemma IdentityKeeps(s: Session, obs: Observation, account: string, known: string)
    requires Returning(s)
    ensures Returning(IdentityObserved(s, obs, account, known))
  {
    hide ReturnsOf, FinishCapture;
    if Accepts(s, obs, account) {
      var empty := s.(ctx := s.ctx.(emptyCaptures := s.ctx.emptyCaptures + 1));
      var written := Log(s, NicknameWritten(account, obs.nickname, obs.captureId));
      PlainKeeps(s, NicknameWritten(account, obs.nickname, obs.captureId));
      FinishKeeps(empty, Observed);
      FinishKeeps(written, Observed);
      FinishKeeps(s, Observed);
    }
  }

  lemma RestartKeeps(s: Session)
    requires Returning(s)
    ensures Returning(RestartSession(s))
  {
    hide ReturnsOf;
    ReturnsAppend(s.trace, SessionReset);
  }

  lemma StepKeeps(cfg: Config, s: Session, i: Input)
    requires Returning(s)
    ensures Returning(Step(cfg, s, i))
  {
    hide HomeArrived, ItemsArrived, ActionCompleted, Admit, PushSettled, StallExpired, CardsArrived, IdentityObserved;
    hide FinishCapture, RestartSession, ReturnsOf;
    match i
    case DetectedIn(epoch, hard, busy) => AdmitKeeps(s, Admission(epoch), hard, busy);
    case MicrotaskIn(hard, busy) =>
      if s.microtasks != [] {
        AdmitKeeps(s.(microtasks := s.microtasks[1..]), s.microtasks[0], hard, busy);
      }
    case HomeIn(counts) => HomeKeeps(cfg, s, counts);
    case ItemsIn(items) => ItemsKeep(cfg, s, items);
    case ActionIn(action, ok) => ActionKeeps(s, action, ok);
    case StallTimerIn => StallKeeps(cfg, s);
    case PushSettledIn(index, ok) => if index < |s.pushes| { SettledKeeps(s, index, ok); }
    case CardsIn(id, plan, account, captureId, sent) => CardsKeep(s, id, plan, account, captureId, sent);
    case IdentityIn(obs, account, known) => IdentityKeeps(s, obs, account, known);
    case CaptureTimerIn =>
      if s.ctx.captureInFlight { FinishKeeps(s.(ctx := s.ctx.(captureTimer := false)), TimedOut); }
    case RestartSessionIn => RestartKeeps(s);
    case _ =>
  }

  lemma {:induction false} RunKeeps(cfg: Config, inputs: seq<Input>)
    ensures Returning(Run(cfg, InitialSession, inputs))
  {
    hide Step;
    if inputs != [] {
      RunKeeps(cfg, inputs[..|inputs| - 1]);
      hide Returning;
      StepKeeps(cfg, Run(cfg, InitialSession, inputs[..|inputs| - 1]), inputs[|inputs| - 1]);
    }
  }

  // ---------- what legality says about positions in the log ----------

  lemma {:induction false} LegalAt(t: seq<Event>, k: nat)
    requires k < |t| && ReturnsOf(t).legal
    ensures ReturnsOf(t[..k]).legal && Allowed(ReturnsOf(t[..k]), t[k])
    ensures ReturnsOf(t[..k + 1]) == Next(ReturnsOf(t[..k]), t[k])
    decreases |t|
  {
    var init := t[..|t| - 1];
    if k < |t| - 1 {
      LegalAt(init, k);
      assert init[..k] == t[..k] && init[..k + 1] == t[..k + 1];
    } else {
      assert t[..k + 1] == t;
    }
  }

  predicate Bounds(e: Event) {
    e.CaptureArmed? || e.CaptureFinished? || e.SessionReset?
  }

  /** The capture under way was armed at some position and requested at the next, with no end or reset since. */
  lemma {:induction false} UnderWaySince(t: seq<Event>) returns (i: nat)
    requires ReturnsOf(t).legal && ReturnsOf(t).plan.Some? && !ReturnsOf(t).armed
    ensures i + 1 < |t| && t[i].CaptureArmed? && t[i + 1].CaptureRequested? && ReturnsOf(t).plan == Some(t[i + 1].plan)
    ensures forall m :: i < m < |t| ==> !Bounds(t[m])
  {
    var n := |t| - 1;
    if t[n].CaptureRequested? {
      ArmedLast(t[..n]);
      i := n - 1;
    } else {
      i := UnderWaySince(t[..n]);
    }
  }

  lemma ArmedLast(t: seq<Event>)
    requires ReturnsOf(t).armed
    ensures t != [] && t[|t| - 1].CaptureArmed?
  {
  }

  /** A return was called for by the event just before it. */
  lemma DueLast(t: seq<Event>)
    requires ReturnsOf(t).due != NoReturn
    ensures t != [] && (t[|t| - 1].ExcursionEnded? || t[|t| - 1].CaptureFinished?)
  {
  }

  /**
   Over any run, each capture that finishes was armed and requested before, with nothing armed, finished or reset in
   between; its end is followed at once by a return to the feed exactly when its command had left the feed.
   */
  lemma FinishReturnsExactly(cfg: Config, inputs: seq<Input>, j: nat) returns (i: nat)
    requires var t := Run(cfg, InitialSession, inputs).trace; j < |t| && t[j].CaptureFinished?
    ensures var t := Run(cfg, InitialSession, inputs).trace;
            && i + 1 < j && t[i].CaptureArmed? && t[i + 1].CaptureRequested?
            && (forall m :: i < m < j ==> !Bounds(t[m]))
            && (t[i + 1].plan.restore == RestoreFeed ==> j + 1 < |t| && t[j + 1] == CaptureReturn(t[j].how))
            && (t[i + 1].plan.restore == RestoreNone ==> j + 1 < |t| ==> !t[j + 1].FeedEntered?)
  {
    RunKeeps(cfg, inputs);
    hide Run, ReturnsOf;
    var t := Run(cfg, InitialSession, inputs).trace;
    LegalAt(t, j);
    i := UnderWaySince(t[..j]);
    if j + 1 < |t| {
      LegalAt(t, j + 1);
    } else {
      assert t[..j + 1] == t;
    }
  }

  /** Every return to the feed is announced right after the end of an excursion or of a capture. */
  lemma ReturnFollowsAnEnd(cfg: Config, inputs: seq<Input>, k: nat)
    requires var t := Run(cfg, InitialSession, inputs).trace; k < |t| && t[k].FeedEntered?
    ensures var t := Run(cfg, InitialSession, inputs).trace;
            k > 0 && (t[k - 1].ExcursionEnded? || t[k - 1].CaptureFinished?)
  {
    RunKeeps(cfg, inputs);
    hide Run, ReturnsOf;
    var t := Run(cfg, InitialSession, inputs).trace;
    LegalAt(t, k);
    DueLast(t[..k]);
  }

  /** A return to the feed that the capture armed at position `i` announces. */
  predicate ReturnsFor(t: seq<Event>, i: nat, k: nat) {
    && i < k < |t| && t[i].CaptureArmed? && (forall m :: i < m < k ==> !t[m].CaptureArmed?)
    && t[k].FeedEntered? && !t[k - 1].ExcursionEnded?
  }

  /** The announcement follows an end of its own, which answers the arming at `a`. */
  ghost predicate Answers(t: seq<Event>, a: nat, k: nat) {
    && a + 1 < k <= |t| && t[a].CaptureArmed? && t[k - 1].CaptureFinished?
    && forall m :: a < m < k - 1 ==> !Bounds(t[m])
  }

  lemma ReturnAnswers(cfg: Config, inputs: seq<Input>, i: nat, k: nat) returns (a: nat)
    requires ReturnsFor(Run(cfg, InitialSession, inputs).trace, i, k)
    ensures Answers(Run(cfg, InitialSession, inputs).trace, a, k)
  {
    hide Run;
    ReturnFollowsAnEnd(cfg, inputs, k);
    a := FinishReturnsExactly(cfg, inputs, k - 1);
  }

  /** Over any run, at most one return to the feed is announced for each capture. */
  lemma CaptureReturnsAtMostOnce(cfg: Config, inputs: seq<Input>, i: nat, k: nat, k': nat)
    requires ReturnsFor(Run(cfg, InitialSession, inputs).trace, i, k)
    requires ReturnsFor(Run(cfg, InitialSession, inputs).trace, i, k')
    ensures k == k'
  {
    hide Run, ReturnsFor, Answers;
    var t := Run(cfg, InitialSession, inputs).trace;
    var a := ReturnAnswers(cfg, inputs, i, k);
    var a' := ReturnAnswers(cfg, inputs, i, k');
    OneReturn(t, i, k, k', a');
    OneReturn(t, i, k', k, a);
  }

  /** A later return would need an arming of its own. */
  lemma OneReturn(t: seq<Event>, i: nat, k: nat, k': nat, a': nat)
    requires ReturnsFor(t, i, k) && ReturnsFor(t, i, k') && (exists a :: Answers(t, a, k)) && Answers(t, a', k')
    ensures k >= k'
  {
  }
}
