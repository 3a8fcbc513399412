/**
 The patrol as the objects that run it: the shared session context, the roles that keep state, and the bus
 that wires them. Each method does what its role does, step by step, and is proved to have exactly the effect
 of the function of `PatrolModel` its postcondition names. Roles without state of their own are methods of
 the bus.
 */
module PatrolRoles {
  import opened Wrappers
  import opened PatrolModel
  import opened PatrolInvariant
  import M = PatrolModel

  class SessionContext {
    var excursion: Excursion
    var browseSuspended: bool
    var notifiedItemKeys: set<string>
    var sourcePageType: Page
    var pendingNicknameCapture: bool
    var selfCaptureInFlight: bool
    var selfCaptureAttempts: nat
    var selfCaptureTimer: bool

    function View(): Context
      reads this
    {
      Context(excursion, browseSuspended, notifiedItemKeys, sourcePageType, pendingNicknameCapture,
              selfCaptureInFlight, selfCaptureAttempts, selfCaptureTimer)
    }

    constructor ()
      ensures View() == InitialSession.ctx
    {
      excursion := FreshExcursion;
      browseSuspended := false;
      notifiedItemKeys := {};
      sourcePageType := Feed;
      pendingNicknameCapture := false;
      selfCaptureInFlight := false;
      selfCaptureAttempts := 0;
      selfCaptureTimer := false;
    }

    method BeginExcursion(epoch: int)
      modifies this
      ensures View() == old(View()).(excursion := Excursion(true, Some(epoch), Requested, map[], None))
    {
      excursion := Excursion(true, Some(epoch), Requested, map[], None);
    }

    method EndExcursion()
      modifies this
      ensures View() == old(View()).(excursion := FreshExcursion, suspended := false)
    {
      excursion := FreshExcursion;
      browseSuspended := false;
    }

    method IncrementCategoryAttempts(cat: Category)
      modifies this
      ensures var e := old(excursion);
              View() == old(View()).(excursion := e.(attempts := e.attempts[cat := Attempts(e, cat) + 1]))
    {
      var n := (if cat in excursion.attempts then excursion.attempts[cat] else 0) + 1;
      excursion := excursion.(attempts := excursion.attempts[cat := n]);
    }

    method NoteCategorySelected(cat: Category)
      modifies this
      ensures View() == old(View()).(
                excursion := if old(excursion).active then old(excursion).(selected := Some(cat)) else old(excursion))
    {
      if !excursion.active {
        return;
      }
      excursion := excursion.(selected := Some(cat));
    }

    /** Advances the watermark by every non-empty key of the items. */
    method MarkItemsNotified(items: seq<Item>)
      modifies this
      ensures View() == old(View()).(notified := old(notifiedItemKeys) + KeysOf(items))
    {
      for i := 0 to |items|
        invariant View() == old(View()).(notified := old(notifiedItemKeys) + KeysOf(items[..i]))
      {
        KeysOfNext(items, i);
        if items[i].key != "" {
          notifiedItemKeys := notifiedItemKeys + {items[i].key};
        }
      }
      assert items[..|items|] == items;
    }

    method Reset()
      modifies this
      ensures View() == ResetContext(old(View()))
    {
      sourcePageType := Feed;
      excursion := FreshExcursion;
      browseSuspended := false;
      if selfCaptureTimer {
        selfCaptureTimer := false;
      }
      selfCaptureInFlight := false;
    }
  }

  lemma MemoryStaysBounded(cfg: Config, s: Session)
    requires Inv(cfg, s)
    ensures |s.enricher.order| <= MAX_STARTUP_IDS
  {
  }

  lemma KeysOfNext(items: seq<Item>, i: nat)
    requires i < |items|
    ensures KeysOf(items[..i + 1]) == KeysOf(items[..i]) + if items[i].key != "" then {items[i].key} else {}
  {
    assert items[..i + 1] == items[..i] + [items[i]];
  }

  class ExcursionResumer {
    var stallTimer: bool
    var stallRecoveriesUsed: nat

    constructor ()
      ensures !stallTimer && stallRecoveriesUsed == 0
    {
      stallTimer := false;
      stallRecoveriesUsed := 0;
    }

    method NoteProgress(bus: PatrolBus)
      requires bus.resumer == this
      modifies this
      ensures bus.View() == M.NoteProgress(old(bus.View()))
    {
      if !bus.ctx.excursion.active {
        return;
      }
      stallTimer := true;
    }

    method Resume(bus: PatrolBus, epoch: int, reason: EndReason)
      requires bus.resumer == this
      modifies bus.Repr()
      ensures bus.View() == M.Resume(old(bus.View()), epoch, reason)
    {
      if !bus.ctx.excursion.active {
        return;
      }
      stallTimer := false;
      var page := bus.ctx.sourcePageType;
      bus.ctx.EndExcursion();
      stallRecoveriesUsed := 0;
      bus.Log(ExcursionEnded(epoch, reason));
      bus.Log(FeedEntered(page, BackToFeed, bus.ctx.browseSuspended));
    }

    method OnStall(bus: PatrolBus)
      requires bus.resumer == this
      modifies bus.Repr()
      ensures bus.View() == M.StallExpired(bus.cfg, old(bus.View()))
    {
      stallTimer := false;
      if !bus.ctx.excursion.active {
        return;
      }
      var epoch := bus.ctx.excursion.epoch.GetOr(0);
      var phase := bus.ctx.excursion.phase;
      if stallRecoveriesUsed < bus.cfg.maxStallRecoveries {
        stallRecoveriesUsed := stallRecoveriesUsed + 1;
        bus.EmitHomeOpening(epoch, false);
        stallTimer := true;
        return;
      }
      Resume(bus, epoch, Stalled(phase));
    }

    method OnActionCompleted(bus: PatrolBus, action: Action, ok: bool)
      requires bus.resumer == this
      modifies bus.Repr()
      ensures var s := old(bus.View());
              bus.View() == if action == OtherAction then s
                            else if !ok then M.Resume(s, Epoch(s), CommandFailed(action))
                            else M.NoteProgress(s)
    {
      if action == OtherAction {
        return;
      }
      if !ok {
        Resume(bus, bus.ctx.excursion.epoch.GetOr(0), CommandFailed(action));
        return;
      }
      NoteProgress(bus);
    }
  }

  class NotificationGatekeeper {
    var deferredForComment: Option<Admission>

    constructor ()
      ensures deferredForComment == None
    {
      deferredForComment := None;
    }

    method Admit(bus: PatrolBus, a: Admission, hardPaused: bool, commentInflight: bool)
      requires bus.gatekeeper == this
      modifies bus.Repr()
      ensures bus.View() == M.Admit(old(bus.View()), a, hardPaused, commentInflight)
    {
      if hardPaused {
        return;
      }
      if bus.ctx.selfCaptureInFlight {
        return;
      }
      if commentInflight {
        deferredForComment := Some(a);
        return;
      }
      if bus.ctx.excursion.active {
        return;
      }
      bus.ctx.BeginExcursion(a.epoch);
      bus.EmitExcursionRequested(a.epoch);
    }

    method RetryDeferred(bus: PatrolBus)
      requires bus.gatekeeper == this
      modifies bus.Repr()
      ensures bus.View() == M.RetryDeferred(old(bus.View()))
    {
      var d := deferredForComment;
      if d.None? {
        return;
      }
      deferredForComment := None;
      bus.QueueMicrotask(d.value);
    }
  }

  class NicknameEnricher {
    var awaitingEdgeReady: bool
    var activePlan: Option<Plan>
    var activeCaptureId: Option<string>
    var consumedStartupIds: set<string>
    var consumedStartupOrder: seq<string>

    ghost function View(): Enricher
      reads this
    {
      Enricher(awaitingEdgeReady, activePlan, activeCaptureId, consumedStartupIds, consumedStartupOrder)
    }

    constructor ()
      ensures View() == InitialSession.enricher
    {
      awaitingEdgeReady := false;
      activePlan := None;
      activeCaptureId := None;
      consumedStartupIds := {};
      consumedStartupOrder := [];
    }

    method RememberStartupId(bus: PatrolBus, startupId: string)
      requires bus.enricher == this && |consumedStartupOrder| <= MAX_STARTUP_IDS
      modifies bus.Repr()
      ensures bus.View() == M.Remember(old(bus.View()), startupId)
    {
      consumedStartupIds := consumedStartupIds + {startupId};
      consumedStartupOrder := consumedStartupOrder + [startupId];
      ghost var order, ids := consumedStartupOrder, consumedStartupIds;
      while |consumedStartupOrder| > MAX_STARTUP_IDS
        invariant bus.View() == old(bus.View()).(
                    enricher := old(View()).(order := consumedStartupOrder, consumed := consumedStartupIds))
        invariant
          || (consumedStartupOrder == order && consumedStartupIds == ids)
          || (|order| > MAX_STARTUP_IDS && consumedStartupOrder == order[1..] && consumedStartupIds == ids - {order[0]})
      {
        var oldest := consumedStartupOrder[0];
        consumedStartupOrder := consumedStartupOrder[1..];
        consumedStartupIds := consumedStartupIds - {oldest};
      }
      bus.Log(StartupConsumed(startupId));
    }

    method FinishCapture(bus: PatrolBus, how: FinishReason)
      requires bus.enricher == this
      modifies bus.Repr()
      ensures bus.View() == M.FinishCapture(old(bus.View()), how)
    {
      var plan := activePlan;
      bus.ctx.selfCaptureTimer := false;
      awaitingEdgeReady := false;
      activeCaptureId := None;
      activePlan := None;
      bus.ctx.selfCaptureInFlight := false;
      bus.ctx.browseSuspended := false;
      bus.Log(CaptureFinished(how));
      if plan.Some? && plan.value.restore == RestoreFeed {
        bus.Log(FeedEntered(Feed, if how == NotSent then SessionStart else BackToFeed, bus.ctx.browseSuspended));
      }
    }

    method ArmStartupCapture(bus: PatrolBus, startupId: string, plan: Option<Plan>, accountId: string)
      requires bus.enricher == this && |consumedStartupOrder| <= MAX_STARTUP_IDS
      modifies bus.Repr()
      ensures bus.View() == M.Arm(old(bus.View()), startupId, plan, accountId)
    {
      if startupId in consumedStartupIds {
        return;
      }
      if plan.None? {
        RememberStartupId(bus, startupId);
        return;
      }
      if bus.ctx.selfCaptureInFlight || bus.ctx.selfCaptureAttempts >= MAX_EMPTY_CAPTURES || accountId == "" {
        return;
      }
      RememberStartupId(bus, startupId);
      bus.ctx.pendingNicknameCapture := true;
      bus.ctx.browseSuspended := plan.value.restore == RestoreFeed;
      bus.ctx.selfCaptureInFlight := true;
      activePlan := plan;
      awaitingEdgeReady := true;
      bus.ctx.selfCaptureTimer := true;
      bus.Log(CaptureArmed(startupId));
    }

    method OnEdgeReady(bus: PatrolBus, accountId: string, captureId: string, sent: bool)
      requires bus.enricher == this
      modifies bus.Repr()
      ensures bus.View() == M.EdgeReady(old(bus.View()), accountId, captureId, sent)
    {
      if !awaitingEdgeReady || !bus.ctx.selfCaptureInFlight {
        return;
      }
      awaitingEdgeReady := false;
      if accountId == "" {
        FinishCapture(bus, NotSent);
        return;
      }
      var plan := activePlan;
      if plan.None? {
        return;
      }
      activeCaptureId := Some(captureId);
      bus.ctx.selfCaptureTimer := true;
      bus.Log(CaptureRequested(plan.value, captureId));
      if !sent {
        FinishCapture(bus, NotSent);
      }
    }

    method OnIdentityObserved(bus: PatrolBus, obs: Observation, accountId: string, known: string)
      requires bus.enricher == this
      modifies bus.Repr()
      ensures bus.View() == M.IdentityObserved(old(bus.View()), obs, accountId, known)
    {
      if !bus.ctx.selfCaptureInFlight {
        return;
      }
      if accountId == "" || obs.accountId != accountId {
        return;
      }
      if activeCaptureId.None? || activeCaptureId.value == "" || obs.captureId != activeCaptureId.value {
        return;
      }
      if activePlan.None? {
        return;
      }
      if !Expected(activePlan.value, obs) {
        return;
      }
      if obs.nickname != "" {
        if known != obs.nickname {
          bus.Log(NicknameWritten(accountId, obs.nickname, obs.captureId));
        }
      } else {
        bus.ctx.selfCaptureAttempts := bus.ctx.selfCaptureAttempts + 1;
      }
      FinishCapture(bus, Observed);
    }

    method OnTimeout(bus: PatrolBus)
      requires bus.enricher == this
      modifies bus.Repr()
      ensures bus.View() == M.CaptureExpired(old(bus.View()))
    {
      if !bus.ctx.selfCaptureInFlight {
        return;
      }
      bus.ctx.selfCaptureTimer := false;
      FinishCapture(bus, TimedOut);
    }
  }

  /** One wired connection: the bus, the roles on it, the queued microtasks and the pushes still in flight. */
  class PatrolBus {
    const cfg: Config
    const ctx: SessionContext
    const resumer: ExcursionResumer
    const gatekeeper: NotificationGatekeeper
    const enricher: NicknameEnricher
    var subscribed: bool
    var microtasks: seq<Admission>
    var pushes: seq<Push>
    ghost var trace: seq<Event>

    ghost function Repr(): set<object> {
      {this, ctx, resumer, gatekeeper, enricher}
    }

    ghost function View(): Session
      reads this, ctx, resumer, gatekeeper, enricher
    {
      Session(subscribed, ctx.View(), resumer.stallTimer, resumer.stallRecoveriesUsed, gatekeeper.deferredForComment,
              microtasks, pushes, enricher.View(), trace)
    }

    /** The connection is in a state some run can reach. */
    ghost predicate Valid()
      reads Repr()
    {
      Inv(cfg, View())
    }

    constructor (cfg: Config)
      ensures Valid() && this.cfg == cfg && fresh(Repr())
      ensures View() == InitialSession
    {
      this.cfg := cfg;
      ctx := new SessionContext();
      resumer := new ExcursionResumer();
      gatekeeper := new NotificationGatekeeper();
      enricher := new NicknameEnricher();
      subscribed := true;
      microtasks := [];
      pushes := [];
      trace := [];
      new;
      InitialInv(cfg);
    }

    ghost method Log(e: Event)
      modifies this`trace
      ensures View() == M.Log(old(View()), e)
    {
      trace := trace + [e];
    }

    method QueueMicrotask(a: Admission)
      modifies this`microtasks
      ensures microtasks == old(microtasks) + [a]
    {
      microtasks := microtasks + [a];
    }

    // ---------- bus events, each followed by its subscribers in order ----------

    method EmitHomeOpening(epoch: int, back: bool)
      modifies Repr()
      ensures View() == M.EmitHomeOpening(old(View()), epoch, back)
    {
      Log(HomeOpening(epoch, back));
      if subscribed {
        resumer.NoteProgress(this);
      }
    }

    /** The home opener's reaction. */
    method EmitBrowseSuspended(epoch: int)
      modifies Repr()
      ensures View() == M.EmitBrowseSuspended(old(View()), epoch)
    {
      Log(BrowseSuspended(epoch));
      if subscribed {
        ctx.excursion := ctx.excursion.(phase := Opening);
        EmitHomeOpening(epoch, false);
      }
    }

    /** The suspender's reaction, then the resumer's. */
    method EmitExcursionRequested(epoch: int)
      modifies Repr()
      ensures View() == M.EmitExcursionRequested(old(View()), epoch)
    {
      Log(ExcursionRequested(epoch));
      if subscribed {
        ctx.browseSuspended := true;
        ctx.excursion := ctx.excursion.(phase := Suspended);
        EmitBrowseSuspended(epoch);
        resumer.stallRecoveriesUsed := 0;
        resumer.stallTimer := true;
      }
    }

    /** The three category browsers' reaction, then the resumer's. */
    method EmitCategorySelected(cat: Category, epoch: int)
      modifies Repr()
      ensures View() == M.EmitCategorySelected(old(View()), cat, epoch)
    {
      Log(CategorySelected(cat, epoch));
      if subscribed {
        if ctx.excursion.active {
          Log(BrowseCategory(cat, epoch));
        }
        resumer.NoteProgress(this);
      }
    }

    /** Return-home's reaction. */
    method EmitCategoryHandled(cat: Category, epoch: int)
      modifies Repr()
      ensures View() == M.EmitCategoryHandled(old(View()), cat, epoch)
    {
      Log(CategoryHandled(cat, epoch));
      if subscribed && ctx.excursion.active {
        EmitHomeOpening(epoch, true);
      }
    }

    // ---------- triage ----------

    method Triage(counts: Counts)
      modifies Repr()
      ensures View() == M.Triage(cfg, old(View()), counts)
    {
      hide M.EmitCategorySelected, M.Resume;
      if !ctx.excursion.active {
        return;
      }
      var epoch := ctx.excursion.epoch.GetOr(0);
      var givenUp: seq<Category> := [];
      var i := 0;
      while i < |PRIORITY|
        invariant 0 <= i <= |PRIORITY|
        invariant View() == old(View())
        invariant givenUp == GivenUpUpTo(cfg, old(View()).ctx.excursion, counts, i)
        invariant PickFrom(cfg, old(View()).ctx.excursion, counts, 0)
                  == PickFrom(cfg, old(View()).ctx.excursion, counts, i)
      {
        var cat := PRIORITY[i];
        if counts.Of(cat) > 0 {
          var attempts := if cat in ctx.excursion.attempts then ctx.excursion.attempts[cat] else 0;
          if attempts < cfg.maxAttempts {
            ctx.IncrementCategoryAttempts(cat);
            ctx.NoteCategorySelected(cat);
            EmitCategorySelected(cat, epoch);
            return;
          }
          givenUp := givenUp + [cat];
        }
        i := i + 1;
      }
      resumer.Resume(this, epoch, if |givenUp| > 0 then TriageIncomplete(givenUp) else TriageDone);
    }

    // ---------- classifier, deduper, notifier ----------

    method Notify(items: seq<Item>, epoch: int)
      modifies Repr()
      ensures View() == M.Notify(cfg, old(View()), items, epoch)
    {
      if cfg.notifyWired {
        Log(NotifyCalled(items, epoch));
        pushes := pushes + [Push(items, epoch)];
      } else {
        EmitCategoryHandled(Comments, epoch);
      }
    }

    method Dedupe(worthy: seq<Item>, epoch: int)
      modifies Repr()
      ensures View() == M.Dedupe(cfg, old(View()), worthy, epoch)
    {
      if !ctx.excursion.active {
        return;
      }
      var unseen := UnseenOf(ctx.View(), worthy);
      if |unseen| > 0 {
        Log(WorthyFound(unseen, epoch));
        Notify(unseen, epoch);
      } else {
        Log(AllSeen(epoch));
        EmitCategoryHandled(Comments, epoch);
      }
    }

    method Classify(items: seq<Item>)
      modifies Repr()
      ensures View() == M.Classify(cfg, old(View()), items)
    {
      if !ctx.excursion.active {
        return;
      }
      var epoch := ctx.excursion.epoch.GetOr(0);
      if ctx.excursion.selected != Some(Comments) {
        return;
      }
      if AnyThrows(items) {
        resumer.Resume(this, epoch, ClassifyFailed);
        return;
      }
      var worthy := WorthyOf(items);
      Log(Classified(worthy, epoch));
      Dedupe(worthy, epoch);
    }

    /** The rest of the notifier's push, once its promise has settled. */
    method OnPushSettled(i: nat, ok: bool)
      requires i < |pushes|
      modifies Repr()
      ensures View() == M.PushSettled(old(View()), i, ok)
    {
      var p := pushes[i];
      pushes := RemoveAt(pushes, i);
      if ok {
        ctx.MarkItemsNotified(p.items);
        Log(Notified(p.items, p.epoch));
      } else {
        Log(NotifyFailed(p.items, p.epoch));
      }
      EmitCategoryHandled(Comments, p.epoch);
    }

    /** The like browser's and the follow browser's reaction to a receipt. */
    method OnBrowserReceipt(action: Action, ok: bool)
      modifies Repr()
      ensures View() == M.BrowserReceipt(old(View()), action, ok)
    {
      if action == BrowseLikes && ok && ctx.excursion.active {
        EmitCategoryHandled(Likes, ctx.excursion.epoch.GetOr(0));
      }
      if action == BrowseFollows && ok && ctx.excursion.active {
        EmitCategoryHandled(Follows, ctx.excursion.epoch.GetOr(0));
      }
    }

    // ---------- what arrives from outside ----------

    method OnCards(startupId: string, plan: Option<Plan>, accountId: string, captureId: string, sent: bool)
      requires |enricher.consumedStartupOrder| <= MAX_STARTUP_IDS
      modifies Repr()
      ensures View() == M.CardsArrived(old(View()), startupId, plan, accountId, captureId, sent)
    {
      if startupId != "" {
        enricher.ArmStartupCapture(this, startupId, plan, accountId);
      }
      enricher.OnEdgeReady(this, accountId, captureId, sent);
    }

    method EndSession()
      modifies Repr()
      ensures View() == M.EndSession(old(View()))
    {
      if !subscribed {
        return;
      }
      subscribed := false;
      resumer.stallTimer := false;
      resumer.stallRecoveriesUsed := 0;
      gatekeeper.deferredForComment := None;
    }

    method RestartSession()
      modifies Repr()
      ensures View() == M.RestartSession(old(View()))
    {
      EndSession();
      ctx.Reset();
      subscribed := true;
      Log(SessionReset);
    }

    /**
     Delivers one input from outside. The connection then is exactly where the step function puts it, and still
     satisfies the invariant of `PatrolInvariant`.
     */
    method Receive(i: Input)
      requires Valid()
      modifies Repr()
      ensures Valid()
      ensures View() == Step(cfg, old(View()), i)
    {
      StepKeepsInv(cfg, View(), i);
      MemoryStaysBounded(cfg, View());
      hide Inv, Step;
      Dispatch(i);
    }

    method Dispatch(i: Input)
      requires |enricher.consumedStartupOrder| <= MAX_STARTUP_IDS
      modifies Repr()
      ensures View() == Step(cfg, old(View()), i)
    {
      hide M.Admit, M.RetryDeferred, M.Triage, M.NoteProgress, M.Classify, M.BrowserReceipt, M.Resume, M.StallExpired,
           M.PushSettled, M.CardsArrived, M.IdentityObserved, M.CaptureExpired, M.EndSession, M.RestartSession,
           M.HomeArrived, M.ItemsArrived, M.ActionCompleted;
      match i
      case DetectedIn(epoch, hard, busy) =>
        if subscribed { gatekeeper.Admit(this, Admission(epoch), hard, busy); }
      case CommentSettledIn =>
        if subscribed { gatekeeper.RetryDeferred(this); }
      case MicrotaskIn(hard, busy) =>
        if microtasks != [] {
          var a := microtasks[0];
          microtasks := microtasks[1..];
          gatekeeper.Admit(this, a, hard, busy);
        }
      case HomeIn(counts) => OnHome(counts);
      case ItemsIn(items) => OnItems(items);
      case ActionIn(action, ok) => OnAction(action, ok);
      case StallTimerIn =>
        if resumer.stallTimer { resumer.OnStall(this); }
      case PushSettledIn(index, ok) =>
        if index < |pushes| { OnPushSettled(index, ok); }
      case SourcePageIn(page) => ctx.sourcePageType := page;
      case EndSessionIn => EndSession();
      case RestartSessionIn => RestartSession();
      case _ => DispatchCapture(i);
    }

    method DispatchCapture(i: Input)
      requires |enricher.consumedStartupOrder| <= MAX_STARTUP_IDS
      requires i.CardsIn? || i.IdentityIn? || i.CaptureTimerIn?
      modifies Repr()
      ensures View() == Step(cfg, old(View()), i)
    {
      hide M.CardsArrived, M.IdentityObserved, M.CaptureExpired;
      match i
      case CardsIn(id, plan, account, captureId, sent) => OnCards(id, plan, account, captureId, sent);
      case IdentityIn(obs, account, known) => enricher.OnIdentityObserved(this, obs, account, known);
      case CaptureTimerIn =>
        if ctx.selfCaptureTimer { enricher.OnTimeout(this); }
    }

    method OnHome(counts: Counts)
      modifies Repr()
      ensures View() == M.HomeArrived(cfg, old(View()), counts)
    {
      hide M.Triage, M.NoteProgress;
      if subscribed {
        Triage(counts);
        resumer.NoteProgress(this);
      }
    }

    method OnItems(items: seq<Item>)
      modifies Repr()
      ensures View() == M.ItemsArrived(cfg, old(View()), items)
    {
      hide M.Classify, M.NoteProgress;
      if subscribed {
        Classify(items);
        resumer.NoteProgress(this);
      }
    }

    method OnAction(action: Action, ok: bool)
      modifies Repr()
      ensures View() == M.ActionCompleted(old(View()), action, ok)
    {
      hide M.BrowserReceipt, M.NoteProgress, M.Resume;
      if subscribed {
        OnBrowserReceipt(action, ok);
        resumer.OnActionCompleted(this, action, ok);
      }
    }
  }
}
