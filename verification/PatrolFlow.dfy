/** What reaches the notification channel, what the self-capture may do, and where the two protocols collide. */
module PatrolFlow {
  import opened Wrappers
  import opened PatrolModel
  import opened PatrolAudit
  import opened PatrolInvariant
  import opened PatrolSafety

  // ---------- from an arriving batch to the notify call ----------

  /** How often an item of the batch is due: once per occurrence, unless dropped by the filter or already notified. */
  function Due(ctx: Context, items: seq<Item>, it: Item): nat {
    if it.filter.Worthy? && !IsNotified(ctx, it.key) then multiset(items)[it] else 0
  }

  lemma {:induction false} WorthyCounts(items: seq<Item>, it: Item)
    ensures multiset(WorthyOf(items))[it] == if it.filter.Worthy? then multiset(items)[it] else 0
  {
    if items != [] {
      WorthyCounts(items[1..], it);
      assert items == [items[0]] + items[1..];
    }
  }

  lemma {:induction false} UnseenCounts(ctx: Context, items: seq<Item>, it: Item)
    ensures multiset(UnseenOf(ctx, items))[it] == if IsNotified(ctx, it.key) then 0 else multiset(items)[it]
  {
    if items != [] {
      UnseenCounts(ctx, items[1..], it);
      assert items == [items[0]] + items[1..];
    }
  }

  lemma HandledAddsNoPush(s: Session, cat: Category, epoch: int)
    ensures EmitCategoryHandled(s, cat, epoch).pushes == s.pushes
  {
  }

  /**
   A batch that arrives while the last selection is comments is pushed to the last item: every worthy item
   not notified before is in the push, as often as it occurs in the batch, and nothing else is.
   */
  lemma BatchIsPushed(cfg: Config, s: Session, items: seq<Item>) returns (pushed: seq<Item>)
    requires Patrolling(s) && cfg.notifyWired
    requires s.ctx.excursion.selected == Some(Comments) && !AnyThrows(items)
    ensures forall it :: multiset(pushed)[it] == Due(s.ctx, items, it)
    ensures Step(cfg, s, ItemsIn(items)).pushes ==
              s.pushes + if pushed == [] then [] else [Push(pushed, Epoch(s))]
  {
    var worthy := WorthyOf(items);
    var s1 := Log(s, Classified(worthy, Epoch(s)));
    pushed := UnseenOf(s1.ctx, worthy);
    forall it ensures multiset(pushed)[it] == Due(s.ctx, items, it) {
      WorthyCounts(items, it);
      UnseenCounts(s.ctx, worthy, it);
    }
    if pushed == [] {
      HandledAddsNoPush(Log(s1, AllSeen(Epoch(s))), Comments, Epoch(s));
    }
  }

  function WithKey(items: seq<Item>, key: string): nat {
    if items == [] then 0 else (if items[0].key == key then 1 else 0) + WithKey(items[1..], key)
  }

  lemma {:induction false} UnseenWithKey(ctx: Context, items: seq<Item>, key: string)
    ensures WithKey(UnseenOf(ctx, items), key) == if IsNotified(ctx, key) then 0 else WithKey(items, key)
  {
    if items != [] {
      var rest := UnseenOf(ctx, items[1..]);
      UnseenWithKey(ctx, items[1..], key);
      assert ([items[0]] + rest)[1..] == rest && [] + rest == rest;
    }
  }

  /**
   Where deduplication stops: a key is pushed exactly as often as worthy items of the batch have it, unless a push with
   it has already succeeded; pushes of the same key that are still outstanding do not count.
   */
  lemma RepeatedKeyExactly(cfg: Config, s: Session, items: seq<Item>, key: string) returns (pushed: seq<Item>)
    requires Patrolling(s) && cfg.notifyWired
    requires s.ctx.excursion.selected == Some(Comments) && !AnyThrows(items)
    ensures WithKey(pushed, key) == if IsNotified(s.ctx, key) then 0 else WithKey(WorthyOf(items), key)
    ensures Step(cfg, s, ItemsIn(items)).pushes ==
              s.pushes + if pushed == [] then [] else [Push(pushed, Epoch(s))]
  {
    var worthy := WorthyOf(items);
    var s1 := Log(s, Classified(worthy, Epoch(s)));
    pushed := UnseenOf(s1.ctx, worthy);
    UnseenWithKey(s.ctx, worthy, key);
    if pushed == [] {
      HandledAddsNoPush(Log(s1, AllSeen(Epoch(s))), Comments, Epoch(s));
    }
  }

  /** A batch that arrives while any other category, or none, is selected changes nothing the notifier can see. */
  lemma OtherBatchIsNotPushed(cfg: Config, s: Session, items: seq<Item>)
    requires s.ctx.excursion.selected != Some(Comments)
    ensures var s' := Step(cfg, s, ItemsIn(items)); s'.trace == s.trace && s'.pushes == s.pushes
  {
  }

  /**
   Over any run: a push is handed over only for the open excursion while it last selected comments; it never
   contains an item delivered before; it settles at most once; the watermark is exactly what was delivered.
   */
  lemma PushesOverRun(cfg: Config, inputs: seq<Input>)
    ensures var s := Run(cfg, InitialSession, inputs);
            var a := Fold(s.trace);
            && a.notifiedInTurn && a.unseenOnly && a.settlesKnown
            && a.outstanding == multiset(s.pushes)
            && a.delivered == s.ctx.notified
  {
    ReachableInv(cfg, inputs);
  }

  lemma {:induction false} VerdictsOfPrefix(t: seq<Event>, n: nat)
    requires n <= |t|
    ensures Fold(t).notifiedInTurn ==> Fold(t[..n]).notifiedInTurn
    ensures Fold(t).unseenOnly ==> Fold(t[..n]).unseenOnly
    decreases |t| - n
  {
    hide Fold, Alternations, FoldCaptures;
    if n < |t| {
      VerdictsOfPrefix(t, n + 1);
      FoldAppend(t[..n], t[n]);
      assert t[..n + 1] == t[..n] + [t[n]];
    } else {
      assert t[..n] == t;
    }
  }

  /** The same, read off any position of the log at which notify was called. */
  lemma NotifyInTurn(cfg: Config, inputs: seq<Input>, k: nat)
    requires var t := Run(cfg, InitialSession, inputs).trace; k < |t| && t[k].NotifyCalled?
    ensures var t := Run(cfg, InitialSession, inputs).trace;
            var before := Fold(t[..k]);
            && Alternations(t[..k]).open == Some(t[k].epoch) && before.selected == Some(Comments)
            && KeysOf(t[k].items) !! before.delivered
  {
    ReachableInv(cfg, inputs);
    InTurnAt(Run(cfg, InitialSession, inputs).trace, k);
  }

  lemma InTurnAt(t: seq<Event>, k: nat)
    requires k < |t| && t[k].NotifyCalled? && Fold(t).notifiedInTurn && Fold(t).unseenOnly
    ensures var before := Fold(t[..k]);
            && Alternations(t[..k]).open == Some(t[k].epoch) && before.selected == Some(Comments)
            && KeysOf(t[k].items) !! before.delivered
  {
    hide Fold, Alternations, FoldCaptures;
    VerdictsOfPrefix(t, k + 1);
    FoldAppend(t[..k], t[k]);
    assert t[..k + 1] == t[..k] + [t[k]];
  }

  // ---------- deduplication stops short ----------

  const Demo := Config(3, 1, true)
  const DemoItem := Item("k", Worthy)

  lemma RunOfTwo(cfg: Config, s: Session, a: Input, b: Input)
    ensures Run(cfg, s, [a, b]) == Step(cfg, Step(cfg, s, a), b)
  {
    RunStep(cfg, s, [a], b);
    RunStep(cfg, s, [], a);
    assert [] + [a] == [a] && [a] + [b] == [a, b];
  }

  lemma RunStep(cfg: Config, s: Session, inputs: seq<Input>, i: Input)
    ensures Run(cfg, s, inputs + [i]) == Step(cfg, Run(cfg, s, inputs), i)
  {
    assert (inputs + [i])[..|inputs|] == inputs;
  }

  /** The excursion of epoch `e` has just selected comments. */
  function OnComments(e: int): Session {
    Run(Demo, InitialSession, [DetectedIn(e, false, false), HomeIn(Counts(2, 0, 0))])
  }

  lemma OnCommentsState(e: int)
    ensures var s := OnComments(e);
            && Patrolling(s) && Epoch(s) == e && s.ctx.excursion.selected == Some(Comments)
            && s.pushes == [] && s.ctx.notified == {} && !s.ctx.captureInFlight && s.ctx.suspended
            && s.enricher == InitialSession.enricher && s.ctx.emptyCaptures == 0
  {
    var s1 := Step(Demo, InitialSession, DetectedIn(e, false, false));
    RunOfTwo(Demo, InitialSession, DetectedIn(e, false, false), HomeIn(Counts(2, 0, 0)));
    assert PickFrom(Demo, s1.ctx.excursion, Counts(2, 0, 0), 0) == Some(Comments) by {
      assert PRIORITY[0] == Comments && Selectable(Demo, s1.ctx.excursion, Counts(2, 0, 0), Comments);
    }
  }

  /** One batch with the same comment twice, then the same comment again before the first push settles. */
  lemma OverlappingPushesRepeat()
    ensures Run(Demo, OnComments(1), [ItemsIn([DemoItem, DemoItem]), ItemsIn([DemoItem])]).pushes
              == [Push([DemoItem, DemoItem], 1), Push([DemoItem], 1)]
  {
    OnCommentsState(1);
    var s := OnComments(1);
    var twice, once := [DemoItem, DemoItem], [DemoItem];
    assert twice[1..] == once && once[1..] == [];
    assert WorthyOf(once) == once && WorthyOf(twice) == twice;
    assert UnseenOf(s.ctx, once) == once;
    assert UnseenOf(s.ctx, twice) == twice;
    RunOfTwo(Demo, s, ItemsIn(twice), ItemsIn(once));
    PushesAsIs(s, twice);
    PushesAsIs(Step(Demo, s, ItemsIn(twice)), once);
  }

  lemma PushesAsIs(s: Session, items: seq<Item>)
    requires Patrolling(s) && s.ctx.excursion.selected == Some(Comments) && s.ctx.notified == {}
    requires items != [] && WorthyOf(items) == items && UnseenOf(s.ctx, items) == items && !AnyThrows(items)
    ensures var s' := Step(Demo, s, ItemsIn(items));
            s'.pushes == s.pushes + [Push(items, Epoch(s))] && s'.ctx == s.ctx && s'.subscribed
  {
  }

  // ---------- the excursion against the self-capture ----------

  predicate BothBusy(s: Session) {
    s.ctx.excursion.active && s.ctx.captureInFlight
  }

  /** A report of cards that starts a capture whose command is handed over. */
  predicate StartsCapture(s: Session, i: Input) {
    && i.CardsIn?
    && i.startupId != "" && i.startupId !in s.enricher.consumed && i.plan.Some?
    && !s.ctx.captureInFlight && s.ctx.emptyCaptures < MAX_EMPTY_CAPTURES && i.accountId != ""
  }

  /** The gatekeeper yields to a capture, the capture does not yield to an excursion: this is the one way to get both. */
  lemma CollisionExactly(cfg: Config, s: Session, i: Input)
    requires Inv(cfg, s) && !BothBusy(s)
    ensures BothBusy(Step(cfg, s, i)) <==> s.ctx.excursion.active && StartsCapture(s, i) && i.sent
  {
    hide CardsArrived, ItemsArrived, ActionCompleted, PushSettled, IdentityObserved;
    CaptureStepExactly(cfg, s, i);
    if !Spends(i) && !i.EndSessionIn? && !i.RestartSessionIn? {
      StepOutcome(cfg, s, i);
    }
  }

  predicate EndsCapture(s: Session, i: Input) {
    || i.CaptureTimerIn?
    || i.RestartSessionIn?
    || (i.IdentityIn? && Accepts(s, i.obs, i.accountId))
  }

  /** The step left the capture alone and, unless it ended the excursion, the suspension flag too. */
  predicate SparesCapture(s: Session, s': Session) {
    && s'.ctx.captureInFlight == s.ctx.captureInFlight
    && (s.ctx.excursion.active && s'.ctx.excursion.active ==> s'.ctx.suspended == s.ctx.suspended)
  }

  lemma HandledSparesCapture(s: Session, cat: Category, epoch: int)
    ensures SparesCapture(s, EmitCategoryHandled(s, cat, epoch))
    ensures EmitCategoryHandled(s, cat, epoch).ctx.excursion == s.ctx.excursion
  {
  }

  lemma ItemsSpareCapture(cfg: Config, s: Session, items: seq<Item>)
    ensures SparesCapture(s, ItemsArrived(cfg, s, items))
  {
    hide EmitCategoryHandled;
    var worthy, epoch := WorthyOf(items), Epoch(s);
    var s1 := Log(s, Classified(worthy, epoch));
    HandledSparesCapture(Log(s1, WorthyFound(UnseenOf(s1.ctx, worthy), epoch)), Comments, epoch);
    HandledSparesCapture(Log(s1, AllSeen(epoch)), Comments, epoch);
  }

  lemma HomeSparesCapture(cfg: Config, s: Session, counts: Counts)
    ensures SparesCapture(s, HomeArrived(cfg, s, counts))
  {
    hide PickFrom, GivenUpUpTo;
  }

  lemma CardsCaptureExactly(
    s: Session, id: string, plan: Option<Plan>, account: string, captureId: string, sent: bool)
    requires !s.enricher.awaitingEdge
    ensures CardsArrived(s, id, plan, account, captureId, sent).ctx.captureInFlight <==>
              s.ctx.captureInFlight || (StartsCapture(s, CardsIn(id, plan, account, captureId, sent)) && sent)
  {
  }

  lemma ActionSparesCapture(s: Session, action: Action, ok: bool)
    ensures SparesCapture(s, ActionCompleted(s, action, ok))
  {
    hide EmitCategoryHandled;
    HandledSparesCapture(s, Likes, Epoch(s));
    HandledSparesCapture(s, Follows, Epoch(s));
  }

  lemma AdmitSparesCapture(s: Session, a: Admission, hard: bool, busy: bool)
    ensures SparesCapture(s, Admit(s, a, hard, busy))
  {
  }

  lemma SettledSparesCapture(s: Session, index: nat, ok: bool)
    requires index < |s.pushes|
    ensures SparesCapture(s, PushSettled(s, index, ok))
  {
    hide EmitCategoryHandled, KeysOf, RemoveAt;
    var p := s.pushes[index];
    HandledSparesCapture(MarkPush(s.(pushes := RemoveAt(s.pushes, index)), p, ok), Comments, p.epoch);
  }

  lemma PatrolSparesCapture(cfg: Config, s: Session, i: Input)
    requires !i.CardsIn? && !i.IdentityIn? && !i.CaptureTimerIn? && !i.RestartSessionIn?
    ensures SparesCapture(s, Step(cfg, s, i))
  {
    hide HomeArrived, ItemsArrived, ActionCompleted, Admit, PushSettled;
    match i
    case HomeIn(counts) => HomeSparesCapture(cfg, s, counts);
    case ItemsIn(items) => ItemsSpareCapture(cfg, s, items);
    case PushSettledIn(index, ok) =>
      if index < |s.pushes| { SettledSparesCapture(s, index, ok); }
    case ActionIn(action, ok) => ActionSparesCapture(s, action, ok);
    case DetectedIn(epoch, hard, busy) => AdmitSparesCapture(s, Admission(epoch), hard, busy);
    case MicrotaskIn(hard, busy) =>
      if s.microtasks != [] {
        AdmitSparesCapture(s.(microtasks := s.microtasks[1..]), s.microtasks[0], hard, busy);
      }
    case _ =>
  }

  /** When a capture comes into flight, and when it leaves. */
  lemma CaptureStepExactly(cfg: Config, s: Session, i: Input)
    requires Inv(cfg, s)
    ensures var s' := Step(cfg, s, i);
            s'.ctx.captureInFlight <==>
              if s.ctx.captureInFlight then !EndsCapture(s, i) else StartsCapture(s, i) && i.sent
  {
    hide HomeArrived, ItemsArrived, ActionCompleted, Admit, PushSettled, StallExpired, CardsArrived;
    match i
    case CardsIn(id, plan, account, captureId, sent) => CardsCaptureExactly(s, id, plan, account, captureId, sent);
    case IdentityIn(obs, account, known) =>
    case CaptureTimerIn =>
    case RestartSessionIn =>
    case _ => PatrolSparesCapture(cfg, s, i);
  }

  /** Both protocols can be busy at once: cards from a new browser start arrive during an excursion. */
  lemma CollisionHappens()
    ensures BothBusy(Step(Demo, OnComments(1), CardsIn("boot", Some(DemoPlan), "acc", "c1", true)))
  {
    OnCommentsState(1);
    ReachableInv(Demo, [DetectedIn(1, false, false), HomeIn(Counts(2, 0, 0))]);
    CollisionExactly(Demo, OnComments(1), CardsIn("boot", Some(DemoPlan), "acc", "c1", true));
  }

  const DemoPlan := Plan(ReadSelfProfile, RestoreFeed)

  /** Browsing is thawed in the middle of an excursion exactly when a capture ends, or starts without holding the freeze. */
  lemma EarlyThawExactly(cfg: Config, s: Session, i: Input)
    requires Inv(cfg, s) && Patrolling(s) && s.ctx.suspended && Patrolling(Step(cfg, s, i))
    ensures !Step(cfg, s, i).ctx.suspended <==>
              || (s.ctx.captureInFlight && EndsCapture(s, i))
              || (StartsCapture(s, i) && (!i.sent || i.plan.value.restore == RestoreNone))
  {
    hide HomeArrived, ItemsArrived, ActionCompleted, Admit, PushSettled, StallExpired;
    match i
    case CardsIn(id, plan, account, captureId, sent) =>
    case IdentityIn(obs, account, known) =>
    case CaptureTimerIn =>
    case RestartSessionIn =>
    case _ => PatrolSparesCapture(cfg, s, i);
  }

  lemma DemoCaptureStarts(s: Session)
    requires Patrolling(s) && !s.ctx.captureInFlight && s.enricher == InitialSession.enricher && s.ctx.emptyCaptures == 0
    ensures var s' := Step(Demo, s, CardsIn("boot", Some(DemoPlan), "acc", "c1", true));
            Patrolling(s') && s'.ctx.suspended && s'.ctx.captureInFlight && s'.ctx.captureTimer
  {
  }

  lemma CaptureTimerThawsAtOnce(s: Session)
    requires Patrolling(s) && s.ctx.captureInFlight && s.ctx.captureTimer
    ensures var s' := Step(Demo, s, CaptureTimerIn); Patrolling(s') && !s'.ctx.suspended
  {
  }

  /** Such a run exists: the capture's timer goes off while the excursion it collided with is still running. */
  lemma EarlyThawHappens()
    ensures var s := Run(Demo, OnComments(1), [CardsIn("boot", Some(DemoPlan), "acc", "c1", true)]);
            var s' := Step(Demo, s, CaptureTimerIn);
            Patrolling(s) && s.ctx.suspended && Patrolling(s') && !s'.ctx.suspended
  {
    OnCommentsState(1);
    var cards := CardsIn("boot", Some(DemoPlan), "acc", "c1", true);
    DemoCaptureStarts(OnComments(1));
    CaptureTimerThawsAtOnce(Step(Demo, OnComments(1), cards));
    hide Step, OnComments;
    RunStep(Demo, OnComments(1), [], cards);
    assert [] + [cards] == [cards];
  }

  // ---------- the self-capture on its own ----------

  lemma WindowIsDistinct(ids: seq<string>)
    requires Spaced(ids)
    ensures Distinct(LastIds(ids)) && |LastIds(ids)| <= MAX_STARTUP_IDS
  {
    var w := LastIds(ids);
    assert forall i :: 0 <= i < |w| ==> w[i] == ids[|ids| - |w| + i];
  }

  /**
   Over any run: captures are armed and finished strictly in turn (a session reset drops one), each with an id
   consumed just before; every nickname written answers the id the running capture was requested under; a
   startup id is consumed again only after more than fifty others; empty captures stop at three.
   */
  lemma CapturesOverRun(cfg: Config, inputs: seq<Input>)
    ensures var s := Run(cfg, InitialSession, inputs);
            var a := FoldCaptures(s.trace);
            && a.once && a.answered && a.armsFresh && Spaced(a.ids)
            && a.capturing == s.ctx.captureInFlight == s.ctx.captureTimer
            && s.ctx.emptyCaptures <= MAX_EMPTY_CAPTURES
            && s.enricher.order == LastIds(a.ids) && |s.enricher.order| <= MAX_STARTUP_IDS && Distinct(s.enricher.order)
            && s.enricher.consumed == set id | id in s.enricher.order
  {
    hide Fold, Alternations, FoldCaptures, LastIds, Spaced, Distinct, Run;
    ReachableInv(cfg, inputs);
    WindowIsDistinct(FoldCaptures(Run(cfg, InitialSession, inputs).trace).ids);
  }

  /** Late or foreign observations leave no trace at all. */
  lemma ForeignObservationIgnored(cfg: Config, s: Session, obs: Observation, account: string, known: string)
    requires Inv(cfg, s)
    requires !s.ctx.captureInFlight || s.enricher.captureId != Some(obs.captureId) || obs.accountId != account
    ensures Step(cfg, s, IdentityIn(obs, account, known)) == s
  {
  }

  /** A finished capture returns to the feed at most once, and exactly when its command had left the feed. */
  lemma FinishReturnsOnce(s: Session, how: FinishReason)
    requires s.enricher.plan.Some?
    ensures FinishCapture(s, how).trace == s.trace + [CaptureFinished(how)] +
              if s.enricher.plan.value.restore == RestoreFeed
              then [FeedEntered(Feed, if how == NotSent then SessionStart else BackToFeed, false)] else []
  {
  }

  // ---------- admission and receipts ----------

  /** What an admitted excursion announces at once: browsing is frozen before the home page is opened. */
  function Opening(epoch: int): seq<Event> {
    [ExcursionRequested(epoch), BrowseSuspended(epoch), HomeOpening(epoch, false)]
  }

  /**
   A detection is admitted exactly when nothing stands in its way, and put off exactly when only a comment does.
   An admitted excursion starts frozen, with its timer armed and its budgets full.
   */
  lemma AdmittedExactly(cfg: Config, s: Session, epoch: int, hard: bool, busy: bool)
    requires Inv(cfg, s) && s.subscribed
    ensures var s' := Step(cfg, s, DetectedIn(epoch, hard, busy));
            var free := !hard && !s.ctx.captureInFlight;
            && (if free && !busy && !s.ctx.excursion.active
                then s'.trace == s.trace + Opening(epoch) && Patrolling(s') && s'.ctx.excursion.epoch == Some(epoch)
                     && s'.ctx.suspended && s'.stallTimer && Budget(cfg, s') == 3 * cfg.maxAttempts + cfg.maxStallRecoveries
                else s'.trace == s.trace && s'.ctx == s.ctx)
            && s'.deferred == if free && busy then Some(Admission(epoch)) else s.deferred
  {
    assert s.trace + [ExcursionRequested(epoch)] + [BrowseSuspended(epoch)] + [HomeOpening(epoch, false)]
        == s.trace + Opening(epoch);
  }

  /** A detection put off for a comment starts its excursion once the comment settles, if nothing else is in the way by then. */
  lemma DeferredIsAdmitted(cfg: Config, s: Session, a: Admission)
    requires Inv(cfg, s) && s.subscribed && s.deferred == Some(a) && s.microtasks == []
    requires !s.ctx.captureInFlight && !s.ctx.excursion.active
    ensures var s' := Run(cfg, s, [CommentSettledIn, MicrotaskIn(false, false)]);
            && s'.trace == s.trace + Opening(a.epoch) && Patrolling(s') && s'.ctx.excursion.epoch == Some(a.epoch)
            && s'.deferred == None && s'.microtasks == []
  {
    RunOfTwo(cfg, s, CommentSettledIn, MicrotaskIn(false, false));
    assert s.trace + [ExcursionRequested(a.epoch)] + [BrowseSuspended(a.epoch)] + [HomeOpening(a.epoch, false)]
        == s.trace + Opening(a.epoch);
  }

  /**
   A receipt during an excursion: a failure of any patrol command ends it, a success closes the likes or the follows
   category and returns to the home page, and every other receipt announces nothing.
   */
  lemma ReceiptExactly(cfg: Config, s: Session, action: Action, ok: bool)
    requires Inv(cfg, s) && Patrolling(s)
    ensures var s' := Step(cfg, s, ActionIn(action, ok));
            var epoch := Epoch(s);
            s'.trace == s.trace +
              if action == OtherAction then []
              else if !ok then [ExcursionEnded(epoch, CommandFailed(action)), FeedEntered(s.ctx.sourcePage, BackToFeed, false)]
              else if action == BrowseLikes then [CategoryHandled(Likes, epoch), HomeOpening(epoch, true)]
              else if action == BrowseFollows then [CategoryHandled(Follows, epoch), HomeOpening(epoch, true)]
              else []
  {
    var epoch := Epoch(s);
    assert s.trace + [CategoryHandled(Likes, epoch)] + [HomeOpening(epoch, true)]
        == s.trace + [CategoryHandled(Likes, epoch), HomeOpening(epoch, true)];
    assert s.trace + [CategoryHandled(Follows, epoch)] + [HomeOpening(epoch, true)]
        == s.trace + [CategoryHandled(Follows, epoch), HomeOpening(epoch, true)];
  }
}
