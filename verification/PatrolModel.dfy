/**
 The notification excursion ("patrol"), together with the self-capture of the account's nickname that
 writes the same browse-suspension flag.

 The event bus delivers synchronously and depth first, so the reaction to one input from outside (an edge
 report, a receipt, a timer, a settled promise) is one step. Each `Emit…` function below is one bus event:
 it logs the event and then lets the subscribed roles react, in the order in which they were registered
 (gatekeeper, suspender, home opener, triage, the three browsers, classifier, deduper, notifier,
 return-home, resumer). Roles react only while the session is subscribed; the enricher is subscribed for
 the life of the connection.
 */
module PatrolModel {
  import opened Wrappers

  // ---------- values ----------

  datatype Category = Comments | Likes | Follows

  datatype Phase = Idle | Requested | Suspended | Opening

  datatype Page = Feed | Search

  datatype Action =
    | OpenNotifications | BrowseComments | BrowseLikes | BrowseFollows | BackHome
    | OtherAction

  /** What the classifier's per-item text filter answers: keep, drop, or throw. */
  datatype Filter = Worthy | Unworthy | Throws

  /** `key` is the deduplication key the source computes for the item. */
  datatype Item = Item(key: string, filter: Filter)

  datatype EndReason =
    | TriageDone
    | TriageIncomplete(givenUp: seq<Category>)
    | ClassifyFailed
    | CommandFailed(action: Action)
    | Stalled(phase: Phase)

  datatype Trigger = SessionStart | BackToFeed

  datatype Restore = RestoreNone | RestoreFeed

  datatype Command = ReadCurrentPage | ReadSelfProfile

  datatype Plan = Plan(command: Command, restore: Restore)

  datatype Source = FromCurrentPage | FromSelfProfile

  datatype PageEffect = NoEffect | NavigatedSelfProfile

  datatype Observation = Observation(accountId: string, captureId: string, source: Source, effect: PageEffect, nickname: string)

  datatype FinishReason = Observed | NotSent | TimedOut

  /** Unread counts of the three tabs, as the edge reports them. */
  datatype Counts = Counts(comments: int, likes: int, follows: int) {
    function Of(cat: Category): int {
      match cat
      case Comments => comments
      case Likes => likes
      case Follows => follows
    }
  }

  /** Bus events, calls to the outside, and the marks a run leaves where the source only writes a log line
      (a failed notify, a startup id consumed, a capture armed or finished, a session reset). */
  datatype Event =
    | ExcursionRequested(epoch: int)
    | BrowseSuspended(epoch: int)
    | HomeOpening(epoch: int, back: bool)
    | CategorySelected(cat: Category, epoch: int)
    | BrowseCategory(cat: Category, epoch: int)
    | Classified(items: seq<Item>, epoch: int)
    | WorthyFound(items: seq<Item>, epoch: int)
    | AllSeen(epoch: int)
    | NotifyCalled(items: seq<Item>, epoch: int)
    | Notified(items: seq<Item>, epoch: int)
    | NotifyFailed(items: seq<Item>, epoch: int)
    | CategoryHandled(cat: Category, epoch: int)
    | ExcursionEnded(epoch: int, reason: EndReason)
      /** `frozen` records the suspension flag at the moment of the emit. */
    | FeedEntered(page: Page, trigger: Trigger, frozen: bool)
    | StartupConsumed(startupId: string)
    | CaptureArmed(startupId: string)
    | CaptureRequested(plan: Plan, captureId: string)
      /** `answering` is the capture id of the observation that carried the nickname. */
    | NicknameWritten(accountId: string, nickname: string, answering: string)
    | CaptureFinished(how: FinishReason)
    | SessionReset

  // ---------- state ----------

  datatype Excursion = Excursion(
    active: bool, epoch: Option<int>, phase: Phase, attempts: map<Category, nat>, selected: Option<Category>)

  const FreshExcursion := Excursion(false, None, Idle, map[], None)

  /** The part of the session context that the excursion and the self-capture share. */
  datatype Context = Context(
    excursion: Excursion,
    suspended: bool,
    notified: set<string>,
    sourcePage: Page,
    pendingNickname: bool,
    captureInFlight: bool,
    emptyCaptures: nat,
    captureTimer: bool)

  datatype Admission = Admission(epoch: int)

  /** A notify call whose promise has not settled. */
  datatype Push = Push(items: seq<Item>, epoch: int)

  datatype Enricher = Enricher(
    awaitingEdge: bool, plan: Option<Plan>, captureId: Option<string>, consumed: set<string>, order: seq<string>)

  datatype Session = Session(
    subscribed: bool,
    ctx: Context,
    stallTimer: bool,
    stallUsed: nat,
    deferred: Option<Admission>,
    microtasks: seq<Admission>,
    pushes: seq<Push>,
    enricher: Enricher,
    trace: seq<Event>)

  /** Constructor options. A negative limit in the source behaves as zero. */
  datatype Config = Config(maxAttempts: nat, maxStallRecoveries: nat, notifyWired: bool)

  const MAX_EMPTY_CAPTURES: nat := 3
  const MAX_STARTUP_IDS: nat := 50

  const InitialSession := Session(
    true,
    Context(FreshExcursion, false, {}, Feed, false, false, 0, false),
    false, 0, None, [], [], Enricher(false, None, None, {}, []), [])

  function Log(s: Session, e: Event): Session {
    s.(trace := s.trace + [e])
  }

  function Epoch(s: Session): int {
    s.ctx.excursion.epoch.GetOr(0)
  }

  // ---------- resumer ----------

  function NoteProgress(s: Session): Session {
    if s.ctx.excursion.active then s.(stallTimer := true) else s
  }

  function EmitHomeOpening(s: Session, epoch: int, back: bool): Session {
    var s := Log(s, HomeOpening(epoch, back));
    if s.subscribed then NoteProgress(s) else s
  }

  /** The single point of convergence: ends the excursion once, whatever asked for it. */
  function Resume(s: Session, epoch: int, reason: EndReason): Session {
    if !s.ctx.excursion.active then s else
      var page := s.ctx.sourcePage;
      var s := s.(ctx := s.ctx.(excursion := FreshExcursion, suspended := false), stallTimer := false, stallUsed := 0);
      var s := Log(s, ExcursionEnded(epoch, reason));
      Log(s, FeedEntered(page, BackToFeed, s.ctx.suspended))
  }

  function StallExpired(cfg: Config, s: Session): Session {
    var s := s.(stallTimer := false);
    if !s.ctx.excursion.active then s
    else if s.stallUsed < cfg.maxStallRecoveries then
      EmitHomeOpening(s.(stallUsed := s.stallUsed + 1), Epoch(s), false).(stallTimer := true)
    else Resume(s, Epoch(s), Stalled(s.ctx.excursion.phase))
  }

  // ---------- gatekeeper, suspender, home opener ----------

  function EmitBrowseSuspended(s: Session, epoch: int): Session {
    var s := Log(s, BrowseSuspended(epoch));
    if !s.subscribed then s else
      EmitHomeOpening(s.(ctx := s.ctx.(excursion := s.ctx.excursion.(phase := Opening))), epoch, false)
  }

  function EmitExcursionRequested(s: Session, epoch: int): Session {
    var s := Log(s, ExcursionRequested(epoch));
    if !s.subscribed then s else
      var s := s.(ctx := s.ctx.(suspended := true, excursion := s.ctx.excursion.(phase := Suspended)));
      EmitBrowseSuspended(s, epoch).(stallUsed := 0, stallTimer := true)
  }

  function Admit(s: Session, a: Admission, hardPaused: bool, commentInflight: bool): Session {
    if hardPaused || s.ctx.captureInFlight then s
    else if commentInflight then s.(deferred := Some(a))
    else if s.ctx.excursion.active then s
    else
      EmitExcursionRequested(
        s.(ctx := s.ctx.(excursion := Excursion(true, Some(a.epoch), Requested, map[], None))), a.epoch)
  }

  function RetryDeferred(s: Session): Session {
    match s.deferred
    case None => s
    case Some(a) => s.(deferred := None, microtasks := s.microtasks + [a])
  }

  // ---------- triage and browsers ----------

  const PRIORITY: seq<Category> := [Comments, Likes, Follows]

  function Attempts(e: Excursion, cat: Category): nat {
    if cat in e.attempts then e.attempts[cat] else 0
  }

  predicate Selectable(cfg: Config, e: Excursion, counts: Counts, cat: Category) {
    counts.Of(cat) > 0 && Attempts(e, cat) < cfg.maxAttempts
  }

  predicate GivenUp(cfg: Config, e: Excursion, counts: Counts, cat: Category) {
    counts.Of(cat) > 0 && Attempts(e, cat) >= cfg.maxAttempts
  }

  /** The highest-priority category that still has unread items and attempts left, from position `i` on. */
  function PickFrom(cfg: Config, e: Excursion, counts: Counts, i: nat): (r: Option<Category>)
    decreases |PRIORITY| - i
  {
    if i >= |PRIORITY| then None
    else if Selectable(cfg, e, counts, PRIORITY[i]) then Some(PRIORITY[i])
    else PickFrom(cfg, e, counts, i + 1)
  }

  function GivenUpUpTo(cfg: Config, e: Excursion, counts: Counts, i: nat): (r: seq<Category>)
    requires i <= |PRIORITY|
  {
    if i == 0 then []
    else
      GivenUpUpTo(cfg, e, counts, i - 1) + if GivenUp(cfg, e, counts, PRIORITY[i - 1]) then [PRIORITY[i - 1]] else []
  }

  function EmitCategorySelected(s: Session, cat: Category, epoch: int): Session {
    var s := Log(s, CategorySelected(cat, epoch));
    if !s.subscribed then s else
      var s := if s.ctx.excursion.active then Log(s, BrowseCategory(cat, epoch)) else s;
      NoteProgress(s)
  }

  function Select(s: Session, cat: Category): Session {
    var e := s.ctx.excursion;
    var e := e.(attempts := e.attempts[cat := Attempts(e, cat) + 1]);
    var e := if e.active then e.(selected := Some(cat)) else e;
    EmitCategorySelected(s.(ctx := s.ctx.(excursion := e)), cat, Epoch(s))
  }

  function Triage(cfg: Config, s: Session, counts: Counts): Session {
    if !s.ctx.excursion.active then s else
      match PickFrom(cfg, s.ctx.excursion, counts, 0)
      case Some(cat) => Select(s, cat)
      case None =>
        var givenUp := GivenUpUpTo(cfg, s.ctx.excursion, counts, |PRIORITY|);
        // The triage-done event has one subscriber, the resumer, which reads the given-up list off it.
        Resume(s, Epoch(s), if |givenUp| > 0 then TriageIncomplete(givenUp) else TriageDone)
  }

  function HomeArrived(cfg: Config, s: Session, counts: Counts): Session {
    if !s.subscribed then s else NoteProgress(Triage(cfg, s, counts))
  }

  // ---------- classifier, deduper, notifier, return-home ----------

  function EmitCategoryHandled(s: Session, cat: Category, epoch: int): Session {
    var s := Log(s, CategoryHandled(cat, epoch));
    if s.subscribed && s.ctx.excursion.active then EmitHomeOpening(s, epoch, true) else s
  }

  predicate IsNotified(ctx: Context, key: string) {
    key != "" && key in ctx.notified
  }

  function WorthyOf(items: seq<Item>): (r: seq<Item>) {
    if items == [] then []
    else (if items[0].filter.Worthy? then [items[0]] else []) + WorthyOf(items[1..])
  }

  function UnseenOf(ctx: Context, items: seq<Item>): (r: seq<Item>) {
    if items == [] then []
    else (if IsNotified(ctx, items[0].key) then [] else [items[0]]) + UnseenOf(ctx, items[1..])
  }

  /** The notifier: hands the batch to the injected closure, or closes the category at once without one. */
  function Notify(cfg: Config, s: Session, items: seq<Item>, epoch: int): Session {
    if cfg.notifyWired then Log(s, NotifyCalled(items, epoch)).(pushes := s.pushes + [Push(items, epoch)])
    else EmitCategoryHandled(s, Comments, epoch)
  }

  function Dedupe(cfg: Config, s: Session, worthy: seq<Item>, epoch: int): Session {
    if !s.ctx.excursion.active then s else
      var unseen := UnseenOf(s.ctx, worthy);
      if |unseen| > 0 then Notify(cfg, Log(s, WorthyFound(unseen, epoch)), unseen, epoch)
      else EmitCategoryHandled(Log(s, AllSeen(epoch)), Comments, epoch)
  }

  predicate AnyThrows(items: seq<Item>) {
    exists it :: it in items && it.filter.Throws?
  }

  function Classify(cfg: Config, s: Session, items: seq<Item>): Session {
    if !s.ctx.excursion.active then s
    else if s.ctx.excursion.selected != Some(Comments) then s
    else if AnyThrows(items) then Resume(s, Epoch(s), ClassifyFailed)
    else
      var worthy := WorthyOf(items);
      Dedupe(cfg, Log(s, Classified(worthy, Epoch(s))), worthy, Epoch(s))
  }

  function ItemsArrived(cfg: Config, s: Session, items: seq<Item>): Session {
    if !s.subscribed then s else NoteProgress(Classify(cfg, s, items))
  }

  function KeysOf(items: seq<Item>): (r: set<string>) {
    set it | it in items && it.key != "" :: it.key
  }

  function RemoveAt<T>(xs: seq<T>, i: nat): seq<T>
    requires i < |xs|
  {
    xs[..i] + xs[i + 1..]
  }

  /** The notify promise of one push settles: the watermark moves only on success, the category closes either way. */
  function PushSettled(s: Session, i: nat, ok: bool): Session
    requires i < |s.pushes|
  {
    var p := s.pushes[i];
    var s := s.(pushes := RemoveAt(s.pushes, i));
    EmitCategoryHandled(MarkPush(s, p, ok), Comments, p.epoch)
  }

  function MarkPush(s: Session, p: Push, ok: bool): Session {
    if ok then Log(s.(ctx := s.ctx.(notified := s.ctx.notified + KeysOf(p.items))), Notified(p.items, p.epoch))
    else Log(s, NotifyFailed(p.items, p.epoch))
  }

  function BrowserReceipt(s: Session, action: Action, ok: bool): Session {
    if !ok || !s.ctx.excursion.active then s
    else if action == BrowseLikes then EmitCategoryHandled(s, Likes, Epoch(s))
    else if action == BrowseFollows then EmitCategoryHandled(s, Follows, Epoch(s))
    else s
  }

  function ActionCompleted(s: Session, action: Action, ok: bool): Session {
    if !s.subscribed then s else
      var s := BrowserReceipt(s, action, ok);
      if action == OtherAction then s
      else if !ok then Resume(s, Epoch(s), CommandFailed(action))
      else NoteProgress(s)
  }

  // ---------- nickname enricher ----------

  function FinishCapture(s: Session, reason: FinishReason): Session {
    var plan := s.enricher.plan;
    var s := s.(
      enricher := s.enricher.(awaitingEdge := false, captureId := None, plan := None),
      ctx := s.ctx.(captureTimer := false, captureInFlight := false, suspended := false));
    var s := Log(s, CaptureFinished(reason));
    if plan.Some? && plan.value.restore == RestoreFeed then
      Log(s, FeedEntered(Feed, if reason == NotSent then SessionStart else BackToFeed, s.ctx.suspended))
    else s
  }

  /** Remembers a startup id; the oldest ids beyond the bound are forgotten. */
  function Remember(s: Session, id: string): Session {
    var order := s.enricher.order + [id];
    var consumed := s.enricher.consumed + {id};
    var en := if |order| > MAX_STARTUP_IDS then s.enricher.(consumed := consumed - {order[0]}, order := order[1..])
              else s.enricher.(consumed := consumed, order := order);
    Log(s.(enricher := en), StartupConsumed(id))
  }

  function Arm(s: Session, startupId: string, plan: Option<Plan>, accountId: string): Session {
    if startupId in s.enricher.consumed then s
    else if plan.None? then Remember(s, startupId)
    else if s.ctx.captureInFlight || s.ctx.emptyCaptures >= MAX_EMPTY_CAPTURES || accountId == "" then s
    else
      var s := Remember(s, startupId);
      Log(s.(
        enricher := s.enricher.(plan := plan, awaitingEdge := true),
        ctx := s.ctx.(pendingNickname := true, suspended := plan.value.restore == RestoreFeed, captureInFlight := true,
                      captureTimer := true)),
        CaptureArmed(startupId))
  }

  function EdgeReady(s: Session, accountId: string, captureId: string, sent: bool): Session {
    if !s.enricher.awaitingEdge || !s.ctx.captureInFlight then s
    else
      var s := s.(enricher := s.enricher.(awaitingEdge := false));
      if accountId == "" then FinishCapture(s, NotSent)
      else match s.enricher.plan
        case None => s
        case Some(plan) =>
          var s := s.(enricher := s.enricher.(captureId := Some(captureId)), ctx := s.ctx.(captureTimer := true));
          var s := Log(s, CaptureRequested(plan, captureId));
          if sent then s else FinishCapture(s, NotSent)
  }

  /** `startupId` is trimmed, and "" when the report carries none. */
  function CardsArrived(
    s: Session, startupId: string, plan: Option<Plan>, accountId: string, captureId: string, sent: bool): Session
  {
    var s := if startupId != "" then Arm(s, startupId, plan, accountId) else s;
    EdgeReady(s, accountId, captureId, sent)
  }

  predicate Expected(plan: Plan, obs: Observation) {
    match plan.command
    case ReadCurrentPage => obs.source == FromCurrentPage && obs.effect == NoEffect
    case ReadSelfProfile => obs.source == FromSelfProfile && obs.effect == NavigatedSelfProfile
  }

  /** The observation answers the capture in flight. Captures in flight carry an id, so "" never matches one. */
  predicate Accepts(s: Session, obs: Observation, accountId: string) {
    && s.ctx.captureInFlight
    && accountId != "" && obs.accountId == accountId
    && s.enricher.captureId.Some? && s.enricher.captureId.value != "" && obs.captureId == s.enricher.captureId.value
    && s.enricher.plan.Some? && Expected(s.enricher.plan.value, obs)
  }

  /** `nickname` and `known` are trimmed; "" stands for none. */
  function IdentityObserved(s: Session, obs: Observation, accountId: string, known: string): Session {
    if !Accepts(s, obs, accountId) then s
    else
      var s :=
        if obs.nickname == "" then s.(ctx := s.ctx.(emptyCaptures := s.ctx.emptyCaptures + 1))
        else if known != obs.nickname then Log(s, NicknameWritten(accountId, obs.nickname, obs.captureId))
        else s;
      FinishCapture(s, Observed)
  }

  function CaptureExpired(s: Session): Session {
    if !s.ctx.captureInFlight then s
    else FinishCapture(s.(ctx := s.ctx.(captureTimer := false)), TimedOut)
  }

  // ---------- session life cycle ----------

  /** `unsubscribe` of every patrol role; the enricher stays subscribed. */
  function EndSession(s: Session): Session {
    if !s.subscribed then s
    else s.(subscribed := false, stallTimer := false, stallUsed := 0, deferred := None)
  }

  function ResetContext(ctx: Context): Context {
    ctx.(excursion := FreshExcursion, suspended := false, sourcePage := Feed, captureTimer := false, captureInFlight := false)
  }

  function RestartSession(s: Session): Session {
    var s := EndSession(s);
    Log(s.(ctx := ResetContext(s.ctx), subscribed := true), SessionReset)
  }

  // ---------- steps and runs ----------

  datatype Input =
    | DetectedIn(epoch: int, hardPaused: bool, commentInflight: bool)
    | CommentSettledIn
    | MicrotaskIn(hardPaused: bool, commentInflight: bool)
    | HomeIn(counts: Counts)
    | ItemsIn(items: seq<Item>)
    | ActionIn(action: Action, ok: bool)
    | StallTimerIn
    | PushSettledIn(index: nat, ok: bool)
    | CardsIn(startupId: string, plan: Option<Plan>, accountId: string, captureId: string, sent: bool)
    | IdentityIn(obs: Observation, accountId: string, known: string)
    | CaptureTimerIn
    | SourcePageIn(page: Page)
    | EndSessionIn
    | RestartSessionIn

  /** One step. A timer that is not armed, an empty microtask queue or an unknown push cannot call back. */
  function Step(cfg: Config, s: Session, i: Input): Session {
    match i
    case DetectedIn(epoch, hard, busy) => if s.subscribed then Admit(s, Admission(epoch), hard, busy) else s
    case CommentSettledIn => if s.subscribed then RetryDeferred(s) else s
    case MicrotaskIn(hard, busy) =>
      if s.microtasks == [] then s
      else Admit(s.(microtasks := s.microtasks[1..]), s.microtasks[0], hard, busy)
    case HomeIn(counts) => HomeArrived(cfg, s, counts)
    case ItemsIn(items) => ItemsArrived(cfg, s, items)
    case ActionIn(action, ok) => ActionCompleted(s, action, ok)
    case StallTimerIn => if s.stallTimer then StallExpired(cfg, s) else s
    case PushSettledIn(index, ok) => if index < |s.pushes| then PushSettled(s, index, ok) else s
    case CardsIn(id, plan, account, captureId, sent) => CardsArrived(s, id, plan, account, captureId, sent)
    case IdentityIn(obs, account, known) => IdentityObserved(s, obs, account, known)
    case CaptureTimerIn => if s.ctx.captureTimer then CaptureExpired(s) else s
    case SourcePageIn(page) => s.(ctx := s.ctx.(sourcePage := page))
    case EndSessionIn => EndSession(s)
    case RestartSessionIn => RestartSession(s)
  }

  function Run(cfg: Config, s: Session, inputs: seq<Input>): Session {
    if inputs == [] then s
    else Step(cfg, Run(cfg, s, inputs[..|inputs| - 1]), inputs[|inputs| - 1])
  }
}
