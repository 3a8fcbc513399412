/**
 What each input makes the patrol announce and remember, spelled out from the log and the state before it, and how the
 entries of a whole log hang together.
 */
module PatrolReactions {
  import opened Wrappers
  import opened PatrolModel
  import opened PatrolAudit
  import opened PatrolInvariant
  import opened PatrolSafety
  import opened PatrolFlow
  import opened Selections

  // ---------- an automaton over the log ----------

  /** How often each category was browsed. */
  datatype Tries = Tries(comments: nat, likes: nat, follows: nat) {
    function Of(cat: Category): nat {
      match cat
      case Comments => comments
      case Likes => likes
      case Follows => follows
    }

    function Plus(cat: Category): Tries {
      match cat
      case Comments => this.(comments := comments + 1)
      case Likes => this.(likes := likes + 1)
      case Follows => this.(follows := follows + 1)
    }
  }

  const Untried := Tries(0, 0, 0)

  /** `tried`: the browse commands of each category since the last request. `captured`: a capture was ever armed. */
  datatype Reading = Reading(chained: bool, last: Option<Event>, tried: Tries, captured: bool)

  /** An entry that reacts to another comes right after it and carries its epoch, category and items. */
  predicate Chains(last: Option<Event>, e: Event) {
    match e
    case BrowseSuspended(epoch) => last == Some(ExcursionRequested(epoch))
    case BrowseCategory(cat, epoch) => last == Some(CategorySelected(cat, epoch))
    case WorthyFound(_, epoch) => last.Some? && last.value.Classified? && last.value.epoch == epoch
    case AllSeen(epoch) => last.Some? && last.value.Classified? && last.value.epoch == epoch
    case NotifyCalled(items, epoch) => last == Some(WorthyFound(items, epoch))
    case HomeOpening(epoch, back) => back ==> last.Some? && last.value.CategoryHandled? && last.value.epoch == epoch
    case ExcursionEnded(_, reason) => reason.Stalled? ==> reason.phase == Opening
    case _ => true
  }

  function Next(r: Reading, e: Event): Reading {
    var tried :=
      match e
      case ExcursionRequested(_) => Untried
      case BrowseCategory(cat, _) => r.tried.Plus(cat)
      case _ => r.tried;
    Reading(r.chained && Chains(r.last, e), Some(e), tried, r.captured || e.CaptureArmed?)
  }

  function ReadingOf(t: seq<Event>): Reading {
    if t == [] then Reading(true, None, Untried, false) else Next(ReadingOf(t[..|t| - 1]), t[|t| - 1])
  }

  /** How often the log browses a category since its last request. */
  function Tried(t: seq<Event>, cat: Category): nat {
    if t == [] || t[|t| - 1].ExcursionRequested? then 0
    else
      Tried(t[..|t| - 1], cat) + if t[|t| - 1].BrowseCategory? && t[|t| - 1].cat == cat then 1 else 0
  }

  lemma {:induction false} TriedIsRead(t: seq<Event>, cat: Category)
    ensures ReadingOf(t).tried.Of(cat) == Tried(t, cat)
  {
    if t != [] {
      TriedIsRead(t[..|t| - 1], cat);
    }
  }

  lemma ReadingAppend(t: seq<Event>, e: Event)
    ensures ReadingOf(t + [e]) == Next(ReadingOf(t), e)
  {
    assert (t + [e])[..|t|] == t;
  }

  lemma ReadingAppends()
    ensures forall t: seq<Event>, e: Event {:trigger ReadingOf(t + [e])} :: ReadingOf(t + [e]) == Next(ReadingOf(t), e)
  {
    forall t: seq<Event>, e: Event ensures ReadingOf(t + [e]) == Next(ReadingOf(t), e) {
      ReadingAppend(t, e);
    }
  }

  // ---------- every run is chained ----------

  ghost predicate Read(s: Session) {
    var e, r := s.ctx.excursion, ReadingOf(s.trace);
    && r.chained
    && (Patrolling(s) ==> e.phase == Opening && forall cat :: Attempts(e, cat) == r.tried.Of(cat))
    && (s.stallTimer ==> Patrolling(s))
    && s.ctx.pendingNickname == r.captured
  }

  /** The step keeps what is read off the log, and the page to go back to. */
  ghost predicate Keeps(s: Session, s': Session) {
    (Read(s) ==> Read(s')) && s'.ctx.sourcePage == s.ctx.sourcePage
  }

  lemma ResumeKeeps(s: Session, reason: EndReason)
    requires reason.Stalled? ==> Patrolling(s) && reason.phase == s.ctx.excursion.phase
    ensures Keeps(s, Resume(s, Epoch(s), reason)) && Resume(s, Epoch(s), reason).subscribed == s.subscribed
  {
    hide ReadingOf;
    ReadingAppends();
  }

  lemma StallKeeps(cfg: Config, s: Session)
    requires s.stallTimer
    ensures Keeps(s, StallExpired(cfg, s))
  {
    hide ReadingOf;
    ReadingAppends();
  }

  lemma AdmitKeeps(s: Session, a: Admission, hard: bool, busy: bool)
    ensures Keeps(s, Admit(s, a, hard, busy))
  {
    hide ReadingOf;
    ReadingAppends();
  }

  lemma SelectKeeps(s: Session, cat: Category)
    requires Patrolling(s)
    ensures Keeps(s, Select(s, cat)) && Select(s, cat).subscribed
  {
    hide ReadingOf;
    ReadingAppends();
    var e, e' := s.ctx.excursion, Select(s, cat).ctx.excursion;
    assert forall c :: Attempts(e', c) == Attempts(e, c) + if c == cat then 1 else 0;
    hide Attempts;
  }

  lemma HomeKeeps(cfg: Config, s: Session, counts: Counts)
    ensures Keeps(s, HomeArrived(cfg, s, counts))
  {
    hide Read, PickFrom, GivenUpUpTo, Select, Resume;
    if Patrolling(s) {
      var pick := PickFrom(cfg, s.ctx.excursion, counts, 0);
      if pick.Some? {
        SelectKeeps(s, pick.value);
        NoteKeeps(Select(s, pick.value));
      } else {
        var givenUp := GivenUpUpTo(cfg, s.ctx.excursion, counts, |PRIORITY|);
        var reason := if |givenUp| > 0 then TriageIncomplete(givenUp) else TriageDone;
        ResumeKeeps(s, reason);
        NoteKeeps(Resume(s, Epoch(s), reason));
      }
    } else {
      NoteKeeps(s);
    }
  }

  lemma NoteKeeps(s: Session)
    ensures s.subscribed ==> Keeps(s, NoteProgress(s))
    ensures NoteProgress(s).ctx == s.ctx
  {
    hide ReadingOf;
  }

  lemma HandledKeeps(s: Session, cat: Category, epoch: int)
    ensures Keeps(s, EmitCategoryHandled(s, cat, epoch))
  {
    hide ReadingOf;
    ReadingAppends();
  }

  lemma FoundKeeps(cfg: Config, s: Session, items: seq<Item>, epoch: int)
    requires ReadingOf(s.trace).last.Some? && ReadingOf(s.trace).last.value.Classified?
    requires ReadingOf(s.trace).last.value.epoch == epoch
    ensures Keeps(s, Notify(cfg, Log(s, WorthyFound(items, epoch)), items, epoch))
    ensures Keeps(s, EmitCategoryHandled(Log(s, AllSeen(epoch)), Comments, epoch))
  {
    hide ReadingOf, EmitCategoryHandled;
    ReadingAppends();
    HandledKeeps(Log(s, WorthyFound(items, epoch)), Comments, epoch);
    HandledKeeps(Log(s, AllSeen(epoch)), Comments, epoch);
  }

  lemma ClassifiedKeeps(s: Session, items: seq<Item>, epoch: int)
    ensures Keeps(s, Log(s, Classified(items, epoch)))
    ensures ReadingOf(Log(s, Classified(items, epoch)).trace).last == Some(Classified(items, epoch))
  {
    hide ReadingOf;
    ReadingAppend(s.trace, Classified(items, epoch));
  }

  lemma ItemsKeep(cfg: Config, s: Session, items: seq<Item>)
    ensures Keeps(s, ItemsArrived(cfg, s, items))
  {
    hide Read, ReadingOf, WorthyOf, UnseenOf, Notify, EmitCategoryHandled, Resume;
    var worthy, epoch := WorthyOf(items), Epoch(s);
    var s1 := Log(s, Classified(worthy, epoch));
    ClassifiedKeeps(s, worthy, epoch);
    FoundKeeps(cfg, s1, UnseenOf(s1.ctx, worthy), epoch);
    ResumeKeeps(s, ClassifyFailed);
    if s.subscribed {
      NoteKeeps(s);
      NoteKeeps(Classify(cfg, s, items));
      ClassifySubscribed(cfg, s, items);
    }
  }

  lemma ClassifySubscribed(cfg: Config, s: Session, items: seq<Item>)
    ensures Classify(cfg, s, items).subscribed == s.subscribed
  {
  }

  lemma SettledKeeps(s: Session, i: nat, ok: bool)
    requires i < |s.pushes|
    ensures Keeps(s, PushSettled(s, i, ok))
  {
    hide ReadingOf, EmitCategoryHandled, KeysOf, RemoveAt;
    var p := s.pushes[i];
    ReadingAppend(s.trace, if ok then Notified(p.items, p.epoch) else NotifyFailed(p.items, p.epoch));
    HandledKeeps(MarkPush(s.(pushes := RemoveAt(s.pushes, i)), p, ok), Comments, p.epoch);
  }

  lemma ActionKeeps(s: Session, action: Action, ok: bool)
    ensures Keeps(s, ActionCompleted(s, action, ok))
  {
    hide Read, EmitCategoryHandled, Resume;
    HandledKeeps(s, Likes, Epoch(s));
    HandledKeeps(s, Follows, Epoch(s));
    var s1 := BrowserReceipt(s, action, ok);
    ReceiptSubscribed(s, action, ok);
    assert Keeps(s, s1);
    ResumeKeeps(s1, CommandFailed(action));
    NoteKeeps(s1);
  }

  lemma ReceiptSubscribed(s: Session, action: Action, ok: bool)
    ensures BrowserReceipt(s, action, ok).subscribed == s.subscribed
  {
  }

  lemma FinishKeeps(s: Session, how: FinishReason)
    ensures Keeps(s, FinishCapture(s, how))
  {
    hide ReadingOf;
    ReadingAppends();
  }

  lemma ArmKeeps(s: Session, id: string, plan: Option<Plan>, account: string)
    ensures Keeps(s, Arm(s, id, plan, account))
  {
    hide ReadingOf;
    ReadingAppends();
  }

  lemma CardsKeep(s: Session, id: string, plan: Option<Plan>, account: string, captureId: string, sent: bool)
    ensures Keeps(s, CardsArrived(s, id, plan, account, captureId, sent))
  {
    hide Arm, Read;
    var s1 := if id != "" then Arm(s, id, plan, account) else s;
    ArmKeeps(s, id, plan, account);
    EdgeReadyKeeps(s1, account, captureId, sent);
  }

  lemma EdgeReadyKeeps(s: Session, account: string, captureId: string, sent: bool)
    ensures Keeps(s, EdgeReady(s, account, captureId, sent))
  {
    hide ReadingOf, FinishCapture;
    ReadingAppends();
    var s1 := s.(enricher := s.enricher.(awaitingEdge := false));
    FinishKeeps(s1, NotSent);
    if s.enricher.plan.Some? {
      var s2 := s1.(enricher := s1.enricher.(captureId := Some(captureId)), ctx := s1.ctx.(captureTimer := true));
      FinishKeeps(Log(s2, CaptureRequested(s.enricher.plan.value, captureId)), NotSent);
    }
  }

  lemma IdentityKeeps(s: Session, obs: Observation, account: string, known: string)
    ensures Keeps(s, IdentityObserved(s, obs, account, known))
  {
    hide ReadingOf, FinishCapture, Accepts;
    ReadingAppends();
    FinishKeeps(s.(ctx := s.ctx.(emptyCaptures := s.ctx.emptyCaptures + 1)), Observed);
    FinishKeeps(Log(s, NicknameWritten(account, obs.nickname, obs.captureId)), Observed);
    FinishKeeps(s, Observed);
  }

  /** The page on which browsing was last reported since the session began. */
  function PageNow(inputs: seq<Input>): Page {
    if inputs == [] then Feed
    else
      match inputs[|inputs| - 1]
      case SourcePageIn(page) => page
      case RestartSessionIn => Feed
      case _ => PageNow(inputs[..|inputs| - 1])
  }

  lemma SessionKeeps(cfg: Config, s: Session, i: Input)
    requires i.CommentSettledIn? || i.SourcePageIn? || i.EndSessionIn? || i.RestartSessionIn?
    ensures var s' := Step(cfg, s, i);
            && (Read(s) ==> Read(s'))
            && s'.ctx.sourcePage == if i.SourcePageIn? then i.page else if i.RestartSessionIn? then Feed else s.ctx.sourcePage
  {
    hide ReadingOf;
    ReadingAppend(s.trace, SessionReset);
  }

  lemma StepKeeps(cfg: Config, s: Session, i: Input)
    requires !(i.CommentSettledIn? || i.SourcePageIn? || i.EndSessionIn? || i.RestartSessionIn?)
    ensures Keeps(s, Step(cfg, s, i))
  {
    hide HomeArrived, ItemsArrived, ActionCompleted, Admit, PushSettled, StallExpired, CardsArrived, IdentityObserved;
    hide FinishCapture, ReadingOf;
    match i
    case DetectedIn(epoch, hard, busy) => AdmitKeeps(s, Admission(epoch), hard, busy);
    case MicrotaskIn(hard, busy) =>
      if s.microtasks != [] {
        AdmitKeeps(s.(microtasks := s.microtasks[1..]), s.microtasks[0], hard, busy);
      }
    case HomeIn(counts) => HomeKeeps(cfg, s, counts);
    case ItemsIn(items) => ItemsKeep(cfg, s, items);
    case ActionIn(action, ok) => ActionKeeps(s, action, ok);
    case StallTimerIn => if s.stallTimer { StallKeeps(cfg, s); }
    case PushSettledIn(index, ok) => if index < |s.pushes| { SettledKeeps(s, index, ok); }
    case CardsIn(id, plan, account, captureId, sent) => CardsKeep(s, id, plan, account, captureId, sent);
    case IdentityIn(obs, account, known) => IdentityKeeps(s, obs, account, known);
    case CaptureTimerIn => FinishKeeps(s.(ctx := s.ctx.(captureTimer := false)), TimedOut);
    case _ =>
  }

  lemma {:induction false} RunKeeps(cfg: Config, inputs: seq<Input>)
    ensures Read(Run(cfg, InitialSession, inputs)) && Run(cfg, InitialSession, inputs).ctx.sourcePage == PageNow(inputs)
  {
    if inputs != [] {
      var init, i := inputs[..|inputs| - 1], inputs[|inputs| - 1];
      RunKeeps(cfg, init);
      hide Step, Read;
      if i.CommentSettledIn? || i.SourcePageIn? || i.EndSessionIn? || i.RestartSessionIn? {
        SessionKeeps(cfg, Run(cfg, InitialSession, init), i);
      } else {
        StepKeeps(cfg, Run(cfg, InitialSession, init), i);
      }
    }
  }

  lemma {:induction false} ChainedAt(t: seq<Event>, k: nat)
    requires k < |t| && ReadingOf(t).chained
    ensures Chains(if k == 0 then None else Some(t[k - 1]), t[k])
  {
    if k < |t| - 1 {
      ChainedAt(t[..|t| - 1], k);
    } else if k > 0 {
      assert ReadingOf(t[..k]).last == Some(t[k - 1]);
    }
  }

  /**
   Over any run, every reaction comes right after the announcement it reacts to and carries its epoch: the freeze after
   the request, the browse command after the selection of the same category, the notify call after the discovery of the
   same items, the way home after a closed category; and a stalled ending always names the opening phase.
   */
  lemma ReactionsFollow(cfg: Config, inputs: seq<Input>, k: nat)
    requires k < |Run(cfg, InitialSession, inputs).trace|
    ensures var t := Run(cfg, InitialSession, inputs).trace;
            match t[k]
            case BrowseSuspended(epoch) => k > 0 && t[k - 1] == ExcursionRequested(epoch)
            case BrowseCategory(cat, epoch) => k > 0 && t[k - 1] == CategorySelected(cat, epoch)
            case NotifyCalled(items, epoch) => k > 0 && t[k - 1] == WorthyFound(items, epoch)
            case WorthyFound(_, epoch) => k > 0 && t[k - 1].Classified? && t[k - 1].epoch == epoch
            case AllSeen(epoch) => k > 0 && t[k - 1].Classified? && t[k - 1].epoch == epoch
            case HomeOpening(epoch, back) => back ==> k > 0 && t[k - 1].CategoryHandled? && t[k - 1].epoch == epoch
            case ExcursionEnded(_, reason) => reason.Stalled? ==> reason.phase == Opening
            case _ => true
  {
    RunKeeps(cfg, inputs);
    hide Run, ReadingOf;
    ChainedAt(Run(cfg, InitialSession, inputs).trace, k);
  }

  // ---------- a home report ----------

  /** The step announces the selection of this category and its browse command, and nothing else. */
  predicate Selects(s: Session, s': Session, cat: Category) {
    && s'.trace == s.trace + [CategorySelected(cat, Epoch(s)), BrowseCategory(cat, Epoch(s))]
    && Patrolling(s') && s'.ctx.excursion.selected == Some(cat)
  }

  /**
   In an excursion a home report selects and browses comments if they are unread and browsed less often than the limit,
   else likes, else follows, and ends the excursion when none of them qualifies.
   */
  lemma HomeReportExactly(cfg: Config, inputs: seq<Input>, counts: Counts)
    requires Patrolling(Run(cfg, InitialSession, inputs))
    ensures var s := Run(cfg, InitialSession, inputs);
            var s' := Step(cfg, s, HomeIn(counts));
            if counts.comments > 0 && Tried(s.trace, Comments) < cfg.maxAttempts then Selects(s, s', Comments)
            else if counts.likes > 0 && Tried(s.trace, Likes) < cfg.maxAttempts then Selects(s, s', Likes)
            else if counts.follows > 0 && Tried(s.trace, Follows) < cfg.maxAttempts then Selects(s, s', Follows)
            else !s'.ctx.excursion.active
  {
    var s := Run(cfg, InitialSession, inputs);
    RunKeeps(cfg, inputs);
    ReachableInv(cfg, inputs);
    forall cat ensures Attempts(s.ctx.excursion, cat) == Tried(s.trace, cat) {
      TriedIsRead(s.trace, cat);
    }
    hide Run, Tried, ReadingOf;
    TriageEndsHonestly(cfg, s, counts);
    SelectsFirst(cfg, s, counts);
  }

  lemma SelectsFirst(cfg: Config, s: Session, counts: Counts)
    requires Patrolling(s)
    ensures var s', e := Step(cfg, s, HomeIn(counts)), s.ctx.excursion;
            if counts.comments > 0 && Attempts(e, Comments) < cfg.maxAttempts then Selects(s, s', Comments)
            else if counts.likes > 0 && Attempts(e, Likes) < cfg.maxAttempts then Selects(s, s', Likes)
            else counts.follows > 0 && Attempts(e, Follows) < cfg.maxAttempts ==> Selects(s, s', Follows)
  {
    hide Select, PickFrom, Attempts;
    var e := s.ctx.excursion;
    PicksInOrder(cfg, e, counts);
    SelectAnnounces(s, Comments);
    SelectAnnounces(s, Likes);
    SelectAnnounces(s, Follows);
  }

  lemma PicksInOrder(cfg: Config, e: Excursion, counts: Counts)
    ensures PickFrom(cfg, e, counts, 0)
            == if counts.comments > 0 && Attempts(e, Comments) < cfg.maxAttempts then Some(Comments)
               else if counts.likes > 0 && Attempts(e, Likes) < cfg.maxAttempts then Some(Likes)
               else if counts.follows > 0 && Attempts(e, Follows) < cfg.maxAttempts then Some(Follows)
               else None
  {
    hide Attempts;
    assert PRIORITY[0] == Comments && PRIORITY[1] == Likes && PRIORITY[2] == Follows;
    assert PickFrom(cfg, e, counts, 3) == None;
    assert PickFrom(cfg, e, counts, 2) == if Selectable(cfg, e, counts, Follows) then Some(Follows) else None;
    assert PickFrom(cfg, e, counts, 1)
        == if Selectable(cfg, e, counts, Likes) then Some(Likes) else PickFrom(cfg, e, counts, 2);
  }

  lemma SelectAnnounces(s: Session, cat: Category)
    requires Patrolling(s)
    ensures Selects(s, Select(s, cat), cat) && Selects(s, NoteProgress(Select(s, cat)), cat)
  {
    hide Attempts;
    assert s.trace + [CategorySelected(cat, Epoch(s))] + [BrowseCategory(cat, Epoch(s))]
        == s.trace + [CategorySelected(cat, Epoch(s)), BrowseCategory(cat, Epoch(s))];
  }

  // ---------- a batch of items ----------

  lemma {:induction false} WorthyFilters(items: seq<Item>)
    ensures Filters(items, WorthyOf(items), (it: Item) => it.filter.Worthy?)
  {
    var test := (it: Item) => it.filter.Worthy?;
    if items == [] {
      assert FiltersAt(items, [], test, []);
    } else {
      WorthyFilters(items[1..]);
      FiltersCons(items[0], items[1..], WorthyOf(items[1..]), test);
      assert [items[0]] + items[1..] == items;
      assert [] + WorthyOf(items[1..]) == WorthyOf(items[1..]);
    }
  }

  lemma {:induction false} UnseenFilters(ctx: Context, items: seq<Item>)
    ensures Filters(items, UnseenOf(ctx, items), (it: Item) => it.key == "" || it.key !in ctx.notified)
  {
    var test := (it: Item) => it.key == "" || it.key !in ctx.notified;
    if items == [] {
      assert FiltersAt(items, [], test, []);
    } else {
      UnseenFilters(ctx, items[1..]);
      FiltersCons(items[0], items[1..], UnseenOf(ctx, items[1..]), test);
      assert [items[0]] + items[1..] == items;
      assert [] + UnseenOf(ctx, items[1..]) == UnseenOf(ctx, items[1..]);
    }
  }

  /**
   A batch in an excursion: nothing happens unless comments are selected; a filter that throws ends the excursion;
   otherwise the worthy items are announced in their order, those not yet delivered are found and handed to the notifier,
   and the category is closed at once when none is left or no notifier is wired.
   */
  lemma BatchExactly(cfg: Config, s: Session, items: seq<Item>) returns (worthy: seq<Item>, due: seq<Item>)
    requires Inv(cfg, s) && Patrolling(s)
    ensures Filters(items, worthy, (it: Item) => it.filter.Worthy?)
    ensures Filters(worthy, due, (it: Item) => it.key == "" || it.key !in s.ctx.notified)
    ensures var s', e := Step(cfg, s, ItemsIn(items)), Epoch(s);
            var closing := [CategoryHandled(Comments, e), HomeOpening(e, true)];
            if s.ctx.excursion.selected != Some(Comments) then s' == s
            else if exists i :: 0 <= i < |items| && items[i].filter.Throws?
            then s'.trace == s.trace + [ExcursionEnded(e, ClassifyFailed), FeedEntered(s.ctx.sourcePage, BackToFeed, false)]
            else if due == [] then s'.trace == s.trace + [Classified(worthy, e), AllSeen(e)] + closing
            else if cfg.notifyWired
            then s'.trace == s.trace + [Classified(worthy, e), WorthyFound(due, e), NotifyCalled(due, e)]
                 && s'.pushes == s.pushes + [Push(due, e)]
            else s'.trace == s.trace + [Classified(worthy, e), WorthyFound(due, e)] + closing && s'.pushes == s.pushes
  {
    worthy := WorthyOf(items);
    due := UnseenOf(s.ctx, worthy);
    WorthyFilters(items);
    UnseenFilters(s.ctx, worthy);
    ThrowsExactly(items);
    assert s.stallTimer;
    hide Filters, WorthyOf, UnseenOf, AnyThrows, Inv;
    if s.ctx.excursion.selected == Some(Comments) {
      if AnyThrows(items) {
        ResumeAnnounces(s, ClassifyFailed);
      } else {
        ClassifiedAnnounces(cfg, s, worthy, due);
      }
      hide Classify, Resume;
      ClassifiesAs(cfg, s, items);
    }
  }

  lemma ThrowsExactly(items: seq<Item>)
    ensures AnyThrows(items) <==> exists i :: 0 <= i < |items| && items[i].filter.Throws?
  {
    if exists i :: 0 <= i < |items| && items[i].filter.Throws? {
      var i :| 0 <= i < |items| && items[i].filter.Throws?;
      assert items[i] in items;
    }
  }

  lemma ResumeAnnounces(s: Session, reason: EndReason)
    requires s.ctx.excursion.active
    ensures Resume(s, Epoch(s), reason).trace
            == s.trace + [ExcursionEnded(Epoch(s), reason), FeedEntered(s.ctx.sourcePage, BackToFeed, false)]
  {
    assert forall a: Event, b: Event :: s.trace + [a] + [b] == s.trace + [a, b];
  }

  lemma HandledAnnounces(s: Session, cat: Category, epoch: int)
    ensures EmitCategoryHandled(s, cat, epoch).trace
            == s.trace + (if Patrolling(s) then [CategoryHandled(cat, epoch), HomeOpening(epoch, true)]
                          else [CategoryHandled(cat, epoch)])
    ensures EmitCategoryHandled(s, cat, epoch).pushes == s.pushes
  {
    assert forall a: Event, b: Event :: s.trace + [a] + [b] == s.trace + [a, b];
  }

  lemma ClassifiedAnnounces(cfg: Config, s: Session, worthy: seq<Item>, due: seq<Item>)
    requires Patrolling(s) && due == UnseenOf(s.ctx, worthy)
    ensures var e := Epoch(s);
            var s' := Dedupe(cfg, Log(s, Classified(worthy, e)), worthy, e);
            var closing := [CategoryHandled(Comments, e), HomeOpening(e, true)];
            if due == [] then s'.trace == s.trace + [Classified(worthy, e), AllSeen(e)] + closing
            else if cfg.notifyWired
            then s'.trace == s.trace + [Classified(worthy, e), WorthyFound(due, e), NotifyCalled(due, e)]
                 && s'.pushes == s.pushes + [Push(due, e)]
            else s'.trace == s.trace + [Classified(worthy, e), WorthyFound(due, e)] + closing && s'.pushes == s.pushes
  {
    hide UnseenOf, EmitCategoryHandled;
    var e := Epoch(s);
    var s1 := Log(s, Classified(worthy, e));
    HandledAnnounces(Log(s1, AllSeen(e)), Comments, e);
    HandledAnnounces(Log(s1, WorthyFound(due, e)), Comments, e);
    BatchLog(s.trace, Classified(worthy, e), AllSeen(e), CategoryHandled(Comments, e), HomeOpening(e, true));
    BatchLog(s.trace, Classified(worthy, e), WorthyFound(due, e), NotifyCalled(due, e), AllSeen(e));
    assert UnseenOf(s1.ctx, worthy) == due;
    assert forall a: Event, b: Event :: s.trace + [a] + [b] == s.trace + [a, b];
  }

  lemma ClassifiesAs(cfg: Config, s: Session, items: seq<Item>)
    requires Patrolling(s) && s.ctx.excursion.selected == Some(Comments)
    ensures var worthy := WorthyOf(items);
            Classify(cfg, s, items)
            == if AnyThrows(items) then Resume(s, Epoch(s), ClassifyFailed)
               else Dedupe(cfg, Log(s, Classified(worthy, Epoch(s))), worthy, Epoch(s))
  {
    hide WorthyOf, AnyThrows, Dedupe, Resume;
  }

  lemma BatchLog(t: seq<Event>, a: Event, b: Event, c: Event, d: Event)
    ensures t + [a] + [b] + [c] == t + [a, b, c]
    ensures t + [a] + [b] + [c] + [d] == t + [a, b] + [c, d]
  {
  }

  // ---------- a settled push ----------

  /** When a push settles, a success delivers its non-empty keys; its category closes under its own epoch either way. */
  lemma SettlementExactly(cfg: Config, s: Session, index: nat, ok: bool)
    requires index < |s.pushes|
    ensures var s', p := Step(cfg, s, PushSettledIn(index, ok)), s.pushes[index];
            && s'.trace == s.trace + [if ok then Notified(p.items, p.epoch) else NotifyFailed(p.items, p.epoch),
                                      CategoryHandled(Comments, p.epoch)]
                           + (if Patrolling(s) then [HomeOpening(p.epoch, true)] else [])
            && s'.pushes == s.pushes[..index] + s.pushes[index + 1..]
            && (forall key :: key in s'.ctx.notified <==>
                  || key in s.ctx.notified
                  || (ok && key != "" && exists i :: 0 <= i < |p.items| && p.items[i].key == key))
  {
    var p := s.pushes[index];
    hide KeysOf;
    KeysAreItems(p.items);
    assert forall a: Event, b: Event :: s.trace + [a] + [b] == s.trace + [a, b];
  }

  lemma KeysAreItems(items: seq<Item>)
    ensures forall key :: key in KeysOf(items) <==> key != "" && exists i :: 0 <= i < |items| && items[i].key == key
  {
    forall key | key != "" && exists i :: 0 <= i < |items| && items[i].key == key ensures key in KeysOf(items) {
      var i :| 0 <= i < |items| && items[i].key == key;
      assert items[i] in items;
    }
  }

  lemma {:induction false} DeliveredSince(t: seq<Event>, j: nat)
    requires j < |t| && t[j].Notified?
    ensures KeysOf(t[j].items) <= Fold(t).delivered
  {
    hide Fold, Alternations, FoldCaptures, KeysOf;
    var init, last := t[..|t| - 1], t[|t| - 1];
    assert t == init + [last];
    FoldAppend(init, last);
    if j < |t| - 1 {
      DeliveredSince(init, j);
    }
  }

  /** Over any run, no key of a push that was delivered is ever handed to the notifier again. */
  lemma DeliveredNeverRepeats(cfg: Config, inputs: seq<Input>, j: nat, k: nat, a: nat, b: nat)
    requires var t := Run(cfg, InitialSession, inputs).trace;
             && j < k < |t| && t[j].Notified? && t[k].NotifyCalled?
             && a < |t[j].items| && b < |t[k].items| && t[j].items[a].key != ""
    ensures var t := Run(cfg, InitialSession, inputs).trace; t[j].items[a].key != t[k].items[b].key
  {
    hide Run, Fold, Alternations, KeysOf, FoldCaptures;
    NotifyInTurn(cfg, inputs, k);
    var t := Run(cfg, InitialSession, inputs).trace;
    DeliveredBefore(t, j, k);
    KeyIsAmong(t[j].items, a);
    if t[k].items[b].key != "" {
      KeyIsAmong(t[k].items, b);
    }
  }

  lemma DeliveredBefore(t: seq<Event>, j: nat, k: nat)
    requires j < k <= |t| && t[j].Notified?
    ensures KeysOf(t[j].items) <= Fold(t[..k]).delivered
  {
    hide Fold, KeysOf;
    DeliveredSince(t[..k], j);
  }

  lemma KeyIsAmong(items: seq<Item>, i: nat)
    requires i < |items| && items[i].key != ""
    ensures items[i].key in KeysOf(items)
  {
    assert items[i] in items;
  }

  // ---------- the self-capture ----------

  /** What the end of a capture announces. */
  function Finishing(plan: Option<Plan>, how: FinishReason): seq<Event> {
    if plan.Some? && plan.value.restore == RestoreFeed
    then [CaptureFinished(how), FeedEntered(Feed, if how == NotSent then SessionStart else BackToFeed, false)]
    else [CaptureFinished(how)]
  }

  /** Nothing is left of the capture's command and its id. */
  predicate Forgotten(s: Session) {
    s.enricher.plan == None && s.enricher.captureId == None && !s.enricher.awaitingEdge && !s.ctx.captureTimer
  }

  lemma FinishAnnounces(s: Session, how: FinishReason)
    ensures FinishCapture(s, how).trace == s.trace + Finishing(s.enricher.plan, how)
    ensures var c := FinishCapture(s, how).ctx; !c.captureInFlight && !c.suspended && c.emptyCaptures == s.ctx.emptyCaptures
    ensures Forgotten(FinishCapture(s, how))
  {
    assert forall a: Event, b: Event :: s.trace + [a] + [b] == s.trace + [a, b];
  }

  /**
   A report of cards: an id already remembered does nothing; without a plan it is only remembered; while a capture runs,
   after three empty ones or without an account it is not even that; otherwise a capture is armed and requested at once,
   holding the freeze exactly when it has to leave the feed, and ends at once when its command is not sent.
   */
  lemma CardsExactly(
    cfg: Config, s: Session, id: string, plan: Option<Plan>, account: string, captureId: string, sent: bool)
    requires Inv(cfg, s)
    ensures var s' := Step(cfg, s, CardsIn(id, plan, account, captureId, sent));
            if id == "" || id in s.enricher.consumed then s' == s
            else if plan.None? then s'.trace == s.trace + [StartupConsumed(id)] && s'.ctx == s.ctx
            else if s.ctx.captureInFlight || s.ctx.emptyCaptures >= 3 || account == "" then s' == s
            else
              && s'.trace == s.trace + [StartupConsumed(id), CaptureArmed(id), CaptureRequested(plan.value, captureId)]
                             + (if sent then [] else Finishing(plan, NotSent))
              && s'.ctx.captureInFlight == s'.ctx.captureTimer == sent
              && s'.ctx.suspended == (sent && plan.value.restore == RestoreFeed)
              && s'.ctx.emptyCaptures == s.ctx.emptyCaptures && s'.ctx.pendingNickname
              && (if sent then s'.enricher.plan == plan && s'.enricher.captureId == Some(captureId) else Forgotten(s'))
  {
    hide Fold, Alternations, FoldCaptures, FinishCapture;
    if plan.Some? && id != "" && id !in s.enricher.consumed
       && !(s.ctx.captureInFlight || s.ctx.emptyCaptures >= 3 || account == "") {
      var s1 := CaptureUnderWay(s, id, plan.value, captureId);
      ArmedIsUnderWay(s, id, plan.value, account, captureId, sent);
      FinishAnnounces(s1, NotSent);
      UnderWayAnnounces(s, id, plan.value, captureId);
      FinishKeepsPending(s1, NotSent);
      hide CardsArrived, CaptureUnderWay, Inv;
    }
  }

  lemma UnderWayAnnounces(s: Session, id: string, plan: Plan, captureId: string)
    ensures CaptureUnderWay(s, id, plan, captureId).trace
            == s.trace + [StartupConsumed(id), CaptureArmed(id), CaptureRequested(plan, captureId)]
    ensures var s' := CaptureUnderWay(s, id, plan, captureId);
            && s'.ctx.captureInFlight && s'.ctx.captureTimer && s'.ctx.suspended == (plan.restore == RestoreFeed)
            && s'.ctx.emptyCaptures == s.ctx.emptyCaptures && s'.ctx.pendingNickname
            && s'.enricher.plan == Some(plan) && s'.enricher.captureId == Some(captureId)
  {
    BatchLog(s.trace, StartupConsumed(id), CaptureArmed(id), CaptureRequested(plan, captureId), SessionReset);
  }

  lemma FinishKeepsPending(s: Session, how: FinishReason)
    ensures FinishCapture(s, how).ctx.pendingNickname == s.ctx.pendingNickname && !FinishCapture(s, how).ctx.captureTimer
  {
  }

  /** The observation was made the way the capture's command asks for. */
  predicate MadeAsAsked(command: Command, obs: Observation) {
    if command == ReadCurrentPage then obs.source == FromCurrentPage && obs.effect == NoEffect
    else obs.source == FromSelfProfile && obs.effect == NavigatedSelfProfile
  }

  /**
   An observation is accepted exactly when it answers the running capture for the account at hand, by its id and in the
   way asked for. It then writes a nickname that is neither empty nor already known, counts an empty one, and finishes.
   */
  lemma ObservationExactly(cfg: Config, s: Session, obs: Observation, account: string, known: string)
    requires Inv(cfg, s)
    ensures var s' := Step(cfg, s, IdentityIn(obs, account, known));
            if s.ctx.captureInFlight && account != "" && obs.accountId == account && obs.captureId != ""
               && s.enricher.captureId == Some(obs.captureId) && MadeAsAsked(s.enricher.plan.value.command, obs)
            then
              && s'.trace == s.trace
                   + (if obs.nickname != "" && obs.nickname != known
                      then [NicknameWritten(account, obs.nickname, obs.captureId)] else [])
                   + Finishing(s.enricher.plan, Observed)
              && s'.ctx.emptyCaptures == s.ctx.emptyCaptures + (if obs.nickname == "" then 1 else 0)
              && !s'.ctx.captureInFlight && !s'.ctx.suspended && Forgotten(s')
            else s' == s
  {
    hide Fold, Alternations, FoldCaptures, FinishCapture;
    FinishAnnounces(s.(ctx := s.ctx.(emptyCaptures := s.ctx.emptyCaptures + 1)), Observed);
    FinishAnnounces(Log(s, NicknameWritten(account, obs.nickname, obs.captureId)), Observed);
    FinishAnnounces(s, Observed);
    assert s.trace + [] == s.trace;
  }

  /** The capture's timer ends the running capture as timed out. */
  lemma CaptureTimerExactly(cfg: Config, s: Session)
    requires Inv(cfg, s)
    ensures var s' := Step(cfg, s, CaptureTimerIn);
            if s.ctx.captureInFlight
            then s'.trace == s.trace + Finishing(s.enricher.plan, TimedOut)
                 && !s'.ctx.captureInFlight && !s'.ctx.suspended && Forgotten(s')
            else s' == s
  {
    hide Fold, Alternations, FoldCaptures, FinishCapture;
    FinishAnnounces(s.(ctx := s.ctx.(captureTimer := false)), TimedOut);
  }

  // ---------- the session ----------

  /** Without an excursion to steer, or once the session has ended, the edge's reports change nothing. */
  lemma OutsideExcursionsDeaf(cfg: Config, s: Session, i: Input)
    requires Inv(cfg, s) && !Patrolling(s) && (i.HomeIn? || i.ItemsIn? || i.ActionIn? || i.StallTimerIn?)
    ensures Step(cfg, s, i) == s
  {
    hide Fold, Alternations, FoldCaptures;
  }

  /** An ended session admits and retries nothing, and forgets what it had put off. */
  lemma EndedSessionIsDeaf(cfg: Config, s: Session, i: Input)
    requires !s.subscribed && (i.DetectedIn? || i.CommentSettledIn?)
    ensures Step(cfg, s, i) == s
    ensures forall r: Session :: var r' := Step(cfg, r, EndSessionIn);
              !r'.subscribed && r'.trace == r.trace && r'.ctx == r.ctx
              && (r.subscribed ==> !r'.stallTimer && r'.deferred == None)
  {
  }

  /** A restart drops the excursion, the capture and the freeze; what was delivered, tried and remembered stays. */
  lemma RestartExactly(cfg: Config, s: Session)
    ensures var s' := Step(cfg, s, RestartSessionIn);
            && s'.trace == s.trace + [SessionReset] && s'.subscribed
            && !s'.ctx.excursion.active && s'.ctx.excursion.attempts == map[] && !s'.ctx.suspended
            && !s'.ctx.captureInFlight && !s'.ctx.captureTimer
            && (s.subscribed ==> !s'.stallTimer && s'.deferred == None)
            && s'.ctx.notified == s.ctx.notified && s'.ctx.emptyCaptures == s.ctx.emptyCaptures
            && s'.enricher == s.enricher && s'.pushes == s.pushes && s'.microtasks == s.microtasks
  {
  }

  /** Detections put off for a comment are retried in the order in which their comments settled, each as if it came anew. */
  lemma RetriesInOrder(cfg: Config, s: Session, hard: bool, busy: bool)
    requires s.subscribed
    ensures Step(cfg, s, CommentSettledIn).microtasks == s.microtasks + if s.deferred.Some? then [s.deferred.value] else []
    ensures Step(cfg, s, CommentSettledIn).deferred == None
    ensures s.microtasks != [] ==>
              Step(cfg, s, MicrotaskIn(hard, busy))
              == Step(cfg, s.(microtasks := s.microtasks[1..]), DetectedIn(s.microtasks[0].epoch, hard, busy))
  {
  }

  /** An excursion goes back to the page on which browsing was last reported in the session. */
  lemma ReturnsToLastPage(cfg: Config, inputs: seq<Input>, i: Input)
    requires !Spends(i) && !i.EndSessionIn? && !i.RestartSessionIn?
    requires var s := Run(cfg, InitialSession, inputs); Patrolling(s) && !Step(cfg, s, i).ctx.excursion.active
    ensures var s' := Step(cfg, Run(cfg, InitialSession, inputs), i);
            s'.trace != [] && s'.trace[|s'.trace| - 1] == FeedEntered(PageNow(inputs), BackToFeed, false)
  {
    RunKeeps(cfg, inputs);
    var s := Run(cfg, InitialSession, inputs);
    hide Run, Step;
    StepOutcome(cfg, s, i);
  }

  /** A nickname is awaited from the first capture armed on. */
  lemma NicknameIsPending(cfg: Config, inputs: seq<Input>)
    ensures var s := Run(cfg, InitialSession, inputs);
            s.ctx.pendingNickname <==> exists k :: 0 <= k < |s.trace| && s.trace[k].CaptureArmed?
  {
    RunKeeps(cfg, inputs);
    hide Run;
    CapturedIsArmed(Run(cfg, InitialSession, inputs).trace);
  }

  lemma {:induction false} CapturedIsArmed(t: seq<Event>)
    ensures ReadingOf(t).captured <==> exists k :: 0 <= k < |t| && t[k].CaptureArmed?
  {
    if t != [] {
      var init := t[..|t| - 1];
      CapturedIsArmed(init);
      assert forall k :: 0 <= k < |init| ==> init[k] == t[k];
    }
  }
}
