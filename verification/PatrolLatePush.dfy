/**
 A push that settles after its excursion is over. Epochs may repeat, so an excursion is identified by its ordinal: how
 many excursions had been requested when it began.
 */
module PatrolLatePush {
  import opened Wrappers
  import opened PatrolModel
  import opened PatrolAudit
  import opened PatrolInvariant
  import opened PatrolSafety
  import opened PatrolFlow

  /** The ordinal of the excursion requested last. */
  function Ordinal(t: seq<Event>): nat {
    if t == [] then 0 else Ordinal(t[..|t| - 1]) + if t[|t| - 1].ExcursionRequested? then 1 else 0
  }

  /** Where in the log each outstanding push of a run was handed over, in the order of the pushes. */
  function Calls(cfg: Config, inputs: seq<Input>): seq<nat> {
    if inputs == [] then []
    else
      var init, i := inputs[..|inputs| - 1], inputs[|inputs| - 1];
      NextCalls(cfg, Run(cfg, InitialSession, init), i, Calls(cfg, init))
  }

  function NextCalls(cfg: Config, s: Session, i: Input, calls: seq<nat>): seq<nat> {
    var s' := Step(cfg, s, i);
    if i.PushSettledIn? && i.index < |s.pushes| && i.index < |calls| then RemoveAt(calls, i.index)
    else if |s'.pushes| > |s.pushes| && s'.trace != [] then calls + [|s'.trace| - 1]
    else calls
  }

  /** Each position is that of the push's own notify call, and no two pushes share one. */
  predicate Located(s: Session, calls: seq<nat>) {
    && |calls| == |s.pushes|
    && (forall k :: 0 <= k < |calls| ==>
          calls[k] < |s.trace| && s.trace[calls[k]] == NotifyCalled(s.pushes[k].items, s.pushes[k].epoch))
    && (forall j, k :: 0 <= j < k < |calls| ==> calls[j] < calls[k])
  }

  lemma ItemsPush(cfg: Config, s: Session, items: seq<Item>)
    ensures var s' := ItemsArrived(cfg, s, items);
            || s'.pushes == s.pushes
            || (exists p: Push :: s'.pushes == s.pushes + [p] && |s'.trace| > |s.trace|
                                  && s'.trace[|s'.trace| - 1] == NotifyCalled(p.items, p.epoch))
  {
    hide EmitCategoryHandled, WorthyOf, UnseenOf, AnyThrows;
    var worthy, epoch := WorthyOf(items), Epoch(s);
    var s1 := Log(s, Classified(worthy, epoch));
    var unseen := UnseenOf(s1.ctx, worthy);
    HandledAddsNoPush(Log(s1, WorthyFound(unseen, epoch)), Comments, epoch);
    HandledAddsNoPush(Log(s1, AllSeen(epoch)), Comments, epoch);
    var s' := ItemsArrived(cfg, s, items);
    if s'.pushes != s.pushes {
      assert s'.pushes == s.pushes + [Push(unseen, epoch)];
      assert s'.trace[|s'.trace| - 1] == NotifyCalled(unseen, epoch);
    }
  }

  lemma HomePushesNothing(cfg: Config, s: Session, counts: Counts)
    ensures HomeArrived(cfg, s, counts).pushes == s.pushes
  {
    hide PickFrom, GivenUpUpTo;
  }

  lemma ActionPushesNothing(s: Session, action: Action, ok: bool)
    ensures ActionCompleted(s, action, ok).pushes == s.pushes
  {
    hide EmitCategoryHandled;
    HandledAddsNoPush(s, Likes, Epoch(s));
    HandledAddsNoPush(s, Follows, Epoch(s));
  }

  lemma AdmitPushesNothing(s: Session, a: Admission, hard: bool, busy: bool)
    ensures Admit(s, a, hard, busy).pushes == s.pushes
  {
  }

  lemma CapturePushesNothing(s: Session, how: FinishReason)
    ensures FinishCapture(s, how).pushes == s.pushes
  {
  }

  lemma CardsPushNothing(s: Session, id: string, plan: Option<Plan>, account: string, captureId: string, sent: bool)
    ensures CardsArrived(s, id, plan, account, captureId, sent).pushes == s.pushes
  {
    hide FinishCapture;
    var s1 := if id != "" then Arm(s, id, plan, account) else s;
    var s2 := s1.(enricher := s1.enricher.(awaitingEdge := false));
    CapturePushesNothing(s2, NotSent);
    if s2.enricher.plan.Some? {
      var s3 := s2.(enricher := s2.enricher.(captureId := Some(captureId)), ctx := s2.ctx.(captureTimer := true));
      CapturePushesNothing(Log(s3, CaptureRequested(s2.enricher.plan.value, captureId)), NotSent);
    }
  }

  lemma IdentityPushesNothing(s: Session, obs: Observation, account: string, known: string)
    ensures IdentityObserved(s, obs, account, known).pushes == s.pushes
  {
    hide Accepts;
  }

  lemma OthersPushNothing(cfg: Config, s: Session, i: Input)
    requires !i.ItemsIn? && !i.PushSettledIn?
    ensures Step(cfg, s, i).pushes == s.pushes
  {
    hide HomeArrived, ActionCompleted, CardsArrived, IdentityObserved, Admit;
    match i
    case HomeIn(counts) => HomePushesNothing(cfg, s, counts);
    case ActionIn(action, ok) => ActionPushesNothing(s, action, ok);
    case CardsIn(id, plan, account, captureId, sent) => CardsPushNothing(s, id, plan, account, captureId, sent);
    case IdentityIn(obs, account, known) => IdentityPushesNothing(s, obs, account, known);
    case DetectedIn(epoch, hard, busy) => AdmitPushesNothing(s, Admission(epoch), hard, busy);
    case MicrotaskIn(hard, busy) =>
      if s.microtasks != [] {
        AdmitPushesNothing(s.(microtasks := s.microtasks[1..]), s.microtasks[0], hard, busy);
      }
    case _ =>
  }

  lemma LocatedStays(s: Session, s': Session, calls: seq<nat>)
    requires Located(s, calls) && s.trace <= s'.trace && s'.pushes == s.pushes
    ensures Located(s', calls)
  {
  }

  lemma LocatedGrows(s: Session, s': Session, calls: seq<nat>, p: Push)
    requires Located(s, calls) && s.trace < s'.trace && s'.pushes == s.pushes + [p]
    requires s'.trace[|s'.trace| - 1] == NotifyCalled(p.items, p.epoch)
    ensures Located(s', calls + [|s'.trace| - 1])
  {
  }

  lemma LocatedShrinks(s: Session, s': Session, calls: seq<nat>, index: nat)
    requires Located(s, calls) && index < |calls| && s.trace <= s'.trace && s'.pushes == RemoveAt(s.pushes, index)
    ensures Located(s', RemoveAt(calls, index))
  {
  }

  lemma StepLocates(cfg: Config, s: Session, i: Input, calls: seq<nat>)
    requires Located(s, calls)
    ensures Located(Step(cfg, s, i), NextCalls(cfg, s, i, calls))
  {
    LogGrows(cfg, s, i);
    var s' := Step(cfg, s, i);
    if i.PushSettledIn? && i.index < |s.pushes| {
      SettledIsRemoved(cfg, s, i.index, i.ok);
      LocatedShrinks(s, s', calls, i.index);
    } else if i.ItemsIn? {
      ItemsPush(cfg, s, i.items);
      hide Located;
      if s'.pushes == s.pushes {
        LocatedStays(s, s', calls);
      } else {
        var p: Push :| s'.pushes == s.pushes + [p] && |s'.trace| > |s.trace|
                       && s'.trace[|s'.trace| - 1] == NotifyCalled(p.items, p.epoch);
        LocatedGrows(s, s', calls, p);
      }
    } else {
      if !i.PushSettledIn? { OthersPushNothing(cfg, s, i); }
      LocatedStays(s, s', calls);
    }
    hide Located, HomeArrived, ItemsArrived, ActionCompleted, PushSettled, StallExpired, CardsArrived, IdentityObserved, Admit;
  }

  lemma SettledIsRemoved(cfg: Config, s: Session, index: nat, ok: bool)
    requires index < |s.pushes|
    ensures Step(cfg, s, PushSettledIn(index, ok)).pushes == RemoveAt(s.pushes, index)
  {
    hide EmitCategoryHandled, KeysOf, RemoveAt;
    var p := s.pushes[index];
    HandledAddsNoPush(MarkPush(s.(pushes := RemoveAt(s.pushes, index)), p, ok), Comments, p.epoch);
  }

  lemma {:induction false} CallsAreLocated(cfg: Config, inputs: seq<Input>)
    ensures Located(Run(cfg, InitialSession, inputs), Calls(cfg, inputs))
  {
    if inputs != [] {
      var init := inputs[..|inputs| - 1];
      CallsAreLocated(cfg, init);
      hide Step, Located;
      StepLocates(cfg, Run(cfg, InitialSession, init), inputs[|inputs| - 1], Calls(cfg, init));
    }
  }

  // ---------- over, by the log ----------

  predicate Ends(e: Event) {
    e.ExcursionEnded? || e.SessionReset?
  }

  /** Something ended the running excursion after position `c`. */
  predicate OverSince(t: seq<Event>, c: nat) {
    exists j :: c < j < |t| && Ends(t[j])
  }

  lemma OrdinalAppend(t: seq<Event>, e: Event)
    ensures Ordinal(t + [e]) == Ordinal(t) + if e.ExcursionRequested? then 1 else 0
  {
    assert (t + [e])[..|t|] == t;
  }

  lemma OverAppend(t: seq<Event>, e: Event, c: nat)
    ensures OverSince(t + [e], c) <==> OverSince(t, c) || (c < |t| && Ends(e))
  {
    if OverSince(t, c) {
      var j :| c < j < |t| && Ends(t[j]);
      assert Ends((t + [e])[j]);
    }
    assert (t + [e])[|t|] == e;
  }

  /** While nothing ends the excursion open after `base` it stays the open one; after an end only a later one can be open. */
  predicate Followed(base: seq<Event>, t: seq<Event>, c: nat) {
    && Alternations(base).open.Some?
    && Ordinal(t) >= Ordinal(base)
    && if OverSince(t, c) then Alternations(t).open.None? || Ordinal(t) > Ordinal(base)
       else Alternations(t).open == Alternations(base).open && Ordinal(t) == Ordinal(base)
  }

  lemma FollowOne(base: seq<Event>, t: seq<Event>, e: Event, c: nat)
    requires Followed(base, t, c) && Alternations(t).legal && Alternations(t + [e]).legal && c < |t|
    ensures Followed(base, t + [e], c)
  {
    FoldAppend(t, e);
    OrdinalAppend(t, e);
    OverAppend(t, e, c);
    hide Alternations, Ordinal, OverSince, Fold, FoldCaptures;
  }

  lemma FollowFirst(base: seq<Event>, e: Event)
    requires Alternations(base).open.Some? && e.NotifyCalled?
    ensures Followed(base, base + [e], |base|)
  {
    FoldAppend(base, e);
    OrdinalAppend(base, e);
  }

  lemma {:induction false} FollowExcursion(t: seq<Event>, c: nat)
    requires c < |t| && Alternations(t).legal && Alternations(t[..c]).open.Some? && t[c].NotifyCalled?
    ensures Followed(t[..c], t, c)
  {
    hide Alternations, Followed;
    var before, last := t[..|t| - 1], t[|t| - 1];
    assert t == before + [last];
    if |t| - 1 > c {
      AlternatesPrefix(t, |t| - 1);
      assert before[..c] == t[..c];
      FollowExcursion(before, c);
      FollowOne(t[..c], before, last, c);
    } else {
      FollowFirst(t[..c], last);
    }
  }

  // ---------- the settlement of a late push ----------

  /** The step opens the notification home inside another excursion than the one in which position `c` of the log lies. */
  predicate OpensForeignHome(s: Session, s': Session, c: nat)
    requires c <= |s'.trace|
  {
    exists k :: |s.trace| <= k < |s'.trace| && s'.trace[k].HomeOpening? && Ordinal(s'.trace[..k]) != Ordinal(s'.trace[..c])
  }

  /** The step opens the notification home under another epoch than the running one. */
  predicate OpensStaleHome(s: Session, s': Session) {
    exists k :: |s.trace| <= k < |s'.trace| && s'.trace[k].HomeOpening? && s'.trace[k].epoch != Epoch(s')
  }

  lemma SettlementLog(cfg: Config, s: Session, index: nat, ok: bool)
    requires Patrolling(s) && index < |s.pushes|
    ensures var s', p := Step(cfg, s, PushSettledIn(index, ok)), s.pushes[index];
            var n := |s.trace|;
            && s.trace <= s'.trace && |s'.trace| == n + 3
            && !s'.trace[n].HomeOpening? && !s'.trace[n + 1].HomeOpening? && s'.trace[n + 2] == HomeOpening(p.epoch, true)
            && s'.trace[..n + 2] == s.trace + [s'.trace[n]] + [s'.trace[n + 1]]
            && !s'.trace[n].ExcursionRequested? && !s'.trace[n + 1].ExcursionRequested?
            && Epoch(s') == Epoch(s)
  {
  }

  /** A step that logs two other entries and then opens the home page opens it in the excursion running before. */
  lemma LastOpensHome(s: Session, s': Session, c: nat)
    requires s.trace <= s'.trace && |s'.trace| == |s.trace| + 3 && c < |s.trace|
    requires !s'.trace[|s.trace|].HomeOpening? && !s'.trace[|s.trace| + 1].HomeOpening? && s'.trace[|s.trace| + 2].HomeOpening?
    requires Ordinal(s'.trace[..|s.trace| + 2]) == Ordinal(s.trace)
    ensures OpensForeignHome(s, s', c) <==> Ordinal(s.trace) != Ordinal(s.trace[..c])
    ensures OpensStaleHome(s, s') <==> s'.trace[|s.trace| + 2].epoch != Epoch(s')
  {
    hide Ordinal;
    assert s'.trace[..c] == s.trace[..c];
    assert s'.trace[|s.trace| + 2].HomeOpening?;
  }

  lemma SettlementKeepsOrdinal(cfg: Config, s: Session, index: nat, ok: bool)
    requires Patrolling(s) && index < |s.pushes|
    ensures Ordinal(Step(cfg, s, PushSettledIn(index, ok)).trace[..|s.trace| + 2]) == Ordinal(s.trace)
  {
    SettlementLog(cfg, s, index, ok);
    var t := Step(cfg, s, PushSettledIn(index, ok)).trace;
    hide Step, Ordinal;
    OrdinalAppend(s.trace, t[|s.trace|]);
    OrdinalAppend(s.trace + [t[|s.trace|]], t[|s.trace| + 1]);
  }

  /** The push of a run is still for the excursion that is running, or that one has ended since. */
  lemma PushFollowed(cfg: Config, inputs: seq<Input>, index: nat)
    requires var s := Run(cfg, InitialSession, inputs); Patrolling(s) && index < |s.pushes|
    ensures var s := Run(cfg, InitialSession, inputs);
            Located(s, Calls(cfg, inputs))
    ensures var s, c := Run(cfg, InitialSession, inputs), Calls(cfg, inputs)[index];
            if OverSince(s.trace, c) then Ordinal(s.trace) != Ordinal(s.trace[..c])
            else Ordinal(s.trace) == Ordinal(s.trace[..c]) && s.pushes[index].epoch == Epoch(s)
  {
    hide Run, Calls, Ordinal, Alternations, Fold, FoldCaptures;
    CallsAreLocated(cfg, inputs);
    ReachableInv(cfg, inputs);
    var s, c := Run(cfg, InitialSession, inputs), Calls(cfg, inputs)[index];
    InTurnAt(s.trace, c);
    FollowExcursion(s.trace, c);
  }

  /**
   Settling a push opens the notification home inside another excursion than the push's own exactly when the push's
   excursion has ended, or was dropped by a reset, since the push was handed over.
   */
  lemma ForeignHomeExactly(cfg: Config, inputs: seq<Input>, index: nat, ok: bool)
    requires var s := Run(cfg, InitialSession, inputs); Patrolling(s) && index < |s.pushes|
    ensures |Calls(cfg, inputs)| == |Run(cfg, InitialSession, inputs).pushes|
    ensures var s, c := Run(cfg, InitialSession, inputs), Calls(cfg, inputs)[index];
            && c < |s.trace| && s.trace <= Step(cfg, s, PushSettledIn(index, ok)).trace
            && s.trace[c] == NotifyCalled(s.pushes[index].items, s.pushes[index].epoch)
            && (OpensForeignHome(s, Step(cfg, s, PushSettledIn(index, ok)), c) <==> OverSince(s.trace, c))
  {
    PushFollowed(cfg, inputs, index);
    var s, c := Run(cfg, InitialSession, inputs), Calls(cfg, inputs)[index];
    var s' := Step(cfg, s, PushSettledIn(index, ok));
    SettlementLog(cfg, s, index, ok);
    SettlementKeepsOrdinal(cfg, s, index, ok);
    hide Run, Calls, Step, Ordinal, OpensForeignHome, OpensStaleHome, OverSince, Epoch;
    LastOpensHome(s, s', c);
  }

  /** It does so under another epoch than the running one exactly when, besides, the two excursions' epochs differ. */
  lemma StaleEpochExactly(cfg: Config, inputs: seq<Input>, index: nat, ok: bool)
    requires var s := Run(cfg, InitialSession, inputs); Patrolling(s) && index < |s.pushes|
    ensures |Calls(cfg, inputs)| == |Run(cfg, InitialSession, inputs).pushes|
    ensures var s, c := Run(cfg, InitialSession, inputs), Calls(cfg, inputs)[index];
            OpensStaleHome(s, Step(cfg, s, PushSettledIn(index, ok)))
            <==> OverSince(s.trace, c) && s.pushes[index].epoch != Epoch(s)
  {
    PushFollowed(cfg, inputs, index);
    var s, c := Run(cfg, InitialSession, inputs), Calls(cfg, inputs)[index];
    var s' := Step(cfg, s, PushSettledIn(index, ok));
    SettlementLog(cfg, s, index, ok);
    SettlementKeepsOrdinal(cfg, s, index, ok);
    hide Run, Calls, Step, Ordinal, OpensForeignHome, OpensStaleHome, OverSince, Epoch;
    LastOpensHome(s, s', c);
  }

  // ---------- such runs exist ----------

  const LateItem := Item("k", Worthy)

  /** Excursion 1 pushes an item and fails; an excursion of epoch `e` begins before that push settles. */
  function LateRun(e: int): seq<Input> {
    [DetectedIn(1, false, false), HomeIn(Counts(2, 0, 0)), ItemsIn([LateItem]), ActionIn(BrowseComments, false),
     DetectedIn(e, false, false)]
  }

  lemma LateRunStates(e: int)
    ensures var inputs := LateRun(e);
            var s := Run(Demo, InitialSession, inputs[..3]);
            && Patrolling(s) && |s.pushes| == 1 && s.pushes[0] == Push([LateItem], 1) && !s.ctx.captureInFlight && Epoch(s) == 1
  {
    var inputs := LateRun(e);
    OnCommentsState(1);
    assert inputs[..3] == [DetectedIn(1, false, false), HomeIn(Counts(2, 0, 0))] + [ItemsIn([LateItem])];
    RunStep(Demo, InitialSession, [DetectedIn(1, false, false), HomeIn(Counts(2, 0, 0))], ItemsIn([LateItem]));
    assert [LateItem][1..] == [];
    assert WorthyOf([LateItem]) == [LateItem];
    assert UnseenOf(OnComments(1).ctx, [LateItem]) == [LateItem];
    PushesAsIs(OnComments(1), [LateItem]);
  }

  lemma LateRunEnd(e: int, s: Session)
    requires Patrolling(s) && !s.ctx.captureInFlight
    ensures var s1 := Step(Demo, s, ActionIn(BrowseComments, false));
            var s2 := Step(Demo, s1, DetectedIn(e, false, false));
            && s1.trace == s.trace + [ExcursionEnded(Epoch(s), CommandFailed(BrowseComments)),
                                      FeedEntered(s.ctx.sourcePage, BackToFeed, false)]
            && s1.trace <= s2.trace && s1.pushes == s.pushes == s2.pushes
            && Patrolling(s2) && Epoch(s2) == e
  {
  }

  /**
   Whatever the epoch of the second excursion, the first one's push opens the home page inside it; under another epoch
   unless the second excursion has the first one's.
   */
  lemma LatePushHappens(e: int)
    ensures var s := Run(Demo, InitialSession, LateRun(e));
            Patrolling(s) && |s.pushes| == 1 && |Calls(Demo, LateRun(e))| == 1 && Calls(Demo, LateRun(e))[0] < |s.trace|
    ensures var s := Run(Demo, InitialSession, LateRun(e));
            var s' := Step(Demo, s, PushSettledIn(0, true));
            && s.trace <= s'.trace
            && OpensForeignHome(s, s', Calls(Demo, LateRun(e))[0])
            && (OpensStaleHome(s, s') <==> e != 1)
  {
    var inputs := LateRun(e);
    var s := Run(Demo, InitialSession, inputs[..3]);
    LateRunStates(e);
    LateRunEnd(e, s);
    var s1 := Step(Demo, s, ActionIn(BrowseComments, false));
    var s2 := Step(Demo, s1, DetectedIn(e, false, false));
    LateRunUnfolds(e);
    CallsAreLocated(Demo, inputs[..3]);
    assert Ends(s2.trace[|s.trace|]);
    assert OverSince(s2.trace, Calls(Demo, inputs)[0]);
    hide Run, Calls, Step, Located;
    ForeignHomeExactly(Demo, inputs, 0, true);
    StaleEpochExactly(Demo, inputs, 0, true);
  }

  lemma LateRunUnfolds(e: int)
    ensures var inputs := LateRun(e);
            var s := Run(Demo, InitialSession, inputs[..3]);
            var s1 := Step(Demo, s, ActionIn(BrowseComments, false));
            && Run(Demo, InitialSession, inputs) == Step(Demo, s1, DetectedIn(e, false, false))
            && Calls(Demo, inputs) == Calls(Demo, inputs[..3])
  {
    var inputs := LateRun(e);
    LateRunStates(e);
    LateRunEnd(e, Run(Demo, InitialSession, inputs[..3]));
    hide Step;
    assert inputs[..4][..3] == inputs[..3];
    assert Run(Demo, InitialSession, inputs[..4])
        == Step(Demo, Run(Demo, InitialSession, inputs[..3]), ActionIn(BrowseComments, false));
  }
}
