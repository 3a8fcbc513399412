/**
 The sub-line ends: when nothing expires and every awaited call settles, an interaction leads to exactly one terminal
 event, however the answers to other interactions come in between.
 */
module CommentSettles {
  import opened Wrappers
  import opened CommentLine
  import opened CommentFlow

  ghost function RunFrom(l: Line, es: seq<Event>): Line {
    if es == [] then l else Step(RunFrom(l, es[..|es| - 1]), es[|es| - 1])
  }

  lemma {:induction false} RunSplits(a: seq<Event>, b: seq<Event>)
    ensures Run(a + b) == RunFrom(Run(a), b)
  {
    hide Step;
    if b == [] {
      assert a + b == a;
    } else {
      RunSplits(a, b[..|b| - 1]);
      assert (a + b)[..|a + b| - 1] == a + b[..|b| - 1];
    }
  }

  lemma {:induction false} RunFromSplits(l: Line, a: seq<Event>, b: seq<Event>)
    ensures RunFrom(l, a + b) == RunFrom(RunFrom(l, a), b)
  {
    hide Step;
    if b == [] {
      assert a + b == a;
    } else {
      RunFromSplits(l, a, b[..|b| - 1]);
      assert (a + b)[..|a + b| - 1] == a + b[..|b| - 1];
    }
  }

  lemma RunFromOne(l: Line, e: Event)
    ensures RunFrom(l, [e]) == Step(l, e)
  {
    hide Step;
    assert [e][..0] == [];
  }

  // ---------- other interactions do not matter ----------

  function Only(es: seq<Event>, id: nat): seq<Event> {
    if es == [] then []
    else Only(es[..|es| - 1], id) + if es[|es| - 1].id == id then [es[|es| - 1]] else []
  }

  /** The two lines agree on where the interaction stands. */
  predicate SameStage(l: Line, l': Line, id: nat) {
    (id in l.stages <==> id in l'.stages) && (id in l.stages ==> l.stages[id] == l'.stages[id])
  }

  lemma StepIsLocal(l: Line, l': Line, e: Event)
    requires SameStage(l, l', e.id)
    ensures SameStage(Step(l, e), Step(l', e), e.id)
  {
    hide Appraise, Compose, Clean, ApprovalMode, PollRound, References, Emissions;
  }

  lemma StepSparesOthers(l: Line, e: Event, id: nat)
    requires e.id != id
    ensures SameStage(Step(l, e), l, id)
  {
    hide Proper;
    StepIsProper(l, e);
    if Step(l, e) != l {
      var acts :| Proper(l, e.id, Step(l, e), acts);
      ProperLeavesOthers(l, e.id, Step(l, e), acts, id);
    }
  }

  /** Where an interaction stands depends only on its own events. */
  lemma {:induction false} OthersDoNotMatter(es: seq<Event>, id: nat)
    ensures SameStage(Run(es), Run(Only(es, id)), id)
  {
    hide Step;
    if es != [] {
      var init, e := es[..|es| - 1], es[|es| - 1];
      OthersDoNotMatter(init, id);
      if e.id == id {
        StepIsLocal(Run(init), Run(Only(init, id)), e);
        assert Only(es, id)[..|Only(es, id)| - 1] == Only(init, id);
      } else {
        StepSparesOthers(Run(init), e, id);
        assert Only(es, id) == Only(init, id);
      }
    }
  }

  // ---------- the awaited answers ----------

  /** An answer to everything the four roles may wait for; `port` tells how the gate polls. */
  datatype Answers = Answers(
    appraiser: AppraiserEnv,
    composer: ComposerEnv,
    cleaner: CleanerEnv,
    gate: GateEnv,
    port: Port,
    rounds: seq<Round>)

  function RoundEvents(id: nat, rounds: seq<Round>): seq<Event> {
    if rounds == [] then [] else RoundEvents(id, rounds[..|rounds| - 1]) + [GateRound(id, rounds[|rounds| - 1])]
  }

  function Delivery(id: nat, a: Answers): seq<Event> {
    [AppraiserEnds(id, a.appraiser), ComposerEnds(id, a.composer), CleanerEnds(id, a.cleaner), GateStarts(id, a.gate)]
    + RoundEvents(id, a.rounds)
  }

  predicate Lively(r: Round) {
    !r.expiredBefore && !r.expiredAfter
  }

  /** Nothing expires, each sleep lets the clock advance by the interval, and there are rounds enough to pass the timeout. */
  ghost predicate Settles(id: nat, a: Answers) {
    && NeverExpires(AppraiserEnds(id, a.appraiser)) && NeverExpires(ComposerEnds(id, a.composer))
    && NeverExpires(CleanerEnds(id, a.cleaner)) && NeverExpires(GateStarts(id, a.gate))
    && (forall k :: 0 <= k < |a.rounds| ==> Lively(a.rounds[k]))
    && (a.gate.port.Some? ==> a.gate.port.value == a.port)
    && a.port.pollMs > 0
    && Spaced(a.gate.now, a.port.pollMs, a.rounds)
    && |a.rounds| >= RoundsNeeded(a.port)
  }

  function RoundsNeeded(port: Port): nat
    requires port.pollMs > 0
  {
    (if port.timeoutMs < 0 then 0 else port.timeoutMs) / port.pollMs + 2
  }

  /** The poll under way, if any, gives up no later than one started now would. */
  predicate InTime(s: Stage, a: Answers) {
    s.Polling? ==> s.deadline <= a.gate.now + a.port.timeoutMs
  }

  /** Where the interaction stands after the gate has started. */
  predicate AtGate(s: Stage, a: Answers) {
    s == Ended(true) || (s.Polling? && InTime(s, a))
  }

  /** After `k` rounds the gate has spoken, or it is still polling within its time. */
  lemma {:induction false} RoundsInTime(l: Line, id: nat, a: Answers, k: nat)
    requires Settles(id, a) && k <= |a.rounds| && id in l.stages && AtGate(l.stages[id], a)
    ensures var l' := RunFrom(l, RoundEvents(id, a.rounds[..k]));
            && id in l'.stages && AtGate(l'.stages[id], a)
            && (k > 0 && l'.stages[id].Polling? ==> a.rounds[k - 1].at <= l'.stages[id].deadline)
    decreases k
  {
    if k > 0 {
      hide Step, Settles;
      RoundsInTime(l, id, a, k - 1);
      var before := RunFrom(l, RoundEvents(id, a.rounds[..k - 1]));
      var r := a.rounds[k - 1];
      assert a.rounds[..k][..k - 1] == a.rounds[..k - 1];
      var events := RoundEvents(id, a.rounds[..k]);
      assert events == RoundEvents(id, a.rounds[..k - 1]) + [GateRound(id, r)];
      assert events[..|events| - 1] == RoundEvents(id, a.rounds[..k - 1]);
      LivelyRound(id, a, k - 1);
      RoundOutcome(before, id, r, a);
    }
  }

  lemma LivelyRound(id: nat, a: Answers, k: nat)
    requires Settles(id, a) && k < |a.rounds|
    ensures Lively(a.rounds[k])
  {
  }

  lemma RoundOutcome(l: Line, id: nat, r: Round, a: Answers)
    requires id in l.stages && AtGate(l.stages[id], a) && Lively(r)
    ensures var l' := Step(l, GateRound(id, r));
            && id in l'.stages && AtGate(l'.stages[id], a)
            && (l'.stages[id].Polling? ==> r.at <= l'.stages[id].deadline)
  {
  }

  /** Rounds enough to pass the timeout end the poll with a terminal event. */
  lemma RoundsEndIt(l: Line, id: nat, a: Answers)
    requires Settles(id, a) && id in l.stages && AtGate(l.stages[id], a)
    ensures var l' := RunFrom(l, RoundEvents(id, a.rounds)); id in l'.stages && l'.stages[id] == Ended(true)
  {
    var n := |a.rounds|;
    assert a.rounds[..n] == a.rounds;
    RoundsInTime(l, id, a, n);
    RoundsTakeTime(a.gate.now, a.port.pollMs, a.rounds);
    LastRoundIsLate(a.port, n);
  }

  lemma LastRoundIsLate(port: Port, n: nat)
    requires port.pollMs > 0 && n >= RoundsNeeded(port)
    ensures (n - 1) * port.pollMs > port.timeoutMs
  {
    var t, d := if port.timeoutMs < 0 then 0 else port.timeoutMs, port.pollMs;
    assert t < (t / d + 1) * d;
    NoFewer(t / d + 1, n - 1, d);
  }

  lemma NoFewer(a: int, b: int, d: int)
    requires a <= b && d > 0
    ensures a * d <= b * d
  {
  }

  /** One answer moves the interaction past the stage that waited for it. */
  lemma AnswerMoves(l: Line, e: Event, rank: nat)
    requires NeverExpires(e) && e.id in l.stages && l.stages[e.id] != Ended(false)
    requires match e
             case AppraiserEnds(_, _) => rank == 0
             case ComposerEnds(_, _) => rank == 1
             case CleanerEnds(_, _) => rank == 2
             case GateStarts(_, _) => rank == 3
             case _ => false
    requires Rank(l.stages[e.id]) >= rank
    ensures var l' := Step(l, e);
            && e.id in l'.stages && l'.stages[e.id] != Ended(false) && Rank(l'.stages[e.id]) >= rank + 1
            && (l'.stages[e.id].Polling? ==> l'.stages[e.id] == l.stages[e.id] || e.GateStarts?)
  {
    StepMovesOn(l, e);
    hide Compose, Clean, Appraise, ApprovalMode, References;
  }

  lemma GateAnswerMoves(l: Line, id: nat, a: Answers)
    requires Settles(id, a) && id in l.stages && l.stages[id] != Ended(false) && Rank(l.stages[id]) >= 3 && InTime(l.stages[id], a)
    ensures var l' := Step(l, GateStarts(id, a.gate)); id in l'.stages && AtGate(l'.stages[id], a)
  {
    AnswerMoves(l, GateStarts(id, a.gate), 3);
    hide ApprovalMode, NeverExpires;
  }

  /** Delivering the awaited answers ends the interaction from any stage. */
  lemma DeliveryEndsIt(l: Line, id: nat, a: Answers)
    requires Settles(id, a) && id in l.stages && l.stages[id] != Ended(false) && InTime(l.stages[id], a)
    ensures var l' := RunFrom(l, Delivery(id, a)); id in l'.stages && l'.stages[id] == Ended(true)
  {
    var e1, e2 := AppraiserEnds(id, a.appraiser), ComposerEnds(id, a.composer);
    var e3, e4 := CleanerEnds(id, a.cleaner), GateStarts(id, a.gate);
    AnswerMoves(l, e1, 0);
    AnswerMoves(Step(l, e1), e2, 1);
    AnswerMoves(Step(Step(l, e1), e2), e3, 2);
    var l3 := Step(Step(Step(l, e1), e2), e3);
    GateAnswerMoves(l3, id, a);
    RoundsEndIt(Step(l3, e4), id, a);
    hide Step, Settles, RoundEvents;
    FourEvents(l, e1, e2, e3, e4);
    RunFromSplits(l, [e1, e2, e3, e4], RoundEvents(id, a.rounds));
  }

  lemma FourEvents(l: Line, e1: Event, e2: Event, e3: Event, e4: Event)
    ensures RunFrom(l, [e1, e2, e3, e4]) == Step(Step(Step(Step(l, e1), e2), e3), e4)
  {
    hide Step;
    RunFromOne(l, e1);
    assert [e1, e2, e3, e4][..3] == [e1, e2, e3] && [e1, e2, e3][..2] == [e1, e2] && [e1, e2][..1] == [e1];
    assert RunFrom(l, [e1, e2]) == Step(Step(l, e1), e2);
    assert RunFrom(l, [e1, e2, e3]) == Step(Step(Step(l, e1), e2), e3);
  }

  /**
   When nothing of an interaction expires and every call it awaits settles, it ends with exactly one terminal event,
   from whatever stage it had reached and whatever happens to other interactions meanwhile.
   */
  lemma SettledCallsEndOnce(es: seq<Event>, id: nat, earlier: seq<Event>, a: Answers)
    requires Only(es, id) == earlier + Delivery(id, a) && Settles(id, a)
    requires forall k :: 0 <= k < |earlier| ==> NeverExpires(earlier[k])
    requires id in Run(earlier).stages && InTime(Run(earlier).stages[id], a)
    ensures id in Run(es).stages && Run(es).stages[id] == Ended(true) && Terminals(Run(es).log, id) == 1
  {
    OthersDoNotMatter(es, id);
    RunSplits(earlier, Delivery(id, a));
    NeverSilent(earlier, id);
    DeliveryEndsIt(Run(earlier), id, a);
    AtMostOneTerminal(es);
    hide Run, RunFrom, Settles, Terminals, Delivery, Only, InTime, NeverExpires;
  }

  /** In particular from the start: one interaction, its answers, one terminal event. */
  lemma EveryInteractionEndsOnce(es: seq<Event>, id: nat, rule: Option<Mandatory>, a: Answers)
    requires Only(es, id) == [Interaction(id, rule)] + Delivery(id, a) && Settles(id, a)
    ensures id in Run(es).stages && Run(es).stages[id] == Ended(true) && Terminals(Run(es).log, id) == 1
  {
    var start := [Interaction(id, rule)];
    assert start[..0] == [];
    assert Run(start) == Step(Idle, Interaction(id, rule));
    assert Run(start).stages[id] == Appraising(rule);
    hide Run, Step, Settles, Terminals, Delivery, Only;
    SettledCallsEndOnce(es, id, start, a);
  }
}
