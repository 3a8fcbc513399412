/**
 The four comment roles at work on any number of interactions at once. A role answers an event after any delay, so the
 answers of different interactions interleave freely; every emitted event and every use of the approval port is logged.
 */
module CommentFlow {
  import opened Wrappers
  import opened CommentLine
  import CopyGuard
  import Text

  datatype Stage =
    | Appraising(rule: Option<Mandatory>)
    | Composing(rule: Option<Mandatory>)
    | Cleaning(rule: Option<Mandatory>, draft: string, references: seq<string>)
    | Gating(rule: Option<Mandatory>, text: string)
    | Polling(text: string, requestId: string, deadline: int)
    | Ended(spoke: bool)

  /** What is seen of the sub-line: its events and its calls of the approval port. */
  datatype Act =
    | Appraised(id: nat)
    | Composed(id: nat, draft: string, references: seq<string>)
    | Cleared(id: nat, text: string)
    | Requested(id: nat, requestId: string, text: string)
    | Answered(id: nat, requestId: string, approved: bool)
    | Skipped(id: nat, reason: string)
    | Approved(id: nat, text: string)

  datatype Line = Line(stages: map<nat, Stage>, log: seq<Act>)

  datatype Event =
    | Interaction(id: nat, rule: Option<Mandatory>)
    | AppraiserEnds(id: nat, appraiser: AppraiserEnv)
    | ComposerEnds(id: nat, composer: ComposerEnv)
    | CleanerEnds(id: nat, cleaner: CleanerEnv)
    | GateStarts(id: nat, gate: GateEnv)
    | GateRound(id: nat, round: Round)

  function Moved(l: Line, id: nat, stage: Stage, acts: seq<Act>): Line {
    l.(stages := l.stages[id := stage], log := l.log + acts)
  }

  /** What a handler emits for its conclusion. */
  function Emissions<T>(id: nat, c: Conclusion<T>, act: T -> Act): seq<Act> {
    match c
    case Silent => []
    case Skip(reason) => [Skipped(id, reason)]
    case Pass(v) => [act(v)]
  }

  function Conclude<T>(l: Line, id: nat, c: Conclusion<T>, stage: T -> Stage, act: T -> Act): Line {
    Moved(l, id, if c.Pass? then stage(c.value) else Ended(c.Skip?), Emissions(id, c, act))
  }

  function StartGate(l: Line, id: nat, rule: Option<Mandatory>, text: string, env: GateEnv): Line {
    if env.expired(0) then Moved(l, id, Ended(false), [])
    else if ApprovalMode(rule, env).AutoApprove? then
      if env.expired(1) then Moved(l, id, Ended(false), [])
      else Moved(l, id, Ended(true), [Approved(id, text)])
    else if env.port.None? then
      if env.expired(1) then Moved(l, id, Ended(false), []) else Moved(l, id, Ended(true), [Skipped(id, "approval_unwired")])
    else if !env.cardSent then
      if env.expired(1) || env.expired(2) then Moved(l, id, Ended(false), [Requested(id, env.requestId, text)])
      else Moved(l, id, Ended(true), [Requested(id, env.requestId, text), Skipped(id, "approval_request_failed")])
    else if env.expired(1) then Moved(l, id, Ended(false), [Requested(id, env.requestId, text)])
    else
      Moved(l, id, Polling(text, env.requestId, env.now + env.port.value.timeoutMs), [Requested(id, env.requestId, text)])
  }

  function TakeRound(l: Line, id: nat, s: Stage, r: Round): Line
    requires s.Polling?
  {
    var asked := if r.at <= s.deadline && !r.expiredBefore then [Answered(id, s.requestId, r.answer == Some(true))] else [];
    match PollRound(s.deadline, r)
    case Waiting => Moved(l, id, s, asked)
    case Over(Silent) => Moved(l, id, Ended(false), asked)
    case Over(Skip(reason)) => Moved(l, id, Ended(true), asked + [Skipped(id, reason)])
    case Over(Pass(_)) => Moved(l, id, Ended(true), asked + [Approved(id, s.text)])
  }

  /** The stage an event finds its interaction in, if it is one that the event can end. */
  ghost function Step(l: Line, e: Event): Line {
    if e.Interaction? then
      if e.id in l.stages then l else Moved(l, e.id, Appraising(e.rule), [])
    else if e.id !in l.stages then l
    else
      var s := l.stages[e.id];
      match e
      case AppraiserEnds(id, env) =>
        if !s.Appraising? then l
        else Conclude(l, id, Appraise(s.rule, env), (rule: Option<Mandatory>) => Composing(rule),
                      (rule: Option<Mandatory>) => Appraised(id))
      case ComposerEnds(id, env) =>
        if !s.Composing? then l
        else
          var references := References(env.lookup);
          Conclude(l, id, Compose(s.rule, env).0, (draft: string) => Cleaning(s.rule, draft, references),
                   (draft: string) => Composed(id, draft, references))
      case CleanerEnds(id, env) =>
        if !s.Cleaning? then l
        else
          Conclude(l, id, Clean(s.draft, s.references, env), (text: string) => Gating(s.rule, text),
                   (text: string) => Cleared(id, text))
      case GateStarts(id, env) =>
        if !s.Gating? then l else StartGate(l, id, s.rule, s.text, env)
      case GateRound(id, r) =>
        if !s.Polling? then l else TakeRound(l, id, s, r)
  }

  const Idle := Line(map[], [])

  ghost function Run(es: seq<Event>): Line {
    if es == [] then Idle else Step(Run(es[..|es| - 1]), es[|es| - 1])
  }

  // ---------- one terminal event per interaction ----------

  predicate IsTerminal(a: Act) {
    a.Skipped? || a.Approved?
  }

  function Terminals(log: seq<Act>, id: nat): nat {
    if log == [] then 0
    else Terminals(log[..|log| - 1], id) + if IsTerminal(log[|log| - 1]) && log[|log| - 1].id == id then 1 else 0
  }

  lemma {:induction false} TerminalsAdd(log: seq<Act>, acts: seq<Act>, id: nat)
    ensures Terminals(log + acts, id) == Terminals(log, id) + Terminals(acts, id)
  {
    if acts == [] {
      assert log + acts == log;
    } else {
      var init := acts[..|acts| - 1];
      TerminalsAdd(log, init, id);
      assert (log + acts)[..|log + acts| - 1] == log + init;
    }
  }

  predicate HasSpoken(l: Line, id: nat) {
    id in l.stages && l.stages[id] == Ended(true)
  }

  ghost predicate OneTerminal(l: Line) {
    forall id: nat :: Terminals(l.log, id) == if HasSpoken(l, id) then 1 else 0
  }

  /** Only the interaction of the event moves; it was not over, and it logs a terminal event exactly when it ends speaking. */
  ghost predicate Proper(l: Line, id: nat, l': Line, acts: seq<Act>) {
    && id in l'.stages
    && l' == Moved(l, id, l'.stages[id], acts)
    && (id in l.stages ==> !l.stages[id].Ended?)
    && (forall k :: 0 <= k < |acts| ==> acts[k].id == id)
    && Terminals(acts, id) == if l'.stages[id] == Ended(true) then 1 else 0
  }

  lemma {:induction false} OtherTerminals(acts: seq<Act>, id: nat, other: nat)
    requires id != other && forall k :: 0 <= k < |acts| ==> acts[k].id == id
    ensures Terminals(acts, other) == 0
  {
    if acts != [] {
      OtherTerminals(acts[..|acts| - 1], id, other);
    }
  }

  lemma OneAct(a: Act)
    ensures Terminals([a], a.id) == if IsTerminal(a) then 1 else 0
    ensures Terminals([], a.id) == 0
  {
    assert [a][..0] == [];
  }

  lemma TwoActs(a: Act, b: Act)
    requires a.id == b.id
    ensures Terminals([a, b], a.id) == (if IsTerminal(a) then 1 else 0) + if IsTerminal(b) then 1 else 0
  {
    OneAct(a);
    assert [a, b][..1] == [a];
  }

  lemma ConcludeIsProper<T>(l: Line, id: nat, c: Conclusion<T>, stage: T -> Stage, act: T -> Act)
    requires id in l.stages && !l.stages[id].Ended?
    requires forall v :: act(v).id == id && !IsTerminal(act(v)) && !stage(v).Ended?
    ensures exists acts :: Proper(l, id, Conclude(l, id, c, stage, act), acts)
  {
    EmitsOnce(id, c, act);
    assert Proper(l, id, Conclude(l, id, c, stage, act), Emissions(id, c, act));
  }

  /** A handler emits at most one event, and a terminal one exactly when it skips. */
  lemma EmitsOnce<T>(id: nat, c: Conclusion<T>, act: T -> Act)
    requires forall v :: act(v).id == id && !IsTerminal(act(v))
    ensures |Emissions(id, c, act)| <= 1 && Terminals(Emissions(id, c, act), id) == if c.Skip? then 1 else 0
  {
    match c
    case Silent => OneAct(Skipped(id, ""));
    case Skip(reason) => OneAct(Skipped(id, reason));
    case Pass(v) => OneAct(act(v));
  }

  lemma SilenceIsProper(l: Line, id: nat)
    requires id in l.stages && !l.stages[id].Ended?
    ensures Proper(l, id, Moved(l, id, Ended(false), []), [])
  {
    OneAct(Skipped(id, ""));
  }

  lemma ActIsProper(l: Line, id: nat, stage: Stage, a: Act)
    requires id in l.stages && !l.stages[id].Ended? && a.id == id && (IsTerminal(a) <==> stage == Ended(true))
    ensures Proper(l, id, Moved(l, id, stage, [a]), [a])
  {
    hide Terminals;
    OneAct(a);
  }

  lemma ActsAreProper(l: Line, id: nat, a: Act, b: Act)
    requires id in l.stages && !l.stages[id].Ended? && a.id == b.id == id && !IsTerminal(a) && IsTerminal(b)
    ensures Proper(l, id, Moved(l, id, Ended(true), [a, b]), [a, b])
  {
    hide Terminals;
    TwoActs(a, b);
  }

  lemma GateIsProper(l: Line, id: nat, rule: Option<Mandatory>, text: string, env: GateEnv)
    requires id in l.stages && !l.stages[id].Ended?
    ensures exists acts :: Proper(l, id, StartGate(l, id, rule, text, env), acts)
  {
    hide Proper, ApprovalMode, Moved;
    var request := Requested(id, env.requestId, text);
    SilenceIsProper(l, id);
    ActIsProper(l, id, Ended(false), request);
    ActIsProper(l, id, Ended(true), Skipped(id, "approval_unwired"));
    ActIsProper(l, id, Ended(true), Approved(id, text));
    ActsAreProper(l, id, request, Skipped(id, "approval_request_failed"));
    if env.port.Some? {
      ActIsProper(l, id, Polling(text, env.requestId, env.now + env.port.value.timeoutMs), request);
    }
    var l' := StartGate(l, id, rule, text, env);
    assert || Proper(l, id, l', [])
           || Proper(l, id, l', [request])
           || Proper(l, id, l', [Skipped(id, "approval_unwired")])
           || Proper(l, id, l', [Approved(id, text)])
           || Proper(l, id, l', [request, Skipped(id, "approval_request_failed")]);
  }

  lemma PollIsProper(l: Line, id: nat, s: Stage, r: Round)
    requires id in l.stages && l.stages[id] == s && s.Polling?
    ensures exists acts :: Proper(l, id, TakeRound(l, id, s, r), acts)
  {
    hide Terminals;
    var l' := TakeRound(l, id, s, r);
    var answer, skip, approved := Answered(id, s.requestId, r.answer == Some(true)), Skipped(id, "approval_timeout"), Approved(id, s.text);
    OneAct(answer);
    OneAct(skip);
    TwoActs(answer, approved);
    assert || Proper(l, id, l', [])
           || Proper(l, id, l', [answer])
           || Proper(l, id, l', [skip])
           || Proper(l, id, l', [answer, approved]);
  }

  lemma StepIsProper(l: Line, e: Event)
    ensures Step(l, e) == l || exists acts :: Proper(l, e.id, Step(l, e), acts)
  {
    hide Terminals, Appraise, Compose, Clean, StartGate, TakeRound, Proper, References, Conclude;
    if e.id !in l.stages {
      if e.Interaction? {
        InteractionIsProper(l, e.id, e.rule);
      }
      return;
    }
    var s := l.stages[e.id];
    match e
    case Interaction(_, _) =>
    case AppraiserEnds(id, env) =>
      if s.Appraising? {
        ConcludeIsProper(l, id, Appraise(s.rule, env), (rule: Option<Mandatory>) => Composing(rule),
                         (rule: Option<Mandatory>) => Appraised(id));
      }
    case ComposerEnds(id, env) =>
      if s.Composing? {
        var references := References(env.lookup);
        ConcludeIsProper(l, id, Compose(s.rule, env).0, (draft: string) => Cleaning(s.rule, draft, references),
                         (draft: string) => Composed(id, draft, references));
      }
    case CleanerEnds(id, env) =>
      if s.Cleaning? {
        ConcludeIsProper(l, id, Clean(s.draft, s.references, env), (text: string) => Gating(s.rule, text),
                         (text: string) => Cleared(id, text));
      }
    case GateStarts(id, env) =>
      if s.Gating? { GateIsProper(l, id, s.rule, s.text, env); }
    case GateRound(id, r) =>
      if s.Polling? { PollIsProper(l, id, s, r); }
  }

  lemma InteractionIsProper(l: Line, id: nat, rule: Option<Mandatory>)
    requires id !in l.stages
    ensures exists acts :: Proper(l, id, Moved(l, id, Appraising(rule), []), acts)
  {
    OneAct(Skipped(id, ""));
    assert Proper(l, id, Moved(l, id, Appraising(rule), []), []);
  }

  lemma ProperKeepsOneTerminal(l: Line, id: nat, l': Line, acts: seq<Act>)
    requires OneTerminal(l) && Proper(l, id, l', acts)
    ensures OneTerminal(l')
  {
    hide Terminals;
    forall other: nat ensures Terminals(l'.log, other) == if HasSpoken(l', other) then 1 else 0 {
      TerminalsAdd(l.log, acts, other);
      if other != id {
        OtherTerminals(acts, id, other);
      }
    }
  }

  /**
   However the roles' answers interleave, an interaction leads to at most one terminal event, and to one exactly when it
   has ended speaking.
   */
  lemma {:induction false} AtMostOneTerminal(es: seq<Event>)
    ensures OneTerminal(Run(es))
  {
    if es != [] {
      var l, e := Run(es[..|es| - 1]), es[|es| - 1];
      AtMostOneTerminal(es[..|es| - 1]);
      hide Step, Proper, OneTerminal;
      StepIsProper(l, e);
      if Step(l, e) != l {
        var acts :| Proper(l, e.id, Step(l, e), acts);
        ProperKeepsOneTerminal(l, e.id, Step(l, e), acts);
      }
    }
  }

  // ---------- nothing is lost while the sub-line lives ----------

  ghost predicate NeverExpires(e: Event) {
    match e
    case Interaction(_, _) => true
    case AppraiserEnds(_, env) => forall k :: !env.expired(k)
    case ComposerEnds(_, env) => forall k :: !env.expired(k)
    case CleanerEnds(_, env) => forall k :: !env.expired(k)
    case GateStarts(_, env) => forall k :: !env.expired(k)
    case GateRound(_, r) => !r.expiredBefore && !r.expiredAfter
  }

  /** How far a stage is along the line. */
  function Rank(s: Stage): nat {
    match s
    case Appraising(_) => 0
    case Composing(_) => 1
    case Cleaning(_, _, _) => 2
    case Gating(_, _) => 3
    case Polling(_, _, _) => 4
    case Ended(_) => 5
  }

  lemma ComposeSpeaks(m: Option<Mandatory>, env: ComposerEnv)
    requires forall k :: !env.expired(k)
    ensures Compose(m, env).0 != Silent
  {
    if env.hasNote && (env.isFacebook ==> env.hasLanguage) {
      FirstUsableReply(m, env);
    }
  }

  /** While it does not expire, a role's answer moves its interaction on, and never ends it in silence. */
  lemma StepMovesOn(l: Line, e: Event)
    requires NeverExpires(e) && e.id in l.stages
    ensures e.id in Step(l, e).stages && (Step(l, e).stages[e.id] == Ended(false) ==> l.stages[e.id] == Ended(false))
    ensures Rank(l.stages[e.id]) <= Rank(Step(l, e).stages[e.id])
    ensures Step(l, e) != l && !e.GateRound? ==> Rank(l.stages[e.id]) < Rank(Step(l, e).stages[e.id])
  {
    hide Compose, Clean, Appraise;
    match e
    case Interaction(_, _) =>
    case AppraiserEnds(_, env) =>
      if l.stages[e.id].Appraising? { AppraiseSpeaks(l.stages[e.id].rule, env); }
    case ComposerEnds(_, env) =>
      if l.stages[e.id].Composing? { ComposeSpeaks(l.stages[e.id].rule, env); }
    case CleanerEnds(_, env) =>
      if l.stages[e.id].Cleaning? { CleanSpeaks(l.stages[e.id].draft, l.stages[e.id].references, env); }
    case GateStarts(_, env) =>
      hide ApprovalMode;
    case GateRound(_, r) =>
  }

  lemma AppraiseSpeaks(m: Option<Mandatory>, env: AppraiserEnv)
    requires forall k :: !env.expired(k)
    ensures Appraise(m, env) != Silent
  {
  }

  lemma CleanSpeaks(draft: string, references: seq<string>, env: CleanerEnv)
    requires forall k :: !env.expired(k)
    ensures Clean(draft, references, env) != Silent
  {
    hide CopyGuard.CopiesAny, Text.Trim, Rewritten;
  }

  lemma StepLeavesOthers(l: Line, e: Event, other: nat)
    requires other in l.stages && other != e.id
    ensures other in Step(l, e).stages && Step(l, e).stages[other] == l.stages[other]
  {
    hide Proper;
    StepIsProper(l, e);
    if Step(l, e) != l {
      var acts :| Proper(l, e.id, Step(l, e), acts);
      ProperLeavesOthers(l, e.id, Step(l, e), acts, other);
    }
  }

  lemma ProperLeavesOthers(l: Line, id: nat, l': Line, acts: seq<Act>, other: nat)
    requires Proper(l, id, l', acts) && other != id
    ensures other in l'.stages <==> other in l.stages
    ensures other in l.stages ==> l'.stages[other] == l.stages[other]
  {
  }

  /** When the sub-line never expires, every interaction that has ended led to exactly one terminal event. */
  lemma {:induction false} ExactlyOneTerminal(es: seq<Event>, id: nat)
    requires forall i :: 0 <= i < |es| ==> NeverExpires(es[i])
    requires id in Run(es).stages && Run(es).stages[id].Ended?
    ensures Terminals(Run(es).log, id) == 1
  {
    hide Terminals, Step;
    NeverSilent(es, id);
    AtMostOneTerminal(es);
  }

  lemma {:induction false} NeverSilent(es: seq<Event>, id: nat)
    requires forall i :: 0 <= i < |es| ==> NeverExpires(es[i])
    requires id in Run(es).stages
    ensures Run(es).stages[id] != Ended(false)
  {
    hide Step, NeverExpires;
    if es == [] {
      assert false;
    } else {
      var init, e := es[..|es| - 1], es[|es| - 1];
      var l := Run(init);
      if id in l.stages {
        NeverSilent(init, id);
        if e.id == id { StepMovesOn(l, e); } else { StepLeavesOthers(l, e, id); }
      } else {
        NewIsNotOver(l, e, id);
      }
    }
  }

  lemma NewIsNotOver(l: Line, e: Event, id: nat)
    requires id !in l.stages && id in Step(l, e).stages
    ensures Step(l, e).stages[id].Appraising?
  {
    hide Proper;
    if e.id != id {
      StepIsProper(l, e);
      if Step(l, e) != l {
        var acts :| Proper(l, e.id, Step(l, e), acts);
        ProperLeavesOthers(l, e.id, Step(l, e), acts, id);
      }
    }
  }

  /** The sub-line has expired by the first consultation of the event's handler. */
  predicate ExpiredBefore(e: Event) {
    match e
    case Interaction(_, _) => false
    case AppraiserEnds(_, env) => env.expired(0)
    case ComposerEnds(_, env) => env.expired(0)
    case CleanerEnds(_, env) => env.expired(0)
    case GateStarts(_, env) => env.expired(0)
    case GateRound(_, r) => r.expiredBefore
  }

  /** An expired interaction emits nothing more, not even a skip or an approval request, and is over at once. */
  lemma ExpiredNeverSpeaks(l: Line, e: Event)
    requires ExpiredBefore(e)
    ensures Step(l, e).log == l.log
    ensures Step(l, e) != l ==> Step(l, e).stages == l.stages[e.id := Ended(false)]
  {
    hide CopyGuard.CopiesAny, Text.Trim, References;
    assert l.log + [] == l.log;
  }

  // ---------- what an approval rests on ----------

  /** A cleared text answers a draft, and copies none of the references that came with it. */
  ghost predicate Original(log: seq<Act>, id: nat, text: string) {
    exists draft, references ::
      Composed(id, draft, references) in log && text != "" && Text.IsTrimmed(text) && !CopyGuard.CopiesAny(text, references)
  }

  ghost predicate ActKnown(log: seq<Act>, a: Act) {
    match a
    case Cleared(id, text) => Original(log, id, text)
    case Approved(id, text) => Cleared(id, text) in log
    case _ => true
  }

  ghost predicate StageKnown(log: seq<Act>, id: nat, s: Stage) {
    match s
    case Cleaning(_, draft, references) => Composed(id, draft, references) in log
    case Gating(_, text) => Cleared(id, text) in log
    case Polling(text, requestId, _) => Cleared(id, text) in log && Requested(id, requestId, text) in log
    case _ => true
  }

  ghost predicate Known(l: Line) {
    && (forall id :: id in l.stages ==> StageKnown(l.log, id, l.stages[id]))
    && (forall a :: a in l.log ==> ActKnown(l.log, a))
  }

  lemma KnownGrows(log: seq<Act>, acts: seq<Act>, a: Act, id: nat, s: Stage)
    ensures ActKnown(log, a) ==> ActKnown(log + acts, a)
    ensures StageKnown(log, id, s) ==> StageKnown(log + acts, id, s)
  {
    hide CopyGuard.CopiesAny;
    assert forall b :: b in log ==> b in log + acts;
  }

  lemma MovedKeepsKnown(l: Line, id: nat, s: Stage, acts: seq<Act>)
    requires Known(l) && StageKnown(l.log + acts, id, s)
    requires forall k :: 0 <= k < |acts| ==> ActKnown(l.log + acts, acts[k])
    ensures Known(Moved(l, id, s, acts))
  {
    hide ActKnown, StageKnown;
    var l' := Moved(l, id, s, acts);
    forall other | other in l'.stages ensures StageKnown(l'.log, other, l'.stages[other]) {
      if other != id { KnownGrows(l.log, acts, Appraised(id), other, l.stages[other]); }
    }
    forall a | a in l'.log ensures ActKnown(l'.log, a) {
      if a in l.log { KnownGrows(l.log, acts, a, id, s); }
    }
  }

  lemma SilenceKeepsKnown(l: Line, id: nat, spoke: bool, acts: seq<Act>)
    requires Known(l) && forall k :: 0 <= k < |acts| ==> !acts[k].Cleared? && !acts[k].Approved?
    ensures Known(Moved(l, id, Ended(spoke), acts))
  {
    MovedKeepsKnown(l, id, Ended(spoke), acts);
  }

  lemma ConcludeKeepsKnown<T>(l: Line, id: nat, c: Conclusion<T>, stage: T -> Stage, act: T -> Act)
    requires Known(l)
    requires c.Pass? ==> ActKnown(l.log + [act(c.value)], act(c.value)) && StageKnown(l.log + [act(c.value)], id, stage(c.value))
    ensures Known(Conclude(l, id, c, stage, act))
  {
    hide Known, StageKnown, ActKnown;
    match c
    case Silent => SilenceKeepsKnown(l, id, false, []);
    case Skip(reason) => SilenceKeepsKnown(l, id, true, [Skipped(id, reason)]);
    case Pass(v) => MovedKeepsKnown(l, id, stage(v), [act(v)]);
  }

  lemma GateKeepsKnown(l: Line, id: nat, rule: Option<Mandatory>, text: string, env: GateEnv)
    requires Known(l) && Cleared(id, text) in l.log
    ensures Known(StartGate(l, id, rule, text, env))
  {
    hide Known, Moved, ApprovalMode;
    var request := Requested(id, env.requestId, text);
    SilenceKeepsKnown(l, id, false, []);
    SilenceKeepsKnown(l, id, false, [request]);
    SilenceKeepsKnown(l, id, true, [Skipped(id, "approval_unwired")]);
    SilenceKeepsKnown(l, id, true, [request, Skipped(id, "approval_request_failed")]);
    MovedKeepsKnown(l, id, Ended(true), [Approved(id, text)]);
    if env.port.Some? {
      MovedKeepsKnown(l, id, Polling(text, env.requestId, env.now + env.port.value.timeoutMs), [request]);
    }
  }

  lemma PollKeepsKnown(l: Line, id: nat, s: Stage, r: Round)
    requires Known(l) && s.Polling? && StageKnown(l.log, id, s)
    ensures Known(TakeRound(l, id, s, r))
  {
    hide Known, Moved;
    var answer := Answered(id, s.requestId, r.answer == Some(true));
    var asked := if r.at <= s.deadline && !r.expiredBefore then [answer] else [];
    match PollRound(s.deadline, r)
    case Waiting =>
      KnownGrows(l.log, asked, answer, id, s);
      MovedKeepsKnown(l, id, s, asked);
    case Over(Silent) => SilenceKeepsKnown(l, id, false, asked);
    case Over(Skip(reason)) => SilenceKeepsKnown(l, id, true, asked + [Skipped(id, reason)]);
    case Over(Pass(_)) =>
      var acts := [answer, Approved(id, s.text)];
      assert asked + [Approved(id, s.text)] == acts;
      MovedKeepsKnown(l, id, Ended(true), acts);
  }

  lemma CleanerKeepsKnown(l: Line, id: nat, s: Stage, env: CleanerEnv)
    requires Known(l) && s.Cleaning? && StageKnown(l.log, id, s)
    ensures Known(Conclude(l, id, Clean(s.draft, s.references, env), (text: string) => Gating(s.rule, text),
                           (text: string) => Cleared(id, text)))
  {
    hide Known, Clean, CopyGuard.CopiesAny;
    var c := Clean(s.draft, s.references, env);
    if c.Pass? {
      ClearedTextIsOriginal(s.draft, s.references, env);
      assert Composed(id, s.draft, s.references) in l.log + [Cleared(id, c.value)];
    }
    ConcludeKeepsKnown(l, id, c, (text: string) => Gating(s.rule, text), (text: string) => Cleared(id, text));
  }

  lemma StepKeepsKnown(l: Line, e: Event)
    requires Known(l)
    ensures Known(Step(l, e))
  {
    hide Appraise, Compose, Clean, StartGate, TakeRound, References, Conclude, ActKnown, StageKnown;
    if e.id !in l.stages {
      if e.Interaction? { NewKeepsKnown(l, e.id, e.rule); }
      return;
    }
    var s := l.stages[e.id];
    assert StageKnown(l.log, e.id, s);
    hide Known;
    match e
    case Interaction(_, _) =>
    case AppraiserEnds(id, env) =>
      if s.Appraising? { AppraiserKeepsKnown(l, id, Appraise(s.rule, env)); }
    case ComposerEnds(id, env) =>
      if s.Composing? { ComposerKeepsKnown(l, id, s.rule, Compose(s.rule, env).0, References(env.lookup)); }
    case CleanerEnds(id, env) =>
      if s.Cleaning? { CleanerKeepsKnown(l, id, s, env); }
    case GateStarts(id, env) =>
      if s.Gating? {
        GatingIsCleared(l.log, id, s);
        GateKeepsKnown(l, id, s.rule, s.text, env);
      }
    case GateRound(id, r) =>
      if s.Polling? { PollKeepsKnown(l, id, s, r); }
  }

  lemma GatingIsCleared(log: seq<Act>, id: nat, s: Stage)
    requires s.Gating? && StageKnown(log, id, s)
    ensures Cleared(id, s.text) in log
  {
  }

  lemma NewKeepsKnown(l: Line, id: nat, rule: Option<Mandatory>)
    requires Known(l)
    ensures Known(Moved(l, id, Appraising(rule), []))
  {
    MovedKeepsKnown(l, id, Appraising(rule), []);
  }

  lemma AppraiserKeepsKnown(l: Line, id: nat, c: Conclusion<Option<Mandatory>>)
    requires Known(l)
    ensures Known(Conclude(l, id, c, (rule: Option<Mandatory>) => Composing(rule), (rule: Option<Mandatory>) => Appraised(id)))
  {
    hide Known;
    ConcludeKeepsKnown(l, id, c, (rule: Option<Mandatory>) => Composing(rule), (rule: Option<Mandatory>) => Appraised(id));
  }

  lemma ComposerKeepsKnown(l: Line, id: nat, rule: Option<Mandatory>, c: Conclusion<string>, references: seq<string>)
    requires Known(l)
    ensures Known(Conclude(l, id, c, (draft: string) => Cleaning(rule, draft, references),
                           (draft: string) => Composed(id, draft, references)))
  {
    hide Known;
    ConcludeKeepsKnown(l, id, c, (draft: string) => Cleaning(rule, draft, references),
                       (draft: string) => Composed(id, draft, references));
  }

  lemma {:induction false} RunKeepsKnown(es: seq<Event>)
    ensures Known(Run(es))
  {
    if es != [] {
      RunKeepsKnown(es[..|es| - 1]);
      hide Known, Step;
      StepKeepsKnown(Run(es[..|es| - 1]), es[|es| - 1]);
    }
  }

  // ---------- who allowed it ----------

  /** The interaction began at position `k` of the run. */
  ghost predicate Began(es: seq<Event>, k: nat, id: nat) {
    k < |es| && es[k].Interaction? && es[k].id == id && id !in Run(es[..k]).stages
  }

  /** A mandatory rule is handed on only when it asks for a comment. */
  function HandedOn(rule: Option<Mandatory>): Option<Mandatory> {
    if WantsComment(rule) then rule else None
  }

  /** The rule that a stage works under, given the rule of its interaction. */
  predicate WorksUnder(s: Stage, rule: Option<Mandatory>) {
    match s
    case Appraising(r) => r == rule
    case Composing(r) => r == HandedOn(rule)
    case Cleaning(r, _, _) => r == HandedOn(rule)
    case Gating(r, _) => r == HandedOn(rule)
    case _ => true
  }

  lemma StepHandsOn(l: Line, e: Event, rule: Option<Mandatory>)
    requires e.id in l.stages && WorksUnder(l.stages[e.id], rule)
    ensures e.id in Step(l, e).stages && WorksUnder(Step(l, e).stages[e.id], rule)
  {
    hide Compose, Clean, Appraise, ApprovalMode, PollRound, References;
    if e.AppraiserEnds? && l.stages[e.id].Appraising? {
      AppraisedExactly(rule, e.appraiser);
    }
  }

  lemma {:induction false} RuleIsHandedOn(es: seq<Event>, id: nat) returns (k: nat)
    requires id in Run(es).stages
    ensures Began(es, k, id) && WorksUnder(Run(es).stages[id], es[k].rule)
  {
    hide Step, WorksUnder;
    if es == [] {
      assert false;
    } else {
      var init, e := es[..|es| - 1], es[|es| - 1];
      var l := Run(init);
      if id in l.stages {
        k := RuleIsHandedOn(init, id);
        assert es[..k] == init[..k];
        if e.id == id { StepHandsOn(l, e, es[k].rule); } else { StepLeavesOthers(l, e, id); }
      } else {
        k := |es| - 1;
        NewIsInteraction(l, e, id);
      }
    }
  }

  lemma NewIsInteraction(l: Line, e: Event, id: nat)
    requires id !in l.stages && id in Step(l, e).stages
    ensures e.Interaction? && e.id == id && WorksUnder(Step(l, e).stages[id], e.rule)
  {
    hide Proper;
    if e.id != id {
      StepIsProper(l, e);
      if Step(l, e) != l {
        var acts :| Proper(l, e.id, Step(l, e), acts);
        ProperLeavesOthers(l, e.id, Step(l, e), acts, id);
      }
    }
  }

  /** At position `i` the gate took up this text, and could approve it on its own for the rule its interaction carried. */
  ghost predicate ResolvedAuto(es: seq<Event>, i: nat, id: nat, text: string) {
    && i < |es| && es[i].GateStarts? && es[i].id == id
    && id in Run(es[..i]).stages && Run(es[..i]).stages[id].Gating? && Run(es[..i]).stages[id].text == text
    && exists k: nat :: Began(es[..i], k, id) && MayAutoApprove(es[k].rule, es[i].gate)
  }

  /** At position `h` the gate asked for approval, under the request id and with the deadline of this poll. */
  ghost predicate AskedAt(es: seq<Event>, h: nat, id: nat, s: Stage)
    requires s.Polling?
  {
    && h < |es| && es[h].GateStarts? && es[h].id == id && es[h].gate.port.Some? && es[h].gate.cardSent
    && s.requestId == es[h].gate.requestId && s.deadline == es[h].gate.now + es[h].gate.port.value.timeoutMs
  }

  /** At position `i` a round of the poll was answered yes, in time and alive, to the request that carried this very text. */
  ghost predicate ConsentedAt(es: seq<Event>, i: nat, id: nat, text: string) {
    && i < |es| && es[i].GateRound? && es[i].id == id
    && es[i].round.answer == Some(true) && !es[i].round.expiredBefore && !es[i].round.expiredAfter
    && id in Run(es[..i]).stages && Run(es[..i]).stages[id].Polling?
    && var s := Run(es[..i]).stages[id];
       && s.text == text && es[i].round.at <= s.deadline
       && Requested(id, s.requestId, text) in Run(es[..i]).log
       && exists h: nat :: AskedAt(es[..i], h, id, s)
  }

  ghost predicate Authorised(es: seq<Event>, id: nat, text: string) {
    (exists i: nat :: ConsentedAt(es, i, id, text)) || (exists i: nat :: ResolvedAuto(es, i, id, text))
  }

  lemma {:induction false} PollWasAsked(es: seq<Event>, id: nat) returns (h: nat)
    requires id in Run(es).stages && Run(es).stages[id].Polling?
    ensures AskedAt(es, h, id, Run(es).stages[id])
  {
    var init, e := es[..|es| - 1], es[|es| - 1];
    var l := Run(init);
    if id in l.stages && l.stages[id] == Run(es).stages[id] {
      h := PollWasAsked(init, id);
    } else {
      h := |es| - 1;
      PollBegins(l, e, id);
    }
  }

  lemma PollBegins(l: Line, e: Event, id: nat)
    requires id in Step(l, e).stages && Step(l, e).stages[id].Polling?
    requires id in l.stages ==> l.stages[id] != Step(l, e).stages[id]
    ensures AskedAt([e], 0, id, Step(l, e).stages[id])
  {
    hide Compose, Clean, Appraise, ApprovalMode, References, Emissions;
  }

  /** The two ways in which a step can approve. */
  lemma StepApproves(l: Line, e: Event, id: nat, text: string)
    requires Known(l) && Approved(id, text) in Step(l, e).log && Approved(id, text) !in l.log
    ensures e.id == id && id in l.stages
    ensures || (e.GateStarts? && l.stages[id].Gating? && l.stages[id].text == text
                && ApprovalMode(l.stages[id].rule, e.gate) == AutoApprove)
            || (e.GateRound? && l.stages[id].Polling? && l.stages[id].text == text
                && e.round.answer == Some(true) && !e.round.expiredBefore && !e.round.expiredAfter
                && e.round.at <= l.stages[id].deadline && Requested(id, l.stages[id].requestId, text) in l.log)
  {
    hide Compose, Clean, Appraise, ApprovalMode, References, ActKnown;
    if e.id in l.stages && e.GateRound? && l.stages[e.id].Polling? {
      assert StageKnown(l.log, e.id, l.stages[e.id]);
    }
    hide Known;
  }

  lemma LogOnlyGrows(l: Line, e: Event)
    ensures l.log <= Step(l, e).log
  {
    hide Terminals;
    StepIsProper(l, e);
  }

  lemma AuthorisationStays(init: seq<Event>, e: Event, id: nat, text: string)
    requires Authorised(init, id, text)
    ensures Authorised(init + [e], id, text)
  {
    hide Run, AskedAt, MayAutoApprove;
    var es := init + [e];
    if i: nat :| ConsentedAt(init, i, id, text) {
      assert es[..i] == init[..i];
      assert ConsentedAt(es, i, id, text);
    } else {
      var i: nat :| ResolvedAuto(init, i, id, text);
      assert es[..i] == init[..i];
      var k: nat :| Began(init[..i], k, id) && MayAutoApprove(init[k].rule, init[i].gate);
      assert Began(es[..i], k, id) && es[k] == init[k];
      assert ResolvedAuto(es, i, id, text);
    }
  }

  lemma ApprovalAtLast(init: seq<Event>, e: Event, id: nat, text: string)
    requires Approved(id, text) in Step(Run(init), e).log && Approved(id, text) !in Run(init).log
    ensures Authorised(init + [e], id, text)
  {
    RunKeepsKnown(init);
    StepApproves(Run(init), e, id, text);
    hide Run, Step, AskedAt, Known;
    var es, n := init + [e], |init|;
    assert es[..n] == init;
    if e.GateStarts? {
      var k := RuleIsHandedOn(init, id);
      ModeExactly(Run(init).stages[id].rule, e.gate);
      assert Began(es[..n], k, id);
      assert ResolvedAuto(es, n, id, text);
    } else {
      var h := PollWasAsked(init, id);
      assert ConsentedAt(es, n, id, text);
    }
  }

  lemma {:induction false} ApprovalIsAuthorised(es: seq<Event>, id: nat, text: string)
    requires Approved(id, text) in Run(es).log
    ensures Authorised(es, id, text)
  {
    hide Step, Authorised;
    var init, e := es[..|es| - 1], es[|es| - 1];
    LogOnlyGrows(Run(init), e);
    assert init + [e] == es;
    if Approved(id, text) in Run(init).log {
      ApprovalIsAuthorised(init, id, text);
      AuthorisationStays(init, e, id, text);
    } else {
      ApprovalAtLast(init, e, id, text);
    }
  }

  /**
   Over any run, every approved text was cleared for that interaction, is trimmed, not empty and no near copy of the
   composer's references, and was allowed: by a yes, in time and alive, to the request that carried it, or because at its
   gate the account's policy was automatic approval, or gave no answer while the rule demanding the comment allows it.
   */
  lemma ApprovalRestsOnConsent(es: seq<Event>, id: nat, text: string)
    requires Approved(id, text) in Run(es).log
    ensures Cleared(id, text) in Run(es).log && Original(Run(es).log, id, text) && Authorised(es, id, text)
  {
    ApprovalIsAuthorised(es, id, text);
    RunKeepsKnown(es);
    hide Run, Authorised, Original, StageKnown;
    var log := Run(es).log;
    assert ActKnown(log, Approved(id, text));
    assert ActKnown(log, Cleared(id, text));
  }

  /**
   A gate that starts alive approves at once exactly when it may without asking, for the rule its interaction carried;
   otherwise it skips without a port, and with one it asks, and skips when the request cannot be sent.
   */
  lemma GateStartsExactly(es: seq<Event>, id: nat, env: GateEnv) returns (k: nat)
    requires id in Run(es).stages && Run(es).stages[id].Gating? && forall n :: !env.expired(n)
    ensures Began(es, k, id)
    ensures var text, l' := Run(es).stages[id].text, Step(Run(es), GateStarts(id, env));
            var request := Requested(id, env.requestId, text);
            && id in l'.stages
            && if MayAutoApprove(es[k].rule, env) then
                 l'.log == Run(es).log + [Approved(id, text)] && l'.stages[id] == Ended(true)
               else if env.port.None? then
                 l'.log == Run(es).log + [Skipped(id, "approval_unwired")] && l'.stages[id] == Ended(true)
               else if !env.cardSent then
                 l'.log == Run(es).log + [request, Skipped(id, "approval_request_failed")] && l'.stages[id] == Ended(true)
               else
                 && l'.log == Run(es).log + [request]
                 && l'.stages[id] == Polling(text, env.requestId, env.now + env.port.value.timeoutMs)
  {
    k := RuleIsHandedOn(es, id);
    ModeExactly(Run(es).stages[id].rule, env);
    hide Run, ApprovalMode;
  }

  /** A gate emits or polls on only if it finds the line alive when it starts and at its next consultation. */
  lemma GateStartsAlive(l: Line, id: nat, env: GateEnv)
    requires id in l.stages && l.stages[id].Gating?
    ensures var l' := Step(l, GateStarts(id, env));
            id in l'.stages
            && (l'.stages[id] == Ended(false) <==>
                  || env.expired(0) || env.expired(1)
                  || (ApprovalMode(l.stages[id].rule, env) == Review && env.port.Some? && !env.cardSent && env.expired(2)))
            && (env.expired(0) ==> l'.log == l.log)
            && (l'.stages[id] == Ended(false) ==>
                  l'.log == l.log || l'.log == l.log + [Requested(id, env.requestId, l.stages[id].text)])
  {
    hide ApprovalMode;
    assert l.log + [] == l.log;
  }

  /**
   A round of the poll: once the deadline has passed it is the last, with a skip if the line is alive; before, the answer
   is noted unless the line expired first, and a yes that finds the line still alive approves.
   */
  lemma RoundExactly(l: Line, id: nat, r: Round)
    requires id in l.stages && l.stages[id].Polling?
    ensures var s, l' := l.stages[id], Step(l, GateRound(id, r));
            var noted := l.log + [Answered(id, s.requestId, r.answer == Some(true))];
            && id in l'.stages
            && if r.expiredBefore then l'.log == l.log && l'.stages[id] == Ended(false)
               else if r.at > s.deadline then
                 l'.log == l.log + [Skipped(id, "approval_timeout")] && l'.stages[id] == Ended(true)
               else if r.expiredAfter then l'.log == noted && l'.stages[id] == Ended(false)
               else if r.answer == Some(true) then
                 l'.log == noted + [Approved(id, s.text)] && l'.stages[id] == Ended(true)
               else l'.log == noted && l'.stages[id] == s
  {
    var s := l.stages[id];
    var answer := Answered(id, s.requestId, r.answer == Some(true));
    assert l.log + ([answer] + [Approved(id, s.text)]) == l.log + [answer] + [Approved(id, s.text)];
    assert l.log + [] == l.log && [] + [Skipped(id, "approval_timeout")] == [Skipped(id, "approval_timeout")];
  }

  // ---------- whose words are approved ----------

  /** At position `i` the composer answered this interaction with this draft and these references. */
  ghost predicate ComposedAt(es: seq<Event>, i: nat, id: nat, draft: string, references: seq<string>) {
    && i < |es| && es[i].ComposerEnds? && es[i].id == id
    && id in Run(es[..i]).stages && Run(es[..i]).stages[id].Composing?
    && Compose(Run(es[..i]).stages[id].rule, es[i].composer).0 == Pass(draft)
    && references == References(es[i].composer.lookup)
  }

  /** At position `j` the cleaner cleared this text. */
  ghost predicate ClearedAt(es: seq<Event>, j: nat, id: nat, text: string) {
    && j < |es| && es[j].CleanerEnds? && es[j].id == id
    && id in Run(es[..j]).stages && Run(es[..j]).stages[id].Cleaning?
    && var s := Run(es[..j]).stages[id];
       Clean(s.draft, s.references, es[j].cleaner) == Pass(text) && Composed(id, s.draft, s.references) in Run(es[..j]).log
  }

  lemma StepClears(l: Line, e: Event, id: nat, text: string)
    requires Known(l) && Cleared(id, text) in Step(l, e).log && Cleared(id, text) !in l.log
    ensures e.CleanerEnds? && e.id == id && id in l.stages && l.stages[id].Cleaning?
    ensures var s := l.stages[id];
            Clean(s.draft, s.references, e.cleaner) == Pass(text) && Composed(id, s.draft, s.references) in l.log
  {
    hide Compose, Clean, Appraise, ApprovalMode, References, ActKnown;
    if e.id in l.stages {
      assert StageKnown(l.log, e.id, l.stages[e.id]);
    }
    hide Known;
  }

  lemma StepComposes(l: Line, e: Event, id: nat, draft: string, references: seq<string>)
    requires Composed(id, draft, references) in Step(l, e).log && Composed(id, draft, references) !in l.log
    ensures e.ComposerEnds? && e.id == id && id in l.stages && l.stages[id].Composing?
    ensures Compose(l.stages[id].rule, e.composer).0 == Pass(draft) && references == References(e.composer.lookup)
  {
    hide Compose, Clean, Appraise, ApprovalMode, References;
  }

  lemma {:induction false} ClearedOrigin(es: seq<Event>, id: nat, text: string) returns (j: nat)
    requires Cleared(id, text) in Run(es).log
    ensures ClearedAt(es, j, id, text)
  {
    hide Step, Clean, Known;
    var init, e := es[..|es| - 1], es[|es| - 1];
    if Cleared(id, text) in Run(init).log {
      j := ClearedOrigin(init, id, text);
      assert es[..j] == init[..j];
    } else {
      RunKeepsKnown(init);
      StepClears(Run(init), e, id, text);
      j := |es| - 1;
    }
  }

  lemma {:induction false} ComposedOrigin(es: seq<Event>, id: nat, draft: string, references: seq<string>) returns (i: nat)
    requires Composed(id, draft, references) in Run(es).log
    ensures ComposedAt(es, i, id, draft, references)
  {
    hide Step, Compose, References;
    var init, e := es[..|es| - 1], es[|es| - 1];
    if Composed(id, draft, references) in Run(init).log {
      i := ComposedOrigin(init, id, draft, references);
      assert es[..i] == init[..i];
    } else {
      StepComposes(Run(init), e, id, draft, references);
      i := |es| - 1;
    }
  }

  /** The text is the draft itself or what one of the two rewrites made of it, trimmed. */
  predicate MadeFrom(draft: string, env: CleanerEnv, text: string) {
    || text == Text.Trim(if env.passed.Some? then env.passed.value else draft)
    || (env.hasModel && env.rewritten.Some? && text == Text.Trim(env.rewritten.value))
  }

  /**
   Over any run, every approved text goes back to one reply of the model to the interaction's composer, itself usable,
   cleaned for the interaction by at most two rewrites and free of near copies of the first three references looked up.
   */
  lemma ApprovedWordsOrigin(es: seq<Event>, id: nat, text: string) returns (i: nat, j: nat, k: nat)
    requires Approved(id, text) in Run(es).log
    ensures i < j < |es| && es[i].ComposerEnds? && es[j].CleanerEnds? && es[i].id == es[j].id == id
    ensures var reply := es[i].composer.replies(k);
            Usable(es[i].composer, reply) && MadeFrom(reply.text, es[j].cleaner, text)
            && !CopyGuard.CopiesAny(text, References(es[i].composer.lookup))
  {
    ApprovalRestsOnConsent(es, id, text);
    j := ClearedOrigin(es, id, text);
    var s := Run(es[..j]).stages[id];
    i := ComposedOrigin(es[..j], id, s.draft, s.references);
    assert es[..j][i] == es[i];
    ClearedTextIsOriginal(s.draft, s.references, es[j].cleaner);
    CleanedIsMade(s.draft, s.references, es[j].cleaner);
    var rule := Run(es[..j][..i]).stages[id].rule;
    hide Run, References, CopyGuard.CopiesAny, Clean, Authorised, Original;
    k := DraftIsReply(rule, es[i].composer);
  }

  lemma CleanedIsMade(draft: string, references: seq<string>, env: CleanerEnv)
    requires Clean(draft, references, env).Pass?
    ensures MadeFrom(draft, env, Clean(draft, references, env).value)
  {
    hide CopyGuard.CopiesAny, Text.Trim;
  }

  lemma {:induction false} DraftIsReplyFrom(env: ComposerEnv, attempts: nat, k: nat, reason: string) returns (n: nat)
    requires ComposeFrom(env, attempts, k, reason).0.Pass?
    ensures Usable(env, env.replies(n)) && env.replies(n).text == ComposeFrom(env, attempts, k, reason).0.value
    decreases attempts - k
  {
    FaultsAreUnusable(env, env.replies(k));
    hide Fault, Usable;
    var fault := Fault(env, env.replies(k));
    if fault.None? {
      n := k;
    } else {
      n := DraftIsReplyFrom(env, attempts, k + 1, fault.value);
    }
  }

  lemma DraftIsReply(m: Option<Mandatory>, env: ComposerEnv) returns (n: nat)
    requires Compose(m, env).0.Pass?
    ensures Usable(env, env.replies(n)) && env.replies(n).text == Compose(m, env).0.value
  {
    n := DraftIsReplyFrom(env, Attempts(m, env), 0, "llm_error");
  }
}
