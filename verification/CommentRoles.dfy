/**
 The handlers of the four comment roles as the source writes them, emitting onto one log. Each is proved to emit what
 the line of `CommentFlow` says it does, and at most one terminal event.
 */
module CommentRoles {
  import opened Wrappers
  import opened CommentLine
  import opened CommentFlow
  import CopyGuard
  import Text

  // ---------- the gate's rounds, seen for one interaction ----------

  /** A line with a single interaction at some stage. */
  function Alone(id: nat, s: Stage, log: seq<Act>): Line {
    Line(map[id := s], log)
  }

  function AfterRounds(l: Line, id: nat, rounds: seq<Round>): Line {
    if rounds == [] then l
    else
      var before := AfterRounds(l, id, rounds[..|rounds| - 1]);
      if id in before.stages && before.stages[id].Polling?
      then TakeRound(before, id, before.stages[id], rounds[|rounds| - 1]) else before
  }

  lemma MovedAlone(id: nat, s: Stage, log: seq<Act>, s': Stage, acts: seq<Act>)
    ensures Moved(Alone(id, s, log), id, s', acts) == Alone(id, s', log + acts)
  {
  }

  lemma NoRounds(l: Line, id: nat, rounds: seq<Round>)
    ensures AfterRounds(l, id, rounds[..0]) == l
  {
  }

  lemma OneMoreRound(l: Line, id: nat, rounds: seq<Round>, i: nat)
    requires i < |rounds|
    ensures AfterRounds(l, id, rounds[..i + 1])
            == var before := AfterRounds(l, id, rounds[..i]);
               if id in before.stages && before.stages[id].Polling?
               then TakeRound(before, id, before.stages[id], rounds[i]) else before
  {
    assert rounds[..i + 1][..i] == rounds[..i];
  }

  lemma {:induction false} RoundsStop(l: Line, id: nat, rounds: seq<Round>, i: nat)
    requires i <= |rounds| && id in AfterRounds(l, id, rounds[..i]).stages
    requires i < |rounds| ==> !AfterRounds(l, id, rounds[..i]).stages[id].Polling?
    ensures AfterRounds(l, id, rounds) == AfterRounds(l, id, rounds[..i])
  {
    if i == |rounds| {
      assert rounds[..i] == rounds;
    } else {
      var init := rounds[..|rounds| - 1];
      assert init[..i] == rounds[..i];
      RoundsStop(l, id, init, i);
    }
  }

  lemma RoundTaken(id: nat, s: Stage, was: seq<Act>, r: Round, stage: Stage, acts: seq<Act>)
    requires s.Polling?
    requires var approved := r.answer == Some(true);
             var answer := Answered(id, s.requestId, approved);
             (stage, acts) ==
             if r.at > s.deadline then
               if r.expiredBefore then (Ended(false), was) else (Ended(true), was + [Skipped(id, "approval_timeout")])
             else if r.expiredBefore then (Ended(false), was)
             else if r.expiredAfter then (Ended(false), was + [answer])
             else if approved then (Ended(true), was + [answer] + [Approved(id, s.text)])
             else (s, was + [answer])
    ensures TakeRound(Alone(id, s, was), id, s, r) == Alone(id, stage, acts)
  {
    var answer := Answered(id, s.requestId, r.answer == Some(true));
    assert was + ([answer] + [Approved(id, s.text)]) == was + [answer] + [Approved(id, s.text)];
    assert was + [] == was && [] + [Skipped(id, "approval_timeout")] == [Skipped(id, "approval_timeout")];
  }

  /** The rounds of one poll emit a terminal event exactly when they end it speaking. */
  lemma {:induction false} RoundsSpeakOnce(l: Line, id: nat, rounds: seq<Round>)
    requires id in l.stages && !l.stages[id].Ended?
    ensures var l' := AfterRounds(l, id, rounds);
            id in l'.stages && Terminals(l'.log, id) == Terminals(l.log, id) + if l'.stages[id] == Ended(true) then 1 else 0
  {
    hide Terminals, TakeRound, Proper;
    if rounds != [] {
      var before := AfterRounds(l, id, rounds[..|rounds| - 1]);
      RoundsSpeakOnce(l, id, rounds[..|rounds| - 1]);
      if before.stages[id].Polling? {
        PollIsProper(before, id, before.stages[id], rounds[|rounds| - 1]);
        var l' := TakeRound(before, id, before.stages[id], rounds[|rounds| - 1]);
        var acts :| Proper(before, id, l', acts);
        ProperCounts(before, id, l', acts);
      }
    }
  }

  lemma ProperCounts(l: Line, id: nat, l': Line, acts: seq<Act>)
    requires Proper(l, id, l', acts)
    ensures id in l'.stages && Terminals(l'.log, id) == Terminals(l.log, id) + if l'.stages[id] == Ended(true) then 1 else 0
  {
    hide Terminals;
    TerminalsAdd(l.log, acts, id);
  }

  lemma {:induction false} GatePollsAlike(id: nat, s: Stage, before: seq<Act>, rounds: seq<Round>)
    requires s.Polling?
    ensures var l := AfterRounds(Alone(id, s, before), id, rounds);
            && id in l.stages
            && (PollRounds(s.deadline, rounds) == Waiting <==> l.stages[id].Polling?)
            && (l.stages[id].Polling? ==> l.stages[id] == s)
            && (PollRounds(s.deadline, rounds) == Over(Silent) <==> l.stages[id] == Ended(false))
  {
    if rounds != [] {
      GatePollsAlike(id, s, before, rounds[..|rounds| - 1]);
    }
  }

  /** When each sleep lets the clock advance by the interval, at most timeout/interval + 1 rounds leave the gate polling. */
  lemma GatePollingIsBounded(id: nat, s: Stage, before: seq<Act>, rounds: seq<Round>, start: int, port: Port)
    requires s.Polling? && s.deadline == start + port.timeoutMs
    requires port.pollMs > 0 && port.timeoutMs >= 0 && Spaced(start, port.pollMs, rounds)
    requires var l := AfterRounds(Alone(id, s, before), id, rounds); id in l.stages && l.stages[id].Polling?
    ensures |rounds| <= port.timeoutMs / port.pollMs + 1
  {
    hide AfterRounds, PollRounds, Spaced;
    GatePollsAlike(id, s, before, rounds);
    PollingIsBounded(start, port, rounds);
  }

  lemma GateSpeaksOnce(l: Line, id: nat, rule: Option<Mandatory>, text: string, env: GateEnv, rounds: seq<Round>)
    requires id in l.stages && !l.stages[id].Ended?
    ensures var l' := AfterRounds(StartGate(l, id, rule, text, env), id, rounds);
            id in l'.stages && Terminals(l'.log, id) == Terminals(l.log, id) + if l'.stages[id] == Ended(true) then 1 else 0
  {
    hide Terminals, StartGate, AfterRounds, Proper;
    GateIsProper(l, id, rule, text, env);
    var begun := StartGate(l, id, rule, text, env);
    var acts :| Proper(l, id, begun, acts);
    ProperCounts(l, id, begun, acts);
    if begun.stages[id].Ended? {
      NoRounds(begun, id, rounds);
      RoundsStop(begun, id, rounds, 0);
    } else {
      RoundsSpeakOnce(begun, id, rounds);
    }
  }

  /** Emitting a conclusion adds one terminal event when it skips, and none otherwise. */
  lemma EmissionCounts<T>(before: seq<Act>, id: nat, c: Conclusion<T>, act: T -> Act)
    requires forall v :: act(v).id == id && !IsTerminal(act(v))
    ensures Terminals(before + Emissions(id, c, act), id) == Terminals(before, id) + if c.Skip? then 1 else 0
  {
    EmitsOnce(id, c, act);
    TerminalsAdd(before, Emissions(id, c, act), id);
  }

  // ---------- the handlers ----------

  class CommentSubline {
    ghost var log: seq<Act>

    constructor ()
      ensures log == []
    {
      log := [];
    }

    ghost method Emit(a: Act)
      modifies this`log
      ensures log == old(log) + [a]
    {
      log := log + [a];
    }

    /** The roles' own `skip`: silent once the sub-line has expired. */
    method Skip(id: nat, expired: bool, reason: string)
      modifies this`log
      ensures log == old(log) + if expired then [] else [Skipped(id, reason)]
    {
      if expired {
        return;
      }
      Emit(Skipped(id, reason));
    }

    method OnInteractionCompleted(id: nat, m: Option<Mandatory>, env: AppraiserEnv)
      modifies this`log
      ensures log == old(log) + Emissions(id, Appraise(m, env), (rule: Option<Mandatory>) => Appraised(id))
      ensures Terminals(log, id) == Terminals(old(log), id) + if Appraise(m, env).Skip? then 1 else 0
    {
      EmissionCounts(log, id, Appraise(m, env), (rule: Option<Mandatory>) => Appraised(id));
      hide Terminals;
      if env.expired(0) {
        return;
      }
      if WantsComment(m) {
        OnMandatory(id, env);
        return;
      }
      if env.sessionRemaining <= 0 {
        Skip(id, env.expired(1), "no_comment_budget");
        return;
      }
      if env.dailyRemaining.Some? && env.dailyRemaining.value <= 0 {
        Skip(id, env.expired(1), "daily_cap_reached");
        return;
      }
      if env.cooldownOk.Some? && !env.cooldownOk.value {
        Skip(id, env.expired(1), "cooldown");
        return;
      }
      if env.note.None? {
        Skip(id, env.expired(1), "note_data_unavailable");
        return;
      }
      var collectOk := !env.hasCollect || env.note.value.collects > MIN_COLLECTS || env.note.value.likes > HIGH_LIKES;
      if !(env.note.value.likes > MIN_LIKES && collectOk) {
        Skip(id, env.expired(1), "below_comment_threshold");
        return;
      }
      if env.expired(2) {
        return;
      }
      AfterVerdict(id, env);
    }

    /** A mandatory comment passes over the gates, but not over a risk decision. */
    method OnMandatory(id: nat, env: AppraiserEnv)
      modifies this`log
      ensures log == old(log) +
                (if env.expired(1) then []
                 else if env.note.None? then [Skipped(id, "note_data_unavailable")]
                 else if env.risk.Blocked? then [Skipped(id, "risk_preflight:" + env.risk.reason)]
                 else [Appraised(id)])
    {
      if env.note.None? {
        Skip(id, env.expired(1), "note_data_unavailable");
        return;
      }
      if env.risk.Blocked? {
        Skip(id, env.expired(1), "risk_preflight:" + env.risk.reason);
        return;
      }
      if !env.expired(1) {
        Emit(Appraised(id));
      }
    }

    method AfterVerdict(id: nat, env: AppraiserEnv)
      modifies this`log
      ensures log == old(log) +
                (if env.expired(3) then []
                 else match env.verdict
                      case VerdictThrows => [Skipped(id, "llm_error")]
                      case Unparsable => [Skipped(id, "parse_failed")]
                      case Verdict(comment, reason) =>
                        if comment then [Appraised(id)]
                        else [Skipped(id, if reason != "" then reason else "not_worth_commenting")])
    {
      if env.verdict.VerdictThrows? {
        Skip(id, env.expired(3), "llm_error");
        return;
      }
      if env.verdict.Unparsable? {
        Skip(id, env.expired(3), "parse_failed");
        return;
      }
      if !env.verdict.comment {
        Skip(id, env.expired(3), if env.verdict.reason != "" then env.verdict.reason else "not_worth_commenting");
        return;
      }
      if !env.expired(3) {
        Emit(Appraised(id));
      }
    }

    /** The retry loop: `asked` counts the questions put to the model. */
    method OnAppraised(id: nat, m: Option<Mandatory>, env: ComposerEnv) returns (asked: nat)
      modifies this`log
      ensures asked == Compose(m, env).1
      ensures log == old(log) + Emissions(id, Compose(m, env).0, (draft: string) => Composed(id, draft, References(env.lookup)))
      ensures Terminals(log, id) == Terminals(old(log), id) + if Compose(m, env).0.Skip? then 1 else 0
    {
      EmissionCounts(log, id, Compose(m, env).0, (draft: string) => Composed(id, draft, References(env.lookup)));
      hide Terminals;
      hide References;
      asked := 0;
      if env.expired(0) {
        return;
      }
      if !env.hasNote {
        Skip(id, env.expired(1), "note_data_unavailable");
        return;
      }
      if env.isFacebook && !env.hasLanguage {
        Skip(id, env.expired(1), "writing_language_required");
        return;
      }
      var references := References(env.lookup);
      if env.expired(1) {
        return;
      }
      var attempts := Attempts(m, env);
      var draft: Option<string> := None;
      var failureReason := "llm_error";
      while asked < attempts
        invariant asked <= attempts && draft == None && log == old(log)
        invariant Compose(m, env) == ComposeFrom(env, attempts, asked, failureReason)
      {
        if env.expired(2 + 2 * asked) {
          return;
        }
        var k := asked;
        asked := asked + 1;
        if env.expired(3 + 2 * k) {
          return;
        }
        var fault := Fault(env, env.replies(k));
        if fault.Some? {
          failureReason := fault.value;
          if env.replies(k).Throws? {
            break;
          }
        } else {
          draft := Some(env.replies(k).text);
          break;
        }
      }
      if draft.None? {
        Skip(id, env.expired(LAST_CHECK), failureReason);
        return;
      }
      if env.expired(LAST_CHECK) {
        return;
      }
      Emit(Composed(id, draft.value, references));
    }

    method OnComposed(id: nat, draft: string, references: seq<string>, env: CleanerEnv)
      modifies this`log
      ensures log == old(log) + Emissions(id, Clean(draft, references, env), (text: string) => Cleared(id, text))
      ensures Terminals(log, id) == Terminals(old(log), id) + if Clean(draft, references, env).Skip? then 1 else 0
    {
      EmissionCounts(log, id, Clean(draft, references, env), (text: string) => Cleared(id, text));
      hide Terminals;
      hide CopyGuard.NearCopy, Text.Trim;
      if env.expired(0) {
        return;
      }
      var text := draft;
      if env.passed.Some? {
        text := env.passed.value;
      }
      if env.expired(1) {
        return;
      }
      text := Text.Trim(text);
      if text == "" {
        Emit(Skipped(id, "cleaned_empty"));
        return;
      }
      if |references| > 0 {
        var clashes := CopyGuard.OverlapsAny(text, references);
        if clashes {
          if env.hasModel {
            if env.rewritten.Some? {
              text := Text.Trim(env.rewritten.value);
            }
            if env.expired(2) {
              return;
            }
          }
          clashes := CopyGuard.OverlapsAny(text, references);
          if text == "" || clashes {
            Emit(Skipped(id, "overlaps_reference"));
            return;
          }
        }
      }
      if !env.languageOk(text) {
        Emit(Skipped(id, "writing_language_mismatch"));
        return;
      }
      if !env.expired(3) {
        Emit(Cleared(id, text));
      }
    }

    /** The part of the gate before its loop: the mode, the automatic approval, the approval card. */
    method OpenGate(id: nat, rule: Option<Mandatory>, text: string, env: GateEnv) returns (stage: Stage)
      modifies this`log
      ensures Alone(id, stage, log) == StartGate(Alone(id, Gating(rule, text), old(log)), id, rule, text, env)
    {
      forall s: Stage, a: seq<Act> ensures Moved(Alone(id, Gating(rule, text), log), id, s, a) == Alone(id, s, log + a) {
        MovedAlone(id, Gating(rule, text), log, s, a);
      }
      hide Moved, Alone;
      stage := Ended(false);
      if env.expired(0) {
        return;
      }
      var mandatoryAutoApprove := WantsComment(rule) && rule.value.autoApprove;
      var approvalMode := if mandatoryAutoApprove then AutoApprove else Review;
      if env.resolution.Some? && env.resolution.value.ResolvesTo? {
        approvalMode := env.resolution.value.mode;
      }
      if approvalMode == AutoApprove {
        if env.expired(1) {
          return;
        }
        Emit(Approved(id, text));
        return Ended(true);
      }
      if env.port.None? {
        if env.expired(1) {
          return;
        }
        Emit(Skipped(id, "approval_unwired"));
        return Ended(true);
      }
      Emit(Requested(id, env.requestId, text));
      if !env.cardSent {
        if env.expired(1) || env.expired(2) {
          return;
        }
        Emit(Skipped(id, "approval_request_failed"));
        assert log == old(log) + [Requested(id, env.requestId, text), Skipped(id, "approval_request_failed")];
        return Ended(true);
      }
      if env.expired(1) {
        return;
      }
      var deadline := env.now + env.port.value.timeoutMs;
      return Polling(text, env.requestId, deadline);
    }

    /** The polling loop, over the rounds that the environment supplies. */
    method PollGate(id: nat, start: Stage, rounds: seq<Round>) returns (stage: Stage)
      requires start.Polling?
      modifies this`log
      ensures Alone(id, stage, log) == AfterRounds(Alone(id, start, old(log)), id, rounds)
    {
      hide AfterRounds;
      stage := start;
      var deadline := start.deadline;
      var i := 0;
      NoRounds(Alone(id, start, log), id, rounds);
      while i < |rounds| && stage.Polling?
        invariant 0 <= i <= |rounds| && (stage.Polling? ==> stage == start)
        invariant Alone(id, stage, log) == AfterRounds(Alone(id, start, old(log)), id, rounds[..i])
      {
        var r := rounds[i];
        OneMoreRound(Alone(id, start, old(log)), id, rounds, i);
        ghost var was := log;
        if r.at > deadline {
          Skip(id, r.expiredBefore, "approval_timeout");
          stage := Ended(!r.expiredBefore);
        } else if r.expiredBefore {
          stage := Ended(false);
        } else {
          var approved := r.answer == Some(true);
          Emit(Answered(id, start.requestId, approved));
          if r.expiredAfter {
            stage := Ended(false);
          } else if approved {
            Emit(Approved(id, start.text));
            stage := Ended(true);
          }
        }
        assert was + [] == was;
        RoundTaken(id, start, was, r, stage, log);
        i := i + 1;
      }
      RoundsStop(Alone(id, start, old(log)), id, rounds, i);
    }

    method OnCleared(id: nat, rule: Option<Mandatory>, text: string, env: GateEnv, rounds: seq<Round>)
      returns (stage: Stage)
      modifies this`log
      ensures Alone(id, stage, log)
              == AfterRounds(StartGate(Alone(id, Gating(rule, text), old(log)), id, rule, text, env), id, rounds)
      ensures Terminals(log, id) == Terminals(old(log), id) + if stage == Ended(true) then 1 else 0
    {
      hide AfterRounds, StartGate, Terminals;
      GateSpeaksOnce(Alone(id, Gating(rule, text), log), id, rule, text, env, rounds);
      stage := OpenGate(id, rule, text, env);
      if stage.Polling? {
        stage := PollGate(id, stage, rounds);
      } else {
        NoRounds(Alone(id, stage, log), id, rounds);
        RoundsStop(Alone(id, stage, log), id, rounds, 0);
      }
    }
  }
}
