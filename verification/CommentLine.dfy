/**
 The comment sub-line: appraise, compose, clean, get approval. Each role answers one event with at most one event.
 Interactions run side by side; a role's answer comes in a later event, and the approval poll takes one event a round.
 Every consultation of the expiry check is an input, numbered by its place in the handler.
 */
module CommentLine {
  import opened Wrappers
  import CopyGuard
  import opened Selections
  import Text

  const MIN_LIKES: int := 300
  const MIN_COLLECTS: int := 100
  const HIGH_LIKES: int := 10000
  const MAX_REFERENCES: nat := 3

  type Expiry = nat -> bool

  /** A mandatory rule that matched; `wantsComment` when its actions include a comment. */
  datatype Mandatory = Mandatory(wantsComment: bool, autoApprove: bool)

  datatype Note = Note(likes: int, collects: int)

  datatype Risk = NoRiskGate | Allowed | Blocked(reason: string)

  datatype Verdict = VerdictThrows | Unparsable | Verdict(comment: bool, reason: string)

  /** What a handler concludes. */
  datatype Conclusion<T> = Silent | Skip(reason: string) | Pass(value: T)

  // ---------- the appraiser ----------

  datatype AppraiserEnv = AppraiserEnv(
    expired: Expiry,
    note: Option<Note>,
    risk: Risk,
    sessionRemaining: int,
    dailyRemaining: Option<int>,
    cooldownOk: Option<bool>,
    hasCollect: bool,
    verdict: Verdict)

  function SkipUnless<T>(expired: bool, reason: string): Conclusion<T> {
    if expired then Silent else Skip(reason)
  }

  predicate IsHot(n: Note, hasCollect: bool) {
    n.likes > MIN_LIKES && (!hasCollect || n.collects > MIN_COLLECTS || n.likes > HIGH_LIKES)
  }

  predicate WantsComment(m: Option<Mandatory>) {
    m.Some? && m.value.wantsComment
  }

  /** What the appraiser concludes; it hands the mandatory rule on only when that rule asks for a comment. */
  function Appraise(m: Option<Mandatory>, env: AppraiserEnv): Conclusion<Option<Mandatory>> {
    if env.expired(0) then Silent
    else if WantsComment(m) then
      if env.note.None? then SkipUnless(env.expired(1), "note_data_unavailable")
      else if env.risk.Blocked? then SkipUnless(env.expired(1), "risk_preflight:" + env.risk.reason)
      else if env.expired(1) then Silent
      else Pass(m)
    else if env.sessionRemaining <= 0 then SkipUnless(env.expired(1), "no_comment_budget")
    else if env.dailyRemaining.GetOr(1) <= 0 then SkipUnless(env.expired(1), "daily_cap_reached")
    else if !env.cooldownOk.GetOr(true) then SkipUnless(env.expired(1), "cooldown")
    else if env.note.None? then SkipUnless(env.expired(1), "note_data_unavailable")
    else if !IsHot(env.note.value, env.hasCollect) then SkipUnless(env.expired(1), "below_comment_threshold")
    else if env.expired(2) then Silent
    else
      match env.verdict
      case VerdictThrows => SkipUnless(env.expired(3), "llm_error")
      case Unparsable => SkipUnless(env.expired(3), "parse_failed")
      case Verdict(comment, reason) =>
        if !comment then SkipUnless(env.expired(3), if reason != "" then reason else "not_worth_commenting")
        else if env.expired(3) then Silent
        else Pass(None)
  }

  /** The rule that matched asks for a comment. */
  predicate Demands(m: Option<Mandatory>) {
    m.Some? && m.value.wantsComment
  }

  /** Every gate before the model is open, for a comment that no rule demands. */
  predicate GatesOpen(env: AppraiserEnv) {
    && env.sessionRemaining > 0
    && (env.dailyRemaining.Some? ==> env.dailyRemaining.value > 0)
    && env.cooldownOk != Some(false)
    && env.note.Some?
    && env.note.value.likes > 300 && (!env.hasCollect || env.note.value.collects > 100 || env.note.value.likes > 10000)
  }

  /** Nothing stands in the way of commenting: the rule demands it and risk allows it, or every gate and the model agree. */
  predicate MayComment(m: Option<Mandatory>, env: AppraiserEnv) {
    if Demands(m) then env.note.Some? && !env.risk.Blocked?
    else GatesOpen(env) && env.verdict.Verdict? && env.verdict.comment
  }

  /** Without expiry a comment is proposed exactly when nothing stands in its way; the rule is handed on when it demands it. */
  lemma AppraisedExactly(m: Option<Mandatory>, env: AppraiserEnv)
    ensures (forall k :: !env.expired(k)) ==> (Appraise(m, env).Pass? <==> MayComment(m, env))
    ensures Appraise(m, env).Pass? ==> MayComment(m, env) && Appraise(m, env).value == if Demands(m) then m else None
  {
  }

  /** The appraiser is silent exactly when one of its consultations on the way to the conclusion finds the line expired. */
  lemma AppraiserSilentExactly(m: Option<Mandatory>, env: AppraiserEnv)
    ensures Appraise(m, env) == Silent
            <==> env.expired(0) || (if !Demands(m) && GatesOpen(env) then env.expired(2) || env.expired(3) else env.expired(1))
  {
  }

  /** A skip names the first gate that is shut, or what became of the question to the model. */
  lemma SkipIsHonest(m: Option<Mandatory>, env: AppraiserEnv)
    requires Appraise(m, env).Skip?
    ensures var why := Appraise(m, env).reason;
            if Demands(m) then
              if env.note.None? then why == "note_data_unavailable"
              else env.risk.Blocked? && why == "risk_preflight:" + env.risk.reason
            else if GatesOpen(env) then
              match env.verdict
              case VerdictThrows => why == "llm_error"
              case Unparsable => why == "parse_failed"
              case Verdict(comment, reason) => !comment && why == if reason == "" then "not_worth_commenting" else reason
            else if env.sessionRemaining <= 0 then why == "no_comment_budget"
            else if env.dailyRemaining.Some? && env.dailyRemaining.value <= 0 then why == "daily_cap_reached"
            else if env.cooldownOk == Some(false) then why == "cooldown"
            else why == if env.note.None? then "note_data_unavailable" else "below_comment_threshold"
  {
  }

  // ---------- the composer ----------

  /** One answer of the model: a decline, or the text left of it and whether it is in the language asked for. */
  datatype Reply = Throws | Declines | Writes(text: string, inLanguage: bool)

  datatype ComposerEnv = ComposerEnv(
    expired: Expiry,
    hasNote: bool,
    isFacebook: bool,
    hasLanguage: bool,
    lookup: seq<string>,
    replies: nat -> Reply,
    maxLength: nat)

  /** The references kept of a corpus lookup: the first three that say something. */
  function References(lookup: seq<string>): seq<string> {
    var said := Said(lookup);
    if |said| > MAX_REFERENCES then said[..MAX_REFERENCES] else said
  }

  function Said(texts: seq<string>): seq<string> {
    if texts == [] then [] else (if texts[0] != "" then [texts[0]] else []) + Said(texts[1..])
  }

  predicate AsksLanguage(env: ComposerEnv) {
    env.isFacebook && env.hasLanguage
  }

  /** The model is asked a second time only for a mandatory comment or a required language. */
  function Attempts(m: Option<Mandatory>, env: ComposerEnv): nat {
    if m.Some? || AsksLanguage(env) then 2 else 1
  }

  /** Why a reply cannot be used, if it cannot. */
  function Fault(env: ComposerEnv, r: Reply): Option<string> {
    match r
    case Throws => Some("llm_error")
    case Declines => Some("nothing_genuine")
    case Writes(text, inLanguage) =>
      if text == "" then Some("compose_empty")
      else if |text| > env.maxLength then Some("compose_too_long")
      else if AsksLanguage(env) && !inLanguage then Some("writing_language_mismatch")
      else None
  }

  const LAST_CHECK: nat := 6

  /** From attempt `k` on, `reason` being the fault of the attempt before; `asked` counts the questions put to the model. */
  function ComposeFrom(env: ComposerEnv, attempts: nat, k: nat, reason: string): (Conclusion<string>, nat)
    decreases attempts - k
  {
    if k >= attempts then (SkipUnless(env.expired(LAST_CHECK), reason), k)
    else if env.expired(2 + 2 * k) then (Silent, k)
    else if env.expired(3 + 2 * k) then (Silent, k + 1)
    else
      var fault := Fault(env, env.replies(k));
      if fault.None? then (if env.expired(LAST_CHECK) then Silent else Pass(env.replies(k).text), k + 1)
      else if env.replies(k).Throws? then (SkipUnless(env.expired(LAST_CHECK), fault.value), k + 1)
      else ComposeFrom(env, attempts, k + 1, fault.value)
  }

  function Compose(m: Option<Mandatory>, env: ComposerEnv): (Conclusion<string>, nat) {
    if env.expired(0) then (Silent, 0)
    else if !env.hasNote then (SkipUnless(env.expired(1), "note_data_unavailable"), 0)
    else if env.isFacebook && !env.hasLanguage then (SkipUnless(env.expired(1), "writing_language_required"), 0)
    else if env.expired(1) then (Silent, 0)
    else ComposeFrom(env, Attempts(m, env), 0, "llm_error")
  }

  /** A reply can be used: a text, not empty, not too long, and in the language when one is asked for. */
  predicate Usable(env: ComposerEnv, r: Reply) {
    r.Writes? && r.text != "" && |r.text| <= env.maxLength && (env.isFacebook && env.hasLanguage ==> r.inLanguage)
  }

  /** Every reply before this one came back but could not be used. */
  predicate AllUnusable(env: ComposerEnv, k: nat) {
    forall i :: 0 <= i < k ==> !Usable(env, env.replies(i)) && !env.replies(i).Throws?
  }

  lemma FaultsAreUnusable(env: ComposerEnv, r: Reply)
    ensures Fault(env, r).None? <==> Usable(env, r)
  {
  }

  /** The references kept are the first three of the looked-up texts that say something. */
  lemma {:induction false} ReferencesExactly(lookup: seq<string>) returns (said: seq<string>)
    ensures Filters(lookup, said, (t: string) => t != "")
    ensures References(lookup) == if |said| > 3 then said[..3] else said
  {
    said := Said(lookup);
    SaidFilters(lookup);
  }

  lemma {:induction false} SaidFilters(texts: seq<string>)
    ensures Filters(texts, Said(texts), (t: string) => t != "")
  {
    var test := (t: string) => t != "";
    if texts == [] {
      assert FiltersAt(texts, [], test, []);
    } else {
      SaidFilters(texts[1..]);
      FiltersCons(texts[0], texts[1..], Said(texts[1..]), test);
      assert [texts[0]] + texts[1..] == texts;
      assert [] + Said(texts[1..]) == Said(texts[1..]);
    }
  }

  lemma {:induction false} ComposeFromExactly(env: ComposerEnv, attempts: nat, k: nat, reason: string)
    requires k <= attempts && AllUnusable(env, k) && forall i :: !env.expired(i)
    requires k > 0 ==> Some(reason) == Fault(env, env.replies(k - 1))
    ensures var (c, asked) := ComposeFrom(env, attempts, k, reason);
            && k <= asked <= attempts && (k < attempts ==> k < asked)
            && c != Silent
            && (asked > 0 ==> AllUnusable(env, asked - 1))
            && (c.Pass? ==> asked > 0 && Usable(env, env.replies(asked - 1)) && env.replies(asked - 1).text == c.value)
            && (c.Skip? ==> (asked == attempts || (asked > 0 && env.replies(asked - 1).Throws?))
                            && (asked > 0 ==> Some(c.reason) == Fault(env, env.replies(asked - 1))))
    decreases attempts - k
  {
    hide Fault, Usable;
    if k < attempts {
      FaultsAreUnusable(env, env.replies(k));
      if Fault(env, env.replies(k)).Some? && !env.replies(k).Throws? {
        ComposeFromExactly(env, attempts, k + 1, Fault(env, env.replies(k)).value);
      }
    }
  }

  /**
   Unless the sub-line expires, the composer asks at most twice, and twice only for a mandatory comment or a language
   asked for; it passes on the first usable reply and otherwise skips with what is wrong with the last one; a failed
   request is never repeated.
   */
  lemma FirstUsableReply(m: Option<Mandatory>, env: ComposerEnv)
    requires env.hasNote && (env.isFacebook ==> env.hasLanguage) && forall i :: !env.expired(i)
    ensures var (c, asked) := Compose(m, env);
            var most := if m.Some? || (env.isFacebook && env.hasLanguage) then 2 else 1;
            && 1 <= asked <= most
            && AllUnusable(env, asked - 1)
            && (c.Pass? <==> Usable(env, env.replies(asked - 1)))
            && (c.Pass? ==> c.value == env.replies(asked - 1).text)
            && (!c.Pass? ==>
                  && c.Skip? && (asked == most || env.replies(asked - 1).Throws?)
                  && match env.replies(asked - 1)
                     case Throws => c.reason == "llm_error"
                     case Declines => c.reason == "nothing_genuine"
                     case Writes(text, inLanguage) =>
                       if text == "" then c.reason == "compose_empty"
                       else if |text| > env.maxLength then c.reason == "compose_too_long"
                       else c.reason == "writing_language_mismatch")
  {
    ComposeFromExactly(env, Attempts(m, env), 0, "llm_error");
    FaultsAreUnusable(env, env.replies(Compose(m, env).1 - 1));
  }

  /** Without a note, or where a language is required and none is known, the composer skips without asking. */
  lemma ComposerNeedsNoteAndLanguage(m: Option<Mandatory>, env: ComposerEnv)
    requires !env.expired(0) && !env.expired(1)
    ensures !env.hasNote ==> Compose(m, env) == (Skip("note_data_unavailable"), 0)
    ensures env.hasNote && env.isFacebook && !env.hasLanguage ==> Compose(m, env) == (Skip("writing_language_required"), 0)
  {
  }

  lemma {:induction false} ComposeFromAlive(env: ComposerEnv, attempts: nat, k: nat, reason: string)
    requires k <= attempts
    ensures var (c, asked) := ComposeFrom(env, attempts, k, reason);
            && k <= asked <= attempts
            && (c != Silent ==> !env.expired(6) && forall i :: k <= i < asked ==> !env.expired(2 + 2 * i) && !env.expired(3 + 2 * i))
            && (c == Silent ==> env.expired(6) || exists i :: k <= i < attempts && (env.expired(2 + 2 * i) || env.expired(3 + 2 * i)))
    decreases attempts - k
  {
    hide Fault;
    if k < attempts && !env.expired(2 + 2 * k) && !env.expired(3 + 2 * k) {
      if Fault(env, env.replies(k)).Some? && !env.replies(k).Throws? {
        ComposeFromAlive(env, attempts, k + 1, Fault(env, env.replies(k)).value);
      }
    }
  }

  /**
   The composer says something only if it finds the line alive at the start, before and after every question and at the
   end; it is silent only if some consultation of its finds the line expired.
   */
  lemma ComposerSpeaksAlive(m: Option<Mandatory>, env: ComposerEnv)
    ensures var (c, asked) := Compose(m, env);
            && (c != Silent ==> !env.expired(0) && !env.expired(1))
            && (c != Silent && asked > 0 ==> !env.expired(6))
            && (c != Silent ==> forall i :: 0 <= i < asked ==> !env.expired(2 + 2 * i) && !env.expired(3 + 2 * i))
            && (c == Silent ==> exists i :: 0 <= i <= 6 && env.expired(i))
  {
    ComposeFromAlive(env, Attempts(m, env), 0, "llm_error");
  }

  // ---------- the cleaner ----------

  /** `passed` and `rewritten` are the results of the two rewrites, None when they throw. */
  datatype CleanerEnv = CleanerEnv(
    expired: Expiry,
    passed: Option<string>,
    hasModel: bool,
    rewritten: Option<string>,
    languageOk: string -> bool)

  /** The text after the second rewrite, which is tried only when there is a model to do it. */
  function Rewritten(text: string, env: CleanerEnv): string {
    if env.hasModel && env.rewritten.Some? then Text.Trim(env.rewritten.value) else text
  }

  ghost function Clean(draft: string, references: seq<string>, env: CleanerEnv): Conclusion<string> {
    var text := Text.Trim(env.passed.GetOr(draft));
    var clashes := references != [] && CopyGuard.CopiesAny(text, references);
    var final := if clashes then Rewritten(text, env) else text;
    if env.expired(0) || env.expired(1) then Silent
    else if text == "" then Skip("cleaned_empty")
    else if clashes && env.hasModel && env.expired(2) then Silent
    else if clashes && (final == "" || CopyGuard.CopiesAny(final, references)) then Skip("overlaps_reference")
    else if !env.languageOk(final) then Skip("writing_language_mismatch")
    else if env.expired(3) then Silent
    else Pass(final)
  }

  /** Whatever the two rewrites return, a cleared text is trimmed, says something and is no near copy of a reference. */
  lemma ClearedTextIsOriginal(draft: string, references: seq<string>, env: CleanerEnv)
    requires Clean(draft, references, env).Pass?
    ensures var text := Clean(draft, references, env).value;
            text != "" && Text.IsTrimmed(text) && !CopyGuard.CopiesAny(text, references)
  {
    hide CopyGuard.NearCopy, Text.Trim;
    Text.TrimIsTrimmed(env.passed.GetOr(draft));
    Text.TrimIsTrimmed(env.rewritten.GetOr(""));
  }

  /**
   Unless the sub-line expires: a draft is cleaned by the first rewrite, or as it is when that throws; a text that then
   copies a reference is given to the second rewrite if there is a model; the result is cleared exactly when it is not
   empty, copies no reference and is in the right language.
   */
  lemma CleanedExactly(draft: string, references: seq<string>, env: CleanerEnv)
    requires forall k :: !env.expired(k)
    ensures var first := Text.Trim(if env.passed.Some? then env.passed.value else draft);
            var copies := exists i :: 0 <= i < |references| && CopyGuard.NearCopy(first, references[i]);
            var final := if copies && env.hasModel && env.rewritten.Some? then Text.Trim(env.rewritten.value) else first;
            Clean(draft, references, env)
            == if first == "" then Skip("cleaned_empty")
               else if copies && (final == "" || exists i :: 0 <= i < |references| && CopyGuard.NearCopy(final, references[i]))
               then Skip("overlaps_reference")
               else if !env.languageOk(final) then Skip("writing_language_mismatch")
               else Pass(final)
  {
    hide CopyGuard.NearCopy, Text.Trim;
  }

  /** The cleaner clears a text only if it finds the line alive at every consultation. */
  lemma CleanerSpeaksAlive(draft: string, references: seq<string>, env: CleanerEnv)
    ensures var c := Clean(draft, references, env);
            var first := Text.Trim(env.passed.GetOr(draft));
            && (c != Silent ==> !env.expired(0) && !env.expired(1))
            && (c != Silent && first != "" && env.hasModel && CopyGuard.CopiesAny(first, references) ==> !env.expired(2))
            && (c.Pass? ==> !env.expired(3))
            && (c == Silent ==> exists i :: 0 <= i <= 3 && env.expired(i))
  {
    hide CopyGuard.NearCopy, Text.Trim;
  }

  // ---------- the approval gate ----------

  datatype Mode = Review | AutoApprove

  datatype Resolution = ResolvesTo(mode: Mode) | ResolverThrows

  datatype Port = Port(timeoutMs: int, pollMs: int)

  /** `resolution` is None without an account or a resolver; `cardSent` tells whether the approval request went out. */
  datatype GateEnv = GateEnv(
    expired: Expiry,
    resolution: Option<Resolution>,
    port: Option<Port>,
    requestId: string,
    cardSent: bool,
    now: int)

  /** One turn of the polling loop: the clock, and the answer to the query, None when it throws. */
  datatype Round = Round(at: int, expiredBefore: bool, answer: Option<bool>, expiredAfter: bool)

  function ApprovalMode(m: Option<Mandatory>, env: GateEnv): Mode {
    if env.resolution.Some? && env.resolution.value.ResolvesTo? then env.resolution.value.mode
    else if WantsComment(m) && m.value.autoApprove then AutoApprove
    else Review
  }

  /** Approval may be given without asking: the account's policy says so, or gives no answer and the demanding rule does. */
  predicate MayAutoApprove(m: Option<Mandatory>, env: GateEnv) {
    || env.resolution == Some(ResolvesTo(AutoApprove))
    || ((env.resolution.None? || env.resolution.value.ResolverThrows?) && m.Some? && m.value.wantsComment && m.value.autoApprove)
  }

  lemma ModeExactly(m: Option<Mandatory>, env: GateEnv)
    ensures ApprovalMode(m, env) == AutoApprove <==> MayAutoApprove(m, env)
  {
  }

  /** Where the polling stands: still going, or over. */
  datatype Poll = Waiting | Over(conclusion: Conclusion<()>)

  function PollRound(deadline: int, r: Round): Poll {
    if r.at > deadline then Over(SkipUnless(r.expiredBefore, "approval_timeout"))
    else if r.expiredBefore || r.expiredAfter then Over(Silent)
    else if r.answer == Some(true) then Over(Pass(()))
    else Waiting
  }

  function PollRounds(deadline: int, rounds: seq<Round>): Poll {
    if rounds == [] then Waiting
    else if PollRounds(deadline, rounds[..|rounds| - 1]).Over? then PollRounds(deadline, rounds[..|rounds| - 1])
    else PollRound(deadline, rounds[|rounds| - 1])
  }

  /** Each round comes at least a polling interval after the one before, the first no earlier than the request. */
  predicate Spaced(start: int, pollMs: int, rounds: seq<Round>) {
    && (rounds != [] ==> rounds[0].at >= start)
    && forall i :: 0 < i < |rounds| ==> rounds[i].at >= rounds[i - 1].at + pollMs
  }

  lemma {:induction false} RoundsTakeTime(start: int, pollMs: int, rounds: seq<Round>)
    requires Spaced(start, pollMs, rounds) && rounds != []
    ensures rounds[|rounds| - 1].at >= start + (|rounds| - 1) * pollMs
  {
    if |rounds| > 1 {
      RoundsTakeTime(start, pollMs, rounds[..|rounds| - 1]);
      assert (|rounds| - 1) * pollMs == (|rounds| - 2) * pollMs + pollMs;
    }
  }

  lemma {:induction false} WaitingRoundsAreInTime(deadline: int, rounds: seq<Round>)
    requires PollRounds(deadline, rounds) == Waiting && rounds != []
    ensures rounds[|rounds| - 1].at <= deadline
  {
  }

  /** When each sleep lets the clock advance by the interval, at most timeout/interval + 1 rounds leave the poll waiting. */
  lemma PollingIsBounded(start: int, port: Port, rounds: seq<Round>)
    requires port.pollMs > 0 && port.timeoutMs >= 0
    requires Spaced(start, port.pollMs, rounds) && PollRounds(start + port.timeoutMs, rounds) == Waiting
    ensures |rounds| <= port.timeoutMs / port.pollMs + 1
  {
    if rounds != [] {
      RoundsTakeTime(start, port.pollMs, rounds);
      WaitingRoundsAreInTime(start + port.timeoutMs, rounds);
      Quotient(|rounds| - 1, port.pollMs, port.timeoutMs);
    }
  }

  lemma Quotient(n: nat, d: int, t: int)
    requires d > 0 && n * d <= t
    ensures n <= t / d
  {
    assert t < (t / d + 1) * d;
    Smaller(n, t / d + 1, d);
  }

  lemma Smaller(a: int, b: int, d: int)
    requires d > 0 && a * d < b * d
    ensures a < b
  {
  }

  /** A round that leaves the poll waiting: in time, alive, and not answered yes. */
  predicate Undecided(deadline: int, r: Round) {
    r.at <= deadline && !r.expiredBefore && !r.expiredAfter && r.answer != Some(true)
  }

  /** The poll is decided by its first round that is late, expired or answered yes. */
  predicate FirstDecided(deadline: int, rounds: seq<Round>, k: nat) {
    k < |rounds| && !Undecided(deadline, rounds[k]) && forall i :: 0 <= i < k ==> Undecided(deadline, rounds[i])
  }

  /** The poll waits exactly while every round is in time, alive and without a yes. */
  lemma {:induction false} PollWaitsExactly(deadline: int, rounds: seq<Round>)
    ensures PollRounds(deadline, rounds) == Waiting <==> forall i :: 0 <= i < |rounds| ==> Undecided(deadline, rounds[i])
  {
    if rounds != [] {
      var init := rounds[..|rounds| - 1];
      PollWaitsExactly(deadline, init);
      assert forall i :: 0 <= i < |init| ==> init[i] == rounds[i];
    }
  }

  /**
   The first round that is late, expired or answered yes decides the poll: it approves exactly when that round is in time
   and alive, times out when it is late and alive, and is silent otherwise.
   */
  lemma {:induction false} PollDecidedExactly(deadline: int, rounds: seq<Round>, k: nat)
    requires FirstDecided(deadline, rounds, k)
    ensures PollRounds(deadline, rounds)
            == Over(if rounds[k].at > deadline then if rounds[k].expiredBefore then Silent else Skip("approval_timeout")
                    else if rounds[k].expiredBefore || rounds[k].expiredAfter then Silent
                    else Pass(()))
  {
    var n := |rounds| - 1;
    var init := rounds[..n];
    if k < n {
      PollDecidedExactly(deadline, init, k);
    } else {
      PollWaitsExactly(deadline, init);
    }
  }

  /** The poll approves exactly when some round in time and alive is answered yes, and all rounds before it are undecided. */
  lemma ApprovedByARound(deadline: int, rounds: seq<Round>)
    ensures PollRounds(deadline, rounds) == Over(Pass(()))
            <==> exists k: nat :: FirstDecided(deadline, rounds, k) && rounds[k].at <= deadline
                                  && !rounds[k].expiredBefore && !rounds[k].expiredAfter && rounds[k].answer == Some(true)
  {
    hide PollRounds;
    PollWaitsExactly(deadline, rounds);
    forall k: nat | FirstDecided(deadline, rounds, k)
      ensures PollRounds(deadline, rounds)
              == Over(if rounds[k].at > deadline then if rounds[k].expiredBefore then Silent else Skip("approval_timeout")
                      else if rounds[k].expiredBefore || rounds[k].expiredAfter then Silent
                      else Pass(()))
    {
      PollDecidedExactly(deadline, rounds, k);
    }
    if PollRounds(deadline, rounds) != Waiting {
      var i :| 0 <= i < |rounds| && !Undecided(deadline, rounds[i]);
      var k := FindDecided(deadline, rounds, i);
    }
  }

  lemma {:induction false} FindDecided(deadline: int, rounds: seq<Round>, i: nat) returns (k: nat)
    requires i < |rounds| && !Undecided(deadline, rounds[i])
    ensures FirstDecided(deadline, rounds, k)
  {
    k := i;
    if j :| 0 <= j < i && !Undecided(deadline, rounds[j]) {
      k := FindDecided(deadline, rounds, j);
    }
  }
}
